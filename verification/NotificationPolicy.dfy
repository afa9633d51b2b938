/**
 * Which task notifications are presented natively: session deltas arm deadlines,
 * a flush emits what is due, and a bounded window of event ids suppresses repeats.
 */
module NotificationPolicy {
  import opened Values

  datatype EventType = Review | Permission | Failure

  datatype Summary = Summary(taskId: string, facts: nat)

  datatype Column = Active | Stopped | Elsewhere

  datatype Indicator = Indicator(column: Column, event: Option<EventType>)

  /** The indicator of a session, its settling time and the identity of its event, which live elsewhere. */
  datatype Rules = Rules(
    derive: Summary -> Indicator, settle: Summary -> int, identity: (string, Summary, EventType) -> string)

  function Priority(e: EventType): int {
    match e case Review => 0 case Permission => 1 case Failure => 2
  }

  predicate Notifies(i: Indicator) {
    i.column.Stopped? && i.event.Some?
  }

  /** A task that starts to notify, or notifies of something more urgent. */
  predicate IsNew(previous: Indicator, current: Indicator) {
    Notifies(current)
    && (|| previous.column.Active?
        || previous.event.None?
        || Priority(current.event.value) > Priority(previous.event.value))
  }

  datatype Key = Key(project: string, task: string)

  /** A Map entry; the sequence keeps the insertion order. */
  datatype Pending = Pending(key: Key, eventType: EventType, dueAt: int)

  datatype Notification = Notification(eventId: string, key: Key, eventType: EventType)

  datatype Preferences = Preferences(
    enabled: bool, events: set<EventType>, onlyWhenHidden: bool, suppressCurrent: set<EventType>)

  datatype Focus = Focus(focused: bool, current: Option<string>)

  type Tasks = map<string, Summary>

  const MAX_SEEN_EVENTS: nat := 2048

  // ---------------------------------------------------------------- the pending map

  function Find(pending: seq<Pending>, key: Key): (r: Option<Pending>)
    ensures r.Some? ==> r.value in pending && r.value.key == key
    ensures r.None? ==> forall p | p in pending :: p.key != key
  {
    if pending == [] then None
    else if pending[|pending| - 1].key == key then Some(pending[|pending| - 1])
    else Find(pending[..|pending| - 1], key)
  }

  function Keep(pending: seq<Pending>, keep: Pending -> bool): (r: seq<Pending>)
    ensures forall p :: p in r <==> p in pending && keep(p)
  {
    if pending == [] then []
    else
      var rest, last := Keep(pending[..|pending| - 1], keep), pending[|pending| - 1];
      if keep(last) then rest + [last] else rest
  }

  function Delete(pending: seq<Pending>, key: Key): seq<Pending> {
    Keep(pending, (p: Pending) => p.key != key)
  }

  /** Changes the event of an entry in its place. */
  function Raise(pending: seq<Pending>, key: Key, eventType: EventType): (r: seq<Pending>)
    ensures |r| == |pending|
    ensures forall i | 0 <= i < |r| ::
              r[i] == if pending[i].key == key then pending[i].(eventType := eventType) else pending[i]
  {
    seq(|pending|, i requires 0 <= i < |pending| =>
      if pending[i].key == key then pending[i].(eventType := eventType) else pending[i])
  }

  // ---------------------------------------------------------------- deltas

  /** The sessions of one project and all pending entries. */
  datatype Sheet = Sheet(tasks: Tasks, pending: seq<Pending>)

  /** What a summary meets when it arrives. */
  datatype Arrival = Arrival(rules: Rules, owned: bool, project: string, at: int)

  /** One summary of a delta. */
  function Record(a: Arrival, s: Sheet, summary: Summary): Sheet {
    var key, state := Key(a.project, summary.taskId), a.rules.derive(summary);
    var tasks := s.tasks[summary.taskId := summary];
    if !a.owned || !Notifies(state) then Sheet(tasks, Delete(s.pending, key))
    else
      var armed := Find(s.pending, key);
      if armed.Some? then
        Sheet(tasks, if Priority(state.event.value) > Priority(armed.value.eventType)
                     then Raise(s.pending, key, state.event.value) else s.pending)
      else if summary.taskId in s.tasks && IsNew(a.rules.derive(s.tasks[summary.taskId]), state)
      then Sheet(tasks, s.pending + [Pending(key, state.event.value, a.at + a.rules.settle(summary))])
      else Sheet(tasks, s.pending)
  }

  function RecordAll(a: Arrival, s: Sheet, summaries: seq<Summary>): Sheet {
    if summaries == [] then s
    else Record(a, RecordAll(a, s, summaries[..|summaries| - 1]), summaries[|summaries| - 1])
  }

  function TaskIds(summaries: seq<Summary>): set<string> {
    set s | s in summaries :: s.taskId
  }

  /** The tasks that a delta takes away. */
  function Gone(tasks: Tasks, summaries: seq<Summary>, removed: seq<string>, replace: bool): set<string> {
    set t | t in tasks && (t in removed || (replace && t !in TaskIds(summaries)))
  }

  function Without(pending: seq<Pending>, project: string, tasks: set<string>): seq<Pending> {
    Keep(pending, (p: Pending) => !(p.key.project == project && p.key.task in tasks))
  }

  // ---------------------------------------------------------------- flushing

  /** One id that was recorded, and whether its event was presented then. */
  datatype Recording = Recording(id: string, shown: bool)

  /** The ids still remembered, and everything that was ever recorded. */
  datatype Window = Window(seen: seq<string>, recorded: seq<Recording>)

  /** What a flush looks at. */
  datatype Scene = Scene(rules: Rules, owned: bool, sessions: map<string, Tasks>, now: int, screen: Screen)

  datatype Screen = Screen(preferences: Option<Preferences>, focus: Focus)

  datatype Flushed = Flushed(kept: seq<Pending>, window: Window, events: seq<Notification>)

  predicate Suppressed(p: Pending, screen: Screen) {
    var preferences, focus := screen.preferences, screen.focus;
    || preferences.None? || !preferences.value.enabled
    || p.eventType !in preferences.value.events
    || (preferences.value.onlyWhenHidden && focus.focused)
    || (focus.focused && Some(p.key.project) == focus.current && p.eventType in preferences.value.suppressCurrent)
  }

  predicate Known(sessions: map<string, Tasks>, key: Key) {
    key.project in sessions && key.task in sessions[key.project]
  }

  /** The id to record for a due entry, if its task still shows that very event and the id is not in the window. */
  function Fresh(c: Scene, seen: seq<string>, p: Pending): Option<string> {
    if !Known(c.sessions, p.key) || !c.owned then None
    else
      var summary := c.sessions[p.key.project][p.key.task];
      var indicator := c.rules.derive(summary);
      if !indicator.column.Stopped? || indicator.event != Some(p.eventType) then None
      else
        var id := c.rules.identity(p.key.project, summary, p.eventType);
        if id in seen then None else Some(id)
  }

  /** The window forgets its oldest ids. */
  function Remember(w: Window, id: string, shown: bool): Window {
    var all := w.seen + [id];
    Window(if |all| > MAX_SEEN_EVENTS then all[|all| - MAX_SEEN_EVENTS..] else all, w.recorded + [Recording(id, shown)])
  }

  function FlushOne(c: Scene, f: Flushed, p: Pending): Flushed {
    if p.dueAt > c.now then f.(kept := f.kept + [p])
    else
      match Fresh(c, f.window.seen, p)
      case None => f
      case Some(id) =>
        var shown := !Suppressed(p, c.screen);
        Flushed(f.kept, Remember(f.window, id, shown),
                if shown then f.events + [Notification(id, p.key, p.eventType)] else f.events)
  }

  function FlushAll(c: Scene, w: Window, entries: seq<Pending>): Flushed {
    if entries == [] then Flushed([], w, [])
    else FlushOne(c, FlushAll(c, w, entries[..|entries| - 1]), entries[|entries| - 1])
  }

  // ---------------------------------------------------------------- whole runs

  datatype State = State(
    sessions: map<string, Tasks>, revisions: map<string, int>, pending: seq<Pending>, window: Window, owned: bool)

  datatype Delta = Delta(project: string, revision: int, summaries: seq<Summary>, removed: seq<string>, replace: bool)

  datatype Op =
    | SetOwned(owned: bool)
    | Seed(projects: seq<string>, summaries: map<string, seq<Summary>>, revisions: map<string, int>)
    | Prune(projects: seq<string>)
    | Apply(delta: Delta, at: int)
    | Flush(now: int, screen: Screen)

  const INITIAL: State := State(map[], map[], [], Window([], []), false)

  function ByTask(summaries: seq<Summary>): Tasks {
    if summaries == [] then map[]
    else ByTask(summaries[..|summaries| - 1])[summaries[|summaries| - 1].taskId := summaries[|summaries| - 1]]
  }

  function SummariesOf(summaries: map<string, seq<Summary>>, project: string): seq<Summary> {
    if project in summaries then summaries[project] else []
  }

  function RevisionOf(revisions: map<string, int>, project: string): int {
    if project in revisions then revisions[project] else 0
  }

  function OfProjects(pending: seq<Pending>, projects: seq<string>): seq<Pending> {
    Keep(pending, (p: Pending) => p.key.project in projects)
  }

  function SeededSessions(projects: seq<string>, summaries: map<string, seq<Summary>>): map<string, Tasks> {
    if projects == [] then map[]
    else
      var last := projects[|projects| - 1];
      SeededSessions(projects[..|projects| - 1], summaries)[last := ByTask(SummariesOf(summaries, last))]
  }

  function SeededRevisions(projects: seq<string>, revisions: map<string, int>): map<string, int> {
    if projects == [] then map[]
    else
      var last := projects[|projects| - 1];
      SeededRevisions(projects[..|projects| - 1], revisions)[last := RevisionOf(revisions, last)]
  }

  function ApplyDelta(rules: Rules, st: State, d: Delta, now: int): State {
    if d.revision < RevisionOf(st.revisions, d.project) then st
    else
      var tasks := if d.project in st.sessions then st.sessions[d.project] else map[];
      var gone := Gone(tasks, d.summaries, d.removed, d.replace);
      var kept := Sheet(tasks - gone, Without(st.pending, d.project, gone));
      var sheet := RecordAll(Arrival(rules, st.owned, d.project, now), kept, d.summaries);
      State(st.sessions[d.project := sheet.tasks], st.revisions[d.project := d.revision], sheet.pending,
            st.window, st.owned)
  }

  function SceneOf(rules: Rules, st: State, now: int, screen: Screen): Scene {
    Scene(rules, st.owned, st.sessions, now, screen)
  }

  function Flushing(rules: Rules, st: State, now: int, screen: Screen): Flushed {
    FlushAll(SceneOf(rules, st, now, screen), st.window, st.pending)
  }

  function Step(rules: Rules, st: State, op: Op): State {
    match op
    case SetOwned(owned) => st.(owned := owned, pending := if owned != st.owned then [] else st.pending)
    case Seed(projects, summaries, revisions) =>
      st.(sessions := SeededSessions(projects, summaries), revisions := SeededRevisions(projects, revisions),
          pending := [])
    case Prune(projects) =>
      var gone := set p | p in st.sessions && p !in projects;
      st.(sessions := st.sessions - gone, revisions := st.revisions - gone,
          pending := OfProjects(st.pending, projects))
    case Apply(delta, at) => ApplyDelta(rules, st, delta, at)
    case Flush(now, screen) =>
      var f := Flushing(rules, st, now, screen);
      st.(pending := f.kept, window := f.window)
  }

  function Run(rules: Rules, ops: seq<Op>): State {
    if ops == [] then INITIAL else Step(rules, Run(rules, ops[..|ops| - 1]), ops[|ops| - 1])
  }

  // ---------------------------------------------------------------- the object

  class Policy {
    const rules: Rules
    var sessions: map<string, Tasks>
    var revisions: map<string, int>
    var pending: seq<Pending>
    var seen: seq<string>
    var owned: bool
    ghost var recorded: seq<Recording>

    ghost function Now(): State
      reads this
    {
      State(sessions, revisions, pending, Window(seen, recorded), owned)
    }

    constructor (rules: Rules)
      ensures this.rules == rules && Now() == INITIAL
    {
      this.rules := rules;
      sessions, revisions, pending, seen, owned, recorded := map[], map[], [], [], false, [];
    }

    method Own(owned: bool)
      modifies this
      ensures Now() == Step(rules, old(Now()), SetOwned(owned))
    {
      if this.owned != owned { pending := []; }
      this.owned := owned;
    }

    method SeedAll(
      projects: seq<string>, summaries: map<string, seq<Summary>>, revisions: map<string, int>)
      modifies this
      ensures Now() == Step(rules, old(Now()), Seed(projects, summaries, revisions))
    {
      pending := [];
      sessions, this.revisions := map[], map[];
      for i := 0 to |projects|
        invariant pending == [] && seen == old(seen) && recorded == old(recorded) && owned == old(owned)
        invariant sessions == SeededSessions(projects[..i], summaries)
        invariant this.revisions == SeededRevisions(projects[..i], revisions)
      {
        var p := projects[i];
        sessions := sessions[p := ByTask(SummariesOf(summaries, p))];
        this.revisions := this.revisions[p := RevisionOf(revisions, p)];
        assert projects[..i + 1][..i] == projects[..i];
      }
      assert projects[..|projects|] == projects;
    }

    /** The known projects that are neither listed nor still to be looked at. */
    ghost function Dropped(known: set<string>, projects: seq<string>, rest: set<string>): set<string> {
      set p | p in known && p !in projects && p !in rest
    }

    method PruneProjects(projects: seq<string>)
      modifies this
      ensures Now() == Step(rules, old(Now()), Prune(projects))
    {
      var rest := sessions.Keys;
      while rest != {}
        invariant rest <= sessions.Keys
        invariant sessions == old(sessions) - Dropped(old(sessions.Keys), projects, rest)
        invariant revisions == old(revisions) - Dropped(old(sessions.Keys), projects, rest)
        invariant pending == old(pending) && seen == old(seen) && recorded == old(recorded) && owned == old(owned)
        decreases rest
      {
        var p :| p in rest;
        rest := rest - {p};
        if p !in projects {
          sessions, revisions := sessions - {p}, revisions - {p};
        }
      }
      assert Dropped(old(sessions.Keys), projects, {}) == set p | p in old(sessions) && p !in projects;
      pending := Keep(pending, (p: Pending) => p.key.project in projects);
    }

    /** One summary of a delta after the other. */
    method RecordSummaries(arrival: Arrival, start: Sheet, summaries: seq<Summary>) returns (sheet: Sheet)
      ensures sheet == RecordAll(arrival, start, summaries)
    {
      sheet := start;
      for i := 0 to |summaries|
        invariant sheet == RecordAll(arrival, start, summaries[..i])
      {
        sheet := Record(arrival, sheet, summaries[i]);
        assert summaries[..i + 1][..i] == summaries[..i];
      }
      assert summaries[..|summaries|] == summaries;
    }

    method ApplyOne(delta: Delta, at: int)
      modifies this
      ensures Now() == Step(rules, old(Now()), Apply(delta, at))
      ensures delta.revision < RevisionOf(old(revisions), delta.project) ==> Now() == old(Now())
    {
      if delta.revision < RevisionOf(revisions, delta.project) { return; }
      revisions := revisions[delta.project := delta.revision];
      var tasks: Tasks := if delta.project in sessions then sessions[delta.project] else map[];
      var gone := Gone(tasks, delta.summaries, delta.removed, delta.replace);
      var sheet := Sheet(tasks - gone, Without(pending, delta.project, gone));
      var arrival := Arrival(rules, owned, delta.project, at);
      sheet := RecordSummaries(arrival, sheet, delta.summaries);
      pending := sheet.pending;
      sessions := sessions[delta.project := sheet.tasks];
    }

    /** One entry that is due: recorded if its id is fresh, and presented if it is wanted. */
    method Present(p: Pending, now: int, screen: Screen, ghost f: Flushed) returns (event: Option<Notification>)
      requires p.dueAt <= now && f.window == Window(seen, recorded)
      modifies this`seen, this`recorded
      ensures FlushOne(SceneOf(rules, Now(), now, screen), f, p)
           == Flushed(f.kept, Window(seen, recorded), if event.Some? then f.events + [event.value] else f.events)
    {
      var id := Fresh(Scene(rules, owned, sessions, now, screen), seen, p);
      if id.None? { return None; }
      seen := seen + [id.value];
      if |seen| > MAX_SEEN_EVENTS { seen := seen[|seen| - MAX_SEEN_EVENTS..]; }
      recorded := recorded + [Recording(id.value, !Suppressed(p, screen))];
      return if Suppressed(p, screen) then None else Some(Notification(id.value, p.key, p.eventType));
    }

    method FlushDue(now: int, screen: Screen) returns (events: seq<Notification>)
      modifies this
      ensures Now() == Step(rules, old(Now()), Flush(now, screen))
      ensures events == Flushing(rules, old(Now()), now, screen).events
    {
      events := [];
      var kept: seq<Pending> := [];
      ghost var start, scene := Window(seen, recorded), SceneOf(rules, Now(), now, screen);
      for i := 0 to |pending|
        invariant pending == old(pending) && sessions == old(sessions) && revisions == old(revisions)
        invariant owned == old(owned)
        invariant Flushed(kept, Window(seen, recorded), events) == FlushAll(scene, start, pending[..i])
      {
        var p := pending[i];
        assert pending[..i + 1][..i] == pending[..i];
        if p.dueAt > now {
          kept := kept + [p];
        } else {
          var event := Present(p, now, screen, Flushed(kept, Window(seen, recorded), events));
          if event.Some? { events := events + [event.value]; }
        }
      }
      assert pending[..|pending|] == pending;
      pending := kept;
    }

    /** The earliest deadline; right after a flush none is due. */
    method NextDeadline() returns (earliest: Option<int>)
      ensures earliest.None? <==> pending == []
      ensures earliest.Some? ==> (exists p | p in pending :: p.dueAt == earliest.value)
                                 && forall p | p in pending :: earliest.value <= p.dueAt
    {
      earliest := None;
      for i := 0 to |pending|
        invariant earliest.None? <==> i == 0
        invariant earliest.Some? ==> (exists p | p in pending[..i] :: p.dueAt == earliest.value)
                                     && forall p | p in pending[..i] :: earliest.value <= p.dueAt
      {
        assert pending[..i + 1] == pending[..i] + [pending[i]];
        if earliest.None? || pending[i].dueAt < earliest.value { earliest := Some(pending[i].dueAt); }
      }
      assert pending[..|pending|] == pending;
    }
  }
}
