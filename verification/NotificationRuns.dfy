/**
 * What the notification policy promises over every run: what is armed, when an
 * armed notification is presented, when it is lost, and how far apart repeats are.
 */
module NotificationRuns {
  import opened Values
  import opened StableSort
  import opened NotificationPolicy

  ghost predicate OnePerKey(pending: seq<Pending>) {
    forall i, j | 0 <= i < j < |pending| :: pending[i].key != pending[j].key
  }

  function Shown(rules: Rules, sessions: map<string, Tasks>, key: Key): Indicator
    requires Known(sessions, key)
  {
    rules.derive(sessions[key.project][key.task])
  }

  /** An entry belongs to a session that notifies, and is at least as urgent as what that shows. */
  predicate Armed(rules: Rules, sessions: map<string, Tasks>, p: Pending) {
    && Known(sessions, p.key)
    && Notifies(Shown(rules, sessions, p.key))
    && Priority(p.eventType) >= Priority(Shown(rules, sessions, p.key).event.value)
  }

  ghost predicate PendingOk(rules: Rules, sessions: map<string, Tasks>, owned: bool, pending: seq<Pending>) {
    (!owned ==> pending == []) && (forall p | p in pending :: Armed(rules, sessions, p)) && OnePerKey(pending)
  }

  function Ids(recorded: seq<Recording>): (r: seq<string>)
    ensures |r| == |recorded| && forall i | 0 <= i < |r| :: r[i] == recorded[i].id
  {
    seq(|recorded|, i requires 0 <= i < |recorded| => recorded[i].id)
  }

  /** Any `MAX_SEEN_EVENTS` + 1 ids recorded in a row are distinct. */
  ghost predicate Spaced(ids: seq<string>) {
    forall i, j | 0 <= i < j < |ids| && j - i <= MAX_SEEN_EVENTS :: ids[i] != ids[j]
  }

  /** The remembered ids are the last ones recorded. */
  ghost predicate Remembers(seen: seq<string>, ids: seq<string>) {
    && |seen| == (if |ids| > MAX_SEEN_EVENTS then MAX_SEEN_EVENTS else |ids|)
    && seen == ids[|ids| - |seen|..]
    && Spaced(ids)
  }

  ghost predicate WindowOk(w: Window) {
    Remembers(w.seen, Ids(w.recorded))
  }

  ghost predicate Inv(rules: Rules, st: State) {
    PendingOk(rules, st.sessions, st.owned, st.pending) && WindowOk(st.window)
  }

  // ---------------------------------------------------------------- the pending map

  lemma {:induction false} KeepKeepsOnePerKey(pending: seq<Pending>, keep: Pending -> bool)
    requires OnePerKey(pending)
    ensures OnePerKey(Keep(pending, keep))
  {
    if pending != [] {
      var before, last := pending[..|pending| - 1], pending[|pending| - 1];
      KeepKeepsOnePerKey(before, keep);
      forall p | p in Keep(before, keep)
        ensures p.key != last.key
      {
        assert p in before;
      }
    }
  }

  lemma FindUnique(pending: seq<Pending>, key: Key, p: Pending)
    requires OnePerKey(pending) && p in pending && p.key == key
    ensures Find(pending, key) == Some(p)
  {
  }

  /** Dropping entries by their key changes what is found under the dropped keys only. */
  lemma FindKept(pending: seq<Pending>, keep: Pending -> bool, key: Key)
    requires OnePerKey(pending)
    requires forall p | p in pending && p.key == key :: keep(p)
    ensures Find(Keep(pending, keep), key) == Find(pending, key)
  {
    KeepKeepsOnePerKey(pending, keep);
    var p := Find(pending, key);
    if p.Some? {
      FindUnique(Keep(pending, keep), key, p.value);
    }
  }

  lemma FindRaised(pending: seq<Pending>, key: Key, eventType: EventType, k: Key)
    requires OnePerKey(pending) && Find(pending, key).Some?
    ensures Find(Raise(pending, key, eventType), k)
            == if k == key then Some(Find(pending, key).value.(eventType := eventType)) else Find(pending, k)
  {
    var raised := Raise(pending, key, eventType);
    assert OnePerKey(raised);
    var p := Find(pending, k);
    if p.Some? {
      var i :| 0 <= i < |pending| && pending[i] == p.value;
      assert raised[i] in raised;
      FindUnique(raised, k, raised[i]);
    } else {
      forall q | q in raised
        ensures q.key != k
      {
        var i :| 0 <= i < |raised| && raised[i] == q;
        assert pending[i] in pending;
      }
    }
  }

  lemma FindAppended(pending: seq<Pending>, p: Pending, k: Key)
    ensures Find(pending + [p], k) == if k == p.key then Some(p) else Find(pending, k)
  {
    assert (pending + [p])[..|pending|] == pending;
  }

  /**
   * What a summary does to the pending entries: it disarms its task, raises what is armed
   * there, arms its task if that newly notifies, or leaves it; no other key is touched.
   */
  lemma RecordArms(a: Arrival, s: Sheet, summary: Summary, k: Key)
    requires OnePerKey(s.pending)
    ensures var key, before := Key(a.project, summary.taskId), Find(s.pending, k);
            var after, state := Find(Record(a, s, summary).pending, k), a.rules.derive(summary);
            && (k != key ==> after == before)
            && (k == key && !(a.owned && Notifies(state)) ==> after.None?)
            && (k == key && a.owned && Notifies(state) && before.Some? ==>
                  && after.Some? && after.value.key == k && after.value.dueAt == before.value.dueAt
                  && Priority(after.value.eventType)
                     == Max(Priority(before.value.eventType), Priority(state.event.value)))
            && (k == key && a.owned && Notifies(state) && before.None? ==>
                  if summary.taskId in s.tasks && IsNew(a.rules.derive(s.tasks[summary.taskId]), state)
                  then after == Some(Pending(k, state.event.value, a.at + a.rules.settle(summary)))
                  else after.None?)
  {
    var key, state := Key(a.project, summary.taskId), a.rules.derive(summary);
    var armed := Find(s.pending, key);
    if !a.owned || !Notifies(state) {
      if k != key { FindKept(s.pending, (p: Pending) => p.key != key, k); }
    } else if armed.Some? {
      if Priority(state.event.value) > Priority(armed.value.eventType) {
        FindRaised(s.pending, key, state.event.value, k);
      }
    } else if summary.taskId in s.tasks && IsNew(a.rules.derive(s.tasks[summary.taskId]), state) {
      FindAppended(s.pending, Pending(key, state.event.value, a.at + a.rules.settle(summary)), k);
    }
  }

  /** A failure is more urgent than anything else, and a permission than a review. */
  predicate MoreUrgent(e: EventType, than: EventType) {
    (e.Failure? && !than.Failure?) || (e.Permission? && than.Review?)
  }

  /**
   * What a summary arms where nothing was pending, by the event it shows and the one its task showed
   * before; and which event it leaves where something was.
   */
  lemma ArmsWhat(a: Arrival, s: Sheet, summary: Summary)
    requires OnePerKey(s.pending)
    ensures var k, state := Key(a.project, summary.taskId), a.rules.derive(summary);
            var before, after := Find(s.pending, k), Find(Record(a, s, summary).pending, k);
            && (before.None? ==>
                  (after.Some? <==>
                     && a.owned && state.column.Stopped? && state.event.Some? && summary.taskId in s.tasks
                     && var previous := a.rules.derive(s.tasks[summary.taskId]);
                        || previous.column.Active? || previous.event.None?
                        || MoreUrgent(state.event.value, previous.event.value)))
            && (before.Some? && after.Some? ==>
                  && state.event.Some?
                  && after.value.eventType == if MoreUrgent(state.event.value, before.value.eventType)
                                              then state.event.value else before.value.eventType)
  {
    RecordArms(a, s, summary, Key(a.project, summary.taskId));
  }

  // ---------------------------------------------------------------- invariants

  lemma RecordKeepsOnePerKey(a: Arrival, s: Sheet, summary: Summary)
    requires OnePerKey(s.pending)
    ensures OnePerKey(Record(a, s, summary).pending)
  {
    KeepKeepsOnePerKey(s.pending, (p: Pending) => p.key != Key(a.project, summary.taskId));
  }

  lemma RecordKeepsPending(a: Arrival, sessions: map<string, Tasks>, s: Sheet, summary: Summary)
    requires PendingOk(a.rules, sessions[a.project := s.tasks], a.owned, s.pending)
    ensures var s' := Record(a, s, summary);
            PendingOk(a.rules, sessions[a.project := s'.tasks], a.owned, s'.pending)
  {
    var s' := Record(a, s, summary);
    RecordKeepsOnePerKey(a, s, summary);
    forall p | p in s'.pending
      ensures Armed(a.rules, sessions[a.project := s'.tasks], p)
    {
      RecordArms(a, s, summary, p.key);
      FindUnique(s'.pending, p.key, p);
      if p.key != Key(a.project, summary.taskId) {
        assert Armed(a.rules, sessions[a.project := s.tasks], p);
      }
    }
  }

  lemma {:induction false} RecordAllKeepsPending(
    a: Arrival, sessions: map<string, Tasks>, s: Sheet, summaries: seq<Summary>)
    requires PendingOk(a.rules, sessions[a.project := s.tasks], a.owned, s.pending)
    ensures var s' := RecordAll(a, s, summaries);
            PendingOk(a.rules, sessions[a.project := s'.tasks], a.owned, s'.pending)
    decreases |summaries|
  {
    if summaries != [] {
      var before := summaries[..|summaries| - 1];
      RecordAllKeepsPending(a, sessions, s, before);
      RecordKeepsPending(a, sessions, RecordAll(a, s, before), summaries[|summaries| - 1]);
    }
  }

  lemma DropKeepsPending(rules: Rules, sessions: map<string, Tasks>, owned: bool, pending: seq<Pending>,
                         sessions': map<string, Tasks>, keep: Pending -> bool)
    requires PendingOk(rules, sessions, owned, pending)
    requires forall p | p in pending && keep(p) ::
               Known(sessions', p.key) && sessions'[p.key.project][p.key.task] == sessions[p.key.project][p.key.task]
    ensures PendingOk(rules, sessions', owned, Keep(pending, keep))
  {
    KeepKeepsOnePerKey(pending, keep);
    forall p | p in Keep(pending, keep)
      ensures Armed(rules, sessions', p)
    {
      assert Armed(rules, sessions, p);
    }
  }

  lemma GoneKeepsPending(rules: Rules, st: State, project: string, tasks: Tasks, gone: set<string>)
    requires PendingOk(rules, st.sessions, st.owned, st.pending)
    requires tasks == if project in st.sessions then st.sessions[project] else map[]
    ensures PendingOk(rules, st.sessions[project := tasks - gone], st.owned, Without(st.pending, project, gone))
  {
    assert forall p | p in st.pending :: Known(st.sessions, p.key);
    DropKeepsPending(rules, st.sessions, st.owned, st.pending, st.sessions[project := tasks - gone],
                     (p: Pending) => !(p.key.project == project && p.key.task in gone));
  }

  lemma DeltaKeepsPending(rules: Rules, st: State, d: Delta, now: int)
    requires PendingOk(rules, st.sessions, st.owned, st.pending)
    ensures var st' := ApplyDelta(rules, st, d, now); PendingOk(rules, st'.sessions, st'.owned, st'.pending)
  {
    if d.revision >= RevisionOf(st.revisions, d.project) {
      var tasks := if d.project in st.sessions then st.sessions[d.project] else map[];
      var gone := Gone(tasks, d.summaries, d.removed, d.replace);
      var sheet := Sheet(tasks - gone, Without(st.pending, d.project, gone));
      GoneKeepsPending(rules, st, d.project, tasks, gone);
      RecordAllKeepsPending(Arrival(rules, st.owned, d.project, now), st.sessions, sheet, d.summaries);
    }
  }

  lemma SpacedOneMore(seen: seq<string>, ids: seq<string>, id: string)
    requires Remembers(seen, ids) && id !in seen
    ensures Spaced(ids + [id])
  {
    var all := ids + [id];
    forall i, j | 0 <= i < j < |all| && j - i <= MAX_SEEN_EVENTS
      ensures all[i] != all[j]
    {
      if j == |ids| {
        assert ids[i] == seen[i - (|ids| - |seen|)];
      } else {
        assert all[i] == ids[i] && all[j] == ids[j];
      }
    }
  }

  lemma LastOnes(seen: seq<string>, ids: seq<string>, id: string)
    requires |seen| <= |ids| && seen == ids[|ids| - |seen|..]
    ensures seen + [id] == (ids + [id])[|ids| - |seen|..]
  {
  }

  lemma RememberOne(seen: seq<string>, ids: seq<string>, id: string, seen': seq<string>)
    requires Remembers(seen, ids) && id !in seen
    requires seen' == if |seen| + 1 > MAX_SEEN_EVENTS then (seen + [id])[|seen| + 1 - MAX_SEEN_EVENTS..]
                      else seen + [id]
    ensures Remembers(seen', ids + [id])
  {
    SpacedOneMore(seen, ids, id);
    LastOnes(seen, ids, id);
  }

  /** A new id extends the window without a repeat inside it. */
  lemma RememberKeepsWindow(w: Window, id: string, shown: bool)
    requires WindowOk(w) && id !in w.seen
    ensures WindowOk(Remember(w, id, shown))
  {
    RememberOne(w.seen, Ids(w.recorded), id, Remember(w, id, shown).seen);
    assert Ids(w.recorded + [Recording(id, shown)]) == Ids(w.recorded) + [id];
  }

  lemma {:induction false} FlushKeepsWindow(c: Scene, w: Window, entries: seq<Pending>)
    requires WindowOk(w)
    ensures WindowOk(FlushAll(c, w, entries).window)
    decreases |entries|
  {
    if entries != [] {
      var before, last := entries[..|entries| - 1], entries[|entries| - 1];
      FlushKeepsWindow(c, w, before);
      var f := FlushAll(c, w, before);
      var id := Fresh(c, f.window.seen, last);
      if last.dueAt <= c.now && id.Some? {
        RememberKeepsWindow(f.window, id.value, !Suppressed(last, c.screen));
      }
    }
  }

  /** A flush keeps exactly the entries that are not due, in order. */
  lemma {:induction false} FlushKeepsTheRest(c: Scene, w: Window, entries: seq<Pending>)
    ensures FlushAll(c, w, entries).kept == Keep(entries, (p: Pending) => p.dueAt > c.now)
    decreases |entries|
  {
    if entries != [] {
      FlushKeepsTheRest(c, w, entries[..|entries| - 1]);
    }
  }

  lemma StepKeepsInv(rules: Rules, st: State, op: Op)
    requires Inv(rules, st)
    ensures Inv(rules, Step(rules, st, op))
  {
    match op
    case Apply(delta, at) => DeltaKeepsPending(rules, st, delta, at);
    case Prune(projects) =>
      assert forall p | p in st.pending :: Known(st.sessions, p.key);
      DropKeepsPending(rules, st.sessions, st.owned, st.pending, Step(rules, st, op).sessions,
                       (p: Pending) => p.key.project in projects);
    case Flush(now, screen) =>
      FlushKeepsWindow(SceneOf(rules, st, now, screen), st.window, st.pending);
      FlushKeepsTheRest(SceneOf(rules, st, now, screen), st.window, st.pending);
      assert forall p | p in st.pending :: Known(st.sessions, p.key);
      DropKeepsPending(rules, st.sessions, st.owned, st.pending, st.sessions, (p: Pending) => p.dueAt > now);
    case _ =>
  }

  lemma {:induction false} RunKeepsInv(rules: Rules, ops: seq<Op>)
    ensures Inv(rules, Run(rules, ops))
  {
    if ops != [] {
      RunKeepsInv(rules, ops[..|ops| - 1]);
      StepKeepsInv(rules, Run(rules, ops[..|ops| - 1]), ops[|ops| - 1]);
    }
  }

  /**
   * Without ownership nothing is pending; with it every pending key names a session that
   * notifies, once, and the entry is at least as urgent as what that session shows.
   */
  lemma PendingIsArmed(rules: Rules, ops: seq<Op>)
    ensures var st := Run(rules, ops);
            && (!st.owned ==> st.pending == [])
            && (forall p | p in st.pending :: Armed(rules, st.sessions, p))
            && OnePerKey(st.pending)
  {
    RunKeepsInv(rules, ops);
  }

  // ---------------------------------------------------------------- what is presented

  /** A due entry that is wanted, still what its task shows, and whose id is not in the window. */
  predicate Presents(c: Scene, seen: seq<string>, p: Pending) {
    && p.dueAt <= c.now && c.owned && Known(c.sessions, p.key)
    && Shown(c.rules, c.sessions, p.key) == Indicator(Stopped, Some(p.eventType))
    && c.rules.identity(p.key.project, c.sessions[p.key.project][p.key.task], p.eventType) !in seen
    && !Suppressed(p, c.screen)
  }

  ghost predicate HasEvent(f: Flushed, key: Key) {
    exists e | e in f.events :: e.key == key
  }

  lemma {:induction false} EventKeys(c: Scene, w: Window, entries: seq<Pending>)
    ensures forall e | e in FlushAll(c, w, entries).events :: exists p | p in entries :: p.key == e.key
    decreases |entries|
  {
    if entries != [] {
      var before, last := entries[..|entries| - 1], entries[|entries| - 1];
      EventKeys(c, w, before);
      forall e | e in FlushAll(c, w, entries).events
        ensures exists p | p in entries :: p.key == e.key
      {
        if e in FlushAll(c, w, before).events {
          var p :| p in before && p.key == e.key;
          assert p in entries;
        } else {
          assert last in entries;
        }
      }
    }
  }

  /** The last entry of a flush gets its event exactly if it presents, and no other entry's changes. */
  lemma LastPresents(c: Scene, f: Flushed, p: Pending, key: Key)
    ensures key != p.key ==> (HasEvent(FlushOne(c, f, p), key) <==> HasEvent(f, key))
    ensures key == p.key && !HasEvent(f, key) ==> (HasEvent(FlushOne(c, f, p), key) <==> Presents(c, f.window.seen, p))
  {
    var f' := FlushOne(c, f, p);
    if f'.events != f.events {
      var e := f'.events[|f.events|];
      assert f'.events == f.events + [e] && e.key == p.key;
      assert e in f'.events;
    }
  }

  lemma {:induction false} PresentedAt(c: Scene, w: Window, entries: seq<Pending>, i: nat)
    requires OnePerKey(entries) && i < |entries|
    ensures HasEvent(FlushAll(c, w, entries), entries[i].key)
            <==> Presents(c, FlushAll(c, w, entries[..i]).window.seen, entries[i])
    decreases |entries|
  {
    var n := |entries| - 1;
    var before := entries[..n];
    LastPresents(c, FlushAll(c, w, before), entries[n], entries[i].key);
    if i < n {
      PresentedAt(c, w, before, i);
      assert before[..i] == entries[..i];
    } else {
      EventKeys(c, w, before);
      assert forall p | p in before :: p.key != entries[n].key;
    }
  }

  /** The armed notification is more urgent than what its task shows by now. */
  predicate Lowered(rules: Rules, st: State, p: Pending)
    requires Armed(rules, st.sessions, p)
  {
    Priority(p.eventType) > Priority(Shown(rules, st.sessions, p.key).event.value)
  }

  /** The ids that the window holds when a flush comes to its entry `i`. */
  function WindowAt(rules: Rules, st: State, now: int, screen: Screen, i: nat): seq<string>
    requires i <= |st.pending|
  {
    FlushAll(SceneOf(rules, st, now, screen), st.window, st.pending[..i]).window.seen
  }

  function IdOf(rules: Rules, st: State, p: Pending): string
    requires Known(st.sessions, p.key)
  {
    rules.identity(p.key.project, st.sessions[p.key.project][p.key.task], p.eventType)
  }

  /** In every run a due entry is presented exactly if its task shows it, its id is new in its turn and it is wanted. */
  lemma PresentedIff(rules: Rules, ops: seq<Op>, now: int, screen: Screen, i: nat)
    requires i < |Run(rules, ops).pending|
    ensures var st := Run(rules, ops);
            var p, f := st.pending[i], Flushing(rules, st, now, screen);
            && Known(st.sessions, p.key)
            && (HasEvent(f, p.key) <==>
                  && p.dueAt <= now && st.owned
                  && Shown(rules, st.sessions, p.key) == Indicator(Stopped, Some(p.eventType))
                  && IdOf(rules, st, p) !in WindowAt(rules, st, now, screen, i)
                  && screen.preferences.Some? && screen.preferences.value.enabled
                  && p.eventType in screen.preferences.value.events
                  && !(screen.preferences.value.onlyWhenHidden && screen.focus.focused)
                  && !(screen.focus.focused && screen.focus.current == Some(p.key.project)
                       && p.eventType in screen.preferences.value.suppressCurrent))
  {
    var st := Run(rules, ops);
    RunKeepsInv(rules, ops);
    assert Armed(rules, st.sessions, st.pending[i]);
    PresentedAt(SceneOf(rules, st, now, screen), st.window, st.pending, i);
  }

  /** An armed entry is what its task shows exactly if it was not lowered. */
  lemma ShownUnlessLowered(rules: Rules, st: State, p: Pending)
    requires Armed(rules, st.sessions, p)
    ensures Shown(rules, st.sessions, p.key) == Indicator(Stopped, Some(p.eventType)) <==> !Lowered(rules, st, p)
  {
  }

  lemma DueIsNotKept(c: Scene, w: Window, entries: seq<Pending>, p: Pending)
    requires p.dueAt <= c.now
    ensures p !in FlushAll(c, w, entries).kept
  {
    FlushKeepsTheRest(c, w, entries);
  }

  /**
   * And of its task's doing only one thing stands in the way: a due, wanted and new
   * notification is lost exactly if it was lowered since it was raised.
   */
  lemma LostIffLowered(rules: Rules, ops: seq<Op>, now: int, screen: Screen, i: nat)
    requires i < |Run(rules, ops).pending|
    requires var st := Run(rules, ops);
             Known(st.sessions, st.pending[i].key)
             && st.pending[i].dueAt <= now && !Suppressed(st.pending[i], screen)
             && IdOf(rules, st, st.pending[i]) !in WindowAt(rules, st, now, screen, i)
    ensures var st := Run(rules, ops);
            var p, f := st.pending[i], Flushing(rules, st, now, screen);
            && Armed(rules, st.sessions, p) && p !in f.kept
            && (!HasEvent(f, p.key) <==> Lowered(rules, st, p))
  {
    var st := Run(rules, ops);
    RunKeepsInv(rules, ops);
    assert Armed(rules, st.sessions, st.pending[i]);
    PresentedIff(rules, ops, now, screen, i);
    ShownUnlessLowered(rules, st, st.pending[i]);
    DueIsNotKept(SceneOf(rules, st, now, screen), st.window, st.pending, st.pending[i]);
  }

  /** Every event shows its task's event, under its id. */
  lemma {:induction false} EventsAreHonest(c: Scene, w: Window, entries: seq<Pending>)
    ensures forall e | e in FlushAll(c, w, entries).events ::
              && Known(c.sessions, e.key)
              && Shown(c.rules, c.sessions, e.key) == Indicator(Stopped, Some(e.eventType))
              && e.eventId == c.rules.identity(e.key.project, c.sessions[e.key.project][e.key.task], e.eventType)
    decreases |entries|
  {
    if entries != [] {
      EventsAreHonest(c, w, entries[..|entries| - 1]);
    }
  }

  // ---------------------------------------------------------------- repeats

  function EventIds(events: seq<Notification>): (r: seq<string>)
    ensures |r| == |events| && forall i | 0 <= i < |r| :: r[i] == events[i].eventId
  {
    seq(|events|, i requires 0 <= i < |events| => events[i].eventId)
  }

  /** The recordings that were presented, in order. */
  function ShownIds(recorded: seq<Recording>): seq<string> {
    if recorded == [] then []
    else
      var rest, last := ShownIds(recorded[..|recorded| - 1]), recorded[|recorded| - 1];
      if last.shown then rest + [last.id] else rest
  }

  lemma ShownAppends(recorded: seq<Recording>, r: Recording)
    ensures ShownIds(recorded + [r]) == ShownIds(recorded) + if r.shown then [r.id] else []
  {
    assert (recorded + [r])[..|recorded|] == recorded;
  }

  /** What a flush emits is what it records as presented, in the same order. */
  lemma {:induction false} FlushShows(c: Scene, w: Window, entries: seq<Pending>)
    ensures var f := FlushAll(c, w, entries);
            ShownIds(f.window.recorded) == ShownIds(w.recorded) + EventIds(f.events)
    decreases |entries|
  {
    if entries == [] {
      assert EventIds([]) == [];
    } else {
      var last := entries[|entries| - 1];
      FlushShows(c, w, entries[..|entries| - 1]);
      var f := FlushAll(c, w, entries[..|entries| - 1]);
      FlushOneShows(c, w, f, last);
    }
  }

  lemma EventIdsAppend(events: seq<Notification>, e: Notification)
    ensures EventIds(events + [e]) == EventIds(events) + [e.eventId]
  {
  }

  lemma FlushOneShows(c: Scene, w: Window, f: Flushed, p: Pending)
    requires ShownIds(f.window.recorded) == ShownIds(w.recorded) + EventIds(f.events)
    ensures var f' := FlushOne(c, f, p);
            ShownIds(f'.window.recorded) == ShownIds(w.recorded) + EventIds(f'.events)
  {
    var id := Fresh(c, f.window.seen, p);
    if p.dueAt <= c.now && id.Some? {
      var shown := !Suppressed(p, c.screen);
      ShownAppends(f.window.recorded, Recording(id.value, shown));
      if shown {
        EventIdsAppend(f.events, Notification(id.value, p.key, p.eventType));
        var before, ids := ShownIds(w.recorded), EventIds(f.events);
        assert before + ids + [id.value] == before + (ids + [id.value]);
      }
    }
  }

  /** All ids ever emitted, in order. */
  function Emitted(rules: Rules, ops: seq<Op>): seq<string> {
    if ops == [] then []
    else
      var before, last := ops[..|ops| - 1], ops[|ops| - 1];
      Emitted(rules, before)
      + if last.Flush? then EventIds(Flushing(rules, Run(rules, before), last.now, last.screen).events) else []
  }

  /** The emissions of a run are its recordings that were presented. */
  lemma {:induction false} EmissionsAreRecordings(rules: Rules, ops: seq<Op>)
    ensures Emitted(rules, ops) == ShownIds(Run(rules, ops).window.recorded)
  {
    if ops != [] {
      var before, last := ops[..|ops| - 1], ops[|ops| - 1];
      EmissionsAreRecordings(rules, before);
      var st := Run(rules, before);
      if last.Flush? {
        FlushShows(SceneOf(rules, st, last.now, last.screen), st.window, st.pending);
      }
    }
  }

  lemma {:induction false} ShownAt(recorded: seq<Recording>, a: nat) returns (i: nat)
    requires a < |ShownIds(recorded)|
    ensures i < |recorded| && recorded[i] == Recording(ShownIds(recorded)[a], true)
    ensures |ShownIds(recorded[..i])| == a
  {
    var n := |recorded| - 1;
    if recorded[n].shown && a == |ShownIds(recorded)| - 1 {
      i := n;
    } else {
      i := ShownAt(recorded[..n], a);
      assert recorded[..n][..i] == recorded[..i];
    }
  }

  lemma {:induction false} ShownInOrder(recorded: seq<Recording>, a: nat, b: nat) returns (i: nat, j: nat)
    requires a < b < |ShownIds(recorded)|
    ensures i < j < |recorded|
    ensures recorded[i] == Recording(ShownIds(recorded)[a], true) && |ShownIds(recorded[..i])| == a
    ensures recorded[j] == Recording(ShownIds(recorded)[b], true) && |ShownIds(recorded[..j])| == b
  {
    var n := |recorded| - 1;
    if recorded[n].shown && b == |ShownIds(recorded)| - 1 {
      j := n;
      i := ShownAt(recorded[..n], a);
      assert recorded[..n][..i] == recorded[..i];
    } else {
      i, j := ShownInOrder(recorded[..n], a, b);
      assert recorded[..n][..i] == recorded[..i] && recorded[..n][..j] == recorded[..j];
    }
  }

  lemma SpacedApart(ids: seq<string>, i: nat, j: nat)
    requires Spaced(ids) && i < j < |ids| && ids[i] == ids[j]
    ensures j - i - 1 >= MAX_SEEN_EVENTS && NoDuplicates(ids[i..i + 1 + MAX_SEEN_EVENTS])
  {
  }

  /**
   * Between two emissions of one id, the `a`-th and the `b`-th of the run, lie at least
   * `MAX_SEEN_EVENTS` recordings of other ids, all distinct.
   */
  lemma EmissionsAreFarApart(rules: Rules, ops: seq<Op>, a: nat, b: nat) returns (i: nat, j: nat)
    requires a < b < |Emitted(rules, ops)| && Emitted(rules, ops)[a] == Emitted(rules, ops)[b]
    ensures var all := Run(rules, ops).window.recorded;
            && i < j < |all| && j - i - 1 >= MAX_SEEN_EVENTS
            && |ShownIds(all[..i])| == a && |ShownIds(all[..j])| == b
            && all[i] == all[j] == Recording(Emitted(rules, ops)[a], true)
            && NoDuplicates(Ids(all)[i..i + 1 + MAX_SEEN_EVENTS])
  {
    RunKeepsInv(rules, ops);
    EmissionsAreRecordings(rules, ops);
    var all := Run(rules, ops).window.recorded;
    i, j := ShownInOrder(all, a, b);
    SpacedApart(Ids(all), i, j);
  }

  // ---------------------------------------------------------------- a run that loses a notification

  lemma {:induction false} KeepAll(pending: seq<Pending>, keep: Pending -> bool)
    requires forall p | p in pending :: keep(p)
    ensures Keep(pending, keep) == pending
  {
    if pending != [] {
      assert pending == pending[..|pending| - 1] + [pending[|pending| - 1]];
      KeepAll(pending[..|pending| - 1], keep);
    }
  }

  function Only(project: string, summary: Summary): Delta {
    Delta(project, 0, [summary], [], false)
  }

  lemma OneSummary(rules: Rules, st: State, project: string, summary: Summary, at: int)
    requires project in st.sessions && RevisionOf(st.revisions, project) == 0
    ensures var s := Record(Arrival(rules, st.owned, project, at), Sheet(st.sessions[project], st.pending), summary);
            ApplyDelta(rules, st, Only(project, summary), at)
            == State(st.sessions[project := s.tasks], st.revisions[project := 0], s.pending, st.window, st.owned)
  {
    var delta := Only(project, summary);
    var gone := Gone(st.sessions[project], delta.summaries, delta.removed, delta.replace);
    assert gone == {};
    KeepAll(st.pending, (p: Pending) => !(p.key.project == project && p.key.task in gone));
    var a, sheet := Arrival(rules, st.owned, project, at), Sheet(st.sessions[project] - gone, st.pending);
    assert sheet.tasks == st.sessions[project];
    assert delta.summaries[..0] == [] && RecordAll(a, sheet, delta.summaries[..0]) == sheet;
  }

  /** A task that is active, then asks for something, then for something less urgent. */
  function Lowering(project: string, active: Summary, raised: Summary, lowered: Summary, at: int): seq<Op> {
    [SetOwned(true), Seed([project], map[project := [active]], map[]), Apply(Only(project, raised), at),
     Apply(Only(project, lowered), at)]
  }

  lemma Replaced(project: string, task: string, old_: Summary, new_: Summary)
    ensures var sessions: map<string, Tasks> := map[project := map[task := old_]];
            sessions[project := sessions[project][task := new_]] == map[project := map[task := new_]]
  {
    assert map[task := old_][task := new_] == map[task := new_];
  }

  /** Such a run leaves the first request armed, and lowered: no flush ever presents it. */
  lemma LoweringHappens(
    rules: Rules, project: string, active: Summary, raised: Summary, lowered: Summary, at: int, now: int,
    screen: Screen)
    requires active.taskId == raised.taskId == lowered.taskId
    requires rules.derive(active).column.Active? && Notifies(rules.derive(raised)) && Notifies(rules.derive(lowered))
    requires Priority(rules.derive(raised).event.value) > Priority(rules.derive(lowered).event.value)
    ensures var st := Run(rules, Lowering(project, active, raised, lowered, at));
            && st.pending
               == [Pending(Key(project, active.taskId), rules.derive(raised).event.value, at + rules.settle(raised))]
            && Armed(rules, st.sessions, st.pending[0]) && Lowered(rules, st, st.pending[0])
            && Flushing(rules, st, now, screen).events == []
  {
    var ops, t, key := Lowering(project, active, raised, lowered, at), active.taskId, Key(project, active.taskId);
    var none := State(map[project := map[t := active]], map[project := 0], [], Window([], []), true);
    SeededRun(rules, project, active, ops);
    var entry := Pending(key, rules.derive(raised).event.value, at + rules.settle(raised));
    var asked := none.(sessions := map[project := map[t := raised]], pending := [entry]);
    OneSummary(rules, none, project, raised, at);
    Replaced(project, t, active, raised);
    assert Run(rules, ops[..3]) == asked by { assert ops[..3][..2] == ops[..2]; }
    var st := asked.(sessions := map[project := map[t := lowered]]);
    OneSummary(rules, asked, project, lowered, at);
    Replaced(project, t, raised, lowered);
    assert Run(rules, ops) == st by { assert ops[..|ops| - 1] == ops[..3]; }
    RunKeepsInv(rules, ops);
    assert Armed(rules, st.sessions, st.pending[0]);
    PresentedIff(rules, ops, now, screen, 0);
    EventKeys(SceneOf(rules, st, now, screen), st.window, st.pending);
    NoOtherEvent(Flushing(rules, st, now, screen), key);
  }

  lemma NoOtherEvent(f: Flushed, key: Key)
    requires forall e | e in f.events :: e.key == key
    ensures f.events == [] || HasEvent(f, key)
  {
    if f.events != [] {
      assert f.events[0] in f.events;
    }
  }

  lemma SeededRun(rules: Rules, project: string, active: Summary, ops: seq<Op>)
    requires |ops| >= 2 && ops[0] == SetOwned(true) && ops[1] == Seed([project], map[project := [active]], map[])
    ensures Run(rules, ops[..2])
            == State(map[project := map[active.taskId := active]], map[project := 0], [], Window([], []), true)
  {
    assert ops[..2][..1] == ops[..1] && ops[..1][..0] == [];
    assert Run(rules, ops[..0]) == INITIAL;
    assert Run(rules, ops[..1]) == INITIAL.(owned := true);
    var projects, one := [project], [active];
    assert projects[..0] == [] && one[..0] == [];
    assert ByTask(one) == map[active.taskId := active];
    assert SeededSessions(projects, map[project := one]) == map[project := map[active.taskId := active]];
    assert SeededRevisions(projects, map[]) == map[project := 0];
  }
}
