/**
 * What the session deltas of the notification policy leave, over every run: the
 * newest revision of each project, its tasks, and what of it stays pending.
 */
module NotificationDeltas {
  import opened Values
  import opened NotificationPolicy
  import opened NotificationRuns

  // ---------------------------------------------------------------- revisions

  /** The newest revision of a project that was seeded or accepted since it was last seeded or pruned away. */
  function Newest(ops: seq<Op>, project: string): int {
    if ops == [] then 0
    else
      var before, last := Newest(ops[..|ops| - 1], project), ops[|ops| - 1];
      match last
      case Seed(projects, _, revisions) =>
        if project in projects && project in revisions then revisions[project] else 0
      case Prune(projects) => if project in projects then before else 0
      case Apply(delta, _) => if delta.project == project && delta.revision >= before then delta.revision else before
      case SetOwned(_) => before
      case Flush(_, _) => before
  }

  lemma {:induction false} SeededKeys(
    projects: seq<string>, summaries: map<string, seq<Summary>>, revisions: map<string, int>)
    ensures forall p :: p in SeededSessions(projects, summaries) <==> p in projects
    ensures forall p :: p in SeededRevisions(projects, revisions) <==> p in projects
    ensures forall p | p in projects ::
              && SeededSessions(projects, summaries)[p] == ByTask(SummariesOf(summaries, p))
              && SeededRevisions(projects, revisions)[p] == RevisionOf(revisions, p)
  {
    if projects != [] {
      var n := |projects| - 1;
      assert projects == projects[..n] + [projects[n]];
      SeededKeys(projects[..n], summaries, revisions);
    }
  }

  /**
   * In every run the policy knows the newest revision of each project, and the same projects by
   * session and revision.
   */
  lemma {:induction false} RevisionIsNewest(rules: Rules, ops: seq<Op>, project: string)
    ensures var st := Run(rules, ops);
            && RevisionOf(st.revisions, project) == Newest(ops, project)
            && (project in st.sessions <==> project in st.revisions)
  {
    if ops != [] {
      var before, last := ops[..|ops| - 1], ops[|ops| - 1];
      RevisionIsNewest(rules, before, project);
      if last.Seed? { SeededKeys(last.projects, last.summaries, last.revisions); }
    }
  }

  /** A delta older than the newest one of its project changes nothing; any other becomes the newest. */
  lemma StaleDeltaChangesNothing(rules: Rules, ops: seq<Op>, delta: Delta, at: int)
    ensures var st, st' := Run(rules, ops), Run(rules, ops + [Apply(delta, at)]);
            if delta.revision < Newest(ops, delta.project) then st' == st
            else delta.project in st'.revisions && st'.revisions[delta.project] == delta.revision
                 && forall p | p != delta.project :: RevisionOf(st'.revisions, p) == RevisionOf(st.revisions, p)
  {
    RevisionIsNewest(rules, ops, delta.project);
    assert (ops + [Apply(delta, at)])[..|ops|] == ops;
  }

  // ---------------------------------------------------------------- tasks

  /** The last summary of a task among these. */
  ghost predicate IsLastOf(summaries: seq<Summary>, i: nat, task: string)
    requires i < |summaries|
  {
    summaries[i].taskId == task && forall j | i < j < |summaries| :: summaries[j].taskId != task
  }

  lemma {:induction false} ByTaskIsLast(summaries: seq<Summary>, task: string) returns (i: nat)
    ensures task in ByTask(summaries) <==> task in TaskIds(summaries)
    ensures task in ByTask(summaries) ==>
              i < |summaries| && IsLastOf(summaries, i, task) && ByTask(summaries)[task] == summaries[i]
  {
    i := 0;
    if summaries != [] {
      var n := |summaries| - 1;
      assert summaries == summaries[..n] + [summaries[n]];
      if summaries[n].taskId == task {
        i := n;
      } else {
        i := ByTaskIsLast(summaries[..n], task);
      }
    }
  }

  lemma RecordTasks(a: Arrival, s: Sheet, summary: Summary)
    ensures Record(a, s, summary).tasks == s.tasks[summary.taskId := summary]
  {
  }

  lemma UpdateLast(tasks: Tasks, more: Tasks, summary: Summary)
    ensures (tasks + more)[summary.taskId := summary] == tasks + more[summary.taskId := summary]
  {
  }

  lemma {:induction false} RecordAllTasks(a: Arrival, s: Sheet, summaries: seq<Summary>)
    ensures RecordAll(a, s, summaries).tasks == s.tasks + ByTask(summaries)
  {
    if summaries != [] {
      var before, last := summaries[..|summaries| - 1], summaries[|summaries| - 1];
      RecordAllTasks(a, s, before);
      RecordTasks(a, RecordAll(a, s, before), last);
      UpdateLast(s.tasks, ByTask(before), last);
    }
  }

  function TasksOf(sessions: map<string, Tasks>, project: string): Tasks {
    if project in sessions then sessions[project] else map[]
  }

  /**
   * What an accepted delta leaves of its project: the last summary of every task it tells of, and
   * the old one of every other task that it neither removes nor replaces; no other project changes.
   */
  lemma DeltaLeaves(rules: Rules, st: State, delta: Delta, at: int, task: string) returns (i: nat)
    requires delta.revision >= RevisionOf(st.revisions, delta.project)
    ensures var st' := Step(rules, st, Apply(delta, at));
            var old_, new_ := TasksOf(st.sessions, delta.project), TasksOf(st'.sessions, delta.project);
            && (task in TaskIds(delta.summaries) ==>
                  && i < |delta.summaries| && IsLastOf(delta.summaries, i, task)
                  && task in new_ && new_[task] == delta.summaries[i])
            && (task !in TaskIds(delta.summaries) ==>
                  (task in new_ <==> task in old_ && task !in delta.removed && !delta.replace)
                  && (task in new_ ==> new_[task] == old_[task]))
            && (forall p | p != delta.project :: TasksOf(st'.sessions, p) == TasksOf(st.sessions, p))
  {
    var old_ := TasksOf(st.sessions, delta.project);
    var gone := Gone(old_, delta.summaries, delta.removed, delta.replace);
    var kept := Sheet(old_ - gone, Without(st.pending, delta.project, gone));
    RecordAllTasks(Arrival(rules, st.owned, delta.project, at), kept, delta.summaries);
    i := ByTaskIsLast(delta.summaries, task);
  }

  /** And in every run a task that an accepted delta takes away has nothing pending any more. */
  lemma TakenAwayIsNotPending(rules: Rules, ops: seq<Op>, delta: Delta, at: int, task: string)
    requires delta.revision >= Newest(ops, delta.project) && task !in TaskIds(delta.summaries)
    requires task in delta.removed || delta.replace
    ensures var st' := Run(rules, ops + [Apply(delta, at)]);
            && task !in TasksOf(st'.sessions, delta.project)
            && forall p | p in st'.pending :: p.key != Key(delta.project, task)
  {
    RevisionIsNewest(rules, ops, delta.project);
    assert (ops + [Apply(delta, at)])[..|ops|] == ops;
    var i := DeltaLeaves(rules, Run(rules, ops), delta, at, task);
    RunKeepsInv(rules, ops + [Apply(delta, at)]);
    var st' := Run(rules, ops + [Apply(delta, at)]);
    forall p | p in st'.pending
      ensures p.key != Key(delta.project, task)
    {
      assert Armed(rules, st'.sessions, p);
    }
  }

  // ---------------------------------------------------------------- what stays pending

  lemma {:induction false} OthersStayInRecordAll(a: Arrival, s: Sheet, summaries: seq<Summary>, k: Key)
    requires OnePerKey(s.pending) && (k.project != a.project || k.task !in TaskIds(summaries))
    ensures OnePerKey(RecordAll(a, s, summaries).pending)
    ensures Find(RecordAll(a, s, summaries).pending, k) == Find(s.pending, k)
    decreases |summaries|
  {
    if summaries != [] {
      var before, last := summaries[..|summaries| - 1], summaries[|summaries| - 1];
      assert last in summaries && forall x | x in before :: x in summaries;
      OthersStayInRecordAll(a, s, before, k);
      RecordKeepsOnePerKey(a, RecordAll(a, s, before), last);
      RecordArms(a, RecordAll(a, s, before), last, k);
    }
  }

  /**
   * A delta leaves pending what it does not tell of: other projects, and tasks that it neither
   * lists nor takes away.
   */
  lemma DeltaKeepsOthers(rules: Rules, ops: seq<Op>, st: State, delta: Delta, at: int, k: Key)
    requires st == Run(rules, ops)
    requires || k.project != delta.project
             || (k.task !in TaskIds(delta.summaries) && k.task !in delta.removed && !delta.replace)
    ensures Find(ApplyDelta(rules, st, delta, at).pending, k) == Find(st.pending, k)
  {
    RunIsOnePerKey(rules, ops);
    if delta.revision >= RevisionOf(st.revisions, delta.project) {
      AcceptedKeepsOthers(rules, st, delta, at, k);
    }
  }

  lemma RunIsOnePerKey(rules: Rules, ops: seq<Op>)
    ensures OnePerKey(Run(rules, ops).pending)
  {
    RunKeepsInv(rules, ops);
  }

  lemma AcceptedKeepsOthers(rules: Rules, st: State, delta: Delta, at: int, k: Key)
    requires OnePerKey(st.pending) && delta.revision >= RevisionOf(st.revisions, delta.project)
    requires || k.project != delta.project
             || (k.task !in TaskIds(delta.summaries) && k.task !in delta.removed && !delta.replace)
    ensures Find(ApplyDelta(rules, st, delta, at).pending, k) == Find(st.pending, k)
  {
    var tasks := TasksOf(st.sessions, delta.project);
    var gone := Gone(tasks, delta.summaries, delta.removed, delta.replace);
    WithoutKeepsOthers(st.pending, delta.project, gone, k);
    var sheet := Sheet(tasks - gone, Without(st.pending, delta.project, gone));
    OthersStayInRecordAll(Arrival(rules, st.owned, delta.project, at), sheet, delta.summaries, k);
  }

  lemma WithoutKeepsOthers(pending: seq<Pending>, project: string, gone: set<string>, k: Key)
    requires OnePerKey(pending) && (k.project != project || k.task !in gone)
    ensures OnePerKey(Without(pending, project, gone))
    ensures Find(Without(pending, project, gone), k) == Find(pending, k)
  {
    var keep := (p: Pending) => !(p.key.project == project && p.key.task in gone);
    KeepKeepsOnePerKey(pending, keep);
    FindKept(pending, keep, k);
  }

  /** Pruning leaves pending what belongs to the projects that stay. */
  lemma PruneKeepsOthers(rules: Rules, ops: seq<Op>, projects: seq<string>, k: Key)
    ensures Find(Step(rules, Run(rules, ops), Prune(projects)).pending, k)
            == if k.project in projects then Find(Run(rules, ops).pending, k) else None
  {
    var st := Run(rules, ops);
    RunKeepsInv(rules, ops);
    if k.project in projects {
      FindKept(st.pending, (p: Pending) => p.key.project in projects, k);
    }
  }

  /** Being told again who owns the runtime changes nothing; only a change disarms what is pending. */
  lemma OwnershipDisarms(rules: Rules, st: State, owned: bool)
    ensures var st' := Step(rules, st, SetOwned(owned));
            && (owned == st.owned ==> st' == st)
            && (owned != st.owned ==> st'.pending == [] && st'.owned == owned && st'.sessions == st.sessions)
  {
  }
}
