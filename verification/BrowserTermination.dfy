/**
 * Ending an owned browser: a polite signal, a bounded wait, then bounded
 * escalation. The process is inspected again right before every signal.
 */
module BrowserTermination {
  import opened Values
  import opened StableSort
  import opened BrowserOwnership

  const ESCALATION_MAX_PASSES: nat := 5

  datatype Signal = Term | Kill

  datatype Delivery = Delivered | NoSuchProcess | Refused

  datatype Tree = Tree(processPids: seq<nat>, identities: seq<Identity>, groups: seq<Identity>)

  /** The answers of the system by their place in the log; `polls` fit before the grace period ends. */
  datatype World = World(list: nat -> Option<seq<Row>>, deliver: nat -> Delivery, polls: nat)

  datatype Failure = ListFailed | SignalFailed

  datatype Outcome = Finished(pids: seq<nat>) | Failed(failure: Failure) | AmbiguousIdentities | NewDescendants

  datatype Act = Inspection(start: Start, end: State) | Attempt(pid: nat, signal: Signal)

  function IdentitiesOf(identities: seq<Identity>, pid: nat): (r: seq<Identity>)
    ensures forall identity :: identity in r <==> identity in identities && identity.pid == pid
  {
    if identities == [] then []
    else
      var rest, last := IdentitiesOf(identities[..|identities| - 1], pid), identities[|identities| - 1];
      if last.pid == pid then rest + [last] else rest
  }

  /** The tree holds exactly one identity for the pid, with a start time. */
  predicate Identified(tree: Tree, pid: nat) {
    |IdentitiesOf(tree.identities, pid)| == 1 && Truthy(IdentitiesOf(tree.identities, pid)[0].startTime)
  }

  /** The process was in the snapshot, unchanged and with a known birth. */
  ghost predicate Shown(s: Start, x: State, pid: nat) {
    && pid in x.owned && pid in Present(s.snapshot)
    && exists row | row in s.snapshot :: row.self.pid == pid && Matches(s.clock, x.owned[pid], row)
  }

  /**
   * What the clean-up relies on: what is returned was shown, and whatever was owned and visible is
   * returned or in doubt.
   */
  ghost predicate Reliable(s: Start, x: State) {
    (forall pid | pid in x.matching :: Shown(s, x, pid)) && Census(s, x) && s.ambiguous <= x.ambiguous
  }

  lemma InspectionIsReliable(s: Start, x: State)
    requires Inspected(s, x)
    ensures Reliable(s, x)
  {
    forall pid | pid in x.matching
      ensures Shown(s, x, pid)
    {
      MatchesArePresent(s, x, pid);
      var row := ReturnedAreVerified(s, x, pid);
    }
  }

  /** Every inspection is of the list that the system gave at its place. */
  ghost predicate AllAnswered(world: World, log: seq<Act>) {
    forall k | 0 <= k < |log| && log[k].Inspection? :: world.list(k) == Some(log[k].start.snapshot)
  }

  /** No signal was refused. */
  ghost predicate NoneRefused(world: World, log: seq<Act>) {
    forall k | 0 <= k < |log| && log[k].Attempt? :: !world.deliver(k).Refused?
  }

  /** The failure is the system's: there is no list, or the last signal was refused. */
  ghost predicate FailsBy(world: World, log: seq<Act>, failure: Failure) {
    match failure
    case ListFailed => world.list(|log|).None?
    case SignalFailed => log != [] && log[|log| - 1].Attempt? && world.deliver(|log| - 1).Refused?
  }

  /** An inspection is a reliable one; an attempted signal directly follows an inspection that returned its pid. */
  ghost predicate Follows(log: seq<Act>, act: Act) {
    match act
    case Inspection(start, end) => Reliable(start, end)
    case Attempt(pid, _) => log != [] && log[|log| - 1].Inspection? && pid in log[|log| - 1].end.matching
  }

  ghost predicate AllFollow(log: seq<Act>, follows: (seq<Act>, Act) -> bool) {
    log == [] || (AllFollow(log[..|log| - 1], follows) && follows(log[..|log| - 1], log[|log| - 1]))
  }

  ghost predicate Disciplined(log: seq<Act>) {
    AllFollow(log, Follows)
  }

  lemma DisciplinedAppend(log: seq<Act>, act: Act)
    requires Disciplined(log) && Follows(log, act)
    ensures Disciplined(log + [act])
  {
    assert (log + [act])[..|log|] == log;
  }

  lemma {:induction false} FollowsAt(log: seq<Act>, follows: (seq<Act>, Act) -> bool, i: nat)
    requires AllFollow(log, follows) && i < |log|
    ensures follows(log[..i], log[i])
    decreases |log|
  {
    var before := log[..|log| - 1];
    if i < |before| {
      FollowsAt(before, follows, i);
      assert before[..i] == log[..i];
    }
  }

  /** The process of every attempted signal was verified in the snapshot taken immediately before it. */
  lemma SignalsAreFenced(log: seq<Act>, i: nat) returns (row: Row)
    requires Disciplined(log) && i < |log| && log[i].Attempt?
    ensures i > 0 && log[i - 1].Inspection?
    ensures row in log[i - 1].start.snapshot && row.self.pid == log[i].pid
    ensures log[i].pid in log[i - 1].end.owned
    ensures Matches(log[i - 1].start.clock, log[i - 1].end.owned[log[i].pid], row)
    ensures var identity := log[i - 1].end.owned[log[i].pid];
            && row.self.startTime.Some? && row.self.startTime == identity.startTime
            && row.self.commandLine == identity.commandLine
            && (identity.pgid.Some? ==> row.self.pgid == identity.pgid)
  {
    FollowsAt(log, Follows, i);
    FollowsAt(log, Follows, i - 1);
    assert Shown(log[i - 1].start, log[i - 1].end, log[i].pid);
    row :| row in log[i - 1].start.snapshot && row.self.pid == log[i].pid
           && Matches(log[i - 1].start.clock, log[i - 1].end.owned[log[i].pid], row);
  }

  ghost function Attempts(log: seq<Act>, pid: nat, signal: Signal): (n: nat) {
    if log == [] then 0
    else
      var last := log[|log| - 1];
      Attempts(log[..|log| - 1], pid, signal)
      + if last.Attempt? && last.pid == pid && last.signal == signal then 1 else 0
  }

  lemma AttemptsAppend(log: seq<Act>, act: Act, pid: nat, signal: Signal)
    ensures Attempts(log + [act], pid, signal)
            == Attempts(log, pid, signal) + if act.Attempt? && act.pid == pid && act.signal == signal then 1 else 0
  {
    assert (log + [act])[..|log|] == log;
  }

  /** From `a` to `b` at most the pids in `pids` were signalled, each at most once, and only with `signal`. */
  ghost predicate AtMostOnceEach(a: seq<Act>, b: seq<Act>, pids: seq<nat>, signal: Signal) {
    forall pid, other :: Attempts(b, pid, other)
                         <= Attempts(a, pid, other) + if other == signal && pid in pids then 1 else 0
  }

  lemma InspectionIsSilent(log: seq<Act>, act: Act, signal: Signal)
    requires act.Inspection?
    ensures AtMostOnceEach(log, log + [act], [], signal)
  {
    forall pid, other
      ensures Attempts(log + [act], pid, other) == Attempts(log, pid, other)
    {
      AttemptsAppend(log, act, pid, other);
    }
  }

  lemma AttemptIsOne(log: seq<Act>, pid: nat, signal: Signal)
    ensures AtMostOnceEach(log, log + [Attempt(pid, signal)], [pid], signal)
  {
    forall p, other
      ensures Attempts(log + [Attempt(pid, signal)], p, other)
              == Attempts(log, p, other) + if p == pid && other == signal then 1 else 0
    {
      AttemptsAppend(log, Attempt(pid, signal), p, other);
    }
  }

  lemma OnceEachTwice(a: seq<Act>, b: seq<Act>, c: seq<Act>, first: seq<nat>, second: seq<nat>, signal: Signal)
    requires AtMostOnceEach(a, b, first, signal) && AtMostOnceEach(b, c, second, signal)
    requires forall pid | pid in first :: pid !in second
    ensures AtMostOnceEach(a, c, first + second, signal)
  {
  }

  lemma OneMoreCounted(a: seq<Act>, b: seq<Act>, c: seq<Act>, pids: seq<nat>, i: nat, signal: Signal)
    requires i < |pids| && NoDuplicates(pids)
    requires AtMostOnceEach(a, b, pids[..i], signal) && AtMostOnceEach(b, c, [pids[i]], signal)
    ensures AtMostOnceEach(a, c, pids[..i + 1], signal)
  {
    OnceEachTwice(a, b, c, pids[..i], [pids[i]], signal);
    assert pids[..i + 1] == pids[..i] + [pids[i]];
  }

  lemma FewerCounted(a: seq<Act>, b: seq<Act>, pids: seq<nat>, i: nat, signal: Signal)
    requires i <= |pids| && AtMostOnceEach(a, b, pids[..i], signal)
    ensures AtMostOnceEach(a, b, pids, signal)
  {
  }

  /** No process was signalled more often than this. */
  ghost predicate Within(log: seq<Act>, terms: nat, kills: nat) {
    forall pid :: Attempts(log, pid, Term) <= terms && Attempts(log, pid, Kill) <= kills
  }

  lemma SilenceStaysWithin(a: seq<Act>, b: seq<Act>, terms: nat, kills: nat)
    requires Within(a, terms, kills) && AtMostOnceEach(a, b, [], Kill)
    ensures Within(b, terms, kills)
  {
  }

  lemma PoliteOnce(a: seq<Act>, b: seq<Act>, pids: seq<nat>)
    requires Within(a, 0, 0) && AtMostOnceEach(a, b, pids, Term)
    ensures Within(b, 1, 0)
  {
  }

  lemma OnePassMore(a: seq<Act>, b: seq<Act>, pids: seq<nat>, pass: nat)
    requires Within(a, 1, pass) && AtMostOnceEach(a, b, pids, Kill)
    ensures Within(b, 1, pass + 1)
  {
  }

  /** One process: inspected, and signalled exactly if that inspection returned it. */
  ghost predicate SignalledOne(a: seq<Act>, b: seq<Act>, pid: nat, signal: Signal) {
    && |b| > |a| && b[..|a|] == a && b[|a|].Inspection?
    && b == if pid in b[|a|].end.matching then a + [b[|a|], Attempt(pid, signal)] else a + [b[|a|]]
  }

  lemma NothingIsBooked(log: seq<Act>, pid: nat, signal: Signal)
    ensures AtMostOnceEach(log, log, [pid], signal)
  {
  }

  lemma InspectionIsLast(before: seq<Act>, log: seq<Act>)
    requires |log| == |before| + 1 && log == before + [log[|before|]]
    ensures log[..|before|] == before
  {
  }

  lemma InspectionIsBooked(before: seq<Act>, log: seq<Act>, pid: nat, signal: Signal)
    requires |log| == |before| + 1 && log[..|before|] == before && log[|before|].Inspection?
    requires pid !in log[|before|].end.matching && AtMostOnceEach(before, log, [], signal)
    ensures AtMostOnceEach(before, log, [pid], signal)
    ensures SignalledOne(before, log, pid, signal)
  {
    assert log == before + [log[|before|]];
  }

  lemma AttemptIsBooked(before: seq<Act>, log: seq<Act>, pid: nat, signal: Signal)
    requires |log| == |before| + 1 && log[..|before|] == before && log[|before|].Inspection?
    requires pid in log[|before|].end.matching && AtMostOnceEach(before, log, [], signal)
    ensures AtMostOnceEach(before, log + [Attempt(pid, signal)], [pid], signal)
    ensures SignalledOne(before, log + [Attempt(pid, signal)], pid, signal)
  {
    AttemptIsOne(log, pid, signal);
    OnceEachTwice(before, log, log + [Attempt(pid, signal)], [], [pid], signal);
    assert [] + [pid] == [pid];
    assert log == before + [log[|before|]];
  }

  /** All the processes, one after the other. */
  ghost predicate SignalledAll(a: seq<Act>, b: seq<Act>, pids: seq<nat>, signal: Signal)
    decreases |pids|
  {
    if pids == [] then a == b
    else
      var before, last := pids[..|pids| - 1], pids[|pids| - 1];
      exists c :: SignalledAll(a, c, before, signal) && SignalledOne(c, b, last, signal)
  }

  lemma OneMoreSignalled(a: seq<Act>, b: seq<Act>, c: seq<Act>, pids: seq<nat>, i: nat, signal: Signal)
    requires i < |pids| && SignalledAll(a, b, pids[..i], signal) && SignalledOne(b, c, pids[i], signal)
    ensures SignalledAll(a, c, pids[..i + 1], signal)
  {
    assert pids[..i + 1][..i] == pids[..i];
  }

  lemma {:induction false} SignalledAllExtends(a: seq<Act>, b: seq<Act>, pids: seq<nat>, signal: Signal)
    requires SignalledAll(a, b, pids, signal)
    ensures a <= b
    decreases |pids|
  {
    if pids != [] {
      var before, last := pids[..|pids| - 1], pids[|pids| - 1];
      var c :| SignalledAll(a, c, before, signal) && SignalledOne(c, b, last, signal);
      SignalledAllExtends(a, c, before, signal);
    }
  }

  /** What there is before a round: the log, and the pids that remain. */
  datatype Stage = Stage(log: seq<Act>, remaining: seq<nat>)

  /** One round: a kill of each process, the last found first, and an inspection. */
  ghost predicate Round(before: Stage, after: Stage) {
    var n := |after.log| - 1;
    && before.remaining != []
    && n >= 0 && SignalledAll(before.log, after.log[..n], Backwards(before.remaining), Kill)
    && after.log[n].Inspection? && after.remaining == after.log[n].end.matching
  }

  ghost predicate Rounds(stages: seq<Stage>) {
    forall i | 0 < i < |stages| :: Round(stages[i - 1], stages[i])
  }

  /** So many rounds lead from the one stage to the other. */
  ghost predicate Reaches(stages: seq<Stage>, rounds: nat, first: Stage, last: Stage) {
    Rounds(stages) && |stages| == rounds + 1 && stages[0] == first && stages[rounds] == last
  }

  /** Rounds in a row, until nothing remains or no round is left. */
  ghost predicate Escalated(a: seq<Act>, b: seq<Act>, first: seq<nat>, limit: nat) {
    exists stages, rounds: nat, remaining ::
      Reaches(stages, rounds, Stage(a, first), Stage(b, remaining)) && rounds <= limit
      && (remaining == [] || rounds == limit)
  }

  lemma OneRoundMore(stages: seq<Stage>, rounds: nat, first: Stage, last: Stage, next: Stage)
    requires Reaches(stages, rounds, first, last) && Round(last, next)
    ensures Reaches(stages + [next], rounds + 1, first, next)
  {
  }

  lemma RoundsEscalate(stages: seq<Stage>, rounds: nat, first: seq<nat>, a: seq<Act>, last: Stage)
    requires Reaches(stages, rounds, Stage(a, first), last) && rounds <= ESCALATION_MAX_PASSES
    requires last.remaining == [] || rounds == ESCALATION_MAX_PASSES
    ensures Escalated(a, last.log, first, ESCALATION_MAX_PASSES)
  {
    assert last == Stage(last.log, last.remaining);
  }

  /** The log ends with an inspection that returned these pids. */
  ghost predicate LastFound(log: seq<Act>, pids: seq<nat>) {
    log != [] && log[|log| - 1].Inspection? && log[|log| - 1].end.matching == pids
  }

  ghost predicate OnlyInspections(a: seq<Act>, b: seq<Act>) {
    a <= b && forall i | |a| <= i < |b| :: b[i].Inspection?
  }

  /** The first inspection, and a polite signal to each process it returned. */
  ghost predicate Asked(log: seq<Act>) {
    log != [] && log[0].Inspection? && SignalledAll(log[..1], log, log[0].end.matching, Term)
  }

  lemma AskedFrom(first: seq<Act>, log: seq<Act>)
    requires |first| == 1 && first[0].Inspection? && SignalledAll(first, log, first[0].end.matching, Term)
    ensures Asked(log)
  {
    SignalledAllExtends(first, log, first[0].end.matching, Term);
    assert log[..1] == first;
  }

  lemma NothingYet()
    ensures Within([], 0, 0)
  {
  }

  /** The course of a whole clean-up: polite signals, inspections while waiting, escalation, one last inspection. */
  ghost predicate Course(asked: seq<Act>, waited: seq<Act>, remaining: seq<nat>, log: seq<Act>, polls: nat) {
    && Asked(asked)
    && (remaining == [] || |waited| == |asked| + 1 + polls)
    && asked < waited && OnlyInspections(asked, waited) && LastFound(waited, remaining)
    && log != [] && Escalated(waited, log[..|log| - 1], remaining, ESCALATION_MAX_PASSES)
  }

  /** What the tree claims is kept: identities stay, doubts stay. */
  ghost predicate Kept(claimed: map<nat, Identity>, doubted: set<nat>, owned: map<nat, Identity>, ambiguous: set<nat>) {
    (forall pid | pid in claimed :: pid in owned && owned[pid] == claimed[pid]) && doubted <= ambiguous
  }

  lemma InspectionKeeps(claimed: map<nat, Identity>, doubted: set<nat>, s: Start, x: State)
    requires Inspected(s, x) && Kept(claimed, doubted, s.owned, s.ambiguous)
    ensures Kept(claimed, doubted, x.owned, x.ambiguous)
  {
  }

  function Backwards(s: seq<nat>): (r: seq<nat>)
    ensures |r| == |s| && forall i | 0 <= i < |s| :: r[i] == s[|s| - 1 - i]
  {
    seq(|s|, i requires 0 <= i < |s| => s[|s| - 1 - i])
  }

  lemma BackwardsKeepsNoDuplicates(s: seq<nat>)
    requires NoDuplicates(s)
    ensures NoDuplicates(Backwards(s))
  {
  }

  /** The claim of one pid of the tree: its only identity, if that has a start time. */
  function ClaimOf(tree: Tree, pid: nat): Option<Identity> {
    if Identified(tree, pid) then Some(IdentitiesOf(tree.identities, pid)[0]) else None
  }

  /** The owned leaders of the tree follow the retained ones. */
  function Leaders(tree: Tree): seq<Identity> {
    tree.groups + LeadersAmong(tree.identities, tree.processPids)
  }

  function LeadersAmong(identities: seq<Identity>, pids: seq<nat>): seq<Identity> {
    if identities == [] then []
    else
      var rest, last := LeadersAmong(identities[..|identities| - 1], pids), identities[|identities| - 1];
      if last.pgid == Some(last.pid) && last.pid in pids then rest + [last] else rest
  }

  predicate Alone(identities: seq<Identity>, i: nat)
    requires i < |identities|
  {
    forall j | 0 <= j < |identities| && j != i :: identities[j].pid != identities[i].pid
  }

  lemma {:induction false} AloneIsOnly(identities: seq<Identity>, i: nat)
    requires i < |identities| && Alone(identities, i)
    ensures IdentitiesOf(identities, identities[i].pid) == [identities[i]]
  {
    var n := |identities| - 1;
    if i < n {
      AloneIsOnly(identities[..n], i);
    } else {
      NoIdentities(identities[..n], identities[n].pid);
    }
  }

  lemma {:induction false} SomeIdentity(identities: seq<Identity>, i: nat)
    requires i < |identities|
    ensures |IdentitiesOf(identities, identities[i].pid)| > 0
  {
    assert identities[i] in IdentitiesOf(identities, identities[i].pid);
  }

  lemma {:induction false} TwoAreMore(identities: seq<Identity>, i: nat, j: nat)
    requires i < j < |identities| && identities[i].pid == identities[j].pid
    ensures |IdentitiesOf(identities, identities[i].pid)| > 1
  {
    var n := |identities| - 1;
    if j < n {
      TwoAreMore(identities[..n], i, j);
    } else {
      SomeIdentity(identities[..n], i);
    }
  }

  lemma {:induction false} NoIdentities(identities: seq<Identity>, pid: nat)
    requires forall j | 0 <= j < |identities| :: identities[j].pid != pid
    ensures IdentitiesOf(identities, pid) == []
  {
    if identities != [] {
      NoIdentities(identities[..|identities| - 1], pid);
    }
  }

  /** A pid of the tree is claimed exactly if one identity alone is listed for it, with a start time. */
  lemma ClaimIff(tree: Tree, pid: nat, identity: Identity)
    ensures ClaimOf(tree, pid) == Some(identity) <==>
              && identity.pid == pid && identity.startTime.Some? && identity.startTime != Some("")
              && exists i | 0 <= i < |tree.identities| :: tree.identities[i] == identity && Alone(tree.identities, i)
  {
    var all := tree.identities;
    if exists i | 0 <= i < |all| :: all[i].pid == pid {
      var i :| 0 <= i < |all| && all[i].pid == pid;
      if Alone(all, i) {
        AloneIsOnly(all, i);
      } else {
        var j :| 0 <= j < |all| && j != i && all[j].pid == pid;
        TwoAreMore(all, if i < j then i else j, if i < j then j else i);
        assert forall k | 0 <= k < |all| && all[k].pid == pid :: !Alone(all, k);
      }
    } else {
      NoIdentities(all, pid);
    }
  }

  /** The leaders are the retained ones and the identities that lead their own group and belong to the tree. */
  lemma {:induction false} LeadersAmongIff(identities: seq<Identity>, pids: seq<nat>, leader: Identity)
    ensures leader in LeadersAmong(identities, pids) <==>
              leader in identities && leader.pgid == Some(leader.pid) && leader.pid in pids
  {
    if identities != [] {
      var n := |identities| - 1;
      assert identities == identities[..n] + [identities[n]];
      LeadersAmongIff(identities[..n], pids, leader);
    }
  }

  /** What is claimed and doubted of a tree before anything is inspected. */
  ghost predicate Claims(tree: Tree, pids: seq<nat>, owned: map<nat, Identity>, ambiguous: set<nat>) {
    && (forall pid | pid in pids ::
          match ClaimOf(tree, pid)
          case Some(identity) => pid in owned && owned[pid] == identity
          case None => pid in ambiguous)
    && (forall pid | pid in owned :: pid in pids)
  }

  /** A normal return: nothing is in doubt, and of the tree exactly the returned processes are still visible. */
  ghost predicate Accounted(tree: Tree, log: seq<Act>, pids: seq<nat>) {
    && log != [] && log[|log| - 1].Inspection?
    && var (s, x) := (log[|log| - 1].start, log[|log| - 1].end);
       && x.ambiguous == {} && pids == x.matching
       && (forall pid | pid in pids :: pid in tree.processPids)
       && (forall pid | pid in tree.processPids :: pid in pids <==> pid in Present(s.snapshot))
  }

  /** Every other end has its reason in the world or in the last inspection. */
  ghost predicate Reasoned(world: World, tree: Tree, log: seq<Act>, outcome: Outcome) {
    match outcome
    case Failed(failure) => FailsBy(world, log, failure)
    case AmbiguousIdentities => LastInspects(log) && log[|log| - 1].end.ambiguous != {}
    case NewDescendants =>
      LastInspects(log) && exists pid | pid in log[|log| - 1].end.matching :: pid !in tree.processPids
    case Finished(pids) => LastInspects(log) && NoneRefused(world, log) && pids == log[|log| - 1].end.matching
  }

  predicate LastInspects(log: seq<Act>) {
    log != [] && log[|log| - 1].Inspection?
  }

  lemma NormalReturnAccounts(tree: Tree, claimed: map<nat, Identity>, doubted: set<nat>, log: seq<Act>)
    requires Disciplined(log) && log != [] && log[|log| - 1].Inspection?
    requires Claims(tree, tree.processPids, claimed, doubted)
    requires Kept(claimed, doubted, log[|log| - 1].start.owned, log[|log| - 1].start.ambiguous)
    requires log[|log| - 1].end.ambiguous == {}
    requires forall pid | pid in log[|log| - 1].end.matching :: pid in tree.processPids
    ensures Accounted(tree, log, log[|log| - 1].end.matching)
  {
    var s, x := log[|log| - 1].start, log[|log| - 1].end;
    FollowsAt(log, Follows, |log| - 1);
    assert Reliable(s, x);
    forall pid | pid in tree.processPids
      ensures pid in x.matching <==> pid in Present(s.snapshot)
    {
      assert ClaimOf(tree, pid).Some?;
      if pid in x.matching {
        assert Shown(s, x, pid);
      }
    }
  }

  class Termination {
    const world: World
    const owner: Ownership
    var calls: nat
    ghost var log: seq<Act>
    /** The claims that the tree made. */
    ghost const claimed: map<nat, Identity>
    ghost const doubted: set<nat>

    ghost predicate Valid()
      reads this, owner
    {
      && owner.Valid() && Disciplined(log) && Kept(claimed, doubted, owner.owned, owner.ambiguous)
      && AllAnswered(world, log) && calls == |log|
    }

    constructor (tree: Tree, world: World, clock: Clock, windows: bool)
      ensures Valid() && fresh(owner) && log == [] && this.world == world
      ensures Claims(tree, tree.processPids, claimed, doubted) && owner.owned == claimed
      ensures if windows then owner.groups == map[]
              else Registered(clock, Leaders(tree), owner.groups, owner.ambiguous)
    {
      this.world := world;
      calls, log := 0, [];
      var owned := new Ownership(clock);
      for i := 0 to |tree.processPids|
        invariant fresh(owned) && owned.Valid() && owned.groups == map[]
        invariant Claims(tree, tree.processPids[..i], owned.owned, owned.ambiguous)
      {
        owned.Claim(tree.processPids[i], ClaimOf(tree, tree.processPids[i]));
        assert tree.processPids[..i + 1] == tree.processPids[..i] + [tree.processPids[i]];
      }
      assert tree.processPids[..|tree.processPids|] == tree.processPids;
      claimed, doubted := owned.owned, owned.ambiguous;
      // Windows has no durable orphan boundary, so no group is ever recorded there.
      if !windows {
        owned.RegisterGroups(Leaders(tree));
      }
      owner := owned;
    }

    /** Lists the processes and inspects them; a failed listing ends the clean-up. */
    method InspectOwned() returns (pids: Option<seq<nat>>)
      requires Valid()
      modifies this, owner
      ensures Valid()
      ensures pids.None? <==> world.list(|old(log)|).None?
      ensures pids.None? ==> log == old(log)
      ensures NoneRefused(world, old(log)) ==> NoneRefused(world, log)
      ensures pids.Some? ==>
                && |log| == |old(log)| + 1 && log == old(log) + [log[|old(log)|]]
                && log[|old(log)|].Inspection? && log[|old(log)|].end == owner.Now()
                && Kept(claimed, doubted, log[|old(log)|].start.owned, log[|old(log)|].start.ambiguous)
                && pids.value == owner.matching && NoDuplicates(pids.value)
      ensures AtMostOnceEach(old(log), log, [], Term) && AtMostOnceEach(old(log), log, [], Kill)
    {
      var rows := world.list(calls);
      if rows.None? { return None; }
      ghost var start := Start(owner.clock, rows.value, owner.owned, owner.groups, owner.ambiguous);
      var found := owner.Inspect(rows.value);
      InspectionKeeps(claimed, doubted, start, owner.Now());
      InspectionIsReliable(start, owner.Now());
      ghost var act := Inspection(start, owner.Now());
      InspectionIsSilent(log, act, Term);
      InspectionIsSilent(log, act, Kill);
      DisciplinedAppend(log, act);
      log, calls := log + [act], calls + 1;
      return Some(found);
    }

    /** Signals the process only if a fresh inspection still returns it. */
    method SignalMatching(pid: nat, signal: Signal) returns (failure: Option<Failure>)
      requires Valid() && NoneRefused(world, log)
      modifies this, owner
      ensures Valid()
      ensures if failure.Some? then FailsBy(world, log, failure.value) else NoneRefused(world, log)
      ensures AtMostOnceEach(old(log), log, [pid], signal)
      ensures failure.None? ==> SignalledOne(old(log), log, pid, signal)
    {
      ghost var before := log;
      var found := InspectOwned();
      if found.None? {
        NothingIsBooked(before, pid, signal);
        return Some(ListFailed);
      }
      InspectionIsLast(before, log);
      if pid !in found.value {
        InspectionIsBooked(before, log, pid, signal);
        return None;
      }
      AttemptIsBooked(before, log, pid, signal);
      failure := Deliver(pid, signal);
    }

    /** The signal itself, to a process that the inspection just before returned. */
    method Deliver(pid: nat, signal: Signal) returns (failure: Option<Failure>)
      requires Valid() && log != [] && log[|log| - 1].Inspection? && pid in log[|log| - 1].end.matching
      requires NoneRefused(world, log)
      modifies this`calls, this`log
      ensures Valid() && log == old(log) + [Attempt(pid, signal)]
      ensures if failure.Some? then FailsBy(world, log, failure.value) else NoneRefused(world, log)
    {
      var delivery := world.deliver(calls);
      DisciplinedAppend(log, Attempt(pid, signal));
      log, calls := log + [Attempt(pid, signal)], calls + 1;
      return if delivery.Refused? then Some(SignalFailed) else None;
    }

    method SignalAll(pids: seq<nat>, signal: Signal) returns (failure: Option<Failure>)
      requires Valid() && NoDuplicates(pids) && NoneRefused(world, log)
      modifies this, owner
      ensures Valid()
      ensures if failure.Some? then FailsBy(world, log, failure.value) else NoneRefused(world, log)
      ensures AtMostOnceEach(old(log), log, pids, signal)
      ensures failure.None? ==> SignalledAll(old(log), log, pids, signal)
    {
      for i := 0 to |pids|
        invariant Valid() && NoneRefused(world, log) && AtMostOnceEach(old(log), log, pids[..i], signal)
        invariant SignalledAll(old(log), log, pids[..i], signal)
      {
        ghost var before := log;
        failure := SignalMatching(pids[i], signal);
        OneMoreCounted(old(log), before, log, pids, i, signal);
        if failure.Some? {
          FewerCounted(old(log), log, pids, i + 1, signal);
          return;
        }
        OneMoreSignalled(old(log), before, log, pids, i, signal);
      }
      assert pids[..|pids|] == pids;
      return None;
    }

    /** Inspects until nothing is left or the grace period is over. */
    method Wait(first: seq<nat>) returns (remaining: Option<seq<nat>>)
      requires Valid() && NoDuplicates(first) && NoneRefused(world, log)
      modifies this, owner
      ensures Valid() && AtMostOnceEach(old(log), log, [], Kill)
      ensures if remaining.None? then FailsBy(world, log, ListFailed) else NoneRefused(world, log)
      ensures remaining.Some? ==> NoDuplicates(remaining.value)
      ensures remaining.Some? && LastFound(old(log), first) ==>
                LastFound(log, remaining.value) && OnlyInspections(old(log), log)
      ensures remaining.Some? ==> remaining.value == [] || |log| == |old(log)| + world.polls
    {
      remaining := Some(first);
      var polled := 0;
      while |remaining.value| > 0 && polled < world.polls
        invariant Valid() && NoneRefused(world, log) && remaining.Some? && NoDuplicates(remaining.value)
        invariant polled <= world.polls && |log| == |old(log)| + polled
        invariant AtMostOnceEach(old(log), log, [], Kill)
        invariant LastFound(old(log), first) ==> LastFound(log, remaining.value) && OnlyInspections(old(log), log)
        decreases world.polls - polled
      {
        polled := polled + 1;
        ghost var before := log;
        remaining := InspectOwned();
        OnceEachTwice(old(log), before, log, [], [], Kill);
        if remaining.None? { return; }
      }
    }

    /** Kills what remains, the last found first, in at most `ESCALATION_MAX_PASSES` passes. */
    method Escalate(first: seq<nat>) returns (failure: Option<Failure>)
      requires Valid() && NoDuplicates(first) && Within(log, 1, 0) && NoneRefused(world, log)
      modifies this, owner
      ensures if failure.Some? then FailsBy(world, log, failure.value) else NoneRefused(world, log)
      ensures Valid() && Within(log, 1, ESCALATION_MAX_PASSES)
      ensures failure.None? ==> Escalated(old(log), log, first, ESCALATION_MAX_PASSES)
    {
      var remaining, pass := first, 0;
      ghost var stages := [Stage(log, first)];
      while pass < ESCALATION_MAX_PASSES && |remaining| > 0
        invariant Valid() && NoDuplicates(remaining) && pass <= ESCALATION_MAX_PASSES && Within(log, 1, pass)
        invariant NoneRefused(world, log)
        invariant Reaches(stages, pass, Stage(old(log), first), Stage(log, remaining))
      {
        failure, remaining := KillRound(remaining, pass);
        pass := pass + 1;
        if failure.Some? { return; }
        OneRoundMore(stages, pass - 1, Stage(old(log), first), stages[pass - 1], Stage(log, remaining));
        stages := stages + [Stage(log, remaining)];
      }
      RoundsEscalate(stages, pass, first, old(log), Stage(log, remaining));
      return None;
    }

    /** One round: a kill of each process, the last found first, and an inspection. */
    method KillRound(remaining: seq<nat>, ghost pass: nat) returns (failure: Option<Failure>, next: seq<nat>)
      requires Valid() && NoDuplicates(remaining) && Within(log, 1, pass) && NoneRefused(world, log)
      requires remaining != []
      modifies this, owner
      ensures Valid() && Within(log, 1, pass + 1) && NoDuplicates(next)
      ensures if failure.Some? then FailsBy(world, log, failure.value) else NoneRefused(world, log)
      ensures failure.None? ==> Round(Stage(old(log), remaining), Stage(log, next))
    {
      ghost var start := log;
      BackwardsKeepsNoDuplicates(remaining);
      failure := SignalAll(Backwards(remaining), Kill);
      OnePassMore(start, log, Backwards(remaining), pass);
      next := [];
      if failure.Some? { return; }
      ghost var killed := log;
      var found := InspectOwned();
      SilenceStaysWithin(killed, log, 1, pass + 1);
      if found.None? { return Some(ListFailed), next; }
      next := found.value;
      assert log[..|killed|] == killed;
    }

    /** The final inspection decides. */
    method Conclude(tree: Tree) returns (outcome: Outcome)
      requires Valid() && Within(log, 1, ESCALATION_MAX_PASSES) && Claims(tree, tree.processPids, claimed, doubted)
      requires NoneRefused(world, log)
      modifies this, owner
      ensures Valid() && Within(log, 1, ESCALATION_MAX_PASSES)
      ensures Reasoned(world, tree, log, outcome)
      ensures outcome.Finished? ==> Accounted(tree, log, outcome.pids) && |log| == |old(log)| + 1 && old(log) <= log
    {
      var found := InspectOwned();
      SilenceStaysWithin(old(log), log, 1, ESCALATION_MAX_PASSES);
      if found.None? { return Failed(ListFailed); }
      if owner.ambiguous != {} { return AmbiguousIdentities; }
      if exists pid | pid in found.value :: pid !in tree.processPids { return NewDescendants; }
      NormalReturnAccounts(tree, claimed, doubted, log);
      return Finished(found.value);
    }

    /** Polite signals to all that the first inspection returns. */
    method Ask() returns (failure: Option<Failure>)
      requires Valid() && log == []
      modifies this, owner
      ensures Valid() && Within(log, 1, 0)
      ensures if failure.Some? then FailsBy(world, log, failure.value) else NoneRefused(world, log)
      ensures failure.None? ==> Asked(log)
    {
      NothingYet();
      var found := InspectOwned();
      SilenceStaysWithin([], log, 0, 0);
      if found.None? { return Some(ListFailed); }
      ghost var first := log;
      assert first[0].end.matching == found.value;
      failure := SignalAll(found.value, Term);
      PoliteOnce(first, log, found.value);
      if failure.None? { AskedFrom(first, log); }
    }

    /** The inspection after the signals, and those while waiting. */
    method Await() returns (remaining: Option<seq<nat>>)
      requires Valid() && Within(log, 1, 0) && NoneRefused(world, log)
      modifies this, owner
      ensures Valid() && Within(log, 1, 0)
      ensures if remaining.None? then FailsBy(world, log, ListFailed) else NoneRefused(world, log)
      ensures remaining.Some? ==> NoDuplicates(remaining.value) && LastFound(log, remaining.value)
      ensures remaining.Some? ==> old(log) < log && OnlyInspections(old(log), log)
      ensures remaining.Some? ==> remaining.value == [] || |log| == |old(log)| + 1 + world.polls
    {
      remaining := InspectOwned();
      SilenceStaysWithin(old(log), log, 1, 0);
      if remaining.None? { return; }
      ghost var after := log;
      remaining := Wait(remaining.value);
      SilenceStaysWithin(after, log, 1, 0);
    }

    /** Polite signals, a bounded wait and at most `ESCALATION_MAX_PASSES` rounds of kills. */
    method Terminate(tree: Tree) returns (outcome: Outcome)
      requires Valid() && log == [] && Claims(tree, tree.processPids, claimed, doubted)
      modifies this, owner
      ensures Valid() && Within(log, 1, ESCALATION_MAX_PASSES)
      ensures if tree.processPids == [] && tree.groups == [] then outcome == Finished([]) && log == []
              else Reasoned(world, tree, log, outcome)
      ensures outcome.Finished? ==>
                if tree.processPids == [] && tree.groups == [] then outcome.pids == [] && log == []
                else Accounted(tree, log, outcome.pids)
                     && exists asked, waited, remaining :: Course(asked, waited, remaining, log, world.polls)
    {
      if tree.processPids == [] && tree.groups == [] { return Finished([]); }
      var failure := Ask();
      if failure.Some? { return Failed(failure.value); }
      ghost var asked := log;
      var remaining := Await();
      if remaining.None? { return Failed(ListFailed); }
      ghost var waited := log;
      failure := Escalate(remaining.value);
      if failure.Some? { return Failed(failure.value); }
      ghost var escalated := log;
      outcome := Conclude(tree);
      assert outcome.Finished? ==>
               log[..|log| - 1] == escalated && Course(asked, waited, remaining.value, log, world.polls);
    }
  }
}
