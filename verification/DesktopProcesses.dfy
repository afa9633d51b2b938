/**
 * The fallback clean-up of the desktop app: exact descendants of retained
 * identities, signalled in two rounds.
 */
module DesktopProcesses {
  import opened Values

  datatype Process = Process(pid: nat, parentPid: nat, startedAt: string, command: string)

  predicate SameProcess(left: Process, right: Process) {
    left.pid == right.pid && left.startedAt == right.startedAt && left.command == right.command
  }

  /** By pid; a later process replaces an earlier one. */
  function Retained(previous: seq<Process>): map<nat, Process> {
    if previous == [] then map[]
    else Retained(previous[..|previous| - 1])[previous[|previous| - 1].pid := previous[|previous| - 1]]
  }

  /** A retained pid counts only if it is still the same process, any other only as a root. */
  predicate IsSeed(process: Process, rootPids: seq<nat>, previous: seq<Process>) {
    var retained := Retained(previous);
    if process.pid in retained then SameProcess(process, retained[process.pid]) else process.pid in rootPids
  }

  function Select(processes: seq<Process>, pids: set<nat>): (r: seq<Process>)
    ensures forall p :: p in r <==> p in processes && p.pid in pids
  {
    if processes == [] then []
    else
      var rest, last := Select(processes[..|processes| - 1], pids), processes[|processes| - 1];
      if last.pid in pids then rest + [last] else rest
  }

  /** Of several processes with one pid the last is retained. */
  lemma {:induction false} LastIsRetained(list: seq<Process>, i: nat)
    requires i < |list| && forall j | i < j < |list| :: list[j].pid != list[i].pid
    ensures list[i].pid in Retained(list) && Retained(list)[list[i].pid] == list[i]
  {
    var n := |list| - 1;
    if i < n {
      LastIsRetained(list[..n], i);
    }
  }

  /** In the clean-up a seed is a retained process with its pid, start time and command unchanged. */
  lemma SeedIsUnchanged(process: Process, previous: seq<Process>)
    ensures IsSeed(process, [], previous) <==>
              exists i | 0 <= i < |previous| ::
                && previous[i].pid == process.pid && previous[i].startedAt == process.startedAt
                && previous[i].command == process.command
                && forall j | i < j < |previous| :: previous[j].pid != process.pid
  {
    if process.pid in Retained(previous) {
      var last := LastPlace(previous, process.pid);
      LastIsRetained(previous, last);
    }
    forall i | 0 <= i < |previous| && previous[i].pid == process.pid
               && forall j | i < j < |previous| :: previous[j].pid != process.pid
      ensures process.pid in Retained(previous) && Retained(previous)[process.pid] == previous[i]
    {
      LastIsRetained(previous, i);
    }
  }

  lemma {:induction false} LastPlace(list: seq<Process>, pid: nat) returns (i: nat)
    requires pid in Retained(list)
    ensures i < |list| && list[i].pid == pid && forall j | i < j < |list| :: list[j].pid != pid
  {
    var n := |list| - 1;
    if list[n].pid == pid {
      i := n;
    } else {
      i := LastPlace(list[..n], pid);
    }
  }

  // ---------------------------------------------------------------- reachability

  predicate Edge(processes: seq<Process>, parent: nat, child: nat) {
    exists p | p in processes :: p.pid == child && p.parentPid == parent
  }

  /** A chain of parent edges from a seed to `pid`. */
  ghost predicate Chain(processes: seq<Process>, rootPids: seq<nat>, previous: seq<Process>, path: seq<nat>, pid: nat) {
    && path != [] && path[|path| - 1] == pid
    && (exists p | p in processes :: p.pid == path[0] && IsSeed(p, rootPids, previous))
    && forall i | 0 < i < |path| :: Edge(processes, path[i - 1], path[i])
  }

  ghost predicate Reachable(processes: seq<Process>, rootPids: seq<nat>, previous: seq<Process>, pid: nat) {
    exists path :: Chain(processes, rootPids, previous, path, pid)
  }

  /** The pids of the snapshot that a chain of parent edges connects to a seed. */
  ghost function Closure(processes: seq<Process>, rootPids: seq<nat>, previous: seq<Process>): set<nat> {
    set p | p in processes && Reachable(processes, rootPids, previous, p.pid) :: p.pid
  }

  function Seeds(processes: seq<Process>, rootPids: seq<nat>, previous: seq<Process>): set<nat> {
    set p | p in processes && IsSeed(p, rootPids, previous) :: p.pid
  }

  predicate Closed(processes: seq<Process>, owned: set<nat>) {
    forall p | p in processes && p.parentPid in owned :: p.pid in owned
  }

  lemma ClosureIsClosed(processes: seq<Process>, rootPids: seq<nat>, previous: seq<Process>)
    ensures Seeds(processes, rootPids, previous) <= Closure(processes, rootPids, previous)
    ensures Closed(processes, Closure(processes, rootPids, previous))
  {
    forall p | p in processes && IsSeed(p, rootPids, previous)
      ensures Reachable(processes, rootPids, previous, p.pid)
    {
      assert Chain(processes, rootPids, previous, [p.pid], p.pid);
    }
    forall p | p in processes && Reachable(processes, rootPids, previous, p.parentPid)
      ensures Reachable(processes, rootPids, previous, p.pid)
    {
      var path :| Chain(processes, rootPids, previous, path, p.parentPid);
      assert Edge(processes, p.parentPid, p.pid);
      assert Chain(processes, rootPids, previous, path + [p.pid], p.pid);
    }
  }

  /** A set with the seeds that no parent edge leaves holds everything reachable. */
  lemma {:induction false} ClosedHoldsChain(
    processes: seq<Process>, rootPids: seq<nat>, previous: seq<Process>, owned: set<nat>, path: seq<nat>, pid: nat)
    requires Chain(processes, rootPids, previous, path, pid)
    requires Seeds(processes, rootPids, previous) <= owned && Closed(processes, owned)
    ensures pid in owned
    decreases |path|
  {
    var n := |path| - 1;
    if n > 0 {
      assert Chain(processes, rootPids, previous, path[..n], path[n - 1]);
      ClosedHoldsChain(processes, rootPids, previous, owned, path[..n], path[n - 1]);
      assert Edge(processes, path[n - 1], path[n]);
    }
  }

  lemma ClosureIsLeast(processes: seq<Process>, rootPids: seq<nat>, previous: seq<Process>, owned: set<nat>)
    requires Seeds(processes, rootPids, previous) <= owned && Closed(processes, owned)
    ensures Closure(processes, rootPids, previous) <= owned
  {
    forall pid | pid in Closure(processes, rootPids, previous)
      ensures pid in owned
    {
      var path :| Chain(processes, rootPids, previous, path, pid);
      ClosedHoldsChain(processes, rootPids, previous, owned, path, pid);
    }
  }

  function Pids(processes: seq<Process>): set<nat> {
    set p | p in processes :: p.pid
  }

  /** Sweeps the snapshot until nothing is added; it never leaves a closed set that holds the seeds. */
  method Grow(processes: seq<Process>, seeds: set<nat>, ghost bound: set<nat>) returns (owned: set<nat>)
    requires seeds <= Pids(processes) && seeds <= bound && Closed(processes, bound)
    ensures seeds <= owned <= bound && Closed(processes, owned)
  {
    owned := seeds;
    var added := true;
    while added
      invariant seeds <= owned <= bound && owned <= Pids(processes)
      invariant !added ==> Closed(processes, owned)
      decreases Pids(processes) - owned, added
    {
      added := false;
      ghost var before := owned;
      for i := 0 to |processes|
        invariant seeds <= owned <= bound && owned <= Pids(processes)
        invariant before <= owned && (added <==> owned != before)
        invariant !added ==> Closed(processes[..i], owned)
      {
        var p := processes[i];
        if p.pid !in owned && p.parentPid in owned {
          owned := owned + {p.pid};
          added := true;
        }
      }
      assert processes[..|processes|] == processes;
      assert added ==> Pids(processes) - owned < Pids(processes) - before;
    }
  }

  /** Exactly the processes that a chain of parent edges connects to a seed, in snapshot order. */
  method CollectOwned(processes: seq<Process>, rootPids: seq<nat>, previous: seq<Process>) returns (found: seq<Process>)
    ensures found == Select(processes, Closure(processes, rootPids, previous))
  {
    ClosureIsClosed(processes, rootPids, previous);
    var owned := Grow(processes, Seeds(processes, rootPids, previous), Closure(processes, rootPids, previous));
    ClosureIsLeast(processes, rootPids, previous, owned);
    assert owned == Closure(processes, rootPids, previous);
    return Select(processes, owned);
  }

  // ---------------------------------------------------------------- stopping

  datatype Signal = Term | Kill

  datatype Delivery = Delivered | NoSuchProcess | Refused

  /** The answers of the system by their place in the log. */
  datatype World = World(list: nat -> Option<seq<Process>>, deliver: nat -> Delivery)

  datatype Act =
    | Scan(processes: seq<Process>, retained: seq<Process>, found: seq<Process>)
    | Signalled(pid: nat, signal: Signal)

  const ATTEMPTS: nat := 20

  function Put(list: seq<Process>, p: Process): seq<Process> {
    if list == [] then [p]
    else
      var rest, last := list[..|list| - 1], list[|list| - 1];
      if last.pid == p.pid then rest + [p] else Put(rest, p) + [last]
  }

  /** `[...new Map(list).values()]`: one process per pid, at its first place and with its last value. */
  function Merge(list: seq<Process>): seq<Process> {
    if list == [] then [] else Put(Merge(list[..|list| - 1]), list[|list| - 1])
  }

  lemma RetainedAppend(list: seq<Process>, p: Process)
    ensures Retained(list + [p]) == Retained(list)[p.pid := p]
  {
    assert (list + [p])[..|list|] == list;
  }

  lemma UpdatesCommute(m: map<nat, Process>, p: Process, q: Process)
    ensures p.pid == q.pid ==> m[p.pid := p][q.pid := q] == m[q.pid := q]
    ensures p.pid != q.pid ==> m[p.pid := p][q.pid := q] == m[q.pid := q][p.pid := p]
  {
  }

  lemma {:induction false} PutRetains(list: seq<Process>, p: Process)
    ensures Retained(Put(list, p)) == Retained(list)[p.pid := p]
  {
    if list == [] {
      RetainedAppend([], p);
      assert [] + [p] == Put(list, p);
    } else {
      var rest, last := list[..|list| - 1], list[|list| - 1];
      UpdatesCommute(Retained(rest), last, p);
      if last.pid == p.pid {
        RetainedAppend(rest, p);
      } else {
        PutRetains(rest, p);
        RetainedAppend(Put(rest, p), last);
      }
    }
  }

  /** Merging loses nothing: the same identity is retained for every pid. */
  lemma {:induction false} MergeRetains(list: seq<Process>)
    ensures Retained(Merge(list)) == Retained(list)
  {
    if list != [] {
      MergeRetains(list[..|list| - 1]);
      PutRetains(Merge(list[..|list| - 1]), list[|list| - 1]);
    }
  }

  lemma {:induction false} PutHolds(list: seq<Process>, p: Process)
    ensures forall q | q in Put(list, p) :: q in list || q == p
  {
    if list != [] {
      PutHolds(list[..|list| - 1], p);
    }
  }

  lemma {:induction false} MergeHolds(list: seq<Process>)
    ensures forall q | q in Merge(list) :: q in list
  {
    if list != [] {
      MergeHolds(list[..|list| - 1]);
      PutHolds(Merge(list[..|list| - 1]), list[|list| - 1]);
    }
  }

  function PidsOf(processes: seq<Process>): (r: seq<nat>)
    ensures |r| == |processes| && forall i | 0 <= i < |r| :: r[i] == processes[i].pid
  {
    seq(|processes|, i requires 0 <= i < |processes| => processes[i].pid)
  }

  /** One signal to each process, the last listed first. */
  function Backwards(found: seq<Process>, signal: Signal): (r: seq<Act>)
    ensures |r| == |found| && forall i | 0 <= i < |r| :: r[i] == Signalled(found[|found| - 1 - i].pid, signal)
  {
    seq(|found|, i requires 0 <= i < |found| => Signalled(found[|found| - 1 - i].pid, signal))
  }

  ghost predicate FoundBefore(log: seq<Act>, p: Process) {
    exists i | 0 <= i < |log| :: log[i].Scan? && p in log[i].found
  }

  /** What the most recent scan found. */
  ghost function LatestFound(log: seq<Act>): seq<Process> {
    if log == [] then []
    else if log[|log| - 1].Scan? then log[|log| - 1].found
    else LatestFound(log[..|log| - 1])
  }

  /** Everything that scans found, in order. */
  ghost function AllFound(log: seq<Act>): seq<Process> {
    if log == [] then []
    else AllFound(log[..|log| - 1]) + if log[|log| - 1].Scan? then log[|log| - 1].found else []
  }

  /** The same identity for every pid that was known or found. */
  ghost predicate RetainsAll(known: seq<Process>, log: seq<Act>, owned: seq<Process>) {
    Retained(owned) == Retained(known + AllFound(log))
  }

  lemma {:induction false} RetainedBoth(a: seq<Process>, b: seq<Process>)
    ensures Retained(a + b) == Retained(a) + Retained(b)
    decreases |b|
  {
    if b == [] {
      assert a + b == a;
    } else {
      var rest, last := b[..|b| - 1], b[|b| - 1];
      RetainedBoth(a, rest);
      assert a + b == (a + rest) + [last];
      RetainedAppend(a + rest, last);
    }
  }

  lemma AllFoundAppend(log: seq<Act>, act: Act)
    ensures AllFound(log + [act]) == AllFound(log) + if act.Scan? then act.found else []
  {
    assert (log + [act])[..|log|] == log;
  }

  lemma MergedLikeAll(owned: seq<Process>, all: seq<Process>, found: seq<Process>)
    requires Retained(owned) == Retained(all)
    ensures Retained(Merge(owned + found)) == Retained(all + found)
  {
    MergeRetains(owned + found);
    RetainedBoth(owned, found);
    RetainedBoth(all, found);
  }

  /** After a scan the merged list still retains everything. */
  lemma MergeRetainsAll(known: seq<Process>, log: seq<Act>, owned: seq<Process>, act: Act, merged: seq<Process>)
    requires RetainsAll(known, log, owned) && act.Scan? && merged == Merge(owned + act.found)
    ensures RetainsAll(known, log + [act], merged)
  {
    AllFoundAppend(log, act);
    MergedLikeAll(owned, known + AllFound(log), act.found);
    assert known + (AllFound(log) + act.found) == known + AllFound(log) + act.found;
  }

  /** Nothing found, or a signal: what is retained stays. */
  lemma StillRetainsAll(known: seq<Process>, log: seq<Act>, owned: seq<Process>, act: Act)
    requires RetainsAll(known, log, owned) && (act.Scan? ==> act.found == [])
    ensures RetainsAll(known, log + [act], owned)
  {
    AllFoundAppend(log, act);
    assert AllFound(log) + [] == AllFound(log);
  }

  /**
   * A scan finds the closure of exactly the identities known or found before, the latest for each
   * pid; a signal goes to what the latest scan found.
   */
  ghost predicate Sound(known: seq<Process>, log: seq<Act>, act: Act) {
    match act
    case Scan(processes, retained, found) =>
      && found == Select(processes, Closure(processes, [], retained))
      && (forall p | p in retained :: p in known || FoundBefore(log, p))
      && RetainsAll(known, log, retained)
    case Signalled(pid, _) => exists p | p in LatestFound(log) :: p.pid == pid
  }

  ghost predicate Traced(known: seq<Process>, log: seq<Act>) {
    log == [] || (Traced(known, log[..|log| - 1]) && Sound(known, log[..|log| - 1], log[|log| - 1]))
  }

  lemma TracedAppend(known: seq<Process>, log: seq<Act>, act: Act)
    requires Traced(known, log) && Sound(known, log, act)
    ensures Traced(known, log + [act])
    ensures LatestFound(log + [act]) == if act.Scan? then act.found else LatestFound(log)
  {
    assert (log + [act])[..|log|] == log;
  }

  /** Identities that the clean-up may retain. */
  ghost predicate Provenance(known: seq<Process>, log: seq<Act>, owned: seq<Process>) {
    forall p | p in owned :: p in known || FoundBefore(log, p)
  }

  lemma ProvenanceStays(known: seq<Process>, log: seq<Act>, owned: seq<Process>, act: Act)
    requires Provenance(known, log, owned)
    ensures Provenance(known, log + [act], owned)
  {
    forall p | p in owned && FoundBefore(log, p)
      ensures FoundBefore(log + [act], p)
    {
      var i :| 0 <= i < |log| && log[i].Scan? && p in log[i].found;
      assert (log + [act])[i] == log[i];
    }
  }

  lemma MergedProvenance(known: seq<Process>, log: seq<Act>, owned: seq<Process>, act: Act)
    requires Provenance(known, log, owned) && act.Scan?
    ensures Provenance(known, log + [act], Merge(owned + act.found))
  {
    ProvenanceStays(known, log, owned, act);
    MergeHolds(owned + act.found);
    assert (log + [act])[|log|] == act;
  }

  lemma {:induction false} SoundAt(known: seq<Process>, log: seq<Act>, i: nat)
    requires Traced(known, log) && i < |log|
    ensures Traced(known, log[..i]) && Sound(known, log[..i], log[i])
    decreases |log|
  {
    var before := log[..|log| - 1];
    if i < |before| {
      SoundAt(known, before, i);
      assert before[..i] == log[..i];
    }
  }

  lemma {:induction false} LatestScan(log: seq<Act>) returns (k: nat)
    requires LatestFound(log) != []
    ensures k < |log| && log[k].Scan? && log[k].found == LatestFound(log)
    ensures forall j | k < j < |log| :: !log[j].Scan?
  {
    var n := |log| - 1;
    if log[n].Scan? {
      k := n;
    } else {
      k := LatestScan(log[..n]);
      assert forall j | k < j < n :: log[j] == log[..n][j];
    }
  }

  /** What a scan found, parent edges of its snapshot connect to an unchanged retained process. */
  lemma FoundIsReachable(known: seq<Process>, log: seq<Act>, k: nat, p: Process)
    requires Traced(known, log) && k < |log| && log[k].Scan? && p in log[k].found
    ensures Provenance(known, log[..k], log[k].retained)
    ensures Reachable(log[k].processes, [], log[k].retained, p.pid)
  {
    SoundAt(known, log, k);
    assert p.pid in Closure(log[k].processes, [], log[k].retained);
  }

  /** Every signalled pid was connected, in the scan before the signal, to an unchanged retained process. */
  lemma SignalsAreOwned(known: seq<Process>, log: seq<Act>, i: nat) returns (k: nat)
    requires Traced(known, log) && i < |log| && log[i].Signalled?
    ensures k < i && log[k].Scan? && forall j | k < j < i :: !log[j].Scan?
    ensures Provenance(known, log[..k], log[k].retained)
    ensures Reachable(log[k].processes, [], log[k].retained, log[i].pid)
  {
    SoundAt(known, log, i);
    var p :| p in LatestFound(log[..i]) && p.pid == log[i].pid;
    k := LatestScan(log[..i]);
    assert log[..i][k] == log[k];
    assert forall j | k < j < i :: log[j] == log[..i][j];
    FoundIsReachable(known, log, k, p);
  }

  /** A scan that finds nothing shows nobody with the latest identity under which that pid was known or found. */
  lemma NothingFoundMeansGone(known: seq<Process>, log: seq<Act>, k: nat, p: Process)
    requires Traced(known, log) && k < |log| && log[k].Scan? && log[k].found == []
    requires p in log[k].processes && p.pid in Retained(known + AllFound(log[..k]))
    ensures !SameProcess(p, Retained(known + AllFound(log[..k]))[p.pid])
  {
    SoundAt(known, log, k);
    ClosureIsClosed(log[k].processes, [], log[k].retained);
    assert p !in Select(log[k].processes, Closure(log[k].processes, [], log[k].retained));
  }

  /** The act goes as the system answers at its place. */
  ghost predicate Answered(world: World, k: nat, act: Act) {
    act.Scan? ==> world.list(k) == Some(act.processes)
  }

  ghost predicate AllAnswered(world: World, log: seq<Act>) {
    forall k | 0 <= k < |log| :: Answered(world, k, log[k])
  }

  /** The list could not be had, or the last signal was refused. */
  predicate Fails(world: World, log: seq<Act>) {
    || world.list(|log|).None?
    || (log != [] && log[|log| - 1].Signalled? && world.deliver(|log| - 1).Refused?)
  }

  /**
   * One round: a scan, a signal to each process it found, then scans until one finds nothing or the
   * attempts are used up.
   */
  ghost predicate Round(a: seq<Act>, b: seq<Act>, signal: Signal, gone: bool) {
    exists scan: Act, waits: seq<Act> ::
      && b == a + [scan] + Signals(scan, signal) + waits
      && scan.Scan? && Waits(waits, gone)
  }

  ghost function Signals(scan: Act, signal: Signal): seq<Act> {
    if scan.Scan? then Backwards(scan.found, signal) else []
  }

  ghost predicate Waits(waits: seq<Act>, gone: bool) {
    && (forall i | 0 <= i < |waits| :: waits[i].Scan? && (waits[i].found == [] <==> gone && i == |waits| - 1))
    && if gone then 0 < |waits| <= ATTEMPTS else |waits| == ATTEMPTS
  }

  ghost predicate Signalling(known: seq<Process>, log: seq<Act>, found: seq<Process>, owned: seq<Process>) {
    && Traced(known, log) && LatestFound(log) == found
    && Provenance(known, log, owned) && RetainsAll(known, log, owned)
  }

  lemma SignalKeeps(known: seq<Process>, log: seq<Act>, found: seq<Process>, owned: seq<Process>, p: Process,
                    signal: Signal)
    requires Signalling(known, log, found, owned) && p in found
    ensures Signalling(known, log + [Signalled(p.pid, signal)], found, owned)
  {
    TracedAppend(known, log, Signalled(p.pid, signal));
    ProvenanceStays(known, log, owned, Signalled(p.pid, signal));
    StillRetainsAll(known, log, owned, Signalled(p.pid, signal));
  }

  lemma {:induction false} AppendsKeep(log: seq<Act>, acts: seq<Act>, n: nat, good: seq<Act> -> bool)
    requires n <= |acts| && good(log)
    requires forall l, act :: act in acts && good(l) ==> good(l + [act])
    ensures good(log + acts[..n])
    decreases n
  {
    if n == 0 {
      assert log + acts[..0] == log;
    } else {
      AppendsKeep(log, acts, n - 1, good);
      assert log + acts[..n] == log + acts[..n - 1] + [acts[n - 1]];
    }
  }

  lemma SignalsKeep(known: seq<Process>, log: seq<Act>, found: seq<Process>, owned: seq<Process>, signal: Signal,
                    sent: nat)
    requires Signalling(known, log, found, owned) && sent <= |found|
    ensures Signalling(known, log + Backwards(found, signal)[..sent], found, owned)
  {
    var good := l => Signalling(known, l, found, owned);
    forall l, act | act in Backwards(found, signal) && good(l)
      ensures good(l + [act])
    {
      var i :| 0 <= i < |found| && act == Signalled(found[|found| - 1 - i].pid, signal);
      SignalKeeps(known, l, found, owned, found[|found| - 1 - i], signal);
    }
    AppendsKeep(log, Backwards(found, signal), sent, good);
  }

  /** The first part of a round: a scan and the signals. */
  ghost predicate RoundBegins(a: seq<Act>, b: seq<Act>, signal: Signal) {
    exists scan: Act :: b == a + [scan] + Signals(scan, signal) && scan.Scan?
  }

  lemma RoundBeginsWith(a: seq<Act>, b: seq<Act>, c: seq<Act>, signal: Signal)
    requires |b| == |a| + 1 && b == a + [b[|a|]] && b[|a|].Scan?
    requires c == b + Backwards(b[|a|].found, signal)[..|b[|a|].found|]
    ensures RoundBegins(a, c, signal)
  {
    var scan := b[|a|];
    assert Backwards(scan.found, signal)[..|scan.found|] == Signals(scan, signal);
    assert c == a + [scan] + Signals(scan, signal);
  }

  lemma RoundFrom(a: seq<Act>, c: seq<Act>, d: seq<Act>, signal: Signal, gone: bool)
    requires RoundBegins(a, c, signal) && c <= d && Waits(d[|c|..], gone)
    ensures Round(a, d, signal, gone)
  {
    var scan: Act :| c == a + [scan] + Signals(scan, signal) && scan.Scan?;
    var waits := d[|c|..];
    assert d == a + [scan] + Signals(scan, signal) + waits;
  }

  lemma SignalsAnswered(world: World, log: seq<Act>, acts: seq<Act>)
    requires AllAnswered(world, log) && forall act | act in acts :: act.Signalled?
    ensures AllAnswered(world, log + acts)
  {
    forall k | 0 <= k < |log + acts|
      ensures Answered(world, k, (log + acts)[k])
    {
      if k >= |log| {
        assert (log + acts)[k] in acts;
      }
    }
  }

  /** The log is sound, and this list retains what is known and was found. */
  ghost predicate Keeps(world: World, known: seq<Process>, log: seq<Act>, owned: seq<Process>) {
    AllAnswered(world, log) && Traced(known, log) && Provenance(known, log, owned) && RetainsAll(known, log, owned)
  }

  lemma ScanKeeps(world: World, known: seq<Process>, log: seq<Act>, owned: seq<Process>, act: Act, merged: seq<Process>)
    requires Keeps(world, known, log, owned) && act.Scan? && act.retained == owned && Answered(world, |log|, act)
    requires act.found == Select(act.processes, Closure(act.processes, [], owned)) && merged == Merge(owned + act.found)
    ensures Keeps(world, known, log + [act], merged) && LatestFound(log + [act]) == act.found
    ensures act.found == [] ==> Keeps(world, known, log + [act], owned)
  {
    TracedAppend(known, log, act);
    MergedProvenance(known, log, owned, act);
    MergeRetainsAll(known, log, owned, act, merged);
    if act.found == [] {
      ProvenanceStays(known, log, owned, act);
      StillRetainsAll(known, log, owned, act);
    }
  }

  class Cleanup {
    const world: World
    const known: seq<Process>
    var log: seq<Act>

    constructor (known: seq<Process>, world: World)
      ensures this.known == known && this.world == world && log == [] && Keeps(world, known, log, known)
    {
      this.known, this.world, log := known, world, [];
      new;
      assert known + AllFound([]) == known;
    }

    method Scan(owned: seq<Process>) returns (found: Option<seq<Process>>)
      requires Keeps(world, known, log, owned)
      modifies this
      ensures AllAnswered(world, log) && Traced(known, log)
      ensures found.None? <==> world.list(|old(log)|).None?
      ensures found.None? ==> log == old(log)
      ensures found.Some? ==>
                && |log| == |old(log)| + 1 && log == old(log) + [log[|old(log)|]]
                && log[|old(log)|].Scan? && log[|old(log)|].retained == owned && log[|old(log)|].found == found.value
                && LatestFound(log) == found.value
                && Keeps(world, known, log, Merge(owned + found.value))
                && (found.value == [] ==> Keeps(world, known, log, owned))
    {
      var processes := world.list(|log|);
      if processes.None? { return None; }
      var collected := CollectOwned(processes.value, [], owned);
      var act := Act.Scan(processes.value, owned, collected);
      ScanKeeps(world, known, log, owned, act, Merge(owned + collected));
      log := log + [act];
      return Some(collected);
    }

    /** `ESRCH` is ignored; any other refusal ends the clean-up. */
    method SignalEach(found: seq<Process>, signal: Signal) returns (ok: bool, ghost sent: nat)
      modifies this
      ensures sent <= |found| && (ok ==> sent == |found|)
      ensures log == old(log) + Backwards(found, signal)[..sent]
      ensures ok ==> forall k | |old(log)| <= k < |log| :: !world.deliver(k).Refused?
      ensures !ok ==> sent > 0 && world.deliver(|log| - 1).Refused?
    {
      ghost var start, all := log, Backwards(found, signal);
      var i := |found|;
      while i > 0
        invariant 0 <= i <= |found|
        invariant log == start + all[..|found| - i]
        invariant forall k | |start| <= k < |log| :: !world.deliver(k).Refused?
      {
        i := i - 1;
        assert all[..|found| - i] == all[..|found| - i - 1] + [Signalled(found[i].pid, signal)];
        var delivery := world.deliver(|log|);
        log := log + [Signalled(found[i].pid, signal)];
        if delivery.Refused? { return false, |found| - i; }
      }
      return true, |found|;
    }

    /** Scans until nothing is found or the attempts are used up. */
    method Wait(first: seq<Process>) returns (owned: seq<Process>, gone: bool, ok: bool)
      requires Keeps(world, known, log, first)
      modifies this
      ensures Keeps(world, known, log, owned)
      ensures if ok then old(log) <= log && Waits(log[|old(log)|..], gone) else Fails(world, log)
    {
      owned := first;
      for attempt := 0 to ATTEMPTS
        invariant Keeps(world, known, log, owned)
        invariant old(log) <= log && |log| == |old(log)| + attempt
        invariant forall i | |old(log)| <= i < |log| :: log[i].Scan? && log[i].found != []
      {
        var remaining := Scan(owned);
        if remaining.None? { return owned, false, false; }
        if remaining.value == [] { return owned, true, true; }
        owned := Merge(owned + remaining.value);
      }
      return owned, false, true;
    }

    method RunRound(first: seq<Process>, signal: Signal) returns (owned: seq<Process>, gone: bool, ok: bool)
      requires Keeps(world, known, log, first)
      modifies this
      ensures Keeps(world, known, log, owned)
      ensures if ok then Round(old(log), log, signal, gone) else Fails(world, log)
    {
      owned, ok := SignalFound(first, signal);
      if !ok { return owned, false, false; }
      ghost var signalled := log;
      owned, gone, ok := Wait(owned);
      if ok { RoundFrom(old(log), signalled, log, signal, gone); }
    }

    /** The beginning of a round: what a scan finds is retained and signalled. */
    method SignalFound(first: seq<Process>, signal: Signal) returns (owned: seq<Process>, ok: bool)
      requires Keeps(world, known, log, first)
      modifies this
      ensures Keeps(world, known, log, owned)
      ensures if ok then RoundBegins(old(log), log, signal) else Fails(world, log)
    {
      var current := Scan(first);
      if current.None? { return first, false; }
      owned := Merge(first + current.value);
      ghost var scanned, sent := log, 0;
      ok, sent := SignalEach(current.value, signal);
      SignalsKeep(known, scanned, current.value, owned, signal, sent);
      SignalsAnswered(world, scanned, Backwards(current.value, signal)[..sent]);
      if ok { RoundBeginsWith(old(log), scanned, log, signal); }
    }

    /**
     * A polite round, a round of kills, then a last scan; the result is what the last scan found, and
     * without one a list was missing or a signal refused.
     */
    method Stop() returns (left: Option<seq<nat>>)
      requires log == []
      modifies this
      ensures Traced(known, log) && AllAnswered(world, log)
      ensures left.None? ==> Fails(world, log)
      ensures left.Some? ==> log != [] && log[|log| - 1].Scan? && left.value == PidsOf(log[|log| - 1].found)
      ensures left.Some? ==>
                || Round([], log, Term, true)
                || exists polite :: Round([], polite, Term, false)
                     && (Round(polite, log, Kill, true) || Round(polite, log[..|log| - 1], Kill, false))
    {
      assert known + AllFound([]) == known;
      var owned, gone, ok := RunRound(known, Term);
      if !ok { return None; }
      if gone { return Some([]); }
      ghost var polite := log;
      owned, gone, ok := RunRound(owned, Kill);
      if !ok { return None; }
      if gone { return Some([]); }
      ghost var killed := log;
      var last := Scan(owned);
      if last.None? { return None; }
      assert log[..|log| - 1] == killed;
      return Some(PidsOf(last.value));
    }
  }
}
