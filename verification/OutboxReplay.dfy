/** One replay pass: what it attempts, in which order, and what it leaves. */
module OutboxReplay {
  import opened Values
  import opened OutboxRecords
  import opened OutboxDirectory
  import opened StableSort
  import opened OutboxQueues

  datatype Task = Task(projectId: string, taskId: string)

  /** What one ingest call and the acknowledgement after it come to. */
  datatype Answer = Accepted(removed: bool) | Refused | Threw

  datatype Attempt = Attempt(item: Item, acknowledged: bool)

  type QueueMap = map<Key, seq<DeliveryId>>

  datatype Pass = Pass(next: map<Key, nat>, attempts: seq<Attempt>, pending: seq<Item>)

  // ---------------------------------------------------------------- the pass as a function

  function Next(p: Pass, key: Key): nat {
    if key in p.next then p.next[key] else 0
  }

  predicate AtHead(p: Pass, queues: QueueMap, x: Item) {
    x.key.Some? && x.key.value in queues ==>
      var q, k := queues[x.key.value], Next(p, x.key.value);
      k < |q| && q[k] == x.id
  }

  function WithoutId(items: seq<Item>, id: DeliveryId): seq<Item> {
    if items == [] then []
    else
      var x := items[|items| - 1];
      WithoutId(items[..|items| - 1], id) + (if x.id == id then [] else [x])
  }

  function Step(p: Pass, queues: QueueMap, x: Item, answer: Answer): Pass {
    if !AtHead(p, queues, x) || !x.adoptable then p
    else if answer == Accepted(true) then
      Pass(if x.key.Some? then p.next[x.key.value := Next(p, x.key.value) + 1] else p.next,
           p.attempts + [Attempt(x, true)],
           WithoutId(p.pending, x.id))
    else
      p.(attempts := p.attempts + [Attempt(x, false)])
  }

  /** The pass after its first `n` records. */
  function Run(items: seq<Item>, queues: QueueMap, answers: nat -> Answer, n: nat): Pass
    requires n <= |items|
  {
    if n == 0 then Pass(map[], [], items)
    else Step(Run(items, queues, answers, n - 1), queues, items[n - 1], answers(n - 1))
  }

  function Complete(items: seq<Item>, answers: nat -> Answer): Pass {
    Run(items, Queues(items), answers, |items|)
  }

  function Acknowledged(attempts: seq<Attempt>): set<DeliveryId> {
    set a | a in attempts && a.acknowledged :: a.item.id
  }

  function Attempted(attempts: seq<Attempt>): set<DeliveryId> {
    set a | a in attempts :: a.item.id
  }

  function AttemptsOf(attempts: seq<Attempt>, key: Key): seq<Attempt> {
    if attempts == [] then []
    else
      var a := attempts[|attempts| - 1];
      AttemptsOf(attempts[..|attempts| - 1], key) + (if a.item.key == Some(key) then [a] else [])
  }

  function Ids(attempts: seq<Attempt>): seq<DeliveryId> {
    seq(|attempts|, i requires 0 <= i < |attempts| => attempts[i].item.id)
  }

  function Unacknowledged(items: seq<Item>, acknowledged: set<DeliveryId>): seq<Item> {
    if items == [] then []
    else
      var x := items[|items| - 1];
      Unacknowledged(items[..|items| - 1], acknowledged) + (if x.id in acknowledged then [] else [x])
  }

  function TaskOf(x: Item): Task {
    Task(x.record.request.projectId, x.record.request.taskId)
  }

  /** Project and task pairs in first-occurrence order. */
  function Tasks(pending: seq<Item>): (ts: seq<Task>)
    ensures NoDuplicates(ts)
    ensures forall t :: t in ts <==> exists x | x in pending :: TaskOf(x) == t
  {
    if pending == [] then []
    else
      var n := |pending| - 1;
      var ts := Tasks(pending[..n]);
      assert pending == pending[..n] + [pending[n]];
      if TaskOf(pending[n]) in ts then ts else ts + [TaskOf(pending[n])]
  }

  lemma {:induction false} TasksPrefix(a: seq<Item>, b: seq<Item>)
    ensures Tasks(a) <= Tasks(a + b)
    decreases |b|
  {
    if b == [] {
      assert a + b == a;
    } else {
      assert (a + b)[..|a + b| - 1] == a + b[..|b| - 1];
      TasksPrefix(a, b[..|b| - 1]);
    }
  }

  /** A task with an earlier pending record is reported before one that occurs first at `j`. */
  lemma TasksKeepOrder(pending: seq<Item>, i: nat, j: nat)
    requires i < j < |pending| && forall k | 0 <= k < j :: TaskOf(pending[k]) != TaskOf(pending[j])
    ensures exists a, b | 0 <= a < b < |Tasks(pending)| ::
              Tasks(pending)[a] == TaskOf(pending[i]) && Tasks(pending)[b] == TaskOf(pending[j])
  {
    assert pending == pending[..j] + pending[j..];
    TasksPrefix(pending[..j], pending[j..]);
    assert pending[..j][i] in pending[..j] && pending[j] in pending;
    InOrder(Tasks(pending[..j]), Tasks(pending), TaskOf(pending[i]), TaskOf(pending[j]));
  }

  lemma InOrder<T>(before: seq<T>, all: seq<T>, x: T, y: T)
    requires before <= all && x in before && y in all && y !in before
    ensures exists a, b | 0 <= a < b < |all| :: all[a] == x && all[b] == y
  {
    var a :| 0 <= a < |before| && before[a] == x;
    var b :| 0 <= b < |all| && all[b] == y;
    assert forall k | 0 <= k < |before| :: all[k] == before[k] && before[k] in before;
  }

  // ---------------------------------------------------------------- one step

  lemma StepShape(p: Pass, queues: QueueMap, x: Item, answer: Answer)
    ensures var p' := Step(p, queues, x, answer);
            var taken, done := AtHead(p, queues, x) && x.adoptable, answer == Accepted(true);
            && p'.attempts == p.attempts + (if taken then [Attempt(x, done)] else [])
            && (forall key :: Next(p', key) == Next(p, key) + (if taken && done && x.key == Some(key) then 1 else 0))
            && p'.pending == (if taken && done then WithoutId(p.pending, x.id) else p.pending)
  {
  }

  lemma AttemptsOfAppend(attempts: seq<Attempt>, a: Attempt, key: Key)
    ensures AttemptsOf(attempts + [a], key)
            == AttemptsOf(attempts, key) + (if a.item.key == Some(key) then [a] else [])
  {
    assert (attempts + [a])[..|attempts|] == attempts;
  }

  lemma AttemptSetsAppend(attempts: seq<Attempt>, a: Attempt)
    ensures Acknowledged(attempts + [a]) == Acknowledged(attempts) + (if a.acknowledged then {a.item.id} else {})
    ensures Attempted(attempts + [a]) == Attempted(attempts) + {a.item.id}
  {
    assert forall x :: x in attempts + [a] <==> x in attempts || x == a;
    forall d
      ensures d in Acknowledged(attempts + [a]) <==>
              d in Acknowledged(attempts) || (a.acknowledged && d == a.item.id)
      ensures d in Attempted(attempts + [a]) <==> d in Attempted(attempts) || d == a.item.id
    {
    }
  }

  // ---------------------------------------------------------------- per-producer order

  /**
   * After `n` records: a producer's attempts `a` are a prefix of its queue `q`, all
   * acknowledged before position `k`, and an open attempt is a record already visited.
   */
  ghost predicate PrefixState(items: seq<Item>, n: nat, q: seq<DeliveryId>, a: seq<Attempt>, k: nat)
    requires n <= |items|
  {
    && k <= |a| <= k + 1
    && |a| <= |q|
    && Ids(a) == q[..|a|]
    && (forall i | 0 <= i < |a| :: a[i].acknowledged <==> i < k)
    && (|a| == k + 1 ==> Visited(items, n, q[k]))
  }

  ghost predicate KeyState(items: seq<Item>, queues: QueueMap, p: Pass, n: nat, key: Key)
    requires n <= |items| && key in queues
  {
    PrefixState(items, n, queues[key], AttemptsOf(p.attempts, key), Next(p, key))
  }

  ghost predicate Visited(items: seq<Item>, n: nat, id: DeliveryId)
    requires n <= |items|
  {
    exists i :: 0 <= i < n && items[i].id == id
  }

  lemma PrefixStart(items: seq<Item>, q: seq<DeliveryId>)
    ensures PrefixState(items, 0, q, [], 0)
  {
    assert Ids([]) == q[..0];
  }

  lemma PrefixKept(items: seq<Item>, n: nat, q: seq<DeliveryId>, a: seq<Attempt>, k: nat)
    requires n < |items| && PrefixState(items, n, q, a, k)
    ensures PrefixState(items, n + 1, q, a, k)
  {
    if |a| == k + 1 {
      var i :| 0 <= i < n && items[i].id == q[k];
      assert Visited(items, n + 1, q[k]);
    }
  }

  lemma PrefixGrows(items: seq<Item>, n: nat, q: seq<DeliveryId>, a: seq<Attempt>, k: nat, done: bool)
    requires DistinctItems(items) && n < |items| && PrefixState(items, n, q, a, k)
    requires k < |q| && q[k] == items[n].id
    ensures PrefixState(items, n + 1, q, a + [Attempt(items[n], done)], if done then k + 1 else k)
  {
    assert !Visited(items, n, q[k]);
    var grown := a + [Attempt(items[n], done)];
    assert Ids(grown) == Ids(a) + [q[k]];
    assert q[..k + 1] == q[..k] + [q[k]];
    assert Visited(items, n + 1, q[k]);
  }

  lemma KeyStateStep(items: seq<Item>, queues: QueueMap, p: Pass, n: nat, answer: Answer, p': Pass, key: Key)
    requires DistinctItems(items) && n < |items| && key in queues && KeyState(items, queues, p, n, key)
    requires p' == Step(p, queues, items[n], answer)
    ensures KeyState(items, queues, p', n + 1, key)
  {
    var x, done := items[n], answer == Accepted(true);
    StepShape(p, queues, x, answer);
    AttemptsOfAppend(p.attempts, Attempt(x, done), key);
    if AtHead(p, queues, x) && x.adoptable && x.key == Some(key) {
      PrefixGrows(items, n, queues[key], AttemptsOf(p.attempts, key), Next(p, key), done);
    } else {
      PrefixKept(items, n, queues[key], AttemptsOf(p.attempts, key), Next(p, key));
    }
  }

  lemma {:induction false} KeyStateHolds(items: seq<Item>, queues: QueueMap, answers: nat -> Answer, n: nat, key: Key)
    requires DistinctItems(items) && n <= |items| && key in queues
    ensures KeyState(items, queues, Run(items, queues, answers, n), n, key)
  {
    if n == 0 {
      PrefixStart(items, queues[key]);
    } else {
      KeyStateHolds(items, queues, answers, n - 1, key);
      var p, p' := Run(items, queues, answers, n - 1), Run(items, queues, answers, n);
      KeyStateStep(items, queues, p, n - 1, answers(n - 1), p', key);
    }
  }

  lemma {:induction false} AttemptsOfAreAttempts(attempts: seq<Attempt>, key: Key)
    ensures forall a :: a in AttemptsOf(attempts, key) <==> a in attempts && a.item.key == Some(key)
  {
    if attempts != [] {
      var n := |attempts| - 1;
      assert attempts == attempts[..n] + [attempts[n]];
      AttemptsOfAreAttempts(attempts[..n], key);
    }
  }

  /**
   * Whatever the timestamps, ages and answers, a pass attempts for one producer a
   * prefix of its pending records in capture order, and every attempt but possibly
   * the last was acknowledged.
   */
  lemma PerProducerOrder(records: seq<Record>, answers: nat -> Answer, now: int, minAge: int, key: Key)
    requires DistinctIds(records)
    ensures var items := Items(records, now, minAge);
            var a, q := AttemptsOf(Complete(items, answers).attempts, key), SortIds(KeyIds(items, key));
            && Ids(a) <= q
            && ByOrdinal(q, key.producer)
            && (forall i | 0 <= i < |a| - 1 :: a[i].acknowledged)
            && (forall id :: id in q <==> exists x | x in items :: x.key == Some(key) && x.id == id)
  {
    var items := Items(records, now, minAge);
    QueueLists(items, key);
    KeyedItems(records, now, minAge, key);
    QueueByOrdinal(items, key);
    AttemptsArePrefix(items, answers, key);
  }

  lemma AttemptsArePrefix(items: seq<Item>, answers: nat -> Answer, key: Key)
    requires DistinctItems(items)
    ensures var a := AttemptsOf(Complete(items, answers).attempts, key);
            Ids(a) <= SortIds(KeyIds(items, key)) && forall i | 0 <= i < |a| - 1 :: a[i].acknowledged
  {
    if key in KeysOf(items) {
      KeyStateHolds(items, Queues(items), answers, |items|, key);
    } else {
      NoForeignAttempts(items, Queues(items), answers, |items|, key);
    }
  }

  lemma NoForeignAttempts(items: seq<Item>, queues: QueueMap, answers: nat -> Answer, n: nat, key: Key)
    requires n <= |items| && key !in KeysOf(items)
    ensures AttemptsOf(Run(items, queues, answers, n).attempts, key) == []
  {
    AccountedHolds(items, queues, answers, n);
    var attempts := Run(items, queues, answers, n).attempts;
    AttemptsOfAreAttempts(attempts, key);
    assert forall a :: a !in AttemptsOf(attempts, key);
    MemberUnlessEmpty(AttemptsOf(attempts, key));
  }

  // ---------------------------------------------------------------- accounting

  lemma WithoutIdAppend(items: seq<Item>, x: Item, id: DeliveryId)
    ensures WithoutId(items + [x], id) == WithoutId(items, id) + (if x.id == id then [] else [x])
  {
    assert (items + [x])[..|items|] == items;
  }

  lemma {:induction false} WithoutIdNarrows(items: seq<Item>, acknowledged: set<DeliveryId>, id: DeliveryId)
    ensures WithoutId(Unacknowledged(items, acknowledged), id) == Unacknowledged(items, acknowledged + {id})
  {
    if items != [] {
      var n := |items| - 1;
      WithoutIdNarrows(items[..n], acknowledged, id);
      WithoutIdAppend(Unacknowledged(items[..n], acknowledged), items[n], id);
      UnacknowledgedLast(items, acknowledged);
      UnacknowledgedLast(items, acknowledged + {id});
    }
  }

  lemma UnacknowledgedLast(items: seq<Item>, acknowledged: set<DeliveryId>)
    requires items != []
    ensures var before, x := Unacknowledged(items[..|items| - 1], acknowledged), items[|items| - 1];
            Unacknowledged(items, acknowledged) == if x.id in acknowledged then before else before + [x]
  {
  }

  lemma {:induction false} UnacknowledgedMembers(items: seq<Item>, acknowledged: set<DeliveryId>)
    ensures forall x :: x in Unacknowledged(items, acknowledged) <==> x in items && x.id !in acknowledged
    ensures DistinctItems(items) ==> DistinctItems(Unacknowledged(items, acknowledged))
  {
    if items != [] {
      var n := |items| - 1;
      assert items == items[..n] + [items[n]];
      UnacknowledgedMembers(items[..n], acknowledged);
      var before := Unacknowledged(items[..n], acknowledged);
      if DistinctItems(items) {
        forall i | 0 <= i < |before|
          ensures before[i].id != items[n].id
        {
          assert before[i] in before;
        }
      }
    }
  }

  lemma {:induction false} UnacknowledgedNone(items: seq<Item>)
    ensures Unacknowledged(items, {}) == items
  {
    if items != [] {
      UnacknowledgedNone(items[..|items| - 1]);
    }
  }

  /** Nothing was attempted that may not be. */
  ghost predicate OnlyVisited(items: seq<Item>, attempts: seq<Attempt>, n: nat)
    requires n <= |items|
  {
    forall a | a in attempts :: a.item in items[..n] && a.item.adoptable
  }

  /** Of the records without a recognized producer none was left out. */
  ghost predicate AllUnkeyed(items: seq<Item>, attempts: seq<Attempt>, n: nat)
    requires n <= |items|
  {
    forall i | 0 <= i < n && items[i].key.None? && items[i].adoptable :: items[i].id in Attempted(attempts)
  }

  ghost predicate Accounted(items: seq<Item>, p: Pass, n: nat)
    requires n <= |items|
  {
    && p.pending == Unacknowledged(items, Acknowledged(p.attempts))
    && OnlyVisited(items, p.attempts, n)
    && AllUnkeyed(items, p.attempts, n)
  }

  lemma PendingStep(items: seq<Item>, queues: QueueMap, p: Pass, x: Item, answer: Answer)
    requires p.pending == Unacknowledged(items, Acknowledged(p.attempts))
    ensures var p' := Step(p, queues, x, answer);
            p'.pending == Unacknowledged(items, Acknowledged(p'.attempts))
  {
    StepShape(p, queues, x, answer);
    AttemptSetsAppend(p.attempts, Attempt(x, answer == Accepted(true)));
    WithoutIdNarrows(items, Acknowledged(p.attempts), x.id);
    assert Acknowledged(p.attempts) + {} == Acknowledged(p.attempts);
  }

  lemma VisitedStep(items: seq<Item>, n: nat, attempts: seq<Attempt>, done: bool)
    requires n < |items| && OnlyVisited(items, attempts, n)
    ensures OnlyVisited(items, attempts, n + 1)
    ensures items[n].adoptable ==> OnlyVisited(items, attempts + [Attempt(items[n], done)], n + 1)
  {
    assert items[..n + 1] == items[..n] + [items[n]];
  }

  lemma UnkeyedStep(items: seq<Item>, n: nat, attempts: seq<Attempt>, done: bool)
    requires n < |items| && AllUnkeyed(items, attempts, n)
    ensures items[n].key.Some? || !items[n].adoptable ==> AllUnkeyed(items, attempts, n + 1)
    ensures AllUnkeyed(items, attempts + [Attempt(items[n], done)], n + 1)
  {
    AttemptSetsAppend(attempts, Attempt(items[n], done));
  }

  lemma AccountedStep(items: seq<Item>, queues: QueueMap, p: Pass, n: nat, answer: Answer)
    requires n < |items| && Accounted(items, p, n)
    ensures Accounted(items, Step(p, queues, items[n], answer), n + 1)
  {
    var x, done := items[n], answer == Accepted(true);
    StepShape(p, queues, x, answer);
    PendingStep(items, queues, p, x, answer);
    VisitedStep(items, n, p.attempts, done);
    UnkeyedStep(items, n, p.attempts, done);
  }

  lemma {:induction false} AccountedHolds(items: seq<Item>, queues: QueueMap, answers: nat -> Answer, n: nat)
    requires n <= |items|
    ensures Accounted(items, Run(items, queues, answers, n), n)
  {
    if n == 0 {
      UnacknowledgedNone(items);
      assert Acknowledged([]) == {};
    } else {
      AccountedHolds(items, queues, answers, n - 1);
      AccountedStep(items, queues, Run(items, queues, answers, n - 1), n - 1, answers(n - 1));
    }
  }

  /**
   * The loaded records split exactly into acknowledged and still pending, and the tasks
   * reported are those of the pending ones; only adoptable records were attempted, and
   * every adoptable record without a recognized producer was.
   */
  lemma Accounting(items: seq<Item>, answers: nat -> Answer)
    requires DistinctItems(items)
    ensures var p := Complete(items, answers);
            var done := Acknowledged(p.attempts);
            && (forall x :: x in p.pending <==> x in items && x.id !in done)
            && DistinctItems(p.pending)
            && done <= Attempted(p.attempts)
            && (forall a | a in p.attempts :: a.item in items && a.item.adoptable)
            && (forall x | x in items && x.key.None? :: x.id in Attempted(p.attempts) <==> x.adoptable)
            && (forall t :: t in Tasks(p.pending) <==> exists x | x in items :: x.id !in done && TaskOf(x) == t)
  {
    AccountedHolds(items, Queues(items), answers, |items|);
    var p := Complete(items, answers);
    UnacknowledgedMembers(items, Acknowledged(p.attempts));
    assert items[..|items|] == items;
    forall x | x in items && x.id in Attempted(p.attempts)
      ensures x.adoptable
    {
      var a :| a in p.attempts && a.item.id == x.id;
      var i, j :| 0 <= i < |items| && 0 <= j < |items| && items[i] == a.item && items[j] == x;
      assert i == j;
    }
  }

  // ---------------------------------------------------------------- what is attempted, whatever the answers

  lemma {:induction false} AttemptsGrow(items: seq<Item>, queues: QueueMap, answers: nat -> Answer, m: nat, n: nat)
    requires m <= n <= |items|
    ensures Run(items, queues, answers, m).attempts <= Run(items, queues, answers, n).attempts
  {
    if m < n {
      AttemptsGrow(items, queues, answers, m, n - 1);
      StepShape(Run(items, queues, answers, n - 1), queues, items[n - 1], answers(n - 1));
    }
  }

  /** An attempt is of one loaded record, and acknowledged exactly if it was accepted and removed. */
  lemma {:induction false} AttemptsAreAnswered(items: seq<Item>, queues: QueueMap, answers: nat -> Answer, n: nat)
    requires n <= |items|
    ensures forall a | a in Run(items, queues, answers, n).attempts ::
              exists i | 0 <= i < n :: a.item == items[i] && (a.acknowledged <==> answers(i) == Accepted(true))
  {
    if n > 0 {
      AttemptsAreAnswered(items, queues, answers, n - 1);
      var p, p' := Run(items, queues, answers, n - 1), Run(items, queues, answers, n);
      StepShape(p, queues, items[n - 1], answers(n - 1));
      forall a | a in p'.attempts
        ensures exists i | 0 <= i < n :: a.item == items[i] && (a.acknowledged <==> answers(i) == Accepted(true))
      {
        if a !in p.attempts {
          assert a == Attempt(items[n - 1], answers(n - 1) == Accepted(true));
        }
      }
    }
  }

  /** Whatever the answers, a pass attempts the head of every queue, unless it is too young to be adopted. */
  lemma HeadIsAttempted(items: seq<Item>, answers: nat -> Answer, key: Key)
    requires DistinctItems(items) && key in Queues(items)
    ensures exists x | x in items ::
              && Queues(items)[key] != [] && x.id == Queues(items)[key][0] && x.key == Some(key)
              && (x.adoptable ==> x.id in Attempted(Complete(items, answers).attempts))
  {
    var queues := Queues(items);
    var at := HeadPosition(items, key);
    assert items[at] in items;
    if items[at].adoptable {
      KeyStateHolds(items, queues, answers, at, key);
      HeadIsAttemptedAt(items, queues, answers, at, key);
      AttemptsGrow(items, queues, answers, at + 1, |items|);
      StillAttempted(Run(items, queues, answers, at + 1).attempts, Complete(items, answers).attempts, items[at].id);
    }
  }

  lemma StillAttempted(a: seq<Attempt>, b: seq<Attempt>, id: DeliveryId)
    requires a <= b && id in Attempted(a)
    ensures id in Attempted(b)
  {
    var x :| x in a && x.item.id == id;
    assert x in b;
  }

  lemma HeadIsAttemptedAt(items: seq<Item>, queues: QueueMap, answers: nat -> Answer, at: nat, key: Key)
    requires at < |items| && key in queues && queues[key] != []
    requires items[at].id == queues[key][0] && items[at].key == Some(key) && items[at].adoptable
    requires KeyState(items, queues, Run(items, queues, answers, at), at, key)
    ensures items[at].id in Attempted(Run(items, queues, answers, at + 1).attempts)
  {
    var p := Run(items, queues, answers, at);
    StepShape(p, queues, items[at], answers(at));
    AttemptSetsAppend(p.attempts, Attempt(items[at], answers(at) == Accepted(true)));
    var a := AttemptsOf(p.attempts, key);
    if a != [] {
      AttemptsOfAreAttempts(p.attempts, key);
      assert Ids(a)[0] == queues[key][0] && a[0] in a;
    } else {
      assert Next(p, key) == 0;
    }
  }

  // ---------------------------------------------------------------- draining

  ghost predicate AllAccepted(answers: nat -> Answer) {
    forall i: nat :: answers(i) == Accepted(true)
  }

  ghost predicate AllAdoptable(items: seq<Item>) {
    forall x | x in items :: x.adoptable
  }

  lemma {:induction false} AcceptedAttemptsAcknowledge(items: seq<Item>, queues: QueueMap, answers: nat -> Answer,
                                                       n: nat)
    requires AllAccepted(answers) && n <= |items|
    ensures Acknowledged(Run(items, queues, answers, n).attempts) == Attempted(Run(items, queues, answers, n).attempts)
  {
    if n > 0 {
      AcceptedAttemptsAcknowledge(items, queues, answers, n - 1);
      var p := Run(items, queues, answers, n - 1);
      StepShape(p, queues, items[n - 1], answers(n - 1));
      AttemptSetsAppend(p.attempts, Attempt(items[n - 1], true));
    }
  }

  lemma {:induction false} HeadAdvances(
    items: seq<Item>, queues: QueueMap, answers: nat -> Answer, n: nat, key: Key, at: nat)
    requires AllAccepted(answers) && AllAdoptable(items) && at < n <= |items|
    requires key in queues && queues[key] != [] && items[at].id == queues[key][0] && items[at].key == Some(key)
    ensures Next(Run(items, queues, answers, n), key) >= 1
  {
    var p := Run(items, queues, answers, n - 1);
    HeadStep(p, queues, items[n - 1], key);
    if at < n - 1 {
      HeadAdvances(items, queues, answers, n - 1, key, at);
    } else {
      assert items[at] in items;
    }
  }

  /** An accepted record never sets a queue back, and moves on one that it heads. */
  lemma HeadStep(p: Pass, queues: QueueMap, x: Item, key: Key)
    ensures Next(Step(p, queues, x, Accepted(true)), key) >= Next(p, key)
    ensures key in queues && queues[key] != [] && x.id == queues[key][0] && x.key == Some(key) && x.adoptable ==>
              Next(Step(p, queues, x, Accepted(true)), key) >= 1
  {
    StepShape(p, queues, x, Accepted(true));
  }

  lemma HeadPosition(items: seq<Item>, key: Key) returns (at: nat)
    requires DistinctItems(items) && key in Queues(items)
    ensures Queues(items)[key] != []
    ensures at < |items| && items[at].id == Queues(items)[key][0] && items[at].key == Some(key)
  {
    QueueLists(items, key);
    var head := Queues(items)[key][0];
    assert head in Queues(items)[key];
    var x :| x in items && x.key == Some(key) && x.id == head;
    at :| 0 <= at < |items| && items[at] == x;
  }

  lemma HeadAcknowledged(items: seq<Item>, answers: nat -> Answer, key: Key)
    requires DistinctItems(items) && AllAccepted(answers) && AllAdoptable(items) && key in Queues(items)
    ensures Queues(items)[key] != [] && Queues(items)[key][0] in Acknowledged(Complete(items, answers).attempts)
  {
    var queues, p := Queues(items), Complete(items, answers);
    var at := HeadPosition(items, key);
    HeadAdvances(items, queues, answers, |items|, key, at);
    KeyStateHolds(items, queues, answers, |items|, key);
    var a := AttemptsOf(p.attempts, key);
    AttemptsOfAreAttempts(p.attempts, key);
    assert Ids(a)[0] == queues[key][0] && a[0] in a;
  }

  /**
   * When every ingest and acknowledgement succeeds, a complete pass removes every
   * record without a recognized producer and the head of every queue.
   */
  lemma CompletePassProgress(items: seq<Item>, answers: nat -> Answer)
    requires DistinctItems(items) && AllAccepted(answers) && AllAdoptable(items)
    ensures var p := Complete(items, answers);
            && (forall x | x in p.pending :: x in items && x.key.Some?)
            && (forall key | key in Queues(items) ::
                  Queues(items)[key] != [] && Queues(items)[key][0] in Acknowledged(p.attempts))
  {
    Accounting(items, answers);
    AcceptedAttemptsAcknowledge(items, Queues(items), answers, |items|);
    forall key | key in Queues(items)
      ensures Queues(items)[key] != []
      ensures Queues(items)[key][0] in Acknowledged(Complete(items, answers).attempts)
    {
      HeadAcknowledged(items, answers, key);
    }
  }

  /** `key`'s pending records. */
  ghost function OfProducer(items: seq<Item>, key: Key): set<Item> {
    set x | x in items && x.key == Some(key)
  }

  /** Every producer has at most `d` pending records; records without a producer count as depth one. */
  ghost predicate DepthAtMost(items: seq<Item>, d: nat) {
    && (forall key :: |OfProducer(items, key)| <= d)
    && (forall x | x in items && x.key.None? :: d >= 1)
  }

  /** Consecutive accepted complete passes; each loads exactly what the one before left, in any order. */
  ghost predicate DrainRun(passes: seq<seq<Item>>, answers: nat -> Answer) {
    && (forall i | 0 <= i < |passes| :: DistinctItems(passes[i]) && AllAdoptable(passes[i]))
    && (forall i | 0 <= i < |passes| - 1 ::
          forall x :: x in passes[i + 1] <==> x in Complete(passes[i], answers).pending)
  }

  lemma SubsetSize<T>(a: set<T>, b: set<T>)
    requires a <= b
    ensures |a| <= |b|
  {
    assert b == a + (b - a);
  }

  lemma ProducerShrinks(items: seq<Item>, answers: nat -> Answer, left: seq<Item>, key: Key)
    requires DistinctItems(items) && AllAccepted(answers) && AllAdoptable(items)
    requires forall x :: x in left <==> x in Complete(items, answers).pending
    ensures OfProducer(items, key) == OfProducer(left, key) == {}
            || |OfProducer(left, key)| < |OfProducer(items, key)|
  {
    Accounting(items, answers);
    var before, after := OfProducer(items, key), OfProducer(left, key);
    assert after <= before;
    if before != {} {
      var some :| some in before;
      HeadAcknowledged(items, answers, key);
      QueueLists(items, key);
      var head := Queues(items)[key][0];
      assert head in Queues(items)[key];
      var x :| x in items && x.key == Some(key) && x.id == head;
      assert x in before && x !in after;
      SubsetSize(after, before - {x});
    }
  }

  /** The outbox is empty after as many accepted complete passes as its longest producer queue. */
  lemma {:induction false} FinitelyManyPassesDrain(passes: seq<seq<Item>>, answers: nat -> Answer, d: nat)
    requires AllAccepted(answers) && DrainRun(passes, answers)
    requires |passes| == d + 1 && DepthAtMost(passes[0], d)
    ensures passes[d] == []
  {
    if d == 0 {
      DepthZeroIsEmpty(passes[0]);
    } else {
      var rest := passes[1..];
      assert forall i | 0 <= i < |rest| :: rest[i] == passes[i + 1];
      CompletePassProgress(passes[0], answers);
      forall key
        ensures |OfProducer(rest[0], key)| <= d - 1
      {
        ProducerShrinks(passes[0], answers, rest[0], key);
      }
      FinitelyManyPassesDrain(rest, answers, d - 1);
    }
  }

  lemma DepthZeroIsEmpty(items: seq<Item>)
    requires DepthAtMost(items, 0)
    ensures items == []
  {
    forall x
      ensures x !in items
    {
      if x.key.Some? {
        assert x in OfProducer(items, x.key.value) <==> x in items;
      }
    }
    MemberUnlessEmpty(items);
  }

  // ---------------------------------------------------------------- when one pass is enough

  /** Load order agrees with capture order for every producer. */
  ghost predicate TimeAgreesWithCapture(items: seq<Item>) {
    forall key | key in Queues(items) :: KeyIds(items, key) == Queues(items)[key]
  }

  lemma {:induction false} KeyIdsSplit(a: seq<Item>, b: seq<Item>, key: Key)
    ensures KeyIds(a + b, key) == KeyIds(a, key) + KeyIds(b, key)
  {
    if b == [] {
      assert a + b == a;
    } else {
      var m := |b| - 1;
      assert (a + b)[..|a + b| - 1] == a + b[..m];
      KeyIdsSplit(a, b[..m], key);
    }
  }

  lemma KeyIdsAt(items: seq<Item>, n: nat, key: Key)
    requires n < |items|
    ensures var before, whole := KeyIds(items[..n], key), KeyIds(items, key);
            && before <= whole
            && KeyIds(items[..n + 1], key) == before + (if items[n].key == Some(key) then [items[n].id] else [])
            && (items[n].key == Some(key) ==> |before| < |whole| && whole[|before|] == items[n].id)
  {
    var x, tail := [items[n]], items[n + 1..];
    assert items[..n + 1] == items[..n] + x;
    assert items == items[..n] + (x + tail);
    KeyIdsSplit(items[..n], x + tail, key);
    KeyIdsSplit(x, tail, key);
    KeyIdsSplit(items[..n], x, key);
    assert x[..0] == [];
  }

  lemma {:induction false} AgreedOrderAdvances(items: seq<Item>, queues: QueueMap, answers: nat -> Answer, n: nat,
                                               key: Key)
    requires AllAccepted(answers) && AllAdoptable(items) && n <= |items|
    requires key in queues && KeyIds(items, key) == queues[key]
    ensures Next(Run(items, queues, answers, n), key) == |KeyIds(items[..n], key)|
  {
    if n > 0 {
      AgreedOrderAdvances(items, queues, answers, n - 1, key);
      KeyIdsAt(items, n - 1, key);
      StepShape(Run(items, queues, answers, n - 1), queues, items[n - 1], answers(n - 1));
      assert items[n - 1] in items;
    }
  }

  lemma AttemptedWereVisited(items: seq<Item>, queues: QueueMap, answers: nat -> Answer, n: nat)
    requires DistinctItems(items) && n <= |items|
    ensures forall i | n <= i < |items| :: items[i].id !in Attempted(Run(items, queues, answers, n).attempts)
  {
    AccountedHolds(items, queues, answers, n);
    var p := Run(items, queues, answers, n);
    forall a, i | a in p.attempts && n <= i < |items|
      ensures a.item.id != items[i].id
    {
      var k :| 0 <= k < n && items[..n][k] == a.item;
      assert items[k].id != items[i].id;
    }
  }

  lemma {:induction false} AttemptsFollowLoadOrder(
    items: seq<Item>, queues: QueueMap, answers: nat -> Answer, n: nat, key: Key)
    requires DistinctItems(items) && n <= |items|
    requires forall i | 0 <= i < n && items[i].key == Some(key) ::
               items[i].id in Attempted(Run(items, queues, answers, n).attempts)
    ensures Ids(AttemptsOf(Run(items, queues, answers, n).attempts, key)) == KeyIds(items[..n], key)
  {
    if n > 0 {
      var p, p' := Run(items, queues, answers, n - 1), Run(items, queues, answers, n);
      AttemptedWereVisited(items, queues, answers, n - 1);
      FollowStep(items, queues, p, n - 1, answers(n - 1), p', key);
      AttemptsFollowLoadOrder(items, queues, answers, n - 1, key);
      FollowOne(items, p, n - 1, Attempt(items[n - 1], answers(n - 1) == Accepted(true)), key);
    }
  }

  lemma FollowStep(items: seq<Item>, queues: QueueMap, p: Pass, n: nat, answer: Answer, p': Pass, key: Key)
    requires DistinctItems(items) && n < |items| && p' == Step(p, queues, items[n], answer)
    requires items[n].id !in Attempted(p.attempts)
    requires forall i | 0 <= i <= n && items[i].key == Some(key) :: items[i].id in Attempted(p'.attempts)
    ensures forall i | 0 <= i < n && items[i].key == Some(key) :: items[i].id in Attempted(p.attempts)
    ensures p'.attempts == p.attempts + [Attempt(items[n], answer == Accepted(true))]
            || (p'.attempts == p.attempts && items[n].key != Some(key))
  {
    StepShape(p, queues, items[n], answer);
    AttemptSetsAppend(p.attempts, Attempt(items[n], answer == Accepted(true)));
  }

  lemma FollowOne(items: seq<Item>, p: Pass, n: nat, attempt: Attempt, key: Key)
    requires n < |items| && attempt.item == items[n]
    requires Ids(AttemptsOf(p.attempts, key)) == KeyIds(items[..n], key)
    ensures Ids(AttemptsOf(p.attempts + [attempt], key)) == KeyIds(items[..n + 1], key)
    ensures items[n].key != Some(key) ==> Ids(AttemptsOf(p.attempts, key)) == KeyIds(items[..n + 1], key)
  {
    KeyIdsAt(items, n, key);
    AttemptsOfAppend(p.attempts, attempt, key);
    var a := AttemptsOf(p.attempts, key);
    assert Ids(a + [attempt]) == Ids(a) + [items[n].id];
    assert a + [] == a;
  }

  lemma AgreedOrderDrains(items: seq<Item>, answers: nat -> Answer)
    requires DistinctItems(items) && AllAccepted(answers) && AllAdoptable(items) && TimeAgreesWithCapture(items)
    ensures Complete(items, answers).pending == []
  {
    var p, queues := Complete(items, answers), Queues(items);
    Accounting(items, answers);
    AcceptedAttemptsAcknowledge(items, queues, answers, |items|);
    assert items[..|items|] == items;
    forall x | x in items
      ensures x.id in Attempted(p.attempts)
    {
      if x.key.Some? {
        var key := x.key.value;
        var q, a := queues[key], AttemptsOf(p.attempts, key);
        AgreedOrderAdvances(items, queues, answers, |items|, key);
        KeyStateHolds(items, queues, answers, |items|, key);
        QueueLists(items, key);
        assert x.id in q;
        var i :| 0 <= i < |q| && q[i] == x.id;
        AttemptsOfAreAttempts(p.attempts, key);
        assert Ids(a)[i] == x.id && a[i] in a;
      }
    }
    MemberUnlessEmpty(p.pending);
  }

  lemma DrainedMeansAttempted(items: seq<Item>, answers: nat -> Answer)
    requires DistinctItems(items) && Complete(items, answers).pending == []
    ensures forall i | 0 <= i < |items| :: items[i].id in Attempted(Complete(items, answers).attempts)
  {
    Accounting(items, answers);
    assert forall i | 0 <= i < |items| :: items[i] in items && items[i] !in Complete(items, answers).pending;
  }

  lemma DrainedInLoadOrder(items: seq<Item>, answers: nat -> Answer, key: Key)
    requires DistinctItems(items) && Complete(items, answers).pending == []
    ensures Ids(AttemptsOf(Complete(items, answers).attempts, key)) == KeyIds(items, key)
  {
    DrainedMeansAttempted(items, answers);
    AttemptsFollowLoadOrder(items, Queues(items), answers, |items|, key);
    assert items[..|items|] == items;
  }

  lemma DrainedAgrees(items: seq<Item>, answers: nat -> Answer, key: Key)
    requires DistinctItems(items) && Complete(items, answers).pending == []
    requires key in Queues(items)
    ensures KeyIds(items, key) == Queues(items)[key]
  {
    var ids, q := KeyIds(items, key), Queues(items)[key];
    DrainedInLoadOrder(items, answers, key);
    AttemptsArePrefix(items, answers, key);
    assert multiset(q) == multiset(ids);
    SameMembers(q, ids);
    assert q[..|ids|] == q;
  }

  /** With everything accepted, one complete pass empties the outbox exactly when the two orders agree. */
  lemma OnePassDrainsIff(items: seq<Item>, answers: nat -> Answer)
    requires DistinctItems(items) && AllAccepted(answers) && AllAdoptable(items)
    ensures Complete(items, answers).pending == [] <==> TimeAgreesWithCapture(items)
  {
    if TimeAgreesWithCapture(items) {
      AgreedOrderDrains(items, answers);
    }
    if Complete(items, answers).pending == [] {
      forall key | key in Queues(items)
        ensures KeyIds(items, key) == Queues(items)[key]
      {
        DrainedAgrees(items, answers, key);
      }
    }
  }
}
