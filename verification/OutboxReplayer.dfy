/** The long-lived replayer over a record directory. */
module OutboxReplayer {
  import opened Values
  import opened OutboxRecords
  import opened OutboxDirectory
  import opened StableSort
  import opened OutboxQueues
  import opened OutboxReplay

  function Collected(items: seq<Item>): QueueMap {
    map key | key in KeysOf(items) :: KeyIds(items, key)
  }

  lemma CollectOne(items: seq<Item>, x: Item, key: Key)
    ensures key in Collected(items + [x]) <==> key in Collected(items) || x.key == Some(key)
    ensures KeyIds(items + [x], key) == KeyIds(items, key) + (if x.key == Some(key) then [x.id] else [])
    ensures key !in Collected(items) ==> KeyIds(items, key) == []
  {
    assert (items + [x])[..|items|] == items;
    assert forall y :: y in items + [x] <==> y in items || y == x;
    AbsentKeyHasNoIds(items, key);
  }

  /** Every producer's ids in load order. */
  method CollectIds(items: seq<Item>) returns (collected: QueueMap)
    ensures collected == Collected(items)
  {
    collected := map[];
    for i := 0 to |items|
      invariant forall key :: key in collected <==> key in Collected(items[..i])
      invariant forall key | key in collected :: collected[key] == KeyIds(items[..i], key)
    {
      var x := items[i];
      assert items[..i + 1] == items[..i] + [x];
      forall key {
        CollectOne(items[..i], x, key);
      }
      if x.key.Some? {
        var key := x.key.value;
        if key !in collected {
          collected := collected[key := []];
        }
        collected := collected[key := collected[key] + [x.id]];
      }
    }
    assert items[..|items|] == items;
  }

  /** Each collected list is sorted by capture ordinal. */
  method SortQueues(collected: QueueMap) returns (queues: QueueMap)
    ensures queues == map key | key in collected :: SortIds(collected[key])
  {
    queues := map[];
    var rest := collected.Keys;
    while rest != {}
      invariant rest <= collected.Keys && queues.Keys == collected.Keys - rest
      invariant forall key | key in queues :: queues[key] == SortIds(collected[key])
      decreases rest
    {
      var key :| key in rest;
      queues := queues[key := SortIds(collected[key])];
      rest := rest - {key};
    }
  }

  /** The queues of a pass: collected in load order, then each sorted by capture ordinal. */
  method BuildQueues(items: seq<Item>) returns (queues: QueueMap)
    ensures queues == Queues(items)
  {
    var collected := CollectIds(items);
    queues := SortQueues(collected);
  }

  lemma AbsentKeyHasNoIds(items: seq<Item>, key: Key)
    ensures key !in KeysOf(items) ==> KeyIds(items, key) == []
  {
    if key !in KeysOf(items) {
      KeyIdsMembers(items, key);
      MemberUnlessEmpty(KeyIds(items, key));
    }
  }

  lemma AcknowledgedSplit(a: seq<Attempt>, b: seq<Attempt>)
    ensures Acknowledged(a + b) == Acknowledged(a) + Acknowledged(b)
  {
    assert forall x :: x in a + b <==> x in a || x in b;
  }

  class Replayer {
    const directory: Directory
    var lastAttempts: seq<Attempt>
    var lastPending: seq<Item>

    constructor (directory: Directory)
      ensures this.directory == directory && lastAttempts == [] && lastPending == []
    {
      this.directory := directory;
      lastAttempts, lastPending := [], [];
    }

    /**
     * One pass. `scanStartedAt` decides ages and `loadedAt` decides expiry: the two
     * clock readings may differ. A complete pass has `minAge` zero.
     */
    method ReplayPass(entries: seq<DeliveryId>, scanStartedAt: int, loadedAt: int, minAge: int,
                      rank: string -> real, answers: nat -> Answer)
      returns (pendingTasks: seq<Task>, ghost loaded: seq<Record>)
      requires directory.Consistent() && NoDuplicates(entries)
      modifies this, directory
      ensures directory.Consistent()
      ensures loaded == Sort(OutboxDirectory.Collected(old(directory.files), entries, loadedAt), CompareByTime(rank))
      ensures DistinctIds(loaded)
      ensures var p := Complete(Items(loaded, scanStartedAt, minAge), answers);
              && lastAttempts == p.attempts
              && lastPending == p.pending
              && pendingTasks == Tasks(p.pending)
              && directory.files == Scanned(old(directory.files), entries, loadedAt) - Acknowledged(p.attempts)
    {
      var records := directory.LoadPending(entries, loadedAt, rank);
      loaded := records;
      ghost var scanned := directory.files;
      var items := Items(records, scanStartedAt, minAge);
      lastAttempts, lastPending := [], items;
      var queues := BuildQueues(items);
      ReplayAll(items, queues, answers);
      pendingTasks := Tasks(lastPending);
    }

    method ReplayAll(items: seq<Item>, queues: QueueMap, answers: nat -> Answer)
      requires directory.Consistent() && lastAttempts == [] && lastPending == items
      modifies this, directory
      ensures directory.Consistent()
      ensures Run(items, queues, answers, |items|).attempts == lastAttempts
      ensures Run(items, queues, answers, |items|).pending == lastPending
      ensures directory.files == old(directory.files) - Acknowledged(lastAttempts)
    {
      var next: map<Key, nat> := map[];
      assert directory.files - Acknowledged([]) == directory.files;
      for i := 0 to |items|
        invariant Pass(next, lastAttempts, lastPending) == Run(items, queues, answers, i)
        invariant directory.Consistent()
        invariant directory.files == old(directory.files) - Acknowledged(lastAttempts)
      {
        ghost var before := lastAttempts;
        next := ReplayRecord(items[i], answers(i), queues, next);
        AcknowledgedSplit(before, lastAttempts[|before|..]);
        assert lastAttempts == before + lastAttempts[|before|..];
      }
    }

    /** One iteration: skip, or ingest and then acknowledge. */
    method ReplayRecord(x: Item, answer: Answer, queues: QueueMap, next: map<Key, nat>) returns (next': map<Key, nat>)
      requires directory.Consistent()
      modifies this, directory
      ensures directory.Consistent()
      ensures Pass(next', lastAttempts, lastPending)
              == Step(Pass(next, old(lastAttempts), old(lastPending)), queues, x, answer)
      ensures old(lastAttempts) <= lastAttempts
      ensures directory.files == old(directory.files) - Acknowledged(lastAttempts[|old(lastAttempts)|..])
    {
      next' := next;
      if x.key.Some? && x.key.value in queues {
        var ids, position := queues[x.key.value], if x.key.value in next then next[x.key.value] else 0;
        if position >= |ids| || ids[position] != x.id {
          return;
        }
      }
      if !x.adoptable {
        return;
      }
      var acknowledged := false;
      match answer {
        case Accepted(removed) =>
          if removed {
            directory.Acknowledge(x.id);
            if x.key.Some? {
              next' := next[x.key.value := (if x.key.value in next then next[x.key.value] else 0) + 1];
            }
            acknowledged := true;
            lastPending := WithoutId(lastPending, x.id);
          }
        case Refused =>
        case Threw =>
      }
      ghost var added := [Attempt(x, acknowledged)];
      assert added[0] in added;
      assert Acknowledged(added) == if acknowledged then {x.id} else {};
      lastAttempts := lastAttempts + [Attempt(x, acknowledged)];
      assert lastAttempts[|old(lastAttempts)|..] == added;
    }
  }
}
