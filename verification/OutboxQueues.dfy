/** Recognized producers, adoption by age or abandonment, and capture-order queues. */
module OutboxQueues {
  import opened Values
  import opened OutboxRecords
  import opened StableSort
  import DeliveryOrder

  const HOOK_TRANSITION_LIVE_REPLAY_MIN_AGE_MS: nat := 6_000

  datatype Key = Key(projectId: string, taskId: string, sessionInstanceId: Option<string>, producer: string)

  /** A loaded record with what one pass asks about it. */
  datatype Item = Item(record: Record, id: DeliveryId, key: Option<Key>, adoptable: bool)

  predicate LiveReplayCandidate(r: Record, now: int, minAge: int) {
    if minAge <= 0 || r.abandonedAt.Some? then true
    else
      var age := now - r.enqueuedAt;
      age < 0 || age >= minAge
  }

  function ProducerKey(r: Record): Option<Key> {
    if r.request.metadata.None? || TrimLower(r.request.metadata.value.source) != Some("pi") then None
    else
      var producer := DeliveryOrder.Producer(r.request.delivery.id);
      if producer.None? then None
      else Some(Key(r.request.projectId, r.request.taskId,
                    r.request.metadata.value.sessionInstanceId, producer.value))
  }

  function ItemOf(r: Record, now: int, minAge: int): Item {
    Item(r, r.request.delivery.id, ProducerKey(r), LiveReplayCandidate(r, now, minAge))
  }

  function Items(records: seq<Record>, now: int, minAge: int): (items: seq<Item>)
    ensures |items| == |records|
    ensures forall i | 0 <= i < |records| :: items[i] == ItemOf(records[i], now, minAge)
  {
    seq(|records|, i requires 0 <= i < |records| => ItemOf(records[i], now, minAge))
  }

  // ---------------------------------------------------------------- queues

  /** The queue comparator: equal when the two ids have no known order. */
  function CompareCaptures(l: DeliveryId, r: DeliveryId): int {
    var c := DeliveryOrder.Compare(l, r);
    if c.Some? then c.value else 0
  }

  function SortIds(ids: seq<DeliveryId>): (out: seq<DeliveryId>)
    ensures multiset(out) == multiset(ids)
  {
    Sort(ids, CompareCaptures)
  }

  /** One producer's delivery ids in the order the records were loaded. */
  function KeyIds(items: seq<Item>, key: Key): seq<DeliveryId> {
    if items == [] then []
    else
      var x := items[|items| - 1];
      KeyIds(items[..|items| - 1], key) + (if x.key == Some(key) then [x.id] else [])
  }

  function KeysOf(items: seq<Item>): set<Key> {
    set x | x in items && x.key.Some? :: x.key.value
  }

  function Queues(items: seq<Item>): map<Key, seq<DeliveryId>> {
    map key | key in KeysOf(items) :: SortIds(KeyIds(items, key))
  }

  ghost predicate DistinctItems(items: seq<Item>) {
    forall i, j | 0 <= i < j < |items| :: items[i].id != items[j].id
  }

  // ---------------------------------------------------------------- queue facts

  lemma {:induction false} KeyIdsMembers(items: seq<Item>, key: Key)
    ensures forall id :: id in KeyIds(items, key) <==> exists x | x in items :: x.key == Some(key) && x.id == id
  {
    if items != [] {
      var n := |items| - 1;
      assert items == items[..n] + [items[n]];
      KeyIdsMembers(items[..n], key);
    }
  }

  lemma {:induction false} KeyIdsDistinct(items: seq<Item>, key: Key)
    requires DistinctItems(items)
    ensures NoDuplicates(KeyIds(items, key))
  {
    if items != [] {
      var n := |items| - 1;
      KeyIdsDistinct(items[..n], key);
      KeyIdsMembers(items[..n], key);
      var before := KeyIds(items[..n], key);
      forall i | 0 <= i < |before|
        ensures before[i] != items[n].id
      {
        assert before[i] in before;
      }
    }
  }

  /** A queue lists exactly its producer's pending ids, each once. */
  lemma QueueLists(items: seq<Item>, key: Key)
    requires DistinctItems(items)
    ensures var q := SortIds(KeyIds(items, key));
            && NoDuplicates(q) && multiset(q) == multiset(KeyIds(items, key))
            && (forall id :: id in q <==> exists x | x in items :: x.key == Some(key) && x.id == id)
            && (key in KeysOf(items) <==> q != [])
  {
    KeyIdsMembers(items, key);
    KeyIdsDistinct(items, key);
    var ids := KeyIds(items, key);
    SameMembers(Sort(ids, CompareCaptures), ids);
    PermutationKeepsNoDuplicates(ids, Sort(ids, CompareCaptures));
    MemberUnlessEmpty(SortIds(ids));
  }

  lemma MemberUnlessEmpty<T>(s: seq<T>)
    ensures s == [] || exists x :: x in s
  {
    assert s == [] || s[0] in s;
  }

  ghost predicate OrdinalAtMost(a: DeliveryId, b: DeliveryId) {
    DeliveryOrder.Ordered(a) && DeliveryOrder.Ordered(b) && DeliveryOrder.Ordinal(a) <= DeliveryOrder.Ordinal(b)
  }

  /** Ids of one producer in capture order. */
  ghost predicate ByOrdinal(ids: seq<DeliveryId>, producer: string) {
    && (forall id | id in ids :: DeliveryOrder.Producer(id) == Some(producer))
    && (forall i, j | 0 <= i < j < |ids| :: OrdinalAtMost(ids[i], ids[j]))
  }

  lemma OneProducerIsPreorder(s: set<DeliveryId>, producer: string)
    requires forall id | id in s :: DeliveryOrder.Producer(id) == Some(producer)
    ensures Preorder(s, CompareCaptures)
    ensures forall a, b | a in s && b in s && CompareCaptures(a, b) <= 0 :: OrdinalAtMost(a, b)
  {
    forall a, b | a in s && b in s
      ensures CompareCaptures(a, b) == DeliveryOrder.Sign(DeliveryOrder.Ordinal(a) - DeliveryOrder.Ordinal(b))
    {
    }
  }

  /** The queue of a recognized producer runs by capture ordinal. */
  lemma QueueByOrdinal(items: seq<Item>, key: Key)
    requires forall x | x in items && x.key == Some(key) :: DeliveryOrder.Producer(x.id) == Some(key.producer)
    ensures ByOrdinal(SortIds(KeyIds(items, key)), key.producer)
  {
    var ids := KeyIds(items, key);
    KeyIdsMembers(items, key);
    OneProducerIsPreorder(Members(ids), key.producer);
    SortOrders(ids, Members(ids), CompareCaptures);
    var q := SortIds(ids);
    SameMembers(q, ids);
    forall i, j | 0 <= i < j < |q|
      ensures OrdinalAtMost(q[i], q[j])
    {
      assert q[i] in Members(ids) && q[j] in Members(ids);
      assert CompareCaptures(q[i], q[j]) <= 0;
    }
  }

  /** What puts a record into a producer's queue: a pi hook's ordered id, and one project, task and session. */
  lemma KeyedItems(records: seq<Record>, now: int, minAge: int, key: Key)
    ensures forall x | x in Items(records, now, minAge) ::
              x.key == Some(key) <==>
                && DeliveryOrder.Producer(x.id) == Some(key.producer)
                && x.record.request.projectId == key.projectId && x.record.request.taskId == key.taskId
                && x.record.request.metadata.Some?
                && x.record.request.metadata.value.sessionInstanceId == key.sessionInstanceId
                && TrimLower(x.record.request.metadata.value.source) == Some("pi")
  {
  }
}
