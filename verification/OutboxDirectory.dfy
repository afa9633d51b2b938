/** The record directory: atomic publication, removal, the abandonment rewrite and the replay scan. */
module OutboxDirectory {
  import opened Values
  import opened OutboxRecords
  import opened StableSort

  /** File contents: text that is not a record of the schema, or a schema-valid document. */
  datatype Content = Invalid | Valid(document: Stored)

  type Files = map<DeliveryId, Content>

  ghost predicate NamesMatch(files: Files) {
    forall d | d in files && files[d].Valid? :: files[d].document.request.delivery.id == d
  }

  predicate Live(content: Content, now: int) {
    content.Valid? && content.document.expiresAt > now
  }

  /** What a scan at `now` keeps: listed files that are invalid or expired are deleted. */
  function Scanned(files: Files, entries: seq<DeliveryId>, now: int): Files {
    map d | d in files && (d in entries ==> Live(files[d], now)) :: files[d]
  }

  function Collected(files: Files, entries: seq<DeliveryId>, now: int): (rs: seq<Record>)
    ensures forall r | r in rs ::
              exists d | d in entries :: d in files && Live(files[d], now) && r == Load(files[d].document)
    ensures forall d | d in entries && d in files && Live(files[d], now) :: Load(files[d].document) in rs
  {
    if entries == [] then []
    else
      var n := |entries| - 1;
      var before := Collected(files, entries[..n], now);
      var d := entries[n];
      assert entries == entries[..n] + [d];
      if d in files && Live(files[d], now) then before + [Load(files[d].document)] else before
  }

  // ---------------------------------------------------------------- replay order

  function OccurredAt(r: Record): int {
    r.request.delivery.occurredAt
  }

  /** Occurrence time first; `rank` stands for the locale order of delivery ids. */
  function CompareByTime(rank: string -> real): (Record, Record) -> int {
    (l: Record, r: Record) =>
      if OccurredAt(l) != OccurredAt(r) then OccurredAt(l) - OccurredAt(r)
      else if rank(l.request.delivery.id) < rank(r.request.delivery.id) then -1
      else if rank(l.request.delivery.id) > rank(r.request.delivery.id) then 1
      else 0
  }

  lemma TimeIsPreorder(s: set<Record>, rank: string -> real)
    ensures Preorder(s, CompareByTime(rank))
  {
  }

  /** By the time of occurrence, and for equal times by the rank of the id. */
  ghost predicate ByTime(records: seq<Record>, rank: string -> real) {
    forall i, j | 0 <= i < j < |records| ::
      var a, b := records[i].request.delivery, records[j].request.delivery;
      a.occurredAt < b.occurredAt || (a.occurredAt == b.occurredAt && rank(a.id) <= rank(b.id))
  }

  lemma OrderedByTime(records: seq<Record>, rank: string -> real)
    requires Ordered(records, CompareByTime(rank))
    ensures ByTime(records, rank)
  {
    forall i, j | 0 <= i < j < |records|
      ensures var a, b := records[i].request.delivery, records[j].request.delivery;
              a.occurredAt < b.occurredAt || (a.occurredAt == b.occurredAt && rank(a.id) <= rank(b.id))
    {
      NotAfter(records[i], records[j], rank);
    }
  }

  lemma NotAfter(l: Record, r: Record, rank: string -> real)
    requires CompareByTime(rank)(l, r) <= 0
    ensures var a, b := l.request.delivery, r.request.delivery;
            a.occurredAt < b.occurredAt || (a.occurredAt == b.occurredAt && rank(a.id) <= rank(b.id))
  {
  }

  ghost predicate DistinctIds(rs: seq<Record>) {
    forall i, j | 0 <= i < j < |rs| :: rs[i].request.delivery.id != rs[j].request.delivery.id
  }

  lemma {:induction false} CollectedDistinct(files: Files, entries: seq<DeliveryId>, now: int)
    requires NamesMatch(files) && NoDuplicates(entries)
    ensures DistinctIds(Collected(files, entries, now))
    ensures forall r | r in Collected(files, entries, now) :: r.request.delivery.id in entries
  {
    if entries != [] {
      var n := |entries| - 1;
      CollectedDistinct(files, entries[..n], now);
      assert entries[n] !in entries[..n];
    }
  }

  lemma PermutationKeepsDistinctIds(a: seq<Record>, b: seq<Record>)
    requires multiset(a) == multiset(b) && DistinctIds(a)
    ensures DistinctIds(b)
  {
    PermutationKeepsNoDuplicates(a, b);
    SameMembers(a, b);
    forall i, j | 0 <= i < j < |b|
      ensures b[i].request.delivery.id != b[j].request.delivery.id
    {
      assert b[i] in a && b[j] in a;
    }
  }

  /** One entry's worth of a scan: an entry that is not live is deleted. */
  lemma ScanOneFile(files: Files, entries: seq<DeliveryId>, i: nat, now: int)
    requires i < |entries| && NoDuplicates(entries)
    ensures var d, before := entries[i], Scanned(files, entries[..i], now);
            && (d in before <==> d in files) && (d in files ==> before[d] == files[d])
            && Scanned(files, entries[..i + 1], now)
               == (if d in files && !Live(files[d], now) then before - {d} else before)
  {
    var d := entries[i];
    assert entries[..i + 1] == entries[..i] + [d];
    assert d !in entries[..i];
    assert forall x :: x in entries[..i + 1] <==> x in entries[..i] || x == d;
  }

  /** And a live one is collected. */
  lemma ScanOneRecord(files: Files, entries: seq<DeliveryId>, i: nat, now: int)
    requires i < |entries|
    ensures Collected(files, entries[..i + 1], now)
            == Collected(files, entries[..i], now)
               + (if entries[i] in files && Live(files[entries[i]], now)
                  then [Load(files[entries[i]].document)] else [])
  {
    assert entries[..i + 1][..i] == entries[..i];
  }

  /** Whatever order the loaded records are put into, each is one of a live listed file and each such file is loaded. */
  lemma LoadedAreListed(files: Files, entries: seq<DeliveryId>, now: int, records: seq<Record>)
    requires NamesMatch(files) && NoDuplicates(entries)
    requires multiset(records) == multiset(Collected(files, entries, now))
    ensures DistinctIds(records)
    ensures forall r | r in records ::
              r.request.delivery.id in Scanned(files, entries, now) && r.expiresAt > now
    ensures forall d | d in entries && d in files && Live(files[d], now) :: Load(files[d].document) in records
  {
    CollectedDistinct(files, entries, now);
    PermutationKeepsDistinctIds(Collected(files, entries, now), records);
    SameMembers(records, Collected(files, entries, now));
    forall r | r in records
      ensures r.request.delivery.id in Scanned(files, entries, now) && r.expiresAt > now
    {
      CollectedIsLive(files, entries, now, r);
    }
  }

  lemma CollectedIsLive(files: Files, entries: seq<DeliveryId>, now: int, r: Record)
    requires NamesMatch(files) && r in Collected(files, entries, now)
    ensures r.request.delivery.id in Scanned(files, entries, now) && r.expiresAt > now
  {
    var d :| d in entries && d in files && Live(files[d], now) && r == Load(files[d].document);
  }

  // ---------------------------------------------------------------- the directory

  class Directory {
    var files: Files

    ghost predicate Consistent()
      reads this
    {
      NamesMatch(files)
    }

    constructor ()
      ensures Consistent() && files == map[]
    {
      files := map[];
    }

    /** Publication is one rename: a reader sees the old file, no file, or the whole new one. */
    method WriteRecord(id: DeliveryId, document: Stored, textAllowed: bool)
      requires document.request.delivery.id == id && Consistent()
      modifies this
      ensures Consistent() && files == old(files)[id := Valid(Write(document, textAllowed))]
    {
      var published := document;
      if !textAllowed && document.request.metadata.Some? {
        var m := document.request.metadata.value;
        if m.finalMessage.Some? || m.conversationSummaryText.Some? {
          published := document.(request := document.request.(metadata :=
            Some(m.(finalMessage := None, conversationSummaryText := None))));
        }
      }
      files := files[id := Valid(published)];
    }

    method Enqueue(request: HookRequest, now: int, textAllowed: bool) returns (published: bool)
      requires Consistent()
      modifies this
      ensures Consistent()
      ensures published == Replayable(request)
      ensures !published ==> files == old(files)
      ensures published ==>
                files == old(files)[request.delivery.value.id :=
                  Valid(Write(Document(CreatePersisted(request, now).value), textAllowed))]
    {
      var record := CreatePersisted(request, now);
      if record.None? {
        return false;
      }
      WriteRecord(record.value.request.delivery.id, Document(record.value), textAllowed);
      return true;
    }

    method Acknowledge(id: DeliveryId)
      requires Consistent()
      modifies this
      ensures Consistent() && files == old(files) - {id}
    {
      files := files - {id};
    }

    /** The uninterrupted abandonment; its two halves interleave in `OutboxProtocol`. */
    method Abandon(id: DeliveryId, now: int, textAllowed: bool)
      requires Consistent()
      modifies this
      ensures Consistent()
      ensures files == if id in old(files) && old(files[id]).Valid?
                       then old(files)[id := Valid(Write(MarkAbandoned(old(files[id]).document, now), textAllowed))]
                       else old(files)
    {
      if id !in files {
        return;
      }
      match files[id]
      case Invalid => return;
      case Valid(document) =>
        if document.request.delivery.id != id {
          return;
        }
        WriteRecord(id, MarkAbandoned(document, now), textAllowed);
    }

    /** Deletes listed files that are invalid or expired and returns the rest in replay order. */
    method LoadPending(entries: seq<DeliveryId>, now: int, rank: string -> real) returns (records: seq<Record>)
      requires Consistent() && NoDuplicates(entries)
      modifies this
      ensures Consistent() && files == Scanned(old(files), entries, now)
      ensures records == Sort(Collected(old(files), entries, now), CompareByTime(rank))
      ensures Ordered(records, CompareByTime(rank)) && DistinctIds(records) && ByTime(records, rank)
      ensures forall r | r in records :: r.request.delivery.id in files && r.expiresAt > now
    {
      records := [];
      ghost var before := files;
      for i := 0 to |entries|
        invariant files == Scanned(before, entries[..i], now)
        invariant records == Collected(before, entries[..i], now)
      {
        var id := entries[i];
        ScanOneFile(before, entries, i, now);
        ScanOneRecord(before, entries, i, now);
        if id !in files {
          continue;
        }
        match files[id]
        case Invalid => files := files - {id};
        case Valid(document) =>
          if document.expiresAt <= now {
            files := files - {id};
          } else {
            records := records + [Load(document)];
          }
      }
      assert entries[..|entries|] == entries;
      TimeIsPreorder(Members(records), rank);
      SortOrders(records, Members(records), CompareByTime(rank));
      records := Sort(records, CompareByTime(rank));
      LoadedAreListed(before, entries, now, records);
      OrderedByTime(records, rank);
    }
  }
}
