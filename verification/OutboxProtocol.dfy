/**
 * The outbox shared by hook writers, one replayer and the runtime, as a machine
 * of single file and network actions. An event that does not apply to the current
 * state changes nothing, so every sequence of events is a run: any interleaving,
 * crash, lost reply, failed removal and clock reading is one.
 */
module OutboxProtocol {
  import opened Values
  import opened OutboxRecords
  import opened OutboxDirectory
  import opened StableSort

  /** What one ingest call comes to: was it accepted, and did the caller see the acceptance? */
  datatype Reply = Reply(accepted: bool, seen: bool)

  datatype Writer =
    | Publishing(record: Record, document: Stored)
    | Delivering
    | Acknowledging
    | Abandoning
    | Rewriting(document: Stored)
    | Stopped

  datatype Replayer =
    | Idle
    | Scanning(now: int, entries: seq<DeliveryId>, loaded: seq<Record>)
    | Expiring(id: DeliveryId, now: int, entries: seq<DeliveryId>, loaded: seq<Record>)
    | Replaying(queue: seq<Record>)
    | Removing(id: DeliveryId, queue: seq<Record>)

  datatype World = World(
    files: map<DeliveryId, Stored>,
    writers: map<DeliveryId, Writer>,
    replayer: Replayer,
    ingested: set<DeliveryId>,            // ids the runtime accepted
    clock: int,                           // the largest clock reading so far
    published: map<DeliveryId, Record>,   // history: records ever published
    renames: map<DeliveryId, nat>,        // history: renames onto the record path
    replays: map<DeliveryId, nat>)        // history: replays accepted and then removed

  datatype WriterEvent =
    | Publish(ok: bool)
    | Ingest(reply: Reply)
    | Acknowledge(ok: bool)
    | GiveUp
    | AbandonRead(now: int, textAllowed: bool)
    | AbandonRename(ok: bool)
    | Crash

  datatype ReplayEvent =
    | Scan(now: int, entries: seq<DeliveryId>)
    | ReadEntry
    | RemoveExpired(ok: bool)
    | Order(queue: seq<Record>)
    | Skip
    | Replay(reply: Reply)
    | Remove(ok: bool)
    | EndOrCrash

  datatype Event =
    | Capture(request: HookRequest, now: int, textAllowed: bool)
    | OfWriter(id: DeliveryId, step: WriterEvent)
    | OfReplayer(act: ReplayEvent)

  const Start: World := World(map[], map[], Idle, {}, 0, map[], map[], map[])

  function Count(m: map<DeliveryId, nat>, d: DeliveryId): nat {
    if d in m then m[d] else 0
  }

  // ---------------------------------------------------------------- steps

  /** What a writer's step can touch: everything about its own delivery id. */
  datatype Slot = Slot(
    file: Option<Stored>, writer: Writer, published: Option<Record>, ingested: bool, renames: nat)

  function At<T>(m: map<DeliveryId, T>, d: DeliveryId): Option<T> {
    if d in m then Some(m[d]) else None
  }

  function Set<T>(m: map<DeliveryId, T>, d: DeliveryId, x: Option<T>): map<DeliveryId, T> {
    if x.Some? then m[d := x.value] else m - {d}
  }

  function SlotOf(w: World, d: DeliveryId): Slot
    requires d in w.writers
  {
    Slot(At(w.files, d), w.writers[d], At(w.published, d), d in w.ingested, Count(w.renames, d))
  }

  function SlotStep(s: Slot, e: WriterEvent): Slot {
    match (s.writer, e)
    case (Publishing(record, document), Publish(ok)) =>
      if !ok then s.(writer := Stopped)
      else s.(file := Some(document), writer := Delivering, published := Some(record), renames := s.renames + 1)
    case (Delivering, Ingest(reply)) =>
      s.(ingested := s.ingested || reply.accepted,
         writer := if reply.accepted && reply.seen then Acknowledging else Delivering)
    case (Delivering, GiveUp) => s.(writer := Abandoning)
    case (Acknowledging, Acknowledge(ok)) =>
      if ok then s.(file := None, writer := Stopped) else s.(writer := Abandoning)
    case (Abandoning, AbandonRead(now, textAllowed)) =>
      if s.file.None? then s.(writer := Stopped)
      else s.(writer := Rewriting(Write(MarkAbandoned(s.file.value, now), textAllowed)))
    case (Rewriting(document), AbandonRename(ok)) =>
      if !ok then s.(writer := Stopped)
      else s.(file := Some(document), writer := Stopped, renames := s.renames + 1)
    case (_, Crash) => s.(writer := Stopped)
    case _ => s
  }

  function Put(w: World, d: DeliveryId, s: Slot, clock: int): World {
    w.(files := Set(w.files, d, s.file),
       writers := w.writers[d := s.writer],
       published := Set(w.published, d, s.published),
       ingested := if s.ingested then w.ingested + {d} else w.ingested - {d},
       renames := w.renames[d := s.renames],
       clock := clock)
  }

  function WriterStep(w: World, d: DeliveryId, e: WriterEvent): World
    requires d in w.writers
  {
    Put(w, d, SlotStep(SlotOf(w, d), e), if e.AbandonRead? then Max(w.clock, e.now) else w.clock)
  }

  function ReplayStep(w: World, e: ReplayEvent): World {
    match (w.replayer, e)
    case (Idle, Scan(now, entries)) =>
      w.(replayer := Scanning(now, entries, []), clock := Max(w.clock, now))
    case (Scanning(now, entries, loaded), ReadEntry) =>
      if entries == [] then w
      else
        var d, rest := entries[0], entries[1..];
        if d !in w.files then w.(replayer := Scanning(now, rest, loaded))
        else if w.files[d].expiresAt <= now then w.(replayer := Expiring(d, now, rest, loaded))
        else w.(replayer := Scanning(now, rest, loaded + [Load(w.files[d])]))
    case (Expiring(d, now, rest, loaded), RemoveExpired(ok)) =>
      w.(files := if ok then w.files - {d} else w.files, replayer := Scanning(now, rest, loaded))
    case (Scanning(_, entries, loaded), Order(queue)) =>
      if entries == [] && multiset(queue) == multiset(loaded) then w.(replayer := Replaying(queue)) else w
    case (Replaying(queue), Skip) =>
      if queue == [] then w else w.(replayer := Replaying(queue[1..]))
    case (Replaying(queue), Replay(reply)) =>
      if queue == [] then w
      else
        var d, rest := queue[0].request.delivery.id, queue[1..];
        w.(ingested := if reply.accepted then w.ingested + {d} else w.ingested,
           replayer := if reply.accepted && reply.seen then Removing(d, rest) else Replaying(rest))
    case (Removing(d, rest), Remove(ok)) =>
      if !ok then w.(replayer := Replaying(rest))
      else w.(files := w.files - {d}, replayer := Replaying(rest), replays := w.replays[d := Count(w.replays, d) + 1])
    case (_, EndOrCrash) => w.(replayer := Idle)
    case _ => w
  }

  ghost predicate Possible(e: Event) {
    // A directory listing names each file once.
    e.OfReplayer? && e.act.Scan? ==> NoDuplicates(e.act.entries)
  }

  function CaptureStep(w: World, record: Record, now: int, textAllowed: bool): World {
    var d := record.request.delivery.id;
    if d in w.writers then w
    else w.(clock := Max(w.clock, now),
            writers := w.writers[d := Publishing(record, Write(Document(record), textAllowed))])
  }

  function Apply(w: World, e: Event): World {
    match e
    case Capture(request, now, textAllowed) =>
      var record := CreatePersisted(request, now);
      if record.None? then w else CaptureStep(w, record.value, now, textAllowed)
    case OfWriter(id, step) => if id in w.writers then WriterStep(w, id, step) else w
    case OfReplayer(act) => ReplayStep(w, act)
  }

  function Run(events: seq<Event>): World {
    if events == [] then Start else Apply(Run(events[..|events| - 1]), events[|events| - 1])
  }

  ghost predicate Runs(events: seq<Event>) {
    forall i | 0 <= i < |events| :: Possible(events[i])
  }

  // ---------------------------------------------------------------- invariant

  /** The same transition: reply text and the abandonment mark are all that may differ. */
  predicate SameTransition(document: Stored, r: Record) {
    && document.expiresAt == r.expiresAt
    && document.enqueuedAt == Some(r.enqueuedAt)
    && SameRequest(document.request, r.request)
  }

  predicate SameRequest(a: Request, b: Request) {
    a == b || a == StripRequest(b, false)
  }

  /** A record as `CreatePersisted` builds it: its content policy has been applied. */
  predicate Normal(r: Record) {
    NormalizeOption(r.request.event, r.request.metadata) == r.request.metadata
    && r.request.metadata.Some?
  }

  predicate Replaces(r: Record, published: Record) {
    && r.expiresAt == published.expiresAt
    && SameRequest(r.request, published.request)
  }

  /** Ids the replayer still holds from its scan. */
  function Held(r: Replayer): seq<Record> {
    match r
    case Idle => []
    case Scanning(_, _, loaded) => loaded
    case Expiring(_, _, _, loaded) => loaded
    case Replaying(queue) => queue
    case Removing(_, queue) => queue
  }

  function Unread(r: Replayer): seq<DeliveryId> {
    match r
    case Scanning(_, entries, _) => entries
    case Expiring(_, _, entries, _) => entries
    case _ => []
  }

  ghost predicate HoldsId(r: Replayer, d: DeliveryId) {
    (exists x | x in Held(r) :: x.request.delivery.id == d) || (r.Removing? && r.id == d)
  }

  ghost predicate PhaseOk(s: Slot, same: (Stored, Record) -> bool, sound: Record -> bool) {
    match s.writer
    case Publishing(record, document) =>
      s.published.None? && s.renames == 0 && sound(record) && same(document, record)
    case Delivering => s.published.Some? && s.renames == 1
    case Acknowledging => s.published.Some? && s.renames == 1 && s.ingested
    case Abandoning => s.published.Some? && s.renames == 1
    case Rewriting(document) =>
      && s.published.Some? && s.renames == 1
      && document.abandonedAt.Some? && same(document, s.published.value)
    case Stopped => s.renames <= 2
  }

  /** Present, delivered, or past its time to live. */
  ghost predicate Kept(s: Slot, clock: int) {
    s.published.Some? ==> s.file.Some? || s.ingested || s.published.value.expiresAt <= clock
  }

  /** Sound for any notion of the same transition that an abandonment rewrite respects. */
  ghost predicate SlotSound(s: Slot, clock: int, same: (Stored, Record) -> bool, sound: Record -> bool) {
    && PhaseOk(s, same, sound)
    && Kept(s, clock)
    && (s.published.Some? <==> s.renames >= 1)
    && (s.published.Some? ==> sound(s.published.value))
    && (s.file.Some? ==> s.published.Some? && same(s.file.value, s.published.value))
  }

  ghost predicate SlotOk(s: Slot, d: DeliveryId, clock: int) {
    SlotSound(s, clock, SameTransition, NormalFor(d))
  }

  /** The record of `d`, with the content policy applied. */
  ghost function NormalFor(d: DeliveryId): Record -> bool {
    (r: Record) => Normal(r) && r.request.delivery.id == d
  }

  /** Each completed replay used up one rename; a visible or held record has one in reserve. */
  ghost predicate ReplaysPaid(w: World, d: DeliveryId) {
    Count(w.replays, d) + (if d in w.files || HoldsId(w.replayer, d) then 1 else 0) <= Count(w.renames, d)
  }

  ghost predicate Untouched(w: World, d: DeliveryId) {
    d !in w.files && d !in w.published && Count(w.renames, d) == 0
  }

  ghost predicate IdOk(w: World, d: DeliveryId) {
    && (if d in w.writers then SlotOk(SlotOf(w, d), d, w.clock) else Untouched(w, d))
    && ReplaysPaid(w, d)
  }

  ghost predicate HeldOk(w: World, x: Record) {
    x.request.delivery.id in w.published && Replaces(x, w.published[x.request.delivery.id])
  }

  ghost predicate ReplayerOk(w: World) {
    var r := w.replayer;
    && (forall x | x in Held(r) :: HeldOk(w, x))
    && DistinctIds(Held(r))
    && NoDuplicates(Unread(r))
    && (forall x | x in Held(r) :: x.request.delivery.id !in Unread(r))
    && (r.Scanning? || r.Expiring? ==> r.now <= w.clock)
    && (r.Expiring? ==> r.id in w.published && w.published[r.id].expiresAt <= r.now)
    && (r.Removing? ==> r.id in w.published && r.id in w.ingested
                        && forall x | x in r.queue :: x.request.delivery.id != r.id)
  }

  ghost predicate IdsOk(w: World) {
    forall d :: IdOk(w, d)
  }

  ghost predicate Inv(w: World) {
    IdsOk(w) && ReplayerOk(w)
  }

  // ---------------------------------------------------------------- preservation

  lemma CreatedIsNormal(request: HookRequest, now: int, textAllowed: bool)
    requires CreatePersisted(request, now).Some?
    ensures var r := CreatePersisted(request, now).value;
            Normal(r) && SameTransition(Write(Document(r), textAllowed), r)
  {
    NormalizeIdempotent(request.event, request.metadata.value);
  }

  lemma RewriteIsSame(document: Stored, r: Record, now: int, textAllowed: bool)
    requires SameTransition(document, r)
    ensures SameTransition(Write(MarkAbandoned(document, now), textAllowed), r)
  {
  }

  lemma LoadedReplaces(document: Stored, r: Record)
    requires SameTransition(document, r) && Normal(r)
    ensures Replaces(Load(document), r) && Load(document).request.delivery.id == r.request.delivery.id
  {
    StripThenNormalize(r.request.event, r.request.metadata.value);
  }

  lemma CaptureKeepsInv(w: World, record: Record, now: int, textAllowed: bool)
    requires Inv(w) && Normal(record) && SameTransition(Write(Document(record), textAllowed), record)
    ensures Inv(CaptureStep(w, record, now, textAllowed))
  {
    var w', d := CaptureStep(w, record, now, textAllowed), record.request.delivery.id;
    forall x
      ensures IdOk(w', x)
    {
      assert IdOk(w, x);
    }
  }

  lemma SlotStepKeeps(s: Slot, clock: int, e: WriterEvent, same: (Stored, Record) -> bool, sound: Record -> bool)
    requires SlotSound(s, clock, same, sound)
    requires forall document, r, now, textAllowed
               {:trigger same(Write(MarkAbandoned(document, now), textAllowed), r)} ::
               same(document, r) ==> same(Write(MarkAbandoned(document, now), textAllowed), r)
    ensures SlotSound(SlotStep(s, e), clock, same, sound)
  {
  }

  lemma WriterStepKeepsSlot(s: Slot, d: DeliveryId, clock: int, e: WriterEvent)
    requires SlotOk(s, d, clock)
    ensures SlotOk(SlotStep(s, e), d, clock)
  {
    forall document, r, now, textAllowed | SameTransition(document, r)
      ensures SameTransition(Write(MarkAbandoned(document, now), textAllowed), r)
    {
      RewriteIsSame(document, r, now, textAllowed);
    }
    SlotStepKeeps(s, clock, e, SameTransition, NormalFor(d));
  }

  lemma SlotStepMonotone(s: Slot, e: WriterEvent)
    requires s.writer.Publishing? ==> s.published.None?
    ensures var s' := SlotStep(s, e);
            && (s.published.Some? ==> s'.published == s.published)
            && (s.ingested ==> s'.ingested)
            && s.renames <= s'.renames
            && (s'.file.Some? && s.file.None? ==> s'.renames == s.renames + 1)
  {
  }

  lemma WriterKeepsInv(w: World, d: DeliveryId, e: WriterEvent)
    requires Inv(w) && d in w.writers
    ensures Inv(WriterStep(w, d, e))
  {
    var w' := WriterStep(w, d, e);
    assert IdOk(w, d);
    WriterStepKeepsSlot(SlotOf(w, d), d, w.clock, e);
    SlotStepMonotone(SlotOf(w, d), e);
    PutKeeps(w, d, SlotStep(SlotOf(w, d), e), w'.clock);
  }

  lemma PutKeepsId(w: World, d: DeliveryId, s: Slot, clock: int, x: DeliveryId)
    requires IdOk(w, x) && d in w.writers && w.clock <= clock && SlotOk(s, d, w.clock)
    requires s.renames >= Count(w.renames, d)
    requires s.file.Some? && d !in w.files ==> s.renames > Count(w.renames, d)
    ensures IdOk(Put(w, d, s, clock), x)
  {
    var w' := Put(w, d, s, clock);
    if x == d {
      assert SlotOf(w', d) == s;
    } else if x in w.writers {
      assert SlotOf(w', x) == SlotOf(w, x);
    }
  }

  lemma PutKeeps(w: World, d: DeliveryId, s: Slot, clock: int)
    requires Inv(w) && d in w.writers && w.clock <= clock && SlotOk(s, d, w.clock)
    requires d in w.published ==> s.published == Some(w.published[d])
    requires d in w.ingested ==> s.ingested
    requires s.renames >= Count(w.renames, d)
    requires s.file.Some? && d !in w.files ==> s.renames > Count(w.renames, d)
    ensures Inv(Put(w, d, s, clock))
  {
    var w' := Put(w, d, s, clock);
    forall x
      ensures IdOk(w', x)
    {
      assert IdOk(w, x);
      PutKeepsId(w, d, s, clock, x);
    }
    assert forall x | x in Held(w.replayer) :: HeldOk(w, x);
  }

  /** The replayer may drop what it holds, hold a visible record, learn of an ingest, and see time pass. */
  lemma RelaxAll(w: World, w': World)
    requires IdsOk(w) && w.clock <= w'.clock && w.ingested <= w'.ingested
    requires w' == w.(replayer := w'.replayer, ingested := w'.ingested, clock := w'.clock)
    requires forall d :: HoldsId(w'.replayer, d) ==> HoldsId(w.replayer, d) || d in w.files
    ensures IdsOk(w')
  {
    forall d
      ensures IdOk(w', d)
    {
      assert IdOk(w, d);
    }
  }

  lemma ReadKeepsInv(w: World)
    requires Inv(w) && w.replayer.Scanning? && w.replayer.entries != []
    ensures Inv(ReplayStep(w, ReadEntry))
  {
    var w' := ReplayStep(w, ReadEntry);
    ReadKeepsReplayer(w);
    forall d
      ensures HoldsId(w'.replayer, d) ==> HoldsId(w.replayer, d) || d in w.files
    {
      ReadHoldsVisible(w, d);
    }
    RelaxAll(w, w');
  }

  /** Reading an entry adds at most the record of a visible file. */
  lemma ReadHoldsVisible(w: World, d: DeliveryId)
    requires Inv(w) && w.replayer.Scanning? && w.replayer.entries != []
    ensures HoldsId(ReplayStep(w, ReadEntry).replayer, d) ==> HoldsId(w.replayer, d) || d in w.files
  {
    var next := w.replayer.entries[0];
    if next in w.files {
      assert IdOk(w, next);
      LoadedReplaces(w.files[next], w.published[next]);
    }
  }

  lemma ReadKeepsReplayer(w: World)
    requires Inv(w) && w.replayer.Scanning? && w.replayer.entries != []
    ensures ReplayerOk(ReplayStep(w, ReadEntry))
  {
    var w', d := ReplayStep(w, ReadEntry), w.replayer.entries[0];
    assert IdOk(w, d);
    assert d in w.replayer.entries;
    assert forall x | x in Unread(w'.replayer) :: x in w.replayer.entries && x != d;
    if d in w.files && w.files[d].expiresAt > w.replayer.now {
      FileIsHeldSoundly(w, d);
      LoadedKeepsReplayer(w, Load(w.files[d]));
    } else {
      assert Held(w'.replayer) == Held(w.replayer);
    }
  }

  lemma FileIsHeldSoundly(w: World, d: DeliveryId)
    requires IdOk(w, d) && d in w.files
    ensures Load(w.files[d]).request.delivery.id == d && HeldOk(w, Load(w.files[d]))
  {
    LoadedReplaces(w.files[d], w.published[d]);
  }

  lemma LoadedKeepsReplayer(w: World, r: Record)
    requires ReplayerOk(w) && w.replayer.Scanning? && w.replayer.entries != []
    requires r.request.delivery.id == w.replayer.entries[0] && HeldOk(w, r)
    ensures ReplayerOk(w.(replayer := Scanning(w.replayer.now, w.replayer.entries[1..], w.replayer.loaded + [r])))
  {
    var loaded, rest := w.replayer.loaded, w.replayer.entries[1..];
    LoadedOne(w, r);
    assert forall x | x in loaded :: x in Held(w.replayer) && HeldOk(w, x);
    assert forall d | d in rest :: d in w.replayer.entries && d != w.replayer.entries[0];
  }

  lemma LoadedOne(w: World, r: Record)
    requires ReplayerOk(w) && w.replayer.Scanning? && r.request.delivery.id in w.replayer.entries
    ensures DistinctIds(w.replayer.loaded + [r])
  {
    var loaded := w.replayer.loaded;
    forall i | 0 <= i < |loaded|
      ensures loaded[i].request.delivery.id != r.request.delivery.id
    {
      assert loaded[i] in Held(w.replayer);
    }
  }

  lemma OrderKeepsInv(w: World, queue: seq<Record>)
    requires Inv(w) && w.replayer.Scanning?
    ensures Inv(ReplayStep(w, Order(queue)))
  {
    var w', loaded := ReplayStep(w, Order(queue)), w.replayer.loaded;
    if w.replayer.entries == [] && multiset(queue) == multiset(loaded) {
      PermutationKeepsDistinctIds(loaded, queue);
      forall x
        ensures x in queue <==> x in loaded
      {
        assert x in queue <==> x in multiset(queue);
        assert x in loaded <==> x in multiset(loaded);
      }
      assert w' == w.(replayer := Replaying(queue));
      assert Held(w'.replayer) == queue && Held(w.replayer) == loaded;
      assert forall x | x in queue :: HeldOk(w, x);
      RelaxAll(w, w');
    }
  }

  /** Taking the head of the queue, with or without an ingest. */
  lemma TakeKeepsInv(w: World, e: ReplayEvent)
    requires Inv(w) && w.replayer.Replaying? && w.replayer.queue != [] && (e.Skip? || e.Replay?)
    ensures Inv(ReplayStep(w, e))
  {
    var w', head, rest := ReplayStep(w, e), w.replayer.queue[0], w.replayer.queue[1..];
    RestIsSmaller(w.replayer.queue);
    assert head in Held(w.replayer) && HeldOk(w, head);
    assert Held(w'.replayer) == rest;
    assert forall x | x in rest :: x in Held(w.replayer) && HeldOk(w, x);
    RelaxAll(w, w');
  }

  lemma RestIsSmaller(queue: seq<Record>)
    requires queue != [] && DistinctIds(queue)
    ensures DistinctIds(queue[1..])
    ensures forall x | x in queue[1..] :: x in queue && x.request.delivery.id != queue[0].request.delivery.id
  {
  }

  lemma RemoveKeepsInv(w: World, ok: bool)
    requires Inv(w) && w.replayer.Removing?
    ensures Inv(ReplayStep(w, Remove(ok)))
  {
    var w', d := ReplayStep(w, Remove(ok)), w.replayer.id;
    if ok {
      assert forall x | x != d :: HoldsId(w'.replayer, x) ==> HoldsId(w.replayer, x);
      forall x
        ensures IdOk(w', x)
      {
        assert IdOk(w, x);
      }
    } else {
      RelaxAll(w, w');
    }
  }

  lemma ExpireKeepsInv(w: World, ok: bool)
    requires Inv(w) && w.replayer.Expiring?
    ensures Inv(ReplayStep(w, RemoveExpired(ok)))
  {
    var w' := ReplayStep(w, RemoveExpired(ok));
    forall x
      ensures IdOk(w', x)
    {
      assert IdOk(w, x);
    }
  }

  lemma IdleKeepsInv(w: World, e: ReplayEvent)
    requires Inv(w) && Possible(OfReplayer(e)) && (e.Scan? || e.EndOrCrash?)
    ensures Inv(ReplayStep(w, e))
  {
    var w' := ReplayStep(w, e);
    if w' != w {
      RelaxAll(w, w');
    }
  }

  lemma {:induction false} InvHolds(events: seq<Event>)
    requires Runs(events)
    ensures Inv(Run(events))
  {
    if events != [] {
      var before, e := events[..|events| - 1], events[|events| - 1];
      InvHolds(before);
      match e
      case Capture(request, now, textAllowed) =>
        if CreatePersisted(request, now).Some? {
          CreatedIsNormal(request, now, textAllowed);
          CaptureKeepsInv(Run(before), CreatePersisted(request, now).value, now, textAllowed);
        }
      case OfWriter(id, step) => if id in Run(before).writers { WriterKeepsInv(Run(before), id, step); }
      case OfReplayer(act) => ReplayKeepsInv(Run(before), act);
    }
  }

  lemma ReplayKeepsInv(w: World, e: ReplayEvent)
    requires Inv(w) && Possible(OfReplayer(e))
    ensures Inv(ReplayStep(w, e))
  {
    match (w.replayer, e)
    case (Scanning(now, entries, loaded), ReadEntry) =>
      if entries != [] { ReadKeepsInv(w); }
    case (Scanning(_, entries, loaded), Order(queue)) => OrderKeepsInv(w, queue);
    case (Replaying(queue), Skip) => if queue != [] { TakeKeepsInv(w, e); }
    case (Replaying(queue), Replay(reply)) => if queue != [] { TakeKeepsInv(w, e); }
    case (Removing(d, rest), Remove(ok)) => RemoveKeepsInv(w, ok);
    case (Expiring(d, now, rest, loaded), RemoveExpired(ok)) => ExpireKeepsInv(w, ok);
    case _ => if e.Scan? || e.EndOrCrash? { IdleKeepsInv(w, e); }
  }

  // ---------------------------------------------------------------- what every run guarantees

  /**
   * Conservation: however writers, replayer and crashes interleave, a published
   * record is missing from the directory only if the runtime accepted its delivery
   * or its time to live had passed; and what is there is the published transition.
   */
  lemma Conservation(events: seq<Event>)
    requires Runs(events)
    ensures var w := Run(events);
            && (forall d | d in w.published ::
                  d in w.files || d in w.ingested || w.published[d].expiresAt <= w.clock)
            && (forall d | d in w.files ::
                  d in w.published && SameTransition(w.files[d], w.published[d]))
  {
    InvHolds(events);
    var w := Run(events);
    forall d
      ensures d in w.published ==> d in w.files || d in w.ingested || w.published[d].expiresAt <= w.clock
      ensures d in w.files ==> d in w.published && SameTransition(w.files[d], w.published[d])
    {
      assert IdOk(w, d);
    }
  }

  /**
   * Only an abandonment rewrite ever brings a record back, only one that was
   * delivered or had expired, and only as the published transition marked abandoned.
   */
  lemma OnlyAbandonmentRestores(events: seq<Event>, e: Event, d: DeliveryId)
    requires Runs(events) && Possible(e)
    requires var w := Run(events); d in w.published && d !in w.files && d in Apply(w, e).files
    ensures var w, w' := Run(events), Apply(Run(events), e);
            && e == OfWriter(d, AbandonRename(true))
            && (d in w.ingested || w.published[d].expiresAt <= w.clock)
            && Count(w.renames, d) == 1 && Count(w'.renames, d) == 2
            && d in w'.writers && w'.writers[d] == Stopped
            && w'.files[d].abandonedAt.Some? && SameTransition(w'.files[d], w.published[d])
  {
    InvHolds(events);
    RestoreFrom(Run(events), e, d);
  }

  lemma RestoreFrom(w: World, e: Event, d: DeliveryId)
    requires Inv(w) && d in w.published && d !in w.files && d in Apply(w, e).files
    ensures e == OfWriter(d, AbandonRename(true))
    ensures d in w.ingested || w.published[d].expiresAt <= w.clock
    ensures Count(w.renames, d) == 1 && d in w.writers && w.writers[d].Rewriting?
    ensures var w' := Apply(w, e);
            && Count(w'.renames, d) == 2 && d in w'.writers && w'.writers[d] == Stopped
            && w'.files[d].abandonedAt.Some? && SameTransition(w'.files[d], w.published[d])
  {
    OnlyWritersAddFiles(w, e, d);
    assert IdOk(w, d);
    RestoringStep(SlotOf(w, d), e.step);
    assert SlotOk(SlotOf(w, d), d, w.clock);
  }

  lemma OnlyWritersAddFiles(w: World, e: Event, d: DeliveryId)
    requires d !in w.files && d in Apply(w, e).files
    ensures e.OfWriter? && e.id == d && d in w.writers
  {
    match e
    case Capture(request, now, textAllowed) =>
    case OfWriter(id, step) =>
    case OfReplayer(act) => ReplayerAddsNothing(w, act);
  }

  lemma ReplayerAddsNothing(w: World, e: ReplayEvent)
    ensures ReplayStep(w, e).files.Keys <= w.files.Keys
  {
  }

  lemma RestoringStep(s: Slot, e: WriterEvent)
    requires s.published.Some? && s.file.None? && SlotStep(s, e).file.Some?
    requires s.writer.Publishing? ==> s.published.None?
    ensures s.writer.Rewriting? && e == AbandonRename(true)
  {
  }

  /**
   * A record is renamed into place at most twice in any run: by its publication and
   * by one abandonment. The replayer completes no more replays of it than that.
   */
  lemma AtMostOneDuplicate(events: seq<Event>, d: DeliveryId)
    requires Runs(events)
    ensures var w := Run(events);
            && Count(w.replays, d) <= Count(w.renames, d) <= 2
            && (Count(w.replays, d) == 2 ==>
                  && d in w.published && d !in w.files && !HoldsId(w.replayer, d)
                  && d in w.writers && w.writers[d] == Stopped)
  {
    InvHolds(events);
    DuplicateFrom(Run(events), d);
  }

  lemma DuplicateFrom(w: World, d: DeliveryId)
    requires IdOk(w, d)
    ensures Count(w.replays, d) <= Count(w.renames, d) <= 2
    ensures Count(w.replays, d) == 2 ==>
              && d in w.published && d !in w.files && !HoldsId(w.replayer, d)
              && d in w.writers && w.writers[d] == Stopped
  {
  }

  /** Whatever the replayer holds is the published request, reply text aside. */
  lemma ReplaysWhatWasPublished(events: seq<Event>, x: Record)
    requires Runs(events) && x in Held(Run(events).replayer)
    ensures var w, d := Run(events), x.request.delivery.id;
            && d in w.published
            && x.request.(metadata := None) == w.published[d].request.(metadata := None)
            && SameRequest(x.request, w.published[d].request)
            && x.expiresAt == w.published[d].expiresAt
  {
    InvHolds(events);
    assert HeldOk(Run(events), x);
  }

  /** The published record is on disk at once. */
  lemma PublicationIsOnDisk(events: seq<Event>, d: DeliveryId)
    requires Runs(events)
    requires var w := Run(events); d in w.writers && w.writers[d].Publishing?
    ensures var w, w' := Run(events), Apply(Run(events), OfWriter(d, Publish(true)));
            && d in w'.files && d in w'.published && w'.published[d] == w.writers[d].record
            && SameTransition(w'.files[d], w'.published[d])
  {
    InvHolds(events);
    assert IdOk(Run(events), d);
  }

  /**
   * How a writer ends, in every run: by a crash or a failed rename, which leave the files as they
   * are; with its record deleted, only after the runtime accepted it; with its record marked
   * abandoned; or because there was nothing left to mark.
   */
  lemma WriterEnds(events: seq<Event>, step: WriterEvent, d: DeliveryId)
    requires Runs(events)
    requires var w, w' := Run(events), Apply(Run(events), OfWriter(d, step));
             d in w.writers && !w.writers[d].Stopped? && w'.writers[d].Stopped?
    ensures var w, w' := Run(events), Apply(Run(events), OfWriter(d, step));
            match step
            case Crash => w'.files == w.files
            case Publish(ok) => !ok && w'.files == w.files && d !in w'.published
            case Acknowledge(ok) => ok && d !in w'.files && d in w'.ingested
            case AbandonRead(_, _) => d !in w.files && w'.files == w.files
            case AbandonRename(true) => d in w'.files && w'.files[d].abandonedAt.Some?
            case AbandonRename(false) => w'.files == w.files
            case _ => false
  {
    InvHolds(events);
    assert IdOk(Run(events), d);
    WriterEndsFrom(Run(events), step, d);
  }

  lemma WriterEndsFrom(w: World, step: WriterEvent, d: DeliveryId)
    requires d in w.writers && IdOk(w, d) && !w.writers[d].Stopped? && WriterStep(w, d, step).writers[d].Stopped?
    ensures var w' := WriterStep(w, d, step);
            match step
            case Crash => w'.files == w.files
            case Publish(ok) => !ok && w'.files == w.files && d !in w'.published
            case Acknowledge(ok) => ok && d !in w'.files && d in w'.ingested
            case AbandonRead(_, _) => d !in w.files && w'.files == w.files
            case AbandonRename(true) => d in w'.files && w'.files[d].abandonedAt.Some?
            case AbandonRename(false) => w'.files == w.files
            case _ => false
  {
    var slot := SlotOf(w, d);
    SlotEnds(slot, SlotStep(slot, step), step, d, w.clock);
    SetToItself(w.files, d);
  }

  lemma SlotEnds(s: Slot, s': Slot, step: WriterEvent, d: DeliveryId, clock: int)
    requires SlotOk(s, d, clock) && s' == SlotStep(s, step) && !s.writer.Stopped? && s'.writer.Stopped?
    ensures match step
            case Crash => s'.file == s.file
            case Publish(ok) => !ok && s'.file == s.file && s'.published.None?
            case Acknowledge(ok) => ok && s'.file.None? && s'.ingested
            case AbandonRead(_, _) => s.file.None? && s'.file.None?
            case AbandonRename(true) => s'.file.Some? && s'.file.value.abandonedAt.Some?
            case AbandonRename(false) => s'.file == s.file
            case _ => false
  {
  }

  lemma SetToItself<T>(m: map<DeliveryId, T>, d: DeliveryId)
    ensures Set(m, d, At(m, d)) == m
  {
  }

  const HEARD: Reply := Reply(true, true)

  lemma SlotAcknowledging(s: Slot, step: WriterEvent)
    requires SlotStep(s, step).writer.Acknowledging? && !s.writer.Acknowledging?
    ensures step == Ingest(HEARD)
  {
  }

  lemma OthersKeepTheirWriter(w: World, e: Event, d: DeliveryId)
    requires !e.OfWriter? || e.id != d
    ensures d in w.writers ==> d in Apply(w, e).writers && Apply(w, e).writers[d] == w.writers[d]
    ensures d !in w.writers ==> d !in Apply(w, e).writers || Apply(w, e).writers[d].Publishing?
  {
    if e.OfReplayer? { ReplayKeepsWriters(w, e.act); }
  }

  lemma ReplayKeepsWriters(w: World, e: ReplayEvent)
    ensures ReplayStep(w, e).writers == w.writers
  {
  }

  lemma BecomesAcknowledging(w: World, e: Event, d: DeliveryId)
    requires var w' := Apply(w, e); d in w'.writers && w'.writers[d].Acknowledging?
    requires !(d in w.writers && w.writers[d].Acknowledging?)
    ensures e == OfWriter(d, Ingest(HEARD))
  {
    if e.OfWriter? && e.id == d {
      SlotAcknowledging(SlotOf(w, d), e.step);
    } else {
      OthersKeepTheirWriter(w, e, d);
    }
  }

  /** In every run a writer deletes its record only after it heard, itself, that the runtime accepted it. */
  lemma {:induction false} DeletionWasHeard(events: seq<Event>, d: DeliveryId)
    requires var w := Run(events); d in w.writers && w.writers[d].Acknowledging?
    ensures OfWriter(d, Ingest(HEARD)) in events
  {
    var before, last := events[..|events| - 1], events[|events| - 1];
    var w := Run(before);
    if d in w.writers && w.writers[d].Acknowledging? {
      DeletionWasHeard(before, d);
    } else {
      BecomesAcknowledging(w, last, d);
      assert last in events;
    }
  }

  lemma BecomesRemoving(w: World, e: Event)
    requires Apply(w, e).replayer.Removing? && Apply(w, e).replayer != w.replayer
    ensures e == OfReplayer(Replay(HEARD))
    ensures w.replayer.Replaying? && w.replayer.queue != []
            && w.replayer.queue[0].request.delivery.id == Apply(w, e).replayer.id
  {
    if !e.OfReplayer? {
      WritersKeepReplayer(w, e);
    } else {
      ReplayRemoving(w, e.act);
    }
  }

  lemma WritersKeepReplayer(w: World, e: Event)
    requires !e.OfReplayer?
    ensures Apply(w, e).replayer == w.replayer
  {
  }

  lemma ReplayRemoving(w: World, e: ReplayEvent)
    requires ReplayStep(w, e).replayer.Removing? && ReplayStep(w, e).replayer != w.replayer
    ensures e == Replay(HEARD) && w.replayer.Replaying? && w.replayer.queue != []
            && w.replayer.queue[0].request.delivery.id == ReplayStep(w, e).replayer.id
  {
    match w.replayer
    case Idle =>
    case Scanning(now, entries, loaded) =>
    case Expiring(d, now, rest, loaded) =>
    case Replaying(queue) =>
    case Removing(d, rest) =>
  }

  /** And the replayer removes a record only after it heard that of the replay of this very record. */
  lemma {:induction false} RemovalWasHeard(events: seq<Event>) returns (i: nat)
    requires Run(events).replayer.Removing?
    ensures i < |events| && events[i] == OfReplayer(Replay(HEARD)) && Run(events[..i]).replayer.Replaying?
    ensures var queue := Run(events[..i]).replayer.queue;
            queue != [] && queue[0].request.delivery.id == Run(events).replayer.id
  {
    var n := |events| - 1;
    if Run(events[..n]).replayer == Run(events).replayer {
      i := RemovalWasHeard(events[..n]);
      assert events[..n][..i] == events[..i];
    } else {
      BecomesRemoving(Run(events[..n]), events[n]);
      i := n;
    }
  }

  /** A completed removal takes a replayed record away, or an expired one, and nothing else. */
  lemma RemovalTakesTheRecord(events: seq<Event>)
    requires Runs(events) && (Run(events).replayer.Removing? || Run(events).replayer.Expiring?)
    ensures var w := Run(events);
            var removed := Apply(w, OfReplayer(if w.replayer.Removing? then Remove(true) else RemoveExpired(true)));
            && removed.files == w.files - {w.replayer.id}
            && (w.replayer.Removing? ==> w.replayer.id in w.ingested)
            && (w.replayer.Expiring? ==>
                  w.replayer.id in w.published && w.published[w.replayer.id].expiresAt <= w.replayer.now)
  {
    InvHolds(events);
    RemovalFrom(Run(events));
  }

  lemma RemovalFrom(w: World)
    requires ReplayerOk(w) && (w.replayer.Removing? || w.replayer.Expiring?)
    ensures Apply(w, OfReplayer(if w.replayer.Removing? then Remove(true) else RemoveExpired(true))).files
            == w.files - {w.replayer.id}
    ensures w.replayer.Removing? ==> w.replayer.id in w.ingested
    ensures w.replayer.Expiring? ==>
              w.replayer.id in w.published && w.published[w.replayer.id].expiresAt <= w.replayer.now
  {
  }

  /** A delivery that nothing disturbs: the record is published, accepted and deleted. */
  lemma UndisturbedDelivery(record: Record, document: Stored)
    ensures var published := SlotStep(Slot(None, Publishing(record, document), None, false, 0), Publish(true));
            && published.file == Some(document)
            && SlotStep(SlotStep(published, Ingest(Reply(true, true))), Acknowledge(true))
               == Slot(None, Stopped, Some(record), true, 1)
  {
  }

  /** A delivery that is given up: the record stays, marked abandoned. */
  lemma UndisturbedAbandonment(record: Record, document: Stored, now: int, textAllowed: bool)
    ensures var published := SlotStep(Slot(None, Publishing(record, document), None, false, 0), Publish(true));
            SlotStep(SlotStep(SlotStep(published, GiveUp), AbandonRead(now, textAllowed)), AbandonRename(true))
            == Slot(Some(Write(MarkAbandoned(document, now), textAllowed)), Stopped, Some(record), false, 2)
  {
  }

  /** A failed deletion is given up as well, and where the record is gone nothing is marked. */
  lemma FailedDeletionAbandons(s: Slot, now: int, textAllowed: bool)
    requires s.writer.Acknowledging?
    ensures var failed := SlotStep(s, Acknowledge(false));
            && failed == s.(writer := Abandoning)
            && (s.file.None? ==> SlotStep(failed, AbandonRead(now, textAllowed)) == s.(writer := Stopped))
  {
  }
}
