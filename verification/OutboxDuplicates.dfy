/**
 * How often the replayer gets a record accepted: as often as it removed it
 * afterwards, and once more for each time that it did not get that far.
 */
module OutboxDuplicates {
  import opened Values
  import opened OutboxRecords
  import opened OutboxProtocol

  /** The runtime accepts a replay of `d` in this step. */
  predicate Accepts(w: World, e: Event, d: DeliveryId) {
    && w.replayer.Replaying? && w.replayer.queue != [] && w.replayer.queue[0].request.delivery.id == d
    && e.OfReplayer? && e.act.Replay? && e.act.reply.accepted
  }

  /** An accepted replay ends here without a removal: the reply is lost, the removal fails, or the replayer crashes. */
  predicate Interrupts(w: World, e: Event, d: DeliveryId) {
    || (Accepts(w, e, d) && !e.act.reply.seen)
    || (w.replayer.Removing? && w.replayer.id == d && e.OfReplayer? && (e.act == Remove(false) || e.act.EndOrCrash?))
  }

  predicate RemovingIn(r: Replayer, d: DeliveryId) {
    r.Removing? && r.id == d
  }

  function Accepted(events: seq<Event>, d: DeliveryId): nat {
    if events == [] then 0
    else
      var before, e := events[..|events| - 1], events[|events| - 1];
      Accepted(before, d) + if Accepts(Run(before), e, d) then 1 else 0
  }

  function Interrupted(events: seq<Event>, d: DeliveryId): nat {
    if events == [] then 0
    else
      var before, e := events[..|events| - 1], events[|events| - 1];
      Interrupted(before, d) + if Interrupts(Run(before), e, d) then 1 else 0
  }

  lemma OthersLeaveReplays(w: World, e: Event)
    requires !e.OfReplayer?
    ensures Apply(w, e).replays == w.replays && Apply(w, e).replayer == w.replayer
  {
  }

  /** What is accepted and not yet removed or interrupted. */
  function Open(w: World, d: DeliveryId): nat {
    Count(w.replays, d) + if RemovingIn(w.replayer, d) then 1 else 0
  }

  lemma OnlyRemovalCounts(w: World, act: ReplayEvent)
    ensures ReplayStep(w, act).replays
            == if w.replayer.Removing? && act == Remove(true)
               then w.replays[w.replayer.id := Count(w.replays, w.replayer.id) + 1]
               else w.replays
  {
  }

  /** The replayer is about to remove exactly what was just accepted and seen, or still is. */
  lemma RemovingNext(w: World, act: ReplayEvent, d: DeliveryId)
    ensures RemovingIn(ReplayStep(w, act).replayer, d)
            <==> || (Accepts(w, OfReplayer(act), d) && act.reply.seen)
                 || (RemovingIn(w.replayer, d) && !act.Remove? && !act.EndOrCrash?)
  {
    match w.replayer
    case Replaying(queue) =>
    case Removing(id, queue) =>
    case _ =>
  }

  lemma ReplayerStep(w: World, act: ReplayEvent, d: DeliveryId)
    ensures var e := OfReplayer(act);
            Open(ReplayStep(w, act), d) + (if Interrupts(w, e, d) then 1 else 0)
            == Open(w, d) + (if Accepts(w, e, d) then 1 else 0)
  {
    OnlyRemovalCounts(w, act);
    RemovingNext(w, act, d);
  }

  /** One step: an acceptance is removed, interrupted, or waits for its removal. */
  lemma OneStep(w: World, e: Event, d: DeliveryId)
    ensures Open(Apply(w, e), d) + (if Interrupts(w, e, d) then 1 else 0)
            == Open(w, d) + (if Accepts(w, e, d) then 1 else 0)
  {
    if e.OfReplayer? {
      ReplayerStep(w, e.act, d);
    } else {
      OthersLeaveReplays(w, e);
    }
  }

  /** Every accepted replay was removed, was interrupted, or is about to be removed. */
  lemma {:induction false} AcceptedIsAccountedFor(events: seq<Event>, d: DeliveryId)
    ensures var w := Run(events);
            Accepted(events, d) == Open(w, d) + Interrupted(events, d)
  {
    if events != [] {
      var before, e := events[..|events| - 1], events[|events| - 1];
      AcceptedIsAccountedFor(before, d);
      OneStep(Run(before), e, d);
    }
  }

  /**
   * In every run: no more accepted replays than renames and interruptions, and at most two
   * renames. A third acceptance, a second duplicate, therefore needs an interruption, and
   * there is none exactly while the interruptions stay within what the renames left over.
   */
  lemma AcceptedAreBounded(events: seq<Event>, d: DeliveryId)
    requires Runs(events)
    ensures Accepted(events, d) <= Count(Run(events).renames, d) + Interrupted(events, d)
    ensures Open(Run(events), d) <= Count(Run(events).renames, d) <= 2
    ensures Accepted(events, d) <= 2 <==> Interrupted(events, d) <= 2 - Open(Run(events), d)
  {
    AcceptedIsAccountedFor(events, d);
    InvHolds(events);
    assert IdOk(Run(events), d);
    AtMostOneDuplicate(events, d);
  }

  // ---------------------------------------------------------------- the bound is reached, for every count

  /** One pass over a single record whose removal fails. */
  function Act(record: Record, k: nat): ReplayEvent {
    match k
    case 0 => Scan(0, [record.request.delivery.id])
    case 1 => ReadEntry
    case 2 => Order([record])
    case 3 => Replay(Reply(true, true))
    case 4 => Remove(false)
    case _ => EndOrCrash
  }

  function FailingPass(record: Record): seq<Event> {
    seq(6, k requires 0 <= k < 6 => OfReplayer(Act(record, k)))
  }

  function Repeated<E>(pass: seq<E>, n: nat): seq<E> {
    if n == 0 then [] else Repeated(pass, n - 1) + pass
  }

  lemma After(events: seq<Event>, w: World, e: Event, w': World, d: DeliveryId)
    requires Run(events) == w && Apply(w, e) == w'
    ensures Run(events + [e]) == w'
    ensures Accepted(events + [e], d) == Accepted(events, d) + if Accepts(w, e, d) then 1 else 0
    ensures Interrupted(events + [e], d) == Interrupted(events, d) + if Interrupts(w, e, d) then 1 else 0
  {
    assert (events + [e])[..|events|] == events;
  }

  /** The record is on disk, unexpired at time 0, and nobody is replaying. */
  ghost predicate OnDisk(w: World, record: Record) {
    var d := record.request.delivery.id;
    && w.replayer.Idle? && w.clock >= 0
    && d in w.files && w.files[d].expiresAt > 0 && Load(w.files[d]) == record
  }

  /** The world after the first `k` steps of a failing pass. */
  function Stage(w: World, record: Record, k: nat): World {
    var d := record.request.delivery.id;
    var seen := w.(ingested := w.ingested + {d});
    match k
    case 0 => w
    case 1 => w.(replayer := Scanning(0, [d], []))
    case 2 => w.(replayer := Scanning(0, [], [record]))
    case 3 => w.(replayer := Replaying([record]))
    case 4 => seen.(replayer := Removing(d, []))
    case 5 => seen.(replayer := Replaying([]))
    case _ => seen
  }

  lemma StageStep(w: World, record: Record, k: nat)
    requires OnDisk(w, record) && k < 6
    ensures ReplayStep(Stage(w, record, k), Act(record, k)) == Stage(w, record, k + 1)
  {
    match k
    case 0 =>
    case 1 => assert [record.request.delivery.id][1..] == [] && [] + [record] == [record];
    case 2 =>
    case 3 => assert [record][1..] == [];
    case 4 =>
    case 5 =>
  }

  lemma StageCounts(w: World, record: Record, k: nat)
    requires OnDisk(w, record) && k < 6
    ensures var d, e := record.request.delivery.id, OfReplayer(Act(record, k));
            && (Accepts(Stage(w, record, k), e, d) <==> k == 3)
            && (Interrupts(Stage(w, record, k), e, d) <==> k == 4)
  {
  }

  lemma {:induction false} StagesAreReached(events: seq<Event>, w: World, record: Record, k: nat)
    requires Run(events) == w && OnDisk(w, record) && k <= 6
    ensures var d, after := record.request.delivery.id, events + FailingPass(record)[..k];
            && Run(after) == Stage(w, record, k)
            && Accepted(after, d) == Accepted(events, d) + (if k > 3 then 1 else 0)
            && Interrupted(after, d) == Interrupted(events, d) + (if k > 4 then 1 else 0)
  {
    var d, pass := record.request.delivery.id, FailingPass(record);
    if k == 0 {
      assert events + pass[..0] == events;
    } else {
      StagesAreReached(events, w, record, k - 1);
      StageStep(w, record, k - 1);
      StageCounts(w, record, k - 1);
      After(events + pass[..k - 1], Stage(w, record, k - 1), pass[k - 1], Stage(w, record, k), d);
      Associate(events, pass, k - 1);
    }
  }

  lemma Associate<T>(a: seq<T>, b: seq<T>, k: nat)
    requires k < |b|
    ensures (a + b[..k]) + [b[k]] == a + b[..k + 1]
  {
  }

  lemma FailingPassRepeats(events: seq<Event>, w: World, record: Record)
    requires Run(events) == w && OnDisk(w, record)
    ensures var d, after := record.request.delivery.id, events + FailingPass(record);
            && Run(after) == w.(ingested := w.ingested + {d})
            && Accepted(after, d) == Accepted(events, d) + 1
            && Interrupted(after, d) == Interrupted(events, d) + 1
  {
    StagesAreReached(events, w, record, 6);
    assert FailingPass(record)[..6] == FailingPass(record);
  }

  function Iterated<S>(next: S -> S, s: S, n: nat): S {
    if n == 0 then s else next(Iterated(next, s, n - 1))
  }

  /** What one pass does, `n` passes do `n` times. */
  lemma {:induction false} RepeatedReach<E(!new), S(!new)>(
    pass: seq<E>, reaches: (seq<E>, S, int) -> bool, next: S -> S, events: seq<E>, s: S, n: nat)
    requires reaches(events, s, 0)
    requires forall before, t, k :: reaches(before, t, k) ==> reaches(before + pass, next(t), k + 1)
    ensures reaches(events + Repeated(pass, n), Iterated(next, s, n), n)
  {
    if n == 0 {
      assert events + [] == events;
    } else {
      RepeatedReach(pass, reaches, next, events, s, n - 1);
      assert events + (Repeated(pass, n - 1) + pass) == (events + Repeated(pass, n - 1)) + pass;
    }
  }

  /** After `k` passes over a record on disk: so many acceptances and interruptions more. */
  ghost function Reaches(record: Record, accepted: int, interrupted: int): (seq<Event>, World, int) -> bool {
    var d := record.request.delivery.id;
    (events: seq<Event>, w: World, k: int) =>
      && Run(events) == w && OnDisk(w, record)
      && Accepted(events, d) == accepted + k && Interrupted(events, d) == interrupted + k
  }

  function Ingested(d: DeliveryId): World -> World {
    (w: World) => w.(ingested := w.ingested + {d})
  }

  lemma OnePassReaches(record: Record, accepted: int, interrupted: int, events: seq<Event>, w: World, k: int)
    requires Reaches(record, accepted, interrupted)(events, w, k)
    ensures Reaches(record, accepted, interrupted)(
              events + FailingPass(record), Ingested(record.request.delivery.id)(w), k + 1)
  {
    var d := record.request.delivery.id;
    FailingPassRepeats(events, w, record);
    StillOnDisk(w, record);
    assert Ingested(d)(w) == w.(ingested := w.ingested + {d});
  }

  lemma StillOnDisk(w: World, record: Record)
    requires OnDisk(w, record)
    ensures OnDisk(w.(ingested := w.ingested + {record.request.delivery.id}), record)
  {
  }

  lemma {:induction false} IteratedIngested(w: World, d: DeliveryId, n: nat)
    ensures Iterated(Ingested(d), w, n) == if n == 0 then w else w.(ingested := w.ingested + {d})
  {
    if n > 0 {
      IteratedIngested(w, d, n - 1);
      assert w.ingested + {d} + {d} == w.ingested + {d};
    }
  }

  /** Failing passes change nothing but the id's first acceptance. */
  lemma PassesRepeat(events: seq<Event>, w: World, record: Record, n: nat)
    requires Run(events) == w && OnDisk(w, record)
    ensures var d, after := record.request.delivery.id, events + Repeated(FailingPass(record), n);
            && Run(after) == (if n == 0 then w else w.(ingested := w.ingested + {d}))
            && Accepted(after, d) == Accepted(events, d) + n
            && Interrupted(after, d) == Interrupted(events, d) + n
  {
    var d := record.request.delivery.id;
    var a, i := Accepted(events, d), Interrupted(events, d);
    forall before, t, k | Reaches(record, a, i)(before, t, k)
      ensures Reaches(record, a, i)(before + FailingPass(record), Ingested(d)(t), k + 1)
    {
      OnePassReaches(record, a, i, before, t, k);
    }
    RepeatedReach(FailingPass(record), Reaches(record, a, i), Ingested(d), events, w, n);
    IteratedIngested(w, d, n);
  }

  function Publication(request: HookRequest, d: DeliveryId): seq<Event> {
    [Capture(request, 0, true), OfWriter(d, Publish(true))]
  }

  /** A record captured and published at time 0 is on disk, and nothing of it was replayed yet. */
  lemma PublishedOnDisk(request: HookRequest, record: Record)
    requires CreatePersisted(request, 0) == Some(record)
    ensures var d := record.request.delivery.id;
            var events := Publication(request, d);
            && OnDisk(Run(events), record) && Count(Run(events).renames, d) == 1
            && Accepted(events, d) == 0 && Interrupted(events, d) == 0
  {
    var d := record.request.delivery.id;
    var capture, publish := Capture(request, 0, true), OfWriter(d, Publish(true));
    var w := Apply(Start, capture);
    After([], Start, capture, w, d);
    assert [] + [capture] == [capture];
    After([capture], w, publish, Apply(w, publish), d);
    assert [capture] + [publish] == Publication(request, d);
    PersistLoadRoundTrip(request, 0, true, true, 0);
  }

  lemma PassesAfter(published: seq<Event>, w: World, record: Record, n: nat)
    requires Runs(published) && Run(published) == w && OnDisk(w, record)
    ensures var d, events := record.request.delivery.id, published + Repeated(FailingPass(record), n);
            && Runs(events)
            && Accepted(events, d) == Accepted(published, d) + n
            && Interrupted(events, d) == Interrupted(published, d) + n
            && Run(events).renames == w.renames
  {
    PassesRepeat(published, w, record, n);
    PassesArePossible(record, n);
  }

  /** A published record can be accepted any number of times: each time its removal fails. */
  lemma AcceptedWithoutBound(request: HookRequest, record: Record, n: nat) returns (events: seq<Event>)
    requires CreatePersisted(request, 0) == Some(record)
    ensures Runs(events)
    ensures var d := record.request.delivery.id;
            Accepted(events, d) == Interrupted(events, d) == n && Count(Run(events).renames, d) == 1
  {
    var published := Publication(request, record.request.delivery.id);
    PublishedOnDisk(request, record);
    PassesAfter(published, Run(published), record, n);
    events := published + Repeated(FailingPass(record), n);
  }

  lemma {:induction false} PassesArePossible(record: Record, n: nat)
    ensures Runs(Repeated(FailingPass(record), n))
  {
    if n > 0 {
      PassesArePossible(record, n - 1);
    }
  }
}
