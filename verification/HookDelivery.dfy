/**
 * Sending one published hook within its time budget, and the age fence that
 * keeps the periodic replay away from a record that is still being sent.
 */
module HookDelivery {
  import opened Values
  import opened OutboxRecords
  import opened OutboxQueues

  const HOOK_INGEST_TOTAL_TIMEOUT_MS: nat := 3_250
  const HOOK_INGEST_ATTEMPT_TIMEOUT_MS: nat := 2_250
  const HOOK_INGEST_RETRY_DELAY_MS: nat := 250
  const CODEX_INTERRUPT_TOTAL_TIMEOUT_MS: nat := 2_400
  const CODEX_INTERRUPT_ATTEMPT_TIMEOUT_MS: nat := 1_500

  datatype Policy = Once(timeout: nat) | Retry(timeout: nat, delay: nat, total: nat)

  function ReliablePolicy(request: Request): Policy {
    if request.metadata.Some?
       && TrimLower(request.metadata.value.source) == Some("codex")
       && TrimLower(request.metadata.value.hookEventName) == Some("interrupt")
    then Retry(CODEX_INTERRUPT_ATTEMPT_TIMEOUT_MS, HOOK_INGEST_RETRY_DELAY_MS, CODEX_INTERRUPT_TOTAL_TIMEOUT_MS)
    else Retry(HOOK_INGEST_ATTEMPT_TIMEOUT_MS, HOOK_INGEST_RETRY_DELAY_MS, HOOK_INGEST_TOTAL_TIMEOUT_MS)
  }

  /** How long the runtime would take to answer, and what. */
  datatype Answer = Answer(took: nat, ok: bool)

  /** A wait elapses, `late` after it should, or is aborted before. */
  datatype Wait = Elapses(late: nat) | Aborts(after: nat)

  /** The answers of the system by their place in the log; `aborted` is asked after a failed attempt. */
  datatype World = World(answer: nat -> Answer, wait: nat -> Wait, aborted: nat -> bool, file: nat -> bool)

  datatype Act =
    | Tried(timeout: nat, begun: int, ended: int, ok: bool)
    | Waited(delay: nat, begun: int, ended: int, elapsed: bool)
    | Acknowledged(ok: bool)
    | Abandoned(ok: bool)

  function TimeOf(wait: Wait, delay: nat): int {
    match wait
    case Elapses(late) => delay + late
    case Aborts(after) => Min(after, delay)
  }

  /** The runtime accepts at this place, within the timeout. */
  predicate AcceptsInTime(world: World, k: nat, timeout: nat) {
    world.answer(k).ok && world.answer(k).took <= timeout
  }

  /** An act goes as the system answers at its place; an attempt ends with its answer or its timeout. */
  predicate Answered(world: World, k: nat, act: Act) {
    match act
    case Tried(timeout, begun, ended, ok) =>
      && ok == AcceptsInTime(world, k, timeout)
      && ended == begun + Min(world.answer(k).took, timeout)
    case Waited(delay, begun, ended, elapsed) =>
      && elapsed == world.wait(k).Elapses?
      && ended == begun + TimeOf(world.wait(k), delay)
    case Acknowledged(ok) => ok == world.file(k)
    case Abandoned(ok) => ok == world.file(k)
  }

  ghost predicate AllAnswered(world: World, log: seq<Act>) {
    forall k | 0 <= k < |log| :: Answered(world, k, log[k])
  }

  /** How one `ingestHookRequest` may go: once, or a failure, the delay and one more attempt in what is left. */
  ghost predicate Ingested(seg: seq<Act>, policy: Policy, start: int, end: int, ok: bool) {
    && 1 <= |seg| <= 3 && seg[0].Tried?
    && seg[0].timeout == policy.timeout && seg[0].begun == start && seg[0].ended <= start + policy.timeout
    && match |seg|
       case 1 => end == seg[0].ended && ok == seg[0].ok
       case 2 =>
         && policy.Retry? && !seg[0].ok && !ok && seg[1].Waited? && seg[1].delay == policy.delay
         && seg[1].begun == seg[0].ended && seg[1].ended == end
       case 3 =>
         && policy.Retry? && !seg[0].ok && seg[1].Waited? && seg[1].delay == policy.delay && seg[1].elapsed
         && seg[1].begun == seg[0].ended
         && seg[2].Tried? && seg[2].begun == seg[1].ended
         && seg[2].timeout == start + policy.total - seg[1].ended > 0
         && end == seg[2].ended <= start + policy.total && ok == seg[2].ok
  }

  /** A failed attempt is retried unless the policy, an abort or the exhausted budget forbids it. */
  ghost predicate Retried(world: World, at: nat, seg: seq<Act>, policy: Policy, start: int, end: int, ok: bool) {
    && (|seg| == 1 ==> ok || policy.Once? || world.aborted(at + 1))
    && (|seg| > 1 ==> !world.aborted(at + 1))
    && (|seg| == 2 ==> policy.Retry? && (world.wait(at + 1).Aborts? || end >= start + policy.total))
  }

  /** How long the wait between the attempts took, if there was one. */
  ghost function WaitedFor(seg: seq<Act>): int {
    if |seg| > 1 && seg[1].Waited? then seg[1].ended - seg[1].begun else 0
  }

  /** Two attempts at most, and an end within the total, or when the wait ended if that was too late for it. */
  lemma BudgetHolds(seg: seq<Act>, policy: Policy, start: int, end: int, ok: bool)
    requires Ingested(seg, policy, start, end, ok)
    ensures policy.Once? ==> end <= start + policy.timeout
    ensures policy.Retry? ==> end <= start + Max(policy.total, policy.timeout + WaitedFor(seg))
  {
  }

  /** With timers on time both reliable policies end within their total. */
  lemma ReliableBudgetHolds(seg: seq<Act>, request: Request, start: int, end: int, ok: bool)
    requires Ingested(seg, ReliablePolicy(request), start, end, ok)
    requires WaitedFor(seg) <= HOOK_INGEST_RETRY_DELAY_MS
    ensures end <= start + ReliablePolicy(request).total
    ensures end <= start + HOOK_INGEST_TOTAL_TIMEOUT_MS
  {
    BudgetHolds(seg, ReliablePolicy(request), start, end, ok);
  }

  /** A codex interrupt gets attempts of 1500 ms within 2400 ms, every other hook 2250 ms within 3250 ms. */
  lemma BudgetByProvider(seg: seq<Act>, request: Request, start: int, end: int, ok: bool)
    requires Ingested(seg, ReliablePolicy(request), start, end, ok)
    ensures var interrupt := request.metadata.Some?
                             && TrimLower(request.metadata.value.source) == Some("codex")
                             && TrimLower(request.metadata.value.hookEventName) == Some("interrupt");
            && seg[0].timeout == (if interrupt then 1_500 else 2_250)
            && (|seg| > 1 ==> seg[1].delay == 250)
            && (WaitedFor(seg) <= 250 ==> end <= start + if interrupt then 2_400 else 3_250)
  {
    if WaitedFor(seg) <= 250 { ReliableBudgetHolds(seg, request, start, end, ok); }
  }

  /** An unmarked record is left alone exactly from its enqueue time until it is old enough. */
  lemma FenceIsExact(r: Record, now: int)
    requires r.abandonedAt.None?
    ensures LiveReplayCandidate(r, now, HOOK_TRANSITION_LIVE_REPLAY_MIN_AGE_MS)
            <==> now < r.enqueuedAt || now >= r.enqueuedAt + HOOK_TRANSITION_LIVE_REPLAY_MIN_AGE_MS
  {
  }

  /** A record marked abandoned is adopted at once, and a complete replay, with no minimum age, adopts every record. */
  lemma MarkedIsAdopted(r: Record, now: int, minAge: int)
    requires r.abandonedAt.Some? || minAge <= 0
    ensures LiveReplayCandidate(r, now, minAge)
  {
  }

  /**
   * No race: a record whose publication took less than 2750 ms is not adopted before its
   * delivery has ended, unless the clock ran backwards or a timer was late.
   */
  lemma NoReplayDuringDelivery(r: Record, published: int, seg: seq<Act>, end: int, ok: bool, now: int)
    requires r.abandonedAt.None?
    requires r.enqueuedAt <= published < r.enqueuedAt + 2_750
    requires Ingested(seg, ReliablePolicy(r.request), published, end, ok)
             && WaitedFor(seg) <= HOOK_INGEST_RETRY_DELAY_MS
    requires r.enqueuedAt <= now <= end
    ensures !LiveReplayCandidate(r, now, HOOK_TRANSITION_LIVE_REPLAY_MIN_AGE_MS)
  {
    ReliableBudgetHolds(seg, r.request, published, end, ok);
    FenceIsExact(r, now);
  }

  /**
   * An ingest that retries, at place `at` of the log, succeeds exactly if the runtime accepts the first attempt
   * in time, or that fails, nothing aborts the wait and the runtime accepts the second in what is left.
   */
  lemma IngestSucceedsIff(world: World, at: nat, log: seq<Act>, policy: Policy, start: int, end: int, ok: bool)
    requires AllAnswered(world, log) && at < |log| && policy.Retry?
    requires Ingested(log[at..], policy, start, end, ok) && Retried(world, at, log[at..], policy, start, end, ok)
    ensures ok <==>
              || AcceptsInTime(world, at, policy.timeout)
              || (&& !world.aborted(at + 1) && world.wait(at + 1).Elapses?
                  && var left := policy.total - Min(world.answer(at).took, policy.timeout)
                                 - policy.delay - world.wait(at + 1).late;
                     left > 0 && AcceptsInTime(world, at + 2, left))
  {
    var seg := log[at..];
    assert Answered(world, at, log[at]) && log[at] == seg[0];
    if |seg| > 1 {
      assert Answered(world, at + 1, log[at + 1]) && log[at + 1] == seg[1];
    }
    if |seg| > 2 {
      assert Answered(world, at + 2, log[at + 2]) && log[at + 2] == seg[2];
    }
  }

  /** In one of the attempts between these places the runtime accepted in time. */
  ghost predicate AcceptedBefore(world: World, log: seq<Act>, from: nat, to: nat)
    requires to <= |log|
  {
    exists k: nat | from <= k < to :: log[k].Tried? && AcceptsInTime(world, k, log[k].timeout)
  }

  /** What comes after does not change what was accepted. */
  lemma SameAttempts(world: World, log: seq<Act>, more: seq<Act>, from: nat)
    requires log <= more
    ensures AcceptedBefore(world, log, from, |log|) <==> AcceptedBefore(world, more, from, |log|)
  {
    assert forall k | 0 <= k < |log| :: log[k] == more[k];
  }

  class Sender {
    const world: World
    var now: int
    var log: seq<Act>

    ghost predicate Valid()
      reads this
    {
      AllAnswered(world, log)
    }

    constructor (world: World, now: int)
      ensures Valid() && this.world == world && this.now == now && log == []
    {
      this.world, this.now, log := world, now, [];
    }

    /** An attempt ends by its timeout; only an answer in time counts. */
    method Attempt(timeout: nat) returns (ok: bool)
      requires Valid()
      modifies this
      ensures Valid() && ok == AcceptsInTime(world, |old(log)|, timeout)
      ensures log == old(log) + [Tried(timeout, old(now), now, ok)]
      ensures now == old(now) + Min(world.answer(|old(log)|).took, timeout)
    {
      var answer, begun := world.answer(|log|), now;
      ok := answer.ok && answer.took <= timeout;
      now := now + if answer.took <= timeout then answer.took else timeout;
      log := log + [Tried(timeout, begun, now, ok)];
    }

    /** An aborted wait ends early and fails. */
    method WaitForRetry(delay: nat) returns (elapsed: bool)
      requires Valid()
      modifies this
      ensures Valid() && elapsed == world.wait(|old(log)|).Elapses?
      ensures log == old(log) + [Waited(delay, old(now), now, elapsed)]
      ensures old(now) <= now && (elapsed ==> now == old(now) + delay + world.wait(|old(log)|).late)
    {
      var begun := now;
      match world.wait(|log|) {
        case Elapses(late) => elapsed, now := true, now + delay + late;
        case Aborts(after) => elapsed, now := false, now + if after <= delay then after else delay;
      }
      log := log + [Waited(delay, begun, now, elapsed)];
    }

    method Ingest(policy: Policy) returns (ok: bool, ghost seg: seq<Act>)
      requires Valid()
      modifies this
      ensures Valid() && log == old(log) + seg && Ingested(seg, policy, old(now), now, ok)
      ensures Retried(world, |old(log)|, seg, policy, old(now), now, ok)
      ensures ok <==> AcceptedBefore(world, log, |old(log)|, |log|)
    {
      var startedAt := now;
      ghost var at := |log|;
      ok := Attempt(policy.timeout);
      assert log[at].Tried? && (ok <==> AcceptsInTime(world, at, log[at].timeout));
      ghost var first := log[|log| - 1];
      seg := [first];
      if ok || policy.Once? || world.aborted(|log|) { return; }
      var elapsed := WaitForRetry(policy.delay);
      ghost var wait := log[|log| - 1];
      seg := [first, wait];
      if !elapsed { return; }
      var remaining := policy.total - (now - startedAt);
      if remaining <= 0 { return; }
      ok := Attempt(remaining);
      assert log[at + 2].Tried? && (ok <==> AcceptsInTime(world, at + 2, log[at + 2].timeout));
      seg := [first, wait, log[|log| - 1]];
    }

    /**
     * The record is deleted only after the runtime accepted in one of the attempts, and in time; in
     * every other case it is marked for the replay.
     */
    method Deliver(request: Request) returns (acknowledged: bool, ghost seg: seq<Act>, ghost tail: seq<Act>)
      requires Valid()
      modifies this
      ensures Valid() && log == old(log) + seg + tail && tail != []
      ensures exists end, ok ::
                && Ingested(seg, ReliablePolicy(request), old(now), end, ok)
                && Retried(world, |old(log)|, seg, ReliablePolicy(request), old(now), end, ok)
      ensures AcceptedBefore(world, log, |old(log)|, |old(log)| + |seg|) <==> tail[0].Acknowledged?
      ensures var n := |old(log)| + |seg|;
              tail == if !tail[0].Acknowledged? then [Abandoned(world.file(n))]
                      else if world.file(n) then [Acknowledged(true)]
                      else [Acknowledged(false), Abandoned(world.file(n + 1))]
      ensures acknowledged <==> tail == [Acknowledged(true)]
    {
      ghost var start := log;
      var ok;
      ok, seg := Ingest(ReliablePolicy(request));
      ghost var ingested := log;
      tail, acknowledged := [], false;
      if ok {
        acknowledged := world.file(|log|);
        tail := [Acknowledged(acknowledged)];
        log := log + [Acknowledged(acknowledged)];
      }
      if !acknowledged {
        var abandoned := world.file(|log|);
        tail := tail + [Abandoned(abandoned)];
        log := log + [Abandoned(abandoned)];
      }
      SameAttempts(world, ingested, log, |start|);
    }
  }
}
