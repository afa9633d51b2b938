/**
 * The quit lease: one transition at a time, drafts sealed before the runtime is
 * stopped, and an update committed only behind a clean stop and a fresh seal.
 */
module QuitCoordinator {
  import opened Values

  datatype Reason = Quit | Restart | Update

  datatype CleanupState = NotStarted | Running | Stopping | CleanedUp | Unconfirmed

  datatype Result = Clean | Forced | Cancelled

  /** The renderer's answer to a preflight; a ready one can later be checked as a seal. */
  datatype Decision = Ready(id: nat) | NotReady

  datatype Seal = NoSeal | Offline | Held(id: nat)

  datatype Summary = Summary(owned: bool, live: nat, pendingLaunches: bool)

  datatype StopOutcome = CleanStop | IncompleteStop

  datatype Try<+T> = Threw | Got(value: T)

  /** The answers of the rest of the app by the number of earlier calls. */
  datatype World = World(
    needs: nat -> bool, cleanup: nat -> CleanupState, preflight: nat -> Try<Option<Decision>>, valid: nat -> bool,
    dialogs: Dialogs, effects: Effects)

  datatype Dialogs = Dialogs(
    summary: nat -> Try<Option<Summary>>, confirmSessions: nat -> Try<bool>, confirmExit: nat -> Try<bool>,
    inform: nat -> bool)

  datatype Effects = Effects(
    stop: nat -> Try<StopOutcome>, canForce: Option<nat -> bool>, finalize: Option<nat -> bool>, commit: nat -> bool)

  /** What the coordinator asked or did, with the answer. */
  datatype Act =
    | AskNeeds(needed: bool)
    | AskCleanup(state: CleanupState)
    | Preflight(reason: Reason, seal: bool, answer: Try<Option<Decision>>)
    | CheckSeal(id: nat, ok: bool)
    | GetSummary(summary: Try<Option<Summary>>)
    | ConfirmSessions(sessions: Try<bool>)
    | OnStopping(on: bool)
    | Stop(outcome: Try<StopOutcome>)
    | AskForce(can: bool)
    | ConfirmExit(exit: Try<bool>)
    | Inform(shown: bool)
    | Finalize(finalized: bool)
    | Commit(committed: bool)
    | Release

  /** The answer is the one that the rest of the app has for this place. */
  predicate Answered(w: World, k: nat, act: Act) {
    match act
    case AskNeeds(needed) => needed == w.needs(k)
    case AskCleanup(state) => state == w.cleanup(k)
    case Preflight(_, _, answer) => answer == w.preflight(k)
    case CheckSeal(_, ok) => ok == w.valid(k)
    case GetSummary(summary) => summary == w.dialogs.summary(k)
    case ConfirmSessions(sessions) => sessions == w.dialogs.confirmSessions(k)
    case Stop(outcome) => outcome == w.effects.stop(k)
    case AskForce(can) =>
      can == if w.effects.canForce.Some? then w.effects.canForce.value(k) else w.cleanup(k).Unconfirmed?
    case ConfirmExit(exit) => exit == w.dialogs.confirmExit(k)
    case Inform(shown) => shown == w.dialogs.inform(k)
    case Finalize(finalized) => w.effects.finalize.Some? && finalized == w.effects.finalize.value(k)
    case Commit(committed) => committed == w.effects.commit(k)
    case _ => true
  }

  ghost predicate AllAnswered(w: World, log: seq<Act>) {
    forall k | 0 <= k < |log| :: Answered(w, k, log[k])
  }

  // ---------------------------------------------------------------- the shape of a successful request

  /** The opening preflight passed, or none was needed. */
  ghost predicate Opened(seg: seq<Act>, reason: Reason) {
    || seg == [AskNeeds(false)]
    || (|seg| == 2 && seg[0] == AskNeeds(true) && seg[1].Preflight? && seg[1].reason == reason && !seg[1].seal
        && seg[1].answer.Got? && seg[1].answer.value.Some? && seg[1].answer.value.value.Ready?)
  }

  /** The app owns sessions that are live or starting. */
  predicate NeedsConfirmation(summary: Try<Option<Summary>>) {
    && summary.Got? && summary.value.Some?
    && var s := summary.value.value;
       s.owned && (s.live > 0 || s.pendingLaunches)
  }

  /** The summary was asked for; a missing one is told, and only app-owned live sessions need a confirmation. */
  ghost predicate AskedAbout(seg: seq<Act>) {
    && 1 <= |seg| <= 2 && seg[0].GetSummary?
    && (seg[0].summary == Got(None) <==> |seg| == 2 && seg[1].Inform?)
    && (NeedsConfirmation(seg[0].summary) <==> |seg| == 2 && seg[1].ConfirmSessions?)
  }

  /** App-owned live sessions were confirmed away. */
  ghost predicate SessionsCleared(seg: seq<Act>, state: CleanupState) {
    if !state.Running? then seg == []
    else
      && |seg| >= 1 && seg[0].GetSummary? && seg[0].summary.Got? && seg[0].summary.value.Some?
      && var s := seg[0].summary.value.value;
         seg[1..] == if s.owned && (s.live > 0 || s.pendingLaunches) then [ConfirmSessions(Got(true))] else []
  }

  /** A seal was obtained: the frontend is gone, or it answered ready and the seal checked valid. */
  ghost predicate Sealed(seg: seq<Act>, reason: Reason, seal: Seal) {
    || (seg == [AskNeeds(false)] && seal == Offline)
    || (seal.Held?
        && seg == [AskNeeds(true), Preflight(reason, true, Got(Some(Ready(seal.id)))), CheckSeal(seal.id, true)])
  }

  /** The seal still holds or was renewed; one taken while the frontend was gone is not looked at again. */
  ghost predicate Rechecked(seg: seq<Act>, reason: Reason, before: Seal, after: Seal) {
    match before
    case Offline => seg == [] && after == Offline
    case Held(id) =>
      || (seg == [CheckSeal(id, true)] && after == before)
      || (|seg| > 0 && seg[0] == CheckSeal(id, false) && Sealed(seg[1..], reason, after))
    case NoSeal => Sealed(seg, reason, after)
  }

  /** Later seals of an update only protect drafts. */
  function LaterReason(reason: Reason, result: Result): Reason {
    if reason.Update? && result.Clean? then Quit else reason
  }

  /** A stop that the user and the frontend were ready for: opening, sessions, seal, stop. */
  ghost predicate Stopped(seg: seq<Act>, reason: Reason, seal: Seal, outcome: StopOutcome) {
    exists state, opening, sessions, sealing ::
      && seg == [AskCleanup(state)] + opening + sessions + sealing + [OnStopping(true), Stop(Got(outcome))]
      && !state.Unconfirmed? && Opened(opening, reason) && SessionsCleared(sessions, state)
      && Sealed(sealing, reason, seal)
  }

  ghost predicate CleanRun(seg: seq<Act>, reason: Reason, seal: Seal) {
    exists stopping, first, checking ::
      && seg == stopping + checking && Stopped(stopping, reason, first, CleanStop)
      && Rechecked(checking, LaterReason(reason, Clean), first, seal)
  }

  /** Forcing was possible, the user confirmed it, a seal was obtained and forcing was still possible. */
  ghost predicate ForceConfirmed(seg: seq<Act>, seal: Seal) {
    exists sealing ::
      && seg == [AskForce(true), ConfirmExit(Got(true))] + sealing + [AskForce(true)]
      && Sealed(sealing, Quit, seal)
  }

  /** Either the runtime was already lost, or a stop was tried and did not end clean. */
  ghost predicate ForcedRun(seg: seq<Act>, reason: Reason, seal: Seal) {
    exists before, forcing ::
      && seg == before + forcing && ForceConfirmed(forcing, seal) && reason.Quit?
      && (LostBefore(before, reason) || StopFailed(before, reason))
  }

  ghost predicate LostBefore(seg: seq<Act>, reason: Reason) {
    exists opening :: seg == [AskCleanup(Unconfirmed)] + opening && Opened(opening, reason)
  }

  ghost predicate StopFailed(seg: seq<Act>, reason: Reason) {
    exists stopping, seal :: seg == stopping + [AskForce(true)] && Stopped(stopping, reason, seal, IncompleteStop)
  }

  /** What `perform` did when it answers `result`. */
  ghost predicate Performed(seg: seq<Act>, reason: Reason, result: Result, seal: Seal) {
    match result
    case Clean => CleanRun(seg, reason, seal)
    case Forced => ForcedRun(seg, reason, seal)
    case Cancelled => true
  }

  /** An answer that stands in the way of the transition. */
  predicate Refuses(act: Act, reason: Reason) {
    match act
    case AskCleanup(state) => state.Unconfirmed? && !reason.Quit?
    case Preflight(_, _, answer) => answer.Threw? || answer.value.None? || answer.value.value.NotReady?
    case CheckSeal(_, ok) => !ok
    case GetSummary(summary) => summary.Threw? || summary.value.None?
    case ConfirmSessions(sessions) => sessions != Got(true)
    case Stop(outcome) => outcome != Got(CleanStop)
    case AskForce(can) => !can
    case ConfirmExit(exit) => exit != Got(true)
    case Commit(committed) => !committed
    case _ => false
  }

  ghost predicate Refused(seg: seq<Act>, reason: Reason) {
    exists act | act in seg :: Refuses(act, reason)
  }

  lemma RefusedBy(a: seq<Act>, b: seq<Act>, reason: Reason)
    requires Refused(a, reason) || Refused(b, reason)
    ensures Refused(a + b, reason)
  {
    if Refused(a, reason) {
      var act :| act in a && Refuses(act, reason);
      assert act in a + b;
    } else {
      var act :| act in b && Refuses(act, reason);
      assert act in a + b;
    }
  }

  /** No commit among these acts. */
  ghost predicate Uncommitted(seg: seq<Act>) {
    forall act | act in seg :: !act.Commit?
  }

  /** After the runtime is settled: the finalizer, then the seal again. */
  ghost predicate Finalized(seg: seq<Act>, present: bool, reason: Reason, before: Seal, after: Seal) {
    if !present then seg == [] && after == before
    else |seg| > 0 && seg[0].Finalize? && Rechecked(seg[1..], reason, before, after)
  }

  /** All that may precede a commit: a clean run, the finalizer, and a seal taken just now. */
  ghost predicate ReadyToCommit(seg: seq<Act>, present: bool) {
    exists run, finalizing, sealing, first, second, third ::
      && seg == run + finalizing + sealing
      && CleanRun(run, Update, first) && Finalized(finalizing, present, Quit, first, second)
      && Sealed(sealing, Quit, third)
  }

  /** The sealing preflight failed with an exception, after a held seal had lapsed. */
  ghost predicate SealingThrew(seg: seq<Act>, reason: Reason, before: Seal) {
    match before
    case Offline => false
    case Held(id) => seg == [CheckSeal(id, false), AskNeeds(true), Preflight(reason, true, Threw)]
    case NoSeal => seg == [AskNeeds(true), Preflight(reason, true, Threw)]
  }

  /** A granted run, the finalizer, and a sealing preflight whose exception ends the lease. */
  ghost predicate EscapedParts(seg: seq<Act>, reason: Reason, result: Result, run: seq<Act>, finalized: bool,
                               check: seq<Act>, first: Seal) {
    && seg == run + ([Finalize(finalized)] + check) + [OnStopping(false)]
    && !result.Cancelled? && Performed(run, reason, result, first)
    && SealingThrew(check, LaterReason(reason, result), first)
  }

  ghost predicate Escaped(seg: seq<Act>, reason: Reason, present: bool) {
    present && exists result, run, finalized, check, first ::
                 EscapedParts(seg, reason, result, run, finalized, check, first)
  }

  lemma Renewed(before: Seal, renewal: seq<Act>, reason: Reason, sealed: Try<bool>, after: Seal)
    requires before.Held? && Uncommitted(renewal)
    requires sealed == Got(true) ==> Sealed(renewal, reason, after)
    ensures var seg := [CheckSeal(before.id, false)] + renewal;
            && Uncommitted(seg) && Refused(seg, reason)
            && (sealed == Got(true) ==> Rechecked(seg, reason, before, after))
            && (sealed.Threw? && SealingThrew(renewal, reason, NoSeal) ==> SealingThrew(seg, reason, before))
  {
    var seg := [CheckSeal(before.id, false)] + renewal;
    assert seg[1..] == renewal;
    assert seg[0] in seg && Refuses(seg[0], reason);
  }

  lemma Associate(a: seq<Act>, b: seq<Act>, c: seq<Act>)
    ensures a + b + c == a + (b + c)
  {
  }

  lemma UncommittedBoth(a: seq<Act>, b: seq<Act>)
    requires Uncommitted(a) && Uncommitted(b)
    ensures Uncommitted(a + b)
  {
  }

  lemma UncommittedThree(a: seq<Act>, b: seq<Act>, c: seq<Act>)
    requires Uncommitted(a) && Uncommitted(b) && Uncommitted(c)
    ensures Uncommitted(a + (b + c))
  {
  }

  lemma RefusedByLast(a: seq<Act>, b: seq<Act>, c: seq<Act>, reason: Reason)
    requires Refused(c, reason)
    ensures Refused(a + (b + c), reason)
  {
    RefusedBy(b, c, reason);
    RefusedBy(a, b + c, reason);
  }

  lemma RefusedLater(seg: seq<Act>, later: Reason, reason: Reason)
    requires Refused(seg, later) && later == LaterReason(reason, Clean)
    ensures Refused(seg, reason)
  {
    var act :| act in seg && Refuses(act, later);
    assert Refuses(act, reason);
  }

  lemma RefusedForUpdate(seg: seq<Act>)
    requires Refused(seg, Quit)
    ensures Refused(seg, Update)
  {
    var act :| act in seg && Refuses(act, Quit);
    assert Refuses(act, Update);
  }

  lemma StoppedFrom(head: seq<Act>, state: CleanupState, opening: seq<Act>, sessions: seq<Act>, sealing: seq<Act>,
                    reason: Reason, seal: Seal, outcome: StopOutcome)
    requires head == [AskCleanup(state)] + opening && !state.Unconfirmed? && Opened(opening, reason)
    requires SessionsCleared(sessions, state) && Sealed(sealing, reason, seal)
    ensures Stopped(head + (sessions + (sealing + [OnStopping(true), Stop(Got(outcome))])), reason, seal, outcome)
  {
    var stopping := [OnStopping(true), Stop(Got(outcome))];
    assert head + (sessions + (sealing + stopping)) == [AskCleanup(state)] + opening + sessions + sealing + stopping;
  }

  lemma CleanFrom(stopping: seq<Act>, checking: seq<Act>, reason: Reason, first: Seal, seal: Seal)
    requires Stopped(stopping, reason, first, CleanStop) && Rechecked(checking, LaterReason(reason, Clean), first, seal)
    ensures CleanRun(stopping + checking, reason, seal)
  {
  }

  lemma ForcedAfterStop(stopping: seq<Act>, forcing: seq<Act>, first: Seal, seal: Seal)
    requires Stopped(stopping, Quit, first, IncompleteStop) && ForceConfirmed(forcing, seal)
    ensures ForcedRun(stopping + [AskForce(true)] + forcing, Quit, seal)
  {
    assert StopFailed(stopping + [AskForce(true)], Quit);
  }

  lemma ForcedAfterLoss(opening: seq<Act>, forcing: seq<Act>, seal: Seal)
    requires Opened(opening, Quit) && ForceConfirmed(forcing, seal)
    ensures ForcedRun([AskCleanup(Unconfirmed)] + opening + forcing, Quit, seal)
  {
    assert LostBefore([AskCleanup(Unconfirmed)] + opening, Quit);
  }

  /** The commit of an update: a fresh seal right before it, and one that still holds right after. */
  ghost predicate CommitParts(seg: seq<Act>, ok: bool, sealing: seq<Act>, committed: bool, after: seq<Act>, seal: Seal,
                              last: Seal) {
    && seg == sealing + [Commit(committed)] + after
    && Uncommitted(sealing) && Uncommitted(after) && Sealed(sealing, Quit, seal)
    && (ok ==> committed && Rechecked(after, Quit, seal, last))
  }

  ghost predicate CommitStep(seg: seq<Act>, ok: bool) {
    || (!ok && Uncommitted(seg))
    || exists sealing, committed, after, seal, last :: CommitParts(seg, ok, sealing, committed, after, seal, last)
  }

  lemma OnlyThere(a: seq<Act>, act: Act, b: seq<Act>, k: nat)
    requires Uncommitted(a) && Uncommitted(b) && k < |a + [act] + b| && (a + [act] + b)[k].Commit?
    ensures (a + [act] + b)[..k] == a && (a + [act] + b)[k + 1..] == b
  {
    var all := a + [act] + b;
    assert forall m | 0 <= m < |a| :: all[m] == a[m] && a[m] in a;
    assert forall m | |a| < m < |all| :: all[m] == b[m - |a| - 1] && b[m - |a| - 1] in b;
  }

  /** Where a commit stands in a request, everything that must precede it does. */
  lemma CommitIsGuarded(run: seq<Act>, finalizing: seq<Act>, present: bool, first: Seal, second: Seal, com: seq<Act>,
                        ok: bool, tail: seq<Act>, k: nat)
    requires CleanRun(run, Update, first) && Finalized(finalizing, present, Quit, first, second)
    requires Uncommitted(run + finalizing) && CommitStep(com, ok) && Uncommitted(tail)
    requires k < |run + finalizing + com + tail| && (run + finalizing + com + tail)[k].Commit?
    ensures ReadyToCommit((run + finalizing + com + tail)[..k], present)
    ensures Uncommitted((run + finalizing + com + tail)[..k]) && Uncommitted((run + finalizing + com + tail)[k + 1..])
  {
    var head, seg := run + finalizing, run + finalizing + com + tail;
    assert seg[k] in seg;
    if exists sealing, committed, after, seal, last :: CommitParts(com, ok, sealing, committed, after, seal, last) {
      var sealing, committed, after, seal, last :| CommitParts(com, ok, sealing, committed, after, seal, last);
      CommitStandsThere(head, sealing, Commit(committed), after, tail, k);
      assert seg == head + (sealing + [Commit(committed)] + after) + tail;
    } else {
      UncommittedBoth(head, com);
      UncommittedBoth(head + com, tail);
    }
  }

  lemma CommitStandsThere(head: seq<Act>, sealing: seq<Act>, act: Act, after: seq<Act>, tail: seq<Act>, k: nat)
    requires Uncommitted(head) && Uncommitted(sealing) && Uncommitted(after) && Uncommitted(tail)
    requires var seg := head + (sealing + [act] + after) + tail; k < |seg| && seg[k].Commit?
    ensures var seg := head + (sealing + [act] + after) + tail;
            seg[..k] == head + sealing && Uncommitted(seg[..k]) && Uncommitted(seg[k + 1..])
  {
    UncommittedBoth(head, sealing);
    UncommittedBoth(after, tail);
    assert head + (sealing + [act] + after) + tail == (head + sealing) + [act] + (after + tail);
    OnlyThere(head + sealing, act, after + tail, k);
  }

  /** A granted request from its first question to the released lease. */
  ghost predicate GrantedParts(seg: seq<Act>, reason: Reason, result: Result, withCommit: bool, present: bool,
                               run: seq<Act>, finalizing: seq<Act>, com: seq<Act>, first: Seal, second: Seal) {
    && seg == run + finalizing + com + [OnStopping(false)]
    && Performed(run, reason, result, first)
    && Finalized(finalizing, present, LaterReason(reason, result), first, second)
    && if reason.Update? && result.Clean? && withCommit then CommitStep(com, true) else com == []
  }

  ghost predicate Granted(seg: seq<Act>, reason: Reason, result: Result, withCommit: bool, present: bool) {
    exists run, finalizing, com, first, second ::
      GrantedParts(seg, reason, result, withCommit, present, run, finalizing, com, first, second)
  }

  /** A commit only ever stands behind all that an update needs, and only once. */
  ghost predicate CommitsGuarded(seg: seq<Act>, present: bool) {
    forall k | 0 <= k < |seg| && seg[k].Commit? ::
      ReadyToCommit(seg[..k], present) && Uncommitted(seg[..k]) && Uncommitted(seg[k + 1..])
  }

  /** A cancelled request was refused by somebody, gives the frontend back and ends the lease. */
  ghost predicate GaveBack(seg: seq<Act>, reason: Reason) {
    Refused(seg, reason) && |seg| >= 2 && seg[|seg| - 2] == Release && seg[|seg| - 1] == OnStopping(false)
  }

  /** How a request can end. */
  ghost predicate Ended(seg: seq<Act>, reason: Reason, result: Try<Result>, withCommit: bool, present: bool) {
    match result
    case Threw => Escaped(seg, reason, present)
    case Got(Cancelled) => GaveBack(seg, reason)
    case Got(granted) => Granted(seg, reason, granted, withCommit, present)
  }

  lemma UncommittedIsGuarded(seg: seq<Act>, present: bool)
    requires Uncommitted(seg)
    ensures CommitsGuarded(seg, present)
  {
    forall k | 0 <= k < |seg|
      ensures !seg[k].Commit?
    {
      assert seg[k] in seg;
    }
  }

  lemma UpdateIsGuarded(run: seq<Act>, finalizing: seq<Act>, present: bool, first: Seal, second: Seal, com: seq<Act>,
                        ok: bool, tail: seq<Act>)
    requires CleanRun(run, Update, first) && Finalized(finalizing, present, Quit, first, second)
    requires Uncommitted(run + finalizing) && CommitStep(com, ok) && Uncommitted(tail)
    ensures CommitsGuarded(run + finalizing + com + tail, present)
  {
    var seg := run + finalizing + com + tail;
    forall k | 0 <= k < |seg| && seg[k].Commit?
      ensures ReadyToCommit(seg[..k], present) && Uncommitted(seg[..k]) && Uncommitted(seg[k + 1..])
    {
      CommitIsGuarded(run, finalizing, present, first, second, com, ok, tail, k);
    }
  }

  lemma GivenBack(seg: seq<Act>, reason: Reason)
    requires Refused(seg, reason)
    ensures GaveBack(seg + [Release, OnStopping(false)], reason)
  {
    RefusedBy(seg, [Release, OnStopping(false)], reason);
  }

  // ---------------------------------------------------------------- the three endings exclude each other

  /** Neither a sealing preflight that failed with an exception nor the frontend given back. */
  predicate Quiet(act: Act) {
    !act.Release? && !(act.Preflight? && act.seal && act.answer.Threw?)
  }

  ghost predicate AllQuiet(seg: seq<Act>) {
    forall act | act in seg :: Quiet(act)
  }

  lemma QuietBoth(a: seq<Act>, b: seq<Act>)
    requires AllQuiet(a) && AllQuiet(b)
    ensures AllQuiet(a + b)
  {
  }

  lemma RecheckedIsQuiet(seg: seq<Act>, reason: Reason, before: Seal, after: Seal)
    requires Rechecked(seg, reason, before, after)
    ensures AllQuiet(seg)
  {
    if seg != [] {
      assert seg == [seg[0]] + seg[1..];
    }
  }

  lemma StoppedIsQuiet(seg: seq<Act>, reason: Reason, seal: Seal, outcome: StopOutcome)
    requires Stopped(seg, reason, seal, outcome)
    ensures AllQuiet(seg)
  {
    var state, opening, sessions, sealing :|
      && seg == [AskCleanup(state)] + opening + sessions + sealing + [OnStopping(true), Stop(Got(outcome))]
      && !state.Unconfirmed? && Opened(opening, reason) && SessionsCleared(sessions, state)
      && Sealed(sealing, reason, seal);
    if state.Running? {
      assert sessions == [sessions[0]] + sessions[1..];
    }
    QuietBoth([AskCleanup(state)], opening);
    QuietBoth([AskCleanup(state)] + opening, sessions);
    QuietBoth([AskCleanup(state)] + opening + sessions, sealing);
  }

  lemma ForceIsQuiet(seg: seq<Act>, seal: Seal)
    requires ForceConfirmed(seg, seal)
    ensures AllQuiet(seg)
  {
    var sealing :| seg == [AskForce(true), ConfirmExit(Got(true))] + sealing + [AskForce(true)]
                   && Sealed(sealing, Quit, seal);
    QuietBoth([AskForce(true), ConfirmExit(Got(true))], sealing);
  }

  lemma ForcedBeforeIsQuiet(before: seq<Act>, reason: Reason)
    requires LostBefore(before, reason) || StopFailed(before, reason)
    ensures AllQuiet(before)
  {
    if LostBefore(before, reason) {
      var opening :| before == [AskCleanup(Unconfirmed)] + opening && Opened(opening, reason);
    } else {
      var stopping, seal :| before == stopping + [AskForce(true)] && Stopped(stopping, reason, seal, IncompleteStop);
      StoppedIsQuiet(stopping, reason, seal, IncompleteStop);
    }
  }

  lemma PerformedIsQuiet(run: seq<Act>, reason: Reason, result: Result, seal: Seal)
    requires Performed(run, reason, result, seal) && !result.Cancelled?
    ensures AllQuiet(run)
  {
    if result.Clean? {
      var stopping, first, checking :|
        && run == stopping + checking && Stopped(stopping, reason, first, CleanStop)
        && Rechecked(checking, LaterReason(reason, Clean), first, seal);
      StoppedIsQuiet(stopping, reason, first, CleanStop);
      RecheckedIsQuiet(checking, LaterReason(reason, Clean), first, seal);
    } else {
      var before, forcing :| run == before + forcing && ForceConfirmed(forcing, seal)
                             && (LostBefore(before, reason) || StopFailed(before, reason));
      ForcedBeforeIsQuiet(before, reason);
      ForceIsQuiet(forcing, seal);
    }
  }

  lemma CommitIsQuiet(com: seq<Act>)
    requires CommitStep(com, true)
    ensures AllQuiet(com)
  {
    var sealing, committed, after, seal, last :| CommitParts(com, true, sealing, committed, after, seal, last);
    RecheckedIsQuiet(after, Quit, seal, last);
    QuietBoth(sealing, [Commit(committed)]);
  }

  lemma FinalizedIsQuiet(finalizing: seq<Act>, present: bool, reason: Reason, first: Seal, second: Seal)
    requires Finalized(finalizing, present, reason, first, second)
    ensures AllQuiet(finalizing)
  {
    if present {
      RecheckedIsQuiet(finalizing[1..], reason, first, second);
      assert finalizing == [finalizing[0]] + finalizing[1..];
    }
  }

  lemma GrantedIsQuiet(seg: seq<Act>, reason: Reason, result: Result, withCommit: bool, present: bool)
    requires Granted(seg, reason, result, withCommit, present) && !result.Cancelled?
    ensures AllQuiet(seg) && |seg| >= 1
  {
    var run, finalizing, com, first, second :|
      GrantedParts(seg, reason, result, withCommit, present, run, finalizing, com, first, second);
    PerformedIsQuiet(run, reason, result, first);
    FinalizedIsQuiet(finalizing, present, LaterReason(reason, result), first, second);
    if com != [] { CommitIsQuiet(com); }
    QuietBoth(run, finalizing);
    QuietBoth(run + finalizing, com);
  }

  lemma EscapeIsLoud(seg: seq<Act>, reason: Reason, present: bool)
    requires Escaped(seg, reason, present)
    ensures Release !in seg
    ensures |seg| >= 2 && !Quiet(seg[|seg| - 2])
  {
    var result, run, finalized, check, first :| EscapedParts(seg, reason, result, run, finalized, check, first);
    PerformedIsQuiet(run, reason, result, first);
    ThrowingCheckIsLoud(check, LaterReason(reason, result), first);
    NoReleaseInside(run, [Finalize(finalized)] + check, OnStopping(false));
  }

  lemma ThrowingCheckIsLoud(check: seq<Act>, reason: Reason, before: Seal)
    requires SealingThrew(check, reason, before)
    ensures Release !in check && check != [] && !Quiet(check[|check| - 1])
  {
  }

  lemma NoReleaseInside(run: seq<Act>, more: seq<Act>, last: Act)
    requires AllQuiet(run) && Release !in more && more != [] && !last.Release?
    ensures Release !in run + more + [last]
    ensures (run + more + [last])[|run + more| - 1] == more[|more| - 1]
  {
    assert forall act | act in run :: Quiet(act) && act != Release;
  }

  /** How a request ended can be read off what it did: whether it gave the frontend back, and whether it escaped. */
  lemma EndingsAreDistinct(seg: seq<Act>, reason: Reason, result: Try<Result>, withCommit: bool, present: bool)
    requires Ended(seg, reason, result, withCommit, present)
    ensures result.Threw? <==> Escaped(seg, reason, present)
    ensures result == Got(Cancelled) <==> Release in seg
  {
    if Escaped(seg, reason, present) { EscapeIsLoud(seg, reason, present); }
    if result.Got? {
      if result.value.Cancelled? {
        assert seg[|seg| - 2] in seg;
      } else {
        GrantedIsQuiet(seg, reason, result.value, withCommit, present);
      }
    }
  }

  // ---------------------------------------------------------------- answers that let a request pass

  /** At its `k`-th call the rest of the app says yes, with the runtime idle and the frontend there or not. */
  predicate Favours(w: World, k: nat, online: bool) {
    && w.needs(k) == online && w.cleanup(k).NotStarted? && w.valid(k) && w.effects.stop(k) == Got(CleanStop)
    && w.preflight(k).Got? && w.preflight(k).value.Some? && w.preflight(k).value.value.Ready?
  }

  /** So it does `n` times, the frontend there all the time or not at all. */
  ghost predicate Smooth(w: World, from: nat, n: nat) {
    forall k | from <= k < from + n :: Favours(w, k, w.needs(from))
  }

  lemma SmoothAt(w: World, from: nat, n: nat, k: nat)
    requires from <= k < from + n
    ensures Smooth(w, from, n) ==> Favours(w, k, w.needs(from))
  {
  }

  /** The first three calls, as far as they count. */
  lemma SmoothFrom(w: World, from: nat, n: nat)
    ensures Smooth(w, from, n) ==>
              && (n > 0 ==> Favours(w, from, w.needs(from)))
              && (n > 1 ==> Favours(w, from + 1, w.needs(from)))
              && (n > 2 ==> Favours(w, from + 2, w.needs(from)))
  {
  }

  lemma SmoothPart(w: World, from: nat, n: nat, k: nat, m: nat)
    requires from <= k && k + m <= from + n && 0 < m
    ensures Smooth(w, from, n) ==> Smooth(w, k, m) && w.needs(k) == w.needs(from)
  {
    SmoothAt(w, from, n, k);
  }

  /** The finalizer, if there is one, and the end of the lease; nobody is asked anything. */
  predicate OnlyFinalized(seg: seq<Act>, present: bool) {
    if present then |seg| == 2 && seg[0].Finalize? && seg[1] == OnStopping(false) else seg == [OnStopping(false)]
  }

  /** From call `k` on: the seal has lapsed, and asking the frontend for another one fails. */
  predicate Lapses(w: World, k: nat) {
    !w.valid(k) && FailsToSeal(w, k + 1)
  }

  predicate FailsToSeal(w: World, k: nat) {
    w.needs(k) && w.preflight(k + 1) == Threw
  }

  /** Calls of an opening, of a seal, and of a whole clean run. */
  function OpenCalls(w: World, k: nat): nat { if w.needs(k) then 2 else 1 }

  function SealCalls(w: World, k: nat): nat { if w.needs(k) then 3 else 1 }

  function CleanCalls(w: World, k: nat): nat { if w.needs(k) then 9 else 5 }

  predicate TakenWith(seal: Seal, w: World, k: nat) {
    if w.needs(k) then seal.Held? else seal.Offline?
  }

  /** The answers of a clean run, phase by phase: cleanup state and opening, seal and stop, the seal again. */
  lemma SmoothRun(w: World, from: nat)
    ensures Smooth(w, from, CleanCalls(w, from)) ==>
              var stop := from + 1 + OpenCalls(w, from);
              && Smooth(w, from, 1 + OpenCalls(w, from))
              && w.needs(stop) == w.needs(from) && Smooth(w, stop, SealCalls(w, stop) + 2)
              && w.valid(stop + SealCalls(w, stop) + 2 - (if w.needs(from) then 0 else 1))
  {
    var n, stop := CleanCalls(w, from), from + 1 + OpenCalls(w, from);
    SmoothPart(w, from, n, from, 1 + OpenCalls(w, from));
    SmoothPart(w, from, n, stop, if w.needs(from) then 5 else 3);
    SmoothAt(w, from, n, from + n - 1);
  }

  class Coordinator {
    const world: World
    var pending: Option<Reason>
    var normalQuitPending: bool
    var lastSeal: Seal
    var log: seq<Act>

    ghost predicate Valid()
      reads this`log
    {
      AllAnswered(world, log)
    }

    constructor (world: World)
      ensures Valid() && pending == None && !normalQuitPending && lastSeal == NoSeal && log == [] && this.world == world
    {
      this.world := world;
      pending, normalQuitPending, lastSeal, log := None, false, NoSeal, [];
    }

    method NeedsPreflight() returns (needed: bool)
      requires Valid()
      modifies this`log
      ensures Valid()
      ensures log == old(log) + [AskNeeds(needed)] && needed == world.needs(|old(log)|)
    {
      needed := world.needs(|log|);
      log := log + [AskNeeds(needed)];
    }

    method AskFrontend(reason: Reason, seal: bool) returns (answer: Try<Option<Decision>>)
      requires Valid()
      modifies this`log
      ensures Valid()
      ensures log == old(log) + [Preflight(reason, seal, answer)] && answer == world.preflight(|old(log)|)
    {
      answer := world.preflight(|log|);
      log := log + [Preflight(reason, seal, answer)];
    }

    method IsSealValid(id: nat) returns (ok: bool)
      requires Valid()
      modifies this`log
      ensures Valid()
      ensures log == old(log) + [CheckSeal(id, ok)] && ok == world.valid(|old(log)|)
    {
      ok := world.valid(|log|);
      log := log + [CheckSeal(id, ok)];
    }

    method Note(act: Act)
      requires Valid() && Answered(world, |log|, act)
      modifies this`log
      ensures Valid()
      ensures log == old(log) + [act]
    {
      log := log + [act];
    }

    /** Takes a seal and remembers it; without a frontend there is nothing to seal. */
    method SealFrontend(reason: Reason) returns (sealed: Try<bool>, ghost seg: seq<Act>)
      requires Valid()
      modifies this`lastSeal, this`log
      ensures Valid()
      ensures log == old(log) + seg && Uncommitted(seg)
      ensures sealed == Got(true) ==> Sealed(seg, reason, lastSeal)
      ensures sealed == Got(false) ==> lastSeal == NoSeal
      ensures sealed != Got(true) ==> Refused(seg, reason)
      ensures sealed.Threw? ==> SealingThrew(seg, reason, NoSeal) && lastSeal == old(lastSeal)
      ensures FailsToSeal(world, |old(log)|) ==> sealed.Threw?
      ensures Smooth(world, |old(log)|, SealCalls(world, |old(log)|)) ==>
                sealed == Got(true) && |seg| == SealCalls(world, |old(log)|) && TakenWith(lastSeal, world, |old(log)|)
    {
      SmoothFrom(world, |log|, SealCalls(world, |log|));
      var needed := NeedsPreflight();
      if !needed {
        lastSeal := Offline;
        return Got(true), [AskNeeds(false)];
      }
      var answer := AskFrontend(reason, true);
      seg := [AskNeeds(true), Preflight(reason, true, answer)];
      if answer.Threw? {
        assert seg[1] in seg && Refuses(seg[1], reason);
        return Threw, seg;
      }
      if answer.value.None? || answer.value.value.NotReady? {
        lastSeal := NoSeal;
        assert seg[1] in seg && Refuses(seg[1], reason);
        return Got(false), seg;
      }
      var id := answer.value.value.id;
      var ok := IsSealValid(id);
      seg := seg + [CheckSeal(id, ok)];
      lastSeal := if ok then Held(id) else NoSeal;
      assert seg[2] in seg && seg[2] == CheckSeal(id, ok);
      return Got(ok), seg;
    }

    /** Checks the remembered seal and renews it if it no longer holds. */
    method EnsureSeal(reason: Reason) returns (sealed: Try<bool>, ghost seg: seq<Act>)
      requires Valid()
      modifies this`lastSeal, this`log
      ensures Valid()
      ensures log == old(log) + seg && Uncommitted(seg)
      ensures sealed == Got(true) ==> Rechecked(seg, reason, old(lastSeal), lastSeal)
      ensures sealed != Got(true) ==> Refused(seg, reason)
      ensures sealed.Threw? ==> SealingThrew(seg, reason, old(lastSeal))
      ensures old(lastSeal).Held? && Smooth(world, |old(log)| + 1, SealCalls(world, |old(log)| + 1)) ==>
                sealed == Got(true)
      ensures old(lastSeal).Held? && Lapses(world, |old(log)|) ==> sealed.Threw?
      ensures old(lastSeal).Offline? || (old(lastSeal).Held? && world.valid(|old(log)|)) ==>
                sealed == Got(true) && |seg| == (if lastSeal.Held? then 1 else 0) && lastSeal == old(lastSeal)
    {
      if lastSeal.Offline? { return Got(true), []; }
      if lastSeal.NoSeal? {
        sealed, seg := SealFrontend(reason);
        return;
      }
      var before := lastSeal;
      var ok := IsSealValid(lastSeal.id);
      if ok { return Got(true), [CheckSeal(lastSeal.id, true)]; }
      ghost var renewal;
      sealed, renewal := SealFrontend(reason);
      seg := [CheckSeal(before.id, false)] + renewal;
      Renewed(before, renewal, reason, sealed, lastSeal);
    }

    method Tell() returns (shown: bool)
      requires Valid()
      modifies this`log
      ensures Valid()
      ensures log == old(log) + [Inform(shown)]
    {
      shown := world.dialogs.inform(|log|);
      Note(Inform(shown));
    }

    /** The opening preflight of a transition. */
    method OpenFrontend(reason: Reason) returns (ok: bool, threw: bool, ghost seg: seq<Act>)
      requires Valid()
      modifies this`log
      ensures Valid()
      ensures log == old(log) + seg && Uncommitted(seg)
      ensures ok ==> Opened(seg, reason)
      ensures !ok ==> Refused(seg, reason)
      ensures Smooth(world, |old(log)|, OpenCalls(world, |old(log)|)) ==> ok && |seg| == OpenCalls(world, |old(log)|)
    {
      SmoothFrom(world, |log|, OpenCalls(world, |log|));
      var needed := NeedsPreflight();
      if !needed { return true, false, [AskNeeds(false)]; }
      var answer := AskFrontend(reason, false);
      seg := [AskNeeds(true), Preflight(reason, false, answer)];
      assert seg[1] in seg;
      if answer.Threw? { return false, true, seg; }
      if answer.value.None? {
        var shown := Tell();
        RefusedBy(seg, [Inform(shown)], reason);
        return false, !shown, seg + [Inform(shown)];
      }
      return answer.value.value.Ready?, false, seg;
    }

    /** Live app-owned sessions must be confirmed away. */
    method ClearSessions(reason: Reason, state: CleanupState) returns (ok: bool, threw: bool, ghost seg: seq<Act>)
      requires Valid()
      modifies this`log
      ensures Valid()
      ensures log == old(log) + seg && Uncommitted(seg)
      ensures ok ==> SessionsCleared(seg, state)
      ensures !state.Running? ==> ok && seg == []
      ensures state.Running? ==> AskedAbout(seg)
      ensures !ok ==> Refused(seg, reason)
    {
      if !state.Running? { return true, false, []; }
      var summary := world.dialogs.summary(|log|);
      Note(GetSummary(summary));
      seg := [GetSummary(summary)];
      assert seg[0] in seg;
      if summary.Threw? { return false, true, seg; }
      if summary.value.None? {
        var shown := Tell();
        RefusedBy(seg, [Inform(shown)], reason);
        return false, !shown, seg + [Inform(shown)];
      }
      var s := summary.value.value;
      if !(s.owned && (s.live > 0 || s.pendingLaunches)) { return true, false, seg; }
      var confirmed := world.dialogs.confirmSessions(|log|);
      Note(ConfirmSessions(confirmed));
      seg := seg + [ConfirmSessions(confirmed)];
      assert seg[1] in seg;
      return confirmed == Got(true), confirmed.Threw?, seg;
    }

    /** Without an own rule, only a lost runtime may be abandoned. */
    method CanForceQuit() returns (can: bool)
      requires Valid()
      modifies this`log
      ensures Valid()
      ensures log == old(log) + [AskForce(can)]
    {
      can := if world.effects.canForce.Some? then world.effects.canForce.value(|log|)
             else world.cleanup(|log|).Unconfirmed?;
      Note(AskForce(can));
    }

    method ForceQuit() returns (result: Try<Result>, ghost seg: seq<Act>)
      requires Valid()
      modifies this`lastSeal, this`log
      ensures Valid()
      ensures log == old(log) + seg && Uncommitted(seg)
      ensures result.Threw? || result.value.Forced? || result.value.Cancelled?
      ensures result == Got(Forced) ==> ForceConfirmed(seg, lastSeal)
      ensures result != Got(Forced) ==> Refused(seg, Quit)
    {
      var can := CanForceQuit();
      seg := [AskForce(can)];
      assert seg[0] in seg;
      if !can { return Got(Cancelled), seg; }
      var exit := world.dialogs.confirmExit(|log|);
      Note(ConfirmExit(exit));
      seg := seg + [ConfirmExit(exit)];
      assert seg[1] in seg;
      if exit.Threw? { return Threw, seg; }
      if !exit.value { return Got(Cancelled), seg; }
      ghost var sealing;
      result, sealing := SealForExit();
      UncommittedBoth(seg, sealing);
      if result == Got(Forced) {
        assert seg + sealing == seg + sealing[..|sealing| - 1] + [AskForce(true)];
      } else {
        RefusedBy(seg, sealing, Quit);
      }
      seg := seg + sealing;
    }

    /** After the user's confirmation: a seal, and forcing must still be possible. */
    method SealForExit() returns (result: Try<Result>, ghost seg: seq<Act>)
      requires Valid()
      modifies this`lastSeal, this`log
      ensures Valid()
      ensures log == old(log) + seg && Uncommitted(seg)
      ensures result.Threw? || result.value.Forced? || result.value.Cancelled?
      ensures result == Got(Forced) ==>
                && seg != [] && seg[|seg| - 1] == AskForce(true) && Sealed(seg[..|seg| - 1], Quit, lastSeal)
      ensures result != Got(Forced) ==> Refused(seg, Quit)
    {
      var sealed, sealing := SealFrontend(Quit);
      if sealed != Got(true) { return if sealed.Threw? then Threw else Got(Cancelled), sealing; }
      var can := CanForceQuit();
      ghost var asked := [AskForce(can)];
      assert asked[0] in asked;
      seg := sealing + asked;
      UncommittedBoth(sealing, asked);
      assert seg[..|seg| - 1] == sealing;
      if !can { RefusedBy(sealing, asked, Quit); }
      return if can then Got(Forced) else Got(Cancelled), seg;
    }

    /** Cleanup state and opening preflight. */
    method Approach(reason: Reason) returns (ok: bool, threw: bool, state: CleanupState, ghost opening: seq<Act>)
      requires Valid()
      modifies this`log
      ensures Valid()
      ensures log == old(log) + ([AskCleanup(state)] + opening) && Uncommitted([AskCleanup(state)] + opening)
      ensures ok ==> Opened(opening, reason)
      ensures !ok ==> Refused([AskCleanup(state)] + opening, reason)
      ensures Smooth(world, |old(log)|, 1 + OpenCalls(world, |old(log)|)) ==>
                ok && state.NotStarted? && |opening| == OpenCalls(world, |old(log)|)
    {
      SmoothFrom(world, |log|, 1 + OpenCalls(world, |log|));
      SmoothPart(world, |log|, 1 + OpenCalls(world, |log|), |log| + 1, OpenCalls(world, |log|));
      state := world.cleanup(|log|);
      Note(AskCleanup(state));
      ok, threw, opening := OpenFrontend(reason);
      UncommittedBoth([AskCleanup(state)], opening);
      if !ok { RefusedBy([AskCleanup(state)], opening, reason); }
    }

    /** The seal is taken before the runtime is told to stop. */
    method SealAndStop(reason: Reason)
      returns (outcome: Option<StopOutcome>, threw: bool, ghost seg: seq<Act>, ghost sealing: seq<Act>)
      requires Valid()
      modifies this`lastSeal, this`log
      ensures Valid()
      ensures log == old(log) + seg && Uncommitted(seg)
      ensures outcome.Some? ==>
                seg == sealing + [OnStopping(true), Stop(Got(outcome.value))] && Sealed(sealing, reason, lastSeal)
      ensures outcome != Some(CleanStop) ==> Refused(seg, reason)
      ensures Smooth(world, |old(log)|, SealCalls(world, |old(log)|) + 2) ==>
                && outcome == Some(CleanStop) && |seg| == SealCalls(world, |old(log)|) + 2
                && TakenWith(lastSeal, world, |old(log)|)
    {
      ghost var n := SealCalls(world, |log|);
      SmoothPart(world, |log|, n + 2, |log|, n);
      SmoothAt(world, |log|, n + 2, |log| + n + 1);
      var sealed;
      sealed, sealing := SealFrontend(reason);
      if sealed != Got(true) { return None, sealed.Threw?, sealing, sealing; }
      Note(OnStopping(true));
      var answer := world.effects.stop(|log|);
      Note(Stop(answer));
      ghost var stopping := [OnStopping(true), Stop(answer)];
      assert stopping[1] in stopping;
      UncommittedBoth(sealing, stopping);
      seg := sealing + stopping;
      if answer != Got(CleanStop) { RefusedBy(sealing, stopping, reason); }
      return if answer.Threw? then None else Some(answer.value), answer.Threw?, seg, sealing;
    }

    /** Up to the stop: everything that must pass before it, in order. */
    method StopRuntime(reason: Reason, ghost head: seq<Act>, state: CleanupState, ghost opening: seq<Act>)
      returns (outcome: Option<StopOutcome>, threw: bool, ghost seg: seq<Act>)
      requires head == [AskCleanup(state)] + opening && Uncommitted(head) && Opened(opening, reason)
               && !state.Unconfirmed?
      requires Valid()
      modifies this`lastSeal, this`log
      ensures Valid()
      ensures log == old(log) + seg && Uncommitted(head + seg)
      ensures outcome.Some? ==> Stopped(head + seg, reason, lastSeal, outcome.value) && lastSeal != NoSeal
      ensures outcome != Some(CleanStop) ==> Refused(head + seg, reason)
      ensures state.NotStarted? && Smooth(world, |old(log)|, SealCalls(world, |old(log)|) + 2) ==>
                && outcome == Some(CleanStop) && |seg| == SealCalls(world, |old(log)|) + 2
                && TakenWith(lastSeal, world, |old(log)|)
    {
      var ok, failed, sessions := ClearSessions(reason, state);
      UncommittedBoth(head, sessions);
      if !ok {
        RefusedBy(head, sessions, reason);
        return None, failed, sessions;
      }
      ghost var stopping, sealing;
      outcome, threw, stopping, sealing := SealAndStop(reason);
      seg := sessions + stopping;
      UncommittedThree(head, sessions, stopping);
      if outcome != Some(CleanStop) { RefusedByLast(head, sessions, stopping, reason); }
      if outcome.Some? { StoppedFrom(head, state, opening, sessions, sealing, reason, lastSeal, outcome.value); }
    }

    method AfterCleanStop(reason: Reason, ghost stopping: seq<Act>) returns (result: Try<Result>, ghost more: seq<Act>)
      requires Stopped(stopping, reason, lastSeal, CleanStop) && Uncommitted(stopping)
      requires Valid()
      modifies this`lastSeal, this`log
      ensures Valid()
      ensures log == old(log) + more && Uncommitted(stopping + more)
      ensures result.Got? ==> !result.value.Forced? && Performed(stopping + more, reason, result.value, lastSeal)
      ensures result != Got(Clean) ==> Refused(stopping + more, reason)
      ensures old(lastSeal).Offline? || (old(lastSeal).Held? && world.valid(|old(log)|)) ==>
                result == Got(Clean) && |more| == (if lastSeal.Held? then 1 else 0) && lastSeal == old(lastSeal)
    {
      var later := LaterReason(reason, Clean);
      var sealed;
      sealed, more := EnsureSeal(later);
      UncommittedBoth(stopping, more);
      if sealed == Got(true) {
        CleanFrom(stopping, more, reason, old(lastSeal), lastSeal);
        return Got(Clean), more;
      }
      RefusedLater(more, later, reason);
      RefusedBy(stopping, more, reason);
      return if sealed.Threw? then Threw else Got(Cancelled), more;
    }

    method ForceAfterStop(ghost stopping: seq<Act>) returns (result: Try<Result>, ghost more: seq<Act>)
      requires Stopped(stopping, Quit, lastSeal, IncompleteStop) && Uncommitted(stopping + [AskForce(true)])
      requires Valid()
      modifies this`lastSeal, this`log
      ensures Valid()
      ensures log == old(log) + more && Uncommitted(stopping + [AskForce(true)] + more)
      ensures result.Got? ==>
                !result.value.Clean? && Performed(stopping + [AskForce(true)] + more, Quit, result.value, lastSeal)
      ensures result != Got(Forced) ==> Refused(stopping + [AskForce(true)] + more, Quit)
    {
      result, more := ForceQuit();
      UncommittedBoth(stopping + [AskForce(true)], more);
      if result == Got(Forced) {
        ForcedAfterStop(stopping, more, old(lastSeal), lastSeal);
      } else {
        RefusedBy(stopping + [AskForce(true)], more, Quit);
      }
    }

    method GiveUp(reason: Reason, ghost before: seq<Act>) returns (result: Try<Result>, ghost more: seq<Act>)
      requires Uncommitted(before) && Refused(before, reason)
      requires Valid()
      modifies this`log
      ensures Valid()
      ensures log == old(log) + more && Uncommitted(before + more) && Refused(before + more, reason)
      ensures result == Threw || result == Got(Cancelled)
    {
      var shown := Tell();
      more := [Inform(shown)];
      UncommittedBoth(before, more);
      RefusedBy(before, more, reason);
      return if shown then Got(Cancelled) else Threw, more;
    }

    method AfterIncompleteStop(reason: Reason, ghost stopping: seq<Act>)
      returns (result: Try<Result>, ghost more: seq<Act>)
      requires Stopped(stopping, reason, lastSeal, IncompleteStop) && Uncommitted(stopping) && Refused(stopping, reason)
      requires Valid()
      modifies this`lastSeal, this`log
      ensures Valid()
      ensures log == old(log) + more && Uncommitted(stopping + more)
      ensures result.Got? ==> !result.value.Clean? && Performed(stopping + more, reason, result.value, lastSeal)
      ensures result != Got(Forced) ==> Refused(stopping + more, reason)
    {
      if !reason.Quit? {
        result, more := GiveUp(reason, stopping);
        return;
      }
      ghost var start := log;
      var can := CanForceQuit();
      UncommittedBoth(stopping, [AskForce(can)]);
      ghost var rest;
      if can {
        result, rest := ForceAfterStop(stopping);
      } else {
        RefusedBy(stopping, [AskForce(false)], reason);
        result, rest := GiveUp(reason, stopping + [AskForce(false)]);
      }
      more := [AskForce(can)] + rest;
      Associate(stopping, [AskForce(can)], rest);
      Associate(start, [AskForce(can)], rest);
    }

    /** The runtime was lost before: only a quit may go on, by force. */
    method AfterLoss(reason: Reason, ghost opening: seq<Act>) returns (result: Try<Result>, ghost more: seq<Act>)
      requires Opened(opening, reason) && Uncommitted([AskCleanup(Unconfirmed)] + opening)
      requires Valid()
      modifies this`lastSeal, this`log
      ensures Valid()
      ensures log == old(log) + more && Uncommitted([AskCleanup(Unconfirmed)] + opening + more)
      ensures result.Got? ==>
                && !result.value.Clean?
                && Performed([AskCleanup(Unconfirmed)] + opening + more, reason, result.value, lastSeal)
      ensures result != Got(Forced) ==> Refused([AskCleanup(Unconfirmed)] + opening + more, reason)
    {
      ghost var head := [AskCleanup(Unconfirmed)] + opening;
      assert head[0] in head;
      if !reason.Quit? {
        assert head + [] == head && Refuses(head[0], reason);
        return Got(Cancelled), [];
      }
      result, more := ForceQuit();
      UncommittedBoth(head, more);
      if result == Got(Forced) { ForcedAfterLoss(opening, more, lastSeal); } else { RefusedBy(head, more, reason); }
    }

    method AfterStop(reason: Reason, outcome: StopOutcome, ghost stopping: seq<Act>)
      returns (result: Try<Result>, ghost more: seq<Act>)
      requires Stopped(stopping, reason, lastSeal, outcome) && Uncommitted(stopping)
      requires outcome.IncompleteStop? ==> Refused(stopping, reason)
      requires Valid()
      modifies this`lastSeal, this`log
      ensures Valid()
      ensures log == old(log) + more && Uncommitted(stopping + more)
      ensures result.Got? ==> Performed(stopping + more, reason, result.value, lastSeal)
      ensures result.Threw? || result.value.Cancelled? ==> Refused(stopping + more, reason)
      ensures outcome.CleanStop? && (old(lastSeal).Offline? || (old(lastSeal).Held? && world.valid(|old(log)|))) ==>
                result == Got(Clean) && |more| == (if lastSeal.Held? then 1 else 0) && lastSeal == old(lastSeal)
    {
      if outcome.CleanStop? {
        result, more := AfterCleanStop(reason, stopping);
      } else {
        result, more := AfterIncompleteStop(reason, stopping);
      }
    }

    method Perform(reason: Reason) returns (result: Try<Result>, ghost seg: seq<Act>)
      requires Valid()
      modifies this`lastSeal, this`log
      ensures Valid()
      ensures log == old(log) + seg && Uncommitted(seg)
      ensures result.Got? ==> Performed(seg, reason, result.value, lastSeal)
      ensures result.Threw? || result.value.Cancelled? ==> Refused(seg, reason)
      ensures Smooth(world, |old(log)|, CleanCalls(world, |old(log)|)) ==>
                result == Got(Clean) && |seg| == CleanCalls(world, |old(log)|) && TakenWith(lastSeal, world, |old(log)|)
    {
      ghost var start := log;
      SmoothRun(world, |log|);
      var ok, threw, state, opening := Approach(reason);
      ghost var head := [AskCleanup(state)] + opening;
      if !ok { return if threw then Threw else Got(Cancelled), head; }
      ghost var more;
      if state.Unconfirmed? {
        result, more := AfterLoss(reason, opening);
        Associate(start, head, more);
        return result, head + more;
      }
      result, more := StopAndFollow(reason, head, state, opening);
      Associate(start, head, more);
      return result, head + more;
    }

    /** The stop and what its outcome leads to. */
    method StopAndFollow(reason: Reason, ghost head: seq<Act>, state: CleanupState, ghost opening: seq<Act>)
      returns (result: Try<Result>, ghost more: seq<Act>)
      requires head == [AskCleanup(state)] + opening && Uncommitted(head) && Opened(opening, reason)
      requires !state.Unconfirmed? && Valid()
      modifies this`lastSeal, this`log
      ensures Valid() && log == old(log) + more && Uncommitted(head + more)
      ensures result.Got? ==> Performed(head + more, reason, result.value, lastSeal)
      ensures result.Threw? || result.value.Cancelled? ==> Refused(head + more, reason)
      ensures var n := SealCalls(world, |old(log)|) + 2;
              state.NotStarted? && Smooth(world, |old(log)|, n)
              && (world.needs(|old(log)|) ==> world.valid(|old(log)| + n)) ==>
                && result == Got(Clean) && TakenWith(lastSeal, world, |old(log)|)
                && |more| == n + (if world.needs(|old(log)|) then 1 else 0)
    {
      var outcome, failed, stopping := StopRuntime(reason, head, state, opening);
      if outcome.None? { return if failed then Threw else Got(Cancelled), stopping; }
      ghost var rest;
      result, rest := AfterStop(reason, outcome.value, head + stopping);
      Associate(head, stopping, rest);
      Associate(old(log), stopping, rest);
      more := stopping + rest;
    }

    /** The finalizer cannot change the result, but the seal must have survived it. */
    method Settle(reason: Reason) returns (sealed: Try<bool>, ghost seg: seq<Act>)
      requires Valid()
      modifies this`lastSeal, this`log
      ensures Valid()
      ensures log == old(log) + seg && Uncommitted(seg)
      ensures sealed == Got(true) ==> Finalized(seg, world.effects.finalize.Some?, reason, old(lastSeal), lastSeal)
      ensures sealed != Got(true) ==> Refused(seg, reason)
      ensures sealed.Threw? ==>
                && |seg| > 0 && seg[0].Finalize? && SealingThrew(seg[1..], reason, old(lastSeal))
                && world.effects.finalize.Some?
      ensures world.effects.finalize.Some? && old(lastSeal).Held? && Lapses(world, |old(log)| + 1) ==> sealed.Threw?
      ensures old(lastSeal).Offline? ==> sealed == Got(true) && |seg| == (if world.effects.finalize.Some? then 1 else 0)
    {
      if world.effects.finalize.None? { return Got(true), []; }
      var finalized := world.effects.finalize.value(|log|);
      Note(Finalize(finalized));
      ghost var check;
      sealed, check := EnsureSeal(reason);
      seg := [Finalize(finalized)] + check;
      UncommittedBoth([Finalize(finalized)], check);
      assert seg[1..] == check;
      if sealed != Got(true) { RefusedBy([Finalize(finalized)], check, reason); }
    }

    /** Authorizes the update under a fresh seal; every failure is a cancellation. */
    method CommitUpdate() returns (ok: bool, ghost seg: seq<Act>)
      requires Valid()
      modifies this`lastSeal, this`log
      ensures Valid()
      ensures log == old(log) + seg && CommitStep(seg, ok)
      ensures !ok ==> Refused(seg, Update)
    {
      var sealed, sealing := SealFrontend(Quit);
      if sealed != Got(true) {
        RefusedForUpdate(sealing);
        return false, sealing;
      }
      ghost var seal := lastSeal;
      var committed := world.effects.commit(|log|);
      Note(Commit(committed));
      ghost var act := [Commit(committed)];
      assert act[0] in act;
      if !committed {
        assert CommitParts(sealing + act, false, sealing, false, [], seal, seal);
        RefusedBy(sealing, act, Update);
        return false, sealing + act;
      }
      var held, check := EnsureSeal(Quit);
      assert CommitParts(sealing + act + check, held == Got(true), sealing, true, check, seal, lastSeal);
      if held != Got(true) {
        RefusedForUpdate(check);
        RefusedBy(sealing + act, check, Update);
      }
      return held == Got(true), sealing + act + check;
    }

    /** `perform` with its failures turned into a cancellation. */
    method Attempt(reason: Reason) returns (result: Result, ghost seg: seq<Act>)
      requires Valid()
      modifies this`lastSeal, this`log
      ensures Valid()
      ensures log == old(log) + seg && Uncommitted(seg)
      ensures Performed(seg, reason, result, lastSeal)
      ensures result.Cancelled? ==> Refused(seg, reason)
      ensures Smooth(world, |old(log)|, CleanCalls(world, |old(log)|)) ==>
                result == Clean && |seg| == CleanCalls(world, |old(log)|) && TakenWith(lastSeal, world, |old(log)|)
    {
      ghost var start := log;
      var tried;
      tried, seg := Perform(reason);
      if tried.Got? { return tried.value, seg; }
      var shown := Tell();
      UncommittedBoth(seg, [Inform(shown)]);
      RefusedBy(seg, [Inform(shown)], reason);
      Associate(start, seg, [Inform(shown)]);
      return Cancelled, seg + [Inform(shown)];
    }

    /** Ends the lease; a cancelled request first gives the frontend back. */
    method EndLease(release: bool) returns (ghost tail: seq<Act>)
      requires Valid()
      modifies this`pending, this`log
      ensures Valid()
      ensures tail == (if release then [Release, OnStopping(false)] else [OnStopping(false)])
      ensures log == old(log) + tail && pending == None
    {
      if release { Note(Release); }
      Note(OnStopping(false));
      pending := None;
      return if release then [Release, OnStopping(false)] else [OnStopping(false)];
    }

    method Refuse(reason: Reason, ghost body: seq<Act>) returns (ghost tail: seq<Act>)
      requires Refused(body, reason)
      requires Valid()
      modifies this`pending, this`log
      ensures Valid()
      ensures log == old(log) + tail && tail == [Release, OnStopping(false)] && pending == None
      ensures GaveBack(body + tail, reason)
    {
      tail := EndLease(true);
      GivenBack(body, reason);
    }

    /** The commit of an update, where there is one, and the end of the lease. */
    method Finish(reason: Reason, result: Result, withCommit: bool, ghost run: seq<Act>, ghost finalizing: seq<Act>,
                  ghost first: Seal) returns (final: Result, ghost more: seq<Act>)
      requires !result.Cancelled? && Performed(run, reason, result, first)
      requires Finalized(finalizing, world.effects.finalize.Some?, LaterReason(reason, result), first, lastSeal)
      requires Uncommitted(run + finalizing)
      requires Valid()
      modifies this
      ensures Valid()
      ensures log == old(log) + more && pending == None && unchanged(`normalQuitPending)
      ensures CommitsGuarded(run + finalizing + more, world.effects.finalize.Some?)
      ensures if final.Cancelled? then GaveBack(run + finalizing + more, reason)
              else final == result
                   && Granted(run + finalizing + more, reason, result, withCommit, world.effects.finalize.Some?)
      ensures !(reason.Update? && result.Clean? && withCommit) ==> final == result && more == [OnStopping(false)]
    {
      ghost var start, present, head, second := log, world.effects.finalize.Some?, run + finalizing, lastSeal;
      if !(reason.Update? && result.Clean? && withCommit) {
        more := EndLease(false);
        assert GrantedParts(head + more, reason, result, withCommit, present, run, finalizing, [], first, second);
        UncommittedBoth(head, more);
        UncommittedIsGuarded(head + more, present);
        return result, more;
      }
      var ok, com := CommitUpdate();
      ghost var tail;
      if ok {
        tail := EndLease(false);
        assert GrantedParts(head + com + tail, reason, result, withCommit, present, run, finalizing, com,
                            first, second);
      } else {
        RefusedBy(head, com, reason);
        tail := Refuse(reason, head + com);
      }
      UpdateIsGuarded(run, finalizing, present, first, second, com, ok, tail);
      Associate(head, com, tail);
      Associate(start, com, tail);
      return if ok then result else Cancelled, com + tail;
    }

    /** A cancelled request. */
    method Fail(reason: Reason, ghost body: seq<Act>) returns (ghost tail: seq<Act>)
      requires Uncommitted(body) && Refused(body, reason)
      requires Valid()
      modifies this`pending, this`log
      ensures Valid()
      ensures log == old(log) + tail && pending == None
      ensures CommitsGuarded(body + tail, world.effects.finalize.Some?) && GaveBack(body + tail, reason)
    {
      tail := Refuse(reason, body);
      UncommittedBoth(body, tail);
      UncommittedIsGuarded(body + tail, world.effects.finalize.Some?);
    }

    /** An exception after the finalizer: the lease ends, the frontend is not given back. */
    method Escape(reason: Reason, result: Result, ghost run: seq<Act>, ghost finalizing: seq<Act>, ghost first: Seal)
      returns (ghost tail: seq<Act>)
      requires !result.Cancelled? && Performed(run, reason, result, first) && Uncommitted(run + finalizing)
      requires |finalizing| > 0 && finalizing[0].Finalize? && world.effects.finalize.Some?
      requires SealingThrew(finalizing[1..], LaterReason(reason, result), first)
      requires Valid()
      modifies this`pending, this`log
      ensures Valid()
      ensures log == old(log) + tail && pending == None && tail == [OnStopping(false)]
      ensures CommitsGuarded(run + finalizing + tail, true) && Escaped(run + finalizing + tail, reason, true)
    {
      tail := EndLease(false);
      UncommittedBoth(run + finalizing, tail);
      UncommittedIsGuarded(run + finalizing + tail, true);
      assert finalizing == [Finalize(finalizing[0].finalized)] + finalizing[1..];
      assert EscapedParts(run + finalizing + tail, reason, result, run, finalizing[0].finalized,
                          finalizing[1..], first);
    }

    /** From the settled runtime to the end of the lease. */
    method Continue(reason: Reason, first: Result, withCommit: bool, ghost run: seq<Act>)
      returns (result: Try<Result>, ghost more: seq<Act>)
      requires !first.Cancelled? && Performed(run, reason, first, lastSeal) && Uncommitted(run)
      requires Valid()
      modifies this
      ensures Valid()
      ensures log == old(log) + more && pending == None && unchanged(`normalQuitPending)
      ensures CommitsGuarded(run + more, world.effects.finalize.Some?)
      ensures Ended(run + more, reason, result, withCommit, world.effects.finalize.Some?)
      ensures world.effects.finalize.Some? && old(lastSeal).Held? && Lapses(world, |old(log)| + 1) ==> result.Threw?
      ensures old(lastSeal).Offline? && !withCommit ==>
                result == Got(first) && OnlyFinalized(more, world.effects.finalize.Some?)
    {
      ghost var start, tail, seal := log, [], lastSeal;
      var later := LaterReason(reason, first);
      var sealed, finalizing := Settle(later);
      UncommittedBoth(run, finalizing);
      if sealed == Got(true) {
        var final;
        final, tail := Finish(reason, first, withCommit, run, finalizing, seal);
        result := Got(final);
      } else if sealed.Threw? {
        tail := Escape(reason, first, run, finalizing, seal);
        result := Threw;
      } else {
        if later != reason { RefusedForUpdate(finalizing); }
        RefusedBy(run, finalizing, reason);
        tail := Fail(reason, run + finalizing);
        result := Got(Cancelled);
      }
      Associate(start, finalizing, tail);
      Associate(run, finalizing, tail);
      more := finalizing + tail;
    }

    /**
     * One leased request. An exception escapes only from the sealing preflight after the
     * finalizer; then the lease ends without giving the frontend back.
     */
    method Transition(reason: Reason, withCommit: bool) returns (result: Try<Result>, ghost seg: seq<Act>)
      requires pending == Some(reason)
      requires Valid()
      modifies this
      ensures Valid()
      ensures log == old(log) + seg && pending == None && unchanged(`normalQuitPending)
      ensures CommitsGuarded(seg, world.effects.finalize.Some?)
      ensures Ended(seg, reason, result, withCommit, world.effects.finalize.Some?)
      ensures result.Threw? <==> Escaped(seg, reason, world.effects.finalize.Some?)
      ensures result == Got(Cancelled) <==> Release in seg
      ensures Smooth(world, |old(log)|, CleanCalls(world, |old(log)|)) && world.effects.finalize.Some? ==>
                var n := |old(log)| + CleanCalls(world, |old(log)|);
                && (world.needs(|old(log)|) && Lapses(world, n + 1) ==> result.Threw?)
                && (!world.needs(|old(log)|) && !withCommit ==>
                      result == Got(Clean) && |log| == n + 2 && OnlyFinalized(log[n..], true))
    {
      ghost var start := log;
      var first, run := Attempt(reason);
      ghost var more;
      if first.Cancelled? {
        more := Fail(reason, run);
        result := Got(Cancelled);
      } else {
        result, more := Continue(reason, first, withCommit, run);
      }
      Associate(start, run, more);
      seg := run + more;
      EndingsAreDistinct(seg, reason, result, withCommit, world.effects.finalize.Some?);
    }

    /** A request may start, join the one in progress, or be declined: an update shares with nobody. */
    method Request(reason: Reason) returns (answer: Admission)
      modifies this`pending, this`normalQuitPending
      ensures answer == Admit(old(pending), reason)
      ensures pending == if answer.Started? then Some(reason) else old(pending)
      ensures normalQuitPending == (old(normalQuitPending) || (reason.Quit? && !answer.Declined?))
    {
      if pending.Some? && (reason.Update? || pending == Some(Update)) { return Declined; }
      if reason.Quit? { normalQuitPending := true; }
      if pending.Some? { return Joined; }
      pending := Some(reason);
      return Started;
    }

    method CancelNormalQuit()
      modifies this`normalQuitPending
      ensures !normalQuitPending
    {
      normalQuitPending := false;
    }
  }

  // ---------------------------------------------------------------- what a granted request means

  /** No refusal among these acts. */
  ghost predicate Unrefused(seg: seq<Act>, reason: Reason) {
    forall act | act in seg :: !Refuses(act, reason)
  }

  lemma UnrefusedBoth(a: seq<Act>, b: seq<Act>, reason: Reason)
    requires Unrefused(a, reason) && Unrefused(b, reason)
    ensures Unrefused(a + b, reason)
  {
  }

  lemma SegmentsAreUnrefused(state: CleanupState, opening: seq<Act>, sessions: seq<Act>, sealing: seq<Act>,
                             reason: Reason, seal: Seal)
    requires !state.Unconfirmed? && Opened(opening, reason) && SessionsCleared(sessions, state)
             && Sealed(sealing, reason, seal)
    ensures Unrefused([AskCleanup(state)] + opening + sessions + sealing, reason)
  {
    if state.Running? {
      var s := sessions[0].summary.value.value;
      assert sessions == [sessions[0]] + sessions[1..];
    }
    UnrefusedBoth([AskCleanup(state)], opening, reason);
    UnrefusedBoth([AskCleanup(state)] + opening, sessions, reason);
    UnrefusedBoth([AskCleanup(state)] + opening + sessions, sealing, reason);
  }

  lemma StoppedUnrefused(seg: seq<Act>, reason: Reason, seal: Seal, outcome: StopOutcome) returns (k: nat)
    requires Stopped(seg, reason, seal, outcome)
    ensures 0 < k < |seg| && seg[k] == Stop(Got(outcome)) && seg[k - 1] == OnStopping(true)
    ensures Unrefused(seg[..k - 1], reason)
  {
    var state, opening, sessions, sealing :|
      && seg == [AskCleanup(state)] + opening + sessions + sealing + [OnStopping(true), Stop(Got(outcome))]
      && !state.Unconfirmed? && Opened(opening, reason) && SessionsCleared(sessions, state)
      && Sealed(sealing, reason, seal);
    SegmentsAreUnrefused(state, opening, sessions, sealing, reason, seal);
    var before := [AskCleanup(state)] + opening + sessions + sealing;
    k := |before| + 1;
    assert seg[..k - 1] == before;
  }

  lemma CleanRunStopped(run: seq<Act>, reason: Reason, first: Seal) returns (k: nat)
    requires CleanRun(run, reason, first)
    ensures 0 < k < |run| && run[k] == Stop(Got(CleanStop)) && run[k - 1] == OnStopping(true)
    ensures Unrefused(run[..k - 1], reason)
  {
    var stopping, seal, checking :| run == stopping + checking && Stopped(stopping, reason, seal, CleanStop)
                                    && Rechecked(checking, LaterReason(reason, Clean), seal, first);
    k := StoppedUnrefused(stopping, reason, seal, CleanStop);
    assert run[..k - 1] == stopping[..k - 1];
  }

  /** Clean: the runtime stopped clean in this request, and nothing had refused before it was told to stop. */
  lemma CleanMeansStopped(seg: seq<Act>, reason: Reason, withCommit: bool, present: bool) returns (k: nat)
    requires Granted(seg, reason, Clean, withCommit, present)
    ensures 0 < k < |seg| && seg[k] == Stop(Got(CleanStop)) && seg[k - 1] == OnStopping(true)
    ensures Unrefused(seg[..k - 1], reason)
  {
    var run, finalizing, com, first, second :|
      GrantedParts(seg, reason, Clean, withCommit, present, run, finalizing, com, first, second);
    k := CleanRunStopped(run, reason, first);
    assert seg[..k - 1] == run[..k - 1];
  }

  lemma ForcedRunConfirmed(run: seq<Act>, reason: Reason, first: Seal) returns (k: nat)
    requires ForcedRun(run, reason, first)
    ensures reason.Quit? && 0 < k < |run| - 1 && run[k] == ConfirmExit(Got(true)) && run[k - 1] == AskForce(true)
    ensures run[|run| - 1] == AskForce(true)
  {
    var before, forcing :| run == before + forcing && ForceConfirmed(forcing, first) && reason.Quit?
                           && (LostBefore(before, reason) || StopFailed(before, reason));
    var sealing :| forcing == [AskForce(true), ConfirmExit(Got(true))] + sealing + [AskForce(true)]
                   && Sealed(sealing, Quit, first);
    k := |before| + 1;
  }

  /** Forced: only a quit, that the user confirmed while forcing was possible, and it still was at the end. */
  lemma ForcedMeansConfirmed(seg: seq<Act>, reason: Reason, withCommit: bool, present: bool) returns (k: nat, last: nat)
    requires Granted(seg, reason, Forced, withCommit, present)
    ensures reason.Quit? && 0 < k < last < |seg|
    ensures seg[k - 1] == AskForce(true) && seg[k] == ConfirmExit(Got(true)) && seg[last] == AskForce(true)
  {
    var run, finalizing, com, first, second :|
      GrantedParts(seg, reason, Forced, withCommit, present, run, finalizing, com, first, second);
    k := ForcedRunConfirmed(run, reason, first);
    last := |run| - 1;
  }

  /** An act that shows the frontend sealed, or gone. */
  predicate ShowsSealed(act: Act) {
    act == AskNeeds(false) || (act.CheckSeal? && act.ok)
  }

  /**
   * The seal is looked at after the finalizer exactly if the renderer gave it: a seal
   * taken while no frontend was needed is trusted from then on.
   */
  lemma SealFollowsFinalizerIff(finalizing: seq<Act>, reason: Reason, first: Seal, second: Seal)
    requires Finalized(finalizing, true, reason, first, second)
    ensures finalizing[0].Finalize?
    ensures (exists act | act in finalizing[1..] :: ShowsSealed(act)) <==> !first.Offline?
  {
    var check := finalizing[1..];
    match first
    case Offline =>
    case Held(id) =>
      if check == [CheckSeal(id, true)] {
        assert check[0] in check && ShowsSealed(check[0]);
      } else {
        SealedShows(check[1..], reason, second);
        var act :| act in check[1..] && ShowsSealed(act);
        assert act in check;
      }
    case NoSeal =>
      SealedShows(check, reason, second);
  }

  lemma SealedShows(seg: seq<Act>, reason: Reason, seal: Seal)
    requires Sealed(seg, reason, seal)
    ensures exists act | act in seg :: ShowsSealed(act)
  {
    var last := seg[|seg| - 1];
    assert last in seg && ShowsSealed(last);
  }

  // ---------------------------------------------------------------- two runs

  /** Everything goes well, until the seal has lapsed after the finalizer and the frontend fails. */
  const LAPSING: World := World(
    (k: nat) => true, (k: nat) => NotStarted,
    (k: nat) => if k < 12 then Got(Some(Ready(0))) else Threw, (k: nat) => k < 10,
    SILENT, Effects((k: nat) => Got(CleanStop), None, Some((k: nat) => true), (k: nat) => true))

  /** No frontend for the first five calls, and one with nothing sealed from then on. */
  const RETURNING: World := World(
    (k: nat) => k >= 5, (k: nat) => NotStarted, (k: nat) => Got(Some(Ready(0))), (k: nat) => k < 5,
    SILENT, Effects((k: nat) => Got(CleanStop), None, Some((k: nat) => true), (k: nat) => true))

  const SILENT: Dialogs := Dialogs((k: nat) => Threw, (k: nat) => Threw, (k: nat) => Threw, (k: nat) => false)

  /** A request whose exception escapes: the runtime is stopped, and the frontend is not given back. */
  method EscapingRequest(reason: Reason) returns (result: Try<Result>, ghost seg: seq<Act>)
    ensures result == Threw && Escaped(seg, reason, true) && Release !in seg
  {
    var c := new Coordinator(LAPSING);
    var admission := c.Request(reason);
    assert Smooth(LAPSING, 0, 9);
    result, seg := c.Transition(reason, false);
  }

  /** A granted request whose seal, taken without a frontend, is not looked at again when one is back. */
  method UnsealedRequest(reason: Reason) returns (result: Try<Result>, ghost seg: seq<Act>)
    ensures result == Got(Clean) && Granted(seg, reason, Clean, false, true)
    ensures |seg| == 7 && OnlyFinalized(seg[5..], true) && RETURNING.needs(5)
  {
    var c := new Coordinator(RETURNING);
    var admission := c.Request(reason);
    assert Smooth(RETURNING, 0, 5);
    result, seg := c.Transition(reason, false);
  }

  // ---------------------------------------------------------------- the lease over many requests

  datatype Admission = Started | Joined | Declined

  function Admit(pending: Option<Reason>, reason: Reason): Admission {
    if pending.None? then Started
    else if reason.Update? || pending == Some(Update) then Declined
    else Joined
  }

  /** Requests arrive at any time; the request in progress ends at any time. */
  datatype LeaseEvent = Arrive(reason: Reason) | End

  /** The request in progress, and for every request so far the one whose result it gets. */
  datatype Lease = Lease(holder: Option<nat>, reasons: seq<Reason>, results: seq<Option<nat>>)

  function LeaseStep(l: Lease, e: LeaseEvent): Lease
    requires l.holder.Some? ==> l.holder.value < |l.reasons|
  {
    match e
    case End => l.(holder := None)
    case Arrive(reason) =>
      var pending := if l.holder.Some? then Some(l.reasons[l.holder.value]) else None;
      match Admit(pending, reason)
      case Started => Lease(Some(|l.reasons|), l.reasons + [reason], l.results + [Some(|l.reasons|)])
      case Joined => Lease(l.holder, l.reasons + [reason], l.results + [l.holder])
      case Declined => Lease(l.holder, l.reasons + [reason], l.results + [None])
  }

  ghost predicate LeaseOk(l: Lease) {
    && |l.results| == |l.reasons|
    && (l.holder.Some? ==> l.holder.value < |l.reasons| && l.results[l.holder.value] == l.holder)
    && (forall i | 0 <= i < |l.results| && l.results[i].Some? ::
          && l.results[i].value <= i && l.results[l.results[i].value] == l.results[i]
          && (l.results[i].value != i ==> !l.reasons[i].Update? && !l.reasons[l.results[i].value].Update?))
  }

  lemma LeaseStepOk(l: Lease, e: LeaseEvent)
    requires LeaseOk(l)
    ensures LeaseOk(LeaseStep(l, e))
  {
    if e.Arrive? {
      var l' := LeaseStep(l, e);
      assert forall i | 0 <= i < |l.results| :: l'.results[i] == l.results[i] && l'.reasons[i] == l.reasons[i];
    }
  }

  function LeaseRun(events: seq<LeaseEvent>): (l: Lease)
    ensures LeaseOk(l)
  {
    if events == [] then Lease(None, [], [])
    else
      var before, e := LeaseRun(events[..|events| - 1]), events[|events| - 1];
      LeaseStepOk(before, e);
      LeaseStep(before, e)
  }

  /**
   * Whose result an arriving request gets, in every run: its own if none is in progress, the result
   * of that one if neither is an update, and none otherwise. A request that joins changes no other.
   */
  lemma ArrivingRequestGets(events: seq<LeaseEvent>, reason: Reason)
    ensures var l, l' := LeaseRun(events), LeaseRun(events + [Arrive(reason)]);
            var n := |l.results|;
            && |l'.results| == n + 1 && l'.results[..n] == l.results && l'.reasons == l.reasons + [reason]
            && (l.holder.None? ==> l'.results[n] == Some(n) && l'.holder == Some(n))
            && (l.holder.Some? ==>
                  && l'.holder == l.holder
                  && l'.results[n] == if reason.Update? || l.reasons[l.holder.value].Update? then None else l.holder)
  {
    assert (events + [Arrive(reason)])[..|events|] == events;
  }

  /** Two requests that share a result are both no updates, in every run. */
  lemma UpdateResultIsNeverShared(events: seq<LeaseEvent>, i: nat, j: nat)
    requires var l := LeaseRun(events); i < j < |l.results| && l.results[i].Some? && l.results[i] == l.results[j]
    ensures var l := LeaseRun(events); !l.reasons[i].Update? && !l.reasons[j].Update?
  {
    var l := LeaseRun(events);
    assert l.results[j].value <= i;
    if l.results[i].value == i {
      assert l.results[j].value != j;
    }
  }
}
