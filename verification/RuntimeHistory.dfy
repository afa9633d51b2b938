/**
 * What the supervisor's answers mean, told from the events alone: the history
 * of stop requests and reports, and the readiness message that was accepted.
 */
module RuntimeHistory {
  import opened Values
  import opened RuntimeSupervisor

  // ---------------------------------------------------------------- the reference

  /** The wait for readiness ends with the first of these. */
  predicate EndsWait(hasPid: bool, e: Event) {
    e.Ready? || e.Exit? || e.StartupFails? || (e.SpawnError? && !hasPid)
  }

  predicate StillWaits(hasPid: bool, events: seq<Event>) {
    forall e | e in events :: !EndsWait(hasPid, e)
  }

  /** A request is made of a child that is there and has none to answer; they are numbered. */
  ghost function Ask(past: seq<Fact>): seq<Fact> {
    if Gone(past) || Pending(past) then past
    else past + [Began(if LatestRequest(past).None? then 0 else LatestRequest(past).value + 1)]
  }

  /** What the events amount to: requests, reports for the one in flight, giving up on it, one exit. */
  ghost function History(hasPid: bool, events: seq<Event>): seq<Fact> {
    if events == [] then []
    else
      var before, e := events[..|events| - 1], events[|events| - 1];
      var past := History(hasPid, before);
      match e
      case Ready(_) => past
      case Exit(code) => if Gone(past) then past else past + [Exited(code)]
      case SpawnError => if hasPid || Gone(past) then past else past + [Exited(None)]
      case StartupFails => if StillWaits(hasPid, before) then Ask(past) else past
      case CallStop => Ask(past)
      case ShutdownResult(id, outcome, settled) =>
        if Pending(past) && LatestRequest(past) == Some(id) then past + [Reported(Report(outcome, settled))] else past
      case Deadline => if Pending(past) then past + [GaveUp] else past
      case SendFails => if Pending(past) then past + [GaveUp] else past
  }

  /** The readiness message that ended the wait, with no request pending then. */
  ghost predicate BecameReady(hasPid: bool, events: seq<Event>, ownership: Ownership) {
    exists i | 0 <= i < |events| :: BecomesReadyAt(hasPid, events, ownership, i)
  }

  ghost predicate BecomesReadyAt(hasPid: bool, events: seq<Event>, ownership: Ownership, i: nat)
    requires i < |events|
  {
    && events[i] == Ready(ownership) && StillWaits(hasPid, events[..i])
    && !Pending(History(hasPid, events[..i]))
  }

  // ---------------------------------------------------------------- the supervisor follows it

  lemma WaitsAppend(hasPid: bool, before: seq<Event>, e: Event)
    ensures StillWaits(hasPid, before + [e]) <==> StillWaits(hasPid, before) && !EndsWait(hasPid, e)
  {
  }

  lemma StepFollows(hasPid: bool, before: seq<Event>, c: Child, e: Event)
    requires Inv(c) && c.gen.start.hasPid == hasPid && c.past == History(hasPid, before)
    requires c.gen.start.awaited == StillWaits(hasPid, before)
    ensures Step(c, e).past == History(hasPid, before + [e])
    ensures Step(c, e).gen.start.awaited == StillWaits(hasPid, before + [e])
    ensures Step(c, e).gen.start.hasPid == hasPid
  {
    assert (before + [e])[..|before|] == before;
    WaitsAppend(hasPid, before, e);
  }

  /** In every run the child's history is the reference, and it is awaited as long as nothing ended the wait. */
  lemma {:induction false} RunIsHistory(hasPid: bool, events: seq<Event>)
    ensures var c := Run(hasPid, events);
            && c.past == History(hasPid, events)
            && c.gen.start.awaited == StillWaits(hasPid, events)
            && c.gen.start.hasPid == hasPid
  {
    if events != [] {
      var before, e := events[..|events| - 1], events[|events| - 1];
      RunIsHistory(hasPid, before);
      RunKeepsInv(hasPid, before);
      StepFollows(hasPid, before, Run(hasPid, before), e);
      assert events == before + [e];
    }
  }

  lemma ReadyAppend(hasPid: bool, before: seq<Event>, e: Event, ownership: Ownership)
    ensures BecameReady(hasPid, before + [e], ownership) <==>
              || BecameReady(hasPid, before, ownership)
              || (e == Ready(ownership) && StillWaits(hasPid, before) && !Pending(History(hasPid, before)))
  {
    var events := before + [e];
    assert events[..|before|] == before;
    forall i | 0 <= i < |before|
      ensures BecomesReadyAt(hasPid, events, ownership, i) <==> BecomesReadyAt(hasPid, before, ownership, i)
    {
      assert events[..i] == before[..i];
    }
    if e == Ready(ownership) && StillWaits(hasPid, before) && !Pending(History(hasPid, before)) {
      assert BecomesReadyAt(hasPid, events, ownership, |before|);
    }
  }

  lemma NotReadyWhileWaiting(hasPid: bool, events: seq<Event>, ownership: Ownership)
    requires StillWaits(hasPid, events)
    ensures !BecameReady(hasPid, events, ownership)
  {
    forall i | 0 <= i < |events|
      ensures events[i] != Ready(ownership)
    {
      assert events[i] in events;
    }
  }

  /** In every run the recorded ownership is that of the one readiness message that counted. */
  lemma {:induction false} ReadyIff(hasPid: bool, events: seq<Event>, ownership: Ownership)
    ensures Run(hasPid, events).gen.start.ready == Some(ownership) <==> BecameReady(hasPid, events, ownership)
  {
    if events != [] {
      var before, e := events[..|events| - 1], events[|events| - 1];
      ReadyIff(hasPid, before, ownership);
      RunIsHistory(hasPid, before);
      RunKeepsInv(hasPid, before);
      ReadyAppend(hasPid, before, e, ownership);
      assert events == before + [e];
      if StillWaits(hasPid, before) { NotReadyWhileWaiting(hasPid, before, ownership); }
    }
  }

  // ---------------------------------------------------------------- what the answers mean

  /** Never spawned, or never more than attached. */
  ghost predicate NothingOfOurs(hasPid: bool, events: seq<Event>) {
    !hasPid || BecameReady(hasPid, events, Attached)
  }

  lemma StopAnswerOf(c: Child)
    requires Inv(c)
    ensures StopAnswer(Some(c))
            == if !Gone(c.past) then None
               else if Pending(c.past[..|c.past| - 1]) then Some(if CleanEvidence(c.past) then Clean else Incomplete)
               else Some(if !c.gen.start.hasPid || c.gen.start.ready == Some(Attached) then Clean else Incomplete)
  {
    var s := c.gen.stopping;
    if c.gen.exited && s.kept {
      assert s.outcome.Some?;
      assert s.outcome.value.Clean? || s.outcome.value.Incomplete?;
    }
  }

  lemma ForceQuitOf(c: Child)
    requires Inv(c)
    ensures CanForceQuit(Some(c)) <==>
              if Gone(c.past)
              then c.gen.start.hasPid && c.gen.start.ready != Some(Attached) && !CleanEvidence(c.past)
              else c.gen.start.ready == Some(Owned) && !Pending(c.past)
                   && LatestReport(c.past).Some? && LatestReport(c.past).value.settled
  {
    var s := c.gen.stopping;
    if !c.gen.exited && s.outcome.Some? {
      assert s.outcome.value.Clean? || s.outcome.value.Incomplete?;
    }
  }

  /**
   * What `stop()` answers at once, in every run: nothing while the child is there; clean, if a
   * request was pending when it went, exactly after a clean report and exit code 0; and otherwise
   * clean exactly if nothing of ours was left to stop.
   */
  lemma StopAnswerIs(hasPid: bool, events: seq<Event>)
    ensures var past := History(hasPid, events);
            StopAnswer(Some(Run(hasPid, events)))
            == if !Gone(past) then None
               else if Pending(past[..|past| - 1]) then Some(if CleanEvidence(past) then Clean else Incomplete)
               else Some(if NothingOfOurs(hasPid, events) then Clean else Incomplete)
  {
    RunIsHistory(hasPid, events);
    RunKeepsInv(hasPid, events);
    ReadyIff(hasPid, events, Attached);
    StopAnswerOf(Run(hasPid, events));
  }

  /**
   * When a child may be abandoned, in every run. A live one: it became ready as ours, its latest
   * request is over, and the last report for that very request said that persistence is settled.
   * One that is gone: it was ours, and did not go with a clean report and exit code 0.
   */
  lemma ForceQuitIff(hasPid: bool, events: seq<Event>)
    ensures var past := History(hasPid, events);
            CanForceQuit(Some(Run(hasPid, events))) <==>
              if Gone(past) then !NothingOfOurs(hasPid, events) && !CleanEvidence(past)
              else BecameReady(hasPid, events, Owned) && !Pending(past)
                   && LatestReport(past).Some? && LatestReport(past).value.settled
  {
    RunIsHistory(hasPid, events);
    RunKeepsInv(hasPid, events);
    ReadyIff(hasPid, events, Attached);
    ReadyIff(hasPid, events, Owned);
    ForceQuitOf(Run(hasPid, events));
  }

  /** A clean answer of `stop()`: nothing of ours, or a clean report for the latest request and then exit code 0. */
  lemma CleanStopMeans(hasPid: bool, events: seq<Event>) returns (i: nat, j: nat)
    requires StopAnswer(Some(Run(hasPid, events))) == Some(Clean)
    ensures var past := History(hasPid, events);
            && Gone(past)
            && (!Pending(past[..|past| - 1]) ==> NothingOfOurs(hasPid, events))
            && (Pending(past[..|past| - 1]) ==>
                  && i < j == |past| - 2
                  && past[i].Began? && past[j].Reported? && past[j].report.outcome.Clean?
                  && past[|past| - 1] == Exited(Some(0))
                  && (forall k | i < k < |past| :: !past[k].Began?))
  {
    StopAnswerIs(hasPid, events);
    RunIsHistory(hasPid, events);
    RunKeepsInv(hasPid, events);
    var past := History(hasPid, events);
    i, j := 0, 0;
    if Pending(past[..|past| - 1]) {
      j := |past| - 2;
      assert past[..|past| - 1][j] == past[j];
      LatestReportIs(past);
      var at;
      i, at := ReportPlace(past);
    }
  }

  /** Where the latest request and its latest report stand in the history. */
  lemma ForceQuitMeans(hasPid: bool, events: seq<Event>) returns (i: nat, j: nat)
    requires CanForceQuit(Some(Run(hasPid, events))) && !Gone(History(hasPid, events))
    ensures var past := History(hasPid, events);
            && BecameReady(hasPid, events, Owned)
            && i < j < |past| && past[i].Began? && past[j].Reported? && past[j].report.settled
            && (forall k | i < k < |past| :: !past[k].Began?)
            && (forall k | j < k < |past| :: past[k].GaveUp? || past[k].Exited?)
  {
    ForceQuitIff(hasPid, events);
    RunIsHistory(hasPid, events);
    RunKeepsInv(hasPid, events);
    i, j := ReportPlace(History(hasPid, events));
  }

  /**
   * What each answer about the cleanup means, in every run: a live child is being stopped exactly
   * once a stop has been requested of it; a gone one is clean exactly if nothing of ours was left,
   * or the last that was heard of it is a clean report for the request in flight and then exit
   * code 0; and otherwise nobody can confirm its cleanup.
   */
  lemma ExitStateMeans(hasPid: bool, events: seq<Event>)
    ensures var past := History(hasPid, events);
            var state := ExitCleanupState(Some(Run(hasPid, events)));
            var clean := NothingOfOurs(hasPid, events) || CleanEvidence(past);
            && (state.Running? <==> !Gone(past) && (forall fact | fact in past :: !fact.Began?))
            && (state.StoppingNow? <==> !Gone(past) && (exists fact | fact in past :: fact.Began?))
            && (state.CleanedUp? <==> Gone(past) && clean)
            && (state.Unconfirmed? <==> Gone(past) && !clean)
  {
    RunIsHistory(hasPid, events);
    RunKeepsInv(hasPid, events);
    ReadyIff(hasPid, events, Attached);
    BegunIff(History(hasPid, events));
  }
}
