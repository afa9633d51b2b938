/**
 * The lifecycle of the one helper child: what a clean stop means, and when a
 * live child may be abandoned. Only messages for the current request count.
 */
module RuntimeSupervisor {
  import opened Values

  datatype Ownership = Owned | Attached

  datatype Outcome = Clean | Incomplete

  /** What has been learnt of a child, in order; a report is one for the request then in flight, and so is giving up. */
  datatype Fact = Began(id: nat) | Reported(report: Report) | GaveUp | Exited(code: Option<int>)

  datatype Report = Report(outcome: Outcome, settled: bool)

  /** One child: `inFlight` is the request being answered, `kept` says that its promise is remembered. */
  datatype Gen = Gen(start: Startup, exited: bool, attempts: nat, stopping: Stopping)

  /** A child that has no pid was never spawned; it becomes ready at most once, while it is awaited. */
  datatype Startup = Startup(hasPid: bool, awaited: bool, ready: Option<Ownership>)

  datatype Stopping = Stopping(inFlight: Option<nat>, kept: bool, result: Option<Outcome>, outcome: Option<Outcome>,
                               settled: bool)

  datatype Event =
    | Ready(ownership: Ownership)
    | Exit(code: Option<int>)
    | SpawnError
    | StartupFails
    | CallStop
    | ShutdownResult(id: nat, outcome: Outcome, settled: bool)
    | Deadline
    | SendFails

  datatype Child = Child(gen: Gen, past: seq<Fact>)

  function Spawned(hasPid: bool): Child {
    Child(Gen(Startup(hasPid, true, None), false, 0, Stopping(None, false, None, None, false)), [])
  }

  /** The request in flight ends: a live child that is not clean may be asked again. */
  function Finish(g: Gen, outcome: Outcome): Gen {
    g.(stopping := g.stopping.(inFlight := None, result := None, outcome := Some(outcome),
                               kept := outcome.Clean? || g.exited))
  }

  /** Exit settles the request in flight; only a clean report and code 0 together are clean. */
  function ExitGen(g: Gen, code: Option<int>): Gen {
    var gone := g.(exited := true, start := g.start.(awaited := false));
    if g.stopping.inFlight.None? then gone
    else Finish(gone, if g.stopping.result == Some(Clean) && code == Some(0) then Clean else Incomplete)
  }

  /** A stop request to a live child with no request remembered; an earlier receipt no longer counts. */
  function Asked(c: Child): Child {
    var g := c.gen;
    if g.stopping.kept || g.exited then c
    else Child(g.(attempts := g.attempts + 1,
                  stopping := Stopping(Some(g.attempts), true, None, g.stopping.outcome, false)),
               c.past + [Began(g.attempts)])
  }

  function Step(c: Child, e: Event): Child {
    var g, s := c.gen, c.gen.stopping;
    match e
    case Ready(ownership) =>
      if !g.start.awaited then c
      else c.(gen := g.(start := g.start.(awaited := false, ready := if s.kept then None else Some(ownership))))
    case Exit(code) =>
      if g.exited then c else Child(ExitGen(g, code), c.past + [Exited(code)])
    case SpawnError =>
      if g.start.hasPid || g.exited then c else Child(ExitGen(g, None), c.past + [Exited(None)])
    case StartupFails =>
      // A start that failed asks a live child to stop.
      if !g.start.awaited then c else Asked(c.(gen := g.(start := g.start.(awaited := false))))
    case CallStop => Asked(c)
    case ShutdownResult(id, outcome, settled) =>
      if s.inFlight != Some(id) then c
      else
        var heard := g.(stopping := s.(result := Some(outcome), settled := settled));
        Child(if outcome.Incomplete? then Finish(heard, Incomplete) else heard,
              c.past + [Reported(Report(outcome, settled))])
    case Deadline => if s.inFlight.None? then c else Child(Finish(g, Incomplete), c.past + [GaveUp])
    case SendFails => if s.inFlight.None? then c else Child(Finish(g, Incomplete), c.past + [GaveUp])
  }

  function Run(hasPid: bool, events: seq<Event>): Child {
    if events == [] then Spawned(hasPid) else Step(Run(hasPid, events[..|events| - 1]), events[|events| - 1])
  }

  // ---------------------------------------------------------------- the questions asked of it

  /** What `stop()` answers at once; a child that still has to be asked, or is being asked, answers later. */
  function StopAnswer(c: Option<Child>): Option<Outcome> {
    match c
    case None => Some(Clean)
    case Some(child) =>
      if child.gen.stopping.kept then (if child.gen.stopping.inFlight.Some? then None else child.gen.stopping.outcome)
      else if child.gen.exited then
        Some(if !child.gen.start.hasPid || child.gen.start.ready == Some(Attached) then Clean else Incomplete)
      else None
  }

  datatype CleanupState = NotStarted | Running | StoppingNow | CleanedUp | Unconfirmed

  function ExitCleanupState(c: Option<Child>): CleanupState {
    match c
    case None => NotStarted
    case Some(child) =>
      var g := child.gen;
      if !g.exited then (if g.stopping.kept || g.stopping.outcome.Some? then StoppingNow else Running)
      else if !g.start.hasPid || g.start.ready == Some(Attached) || g.stopping.outcome == Some(Clean) then CleanedUp
      else Unconfirmed
  }

  predicate CanForceQuit(c: Option<Child>) {
    c.Some? &&
    var g := c.value.gen;
    if g.exited then ExitCleanupState(c).Unconfirmed?
    else g.start.ready == Some(Owned) && !g.stopping.kept && g.stopping.outcome == Some(Incomplete)
         && g.stopping.settled
  }

  // ---------------------------------------------------------------- every run

  /** The latest report since the latest request began. */
  ghost function LatestReport(past: seq<Fact>): Option<Report> {
    if past == [] then None
    else
      match past[|past| - 1]
      case Began(_) => None
      case Reported(report) => Some(report)
      case GaveUp => LatestReport(past[..|past| - 1])
      case Exited(_) => LatestReport(past[..|past| - 1])
  }

  ghost function LatestRequest(past: seq<Fact>): Option<nat> {
    if past == [] then None
    else if past[|past| - 1].Began? then Some(past[|past| - 1].id)
    else LatestRequest(past[..|past| - 1])
  }

  predicate HeardClean(past: seq<Fact>) {
    past != [] && past[|past| - 1].Reported? && past[|past| - 1].report.outcome.Clean?
  }

  predicate Gone(past: seq<Fact>) {
    past != [] && past[|past| - 1].Exited?
  }

  /** The last that was learnt: a clean report for the request in flight, and then exit code 0. */
  predicate CleanEvidence(past: seq<Fact>) {
    past != [] && past[|past| - 1] == Exited(Some(0)) && HeardClean(past[..|past| - 1])
  }

  /** A request waits for its answer: it has begun, or a clean report is not yet confirmed by the exit. */
  predicate Pending(past: seq<Fact>) {
    past != [] && (past[|past| - 1].Began? || HeardClean(past))
  }

  ghost predicate Inv(c: Child) {
    var g, s := c.gen, c.gen.stopping;
    && LatestRequest(c.past) == (if g.attempts == 0 then None else Some(g.attempts - 1))
    && s.settled == (LatestReport(c.past).Some? && LatestReport(c.past).value.settled)
    && (s.inFlight.Some? ==>
          && s.kept && !g.exited && s.inFlight == LatestRequest(c.past)
          && s.result == (if LatestReport(c.past).Some? then Some(LatestReport(c.past).value.outcome) else None))
    && (s.inFlight.None? && s.kept ==> s.outcome.Some? && g.exited)
    && (g.exited ==> s.inFlight.None? && !g.start.awaited)
    && (s.inFlight.Some? ==> (s.result == Some(Clean) <==> HeardClean(c.past)))
    && (s.inFlight.None? ==> !HeardClean(c.past))
    && (g.exited <==> Gone(c.past))
    && (s.inFlight.Some? <==> Pending(c.past))
    && (g.exited ==> (s.kept <==> Pending(c.past[..|c.past| - 1])))
    && (s.outcome == Some(Clean) ==> g.exited && s.kept)
    && (s.outcome == Some(Clean) <==> CleanEvidence(c.past))
    && (g.attempts == 0 ==> LatestReport(c.past).None? && s.outcome.None?)
    && (s.inFlight.None? && g.attempts > 0 ==> s.outcome.Some?)
  }

  lemma FactAppends(past: seq<Fact>, fact: Fact)
    ensures LatestRequest(past + [fact]) == if fact.Began? then Some(fact.id) else LatestRequest(past)
    ensures LatestReport(past + [fact])
            == match fact case Began(_) => None case Reported(report) => Some(report) case _ => LatestReport(past)
    ensures HeardClean(past + [fact]) <==> fact.Reported? && fact.report.outcome.Clean?
    ensures CleanEvidence(past + [fact]) <==> fact == Exited(Some(0)) && HeardClean(past)
    ensures Pending(past + [fact]) <==> fact.Began? || (fact.Reported? && fact.report.outcome.Clean?)
    ensures (past + [fact])[..|past|] == past
  {
    assert (past + [fact])[..|past|] == past;
  }

  lemma AskedKeepsInv(c: Child)
    requires Inv(c)
    ensures Inv(Asked(c))
  {
    FactAppends(c.past, Began(c.gen.attempts));
  }

  lemma ExitKeepsInv(c: Child, code: Option<int>)
    requires Inv(c) && !c.gen.exited
    ensures Inv(Child(ExitGen(c.gen, code), c.past + [Exited(code)]))
  {
    FactAppends(c.past, Exited(code));
  }

  lemma ReportKeepsInv(c: Child, id: nat, outcome: Outcome, settled: bool)
    requires Inv(c)
    ensures Inv(Step(c, ShutdownResult(id, outcome, settled)))
  {
    FactAppends(c.past, Reported(Report(outcome, settled)));
  }

  lemma GiveUpKeepsInv(c: Child)
    requires Inv(c) && c.gen.stopping.inFlight.Some?
    ensures Inv(Child(Finish(c.gen, Incomplete), c.past + [GaveUp]))
  {
    FactAppends(c.past, GaveUp);
  }

  lemma StepKeepsInv(c: Child, e: Event)
    requires Inv(c)
    ensures Inv(Step(c, e))
  {
    match e
    case Exit(code) => if !c.gen.exited { ExitKeepsInv(c, code); }
    case SpawnError => if !c.gen.exited { ExitKeepsInv(c, None); }
    case StartupFails => AskedKeepsInv(c.(gen := c.gen.(start := c.gen.start.(awaited := false))));
    case CallStop => AskedKeepsInv(c);
    case ShutdownResult(id, outcome, settled) => ReportKeepsInv(c, id, outcome, settled);
    case Ready(ownership) =>
    case Deadline => if c.gen.stopping.inFlight.Some? { GiveUpKeepsInv(c); }
    case SendFails => if c.gen.stopping.inFlight.Some? { GiveUpKeepsInv(c); }
  }

  lemma {:induction false} RunKeepsInv(hasPid: bool, events: seq<Event>)
    ensures Inv(Run(hasPid, events))
  {
    if events != [] {
      RunKeepsInv(hasPid, events[..|events| - 1]);
      StepKeepsInv(Run(hasPid, events[..|events| - 1]), events[|events| - 1]);
    }
  }

  lemma {:induction false} RequestPlace(past: seq<Fact>) returns (i: nat)
    requires LatestRequest(past).Some?
    ensures i < |past| && past[i] == Began(LatestRequest(past).value)
    ensures forall k | i < k < |past| :: !past[k].Began?
  {
    var n := |past| - 1;
    if past[n].Began? {
      i := n;
    } else {
      i := RequestPlace(past[..n]);
    }
  }

  lemma {:induction false} ReportPlace(past: seq<Fact>) returns (i: nat, j: nat)
    requires LatestRequest(past).Some? && LatestReport(past).Some?
    ensures i < j < |past| && past[i] == Began(LatestRequest(past).value)
            && past[j] == Reported(LatestReport(past).value)
    ensures forall k | i < k < |past| :: !past[k].Began?
    ensures forall k | j < k < |past| :: past[k].Exited? || past[k].GaveUp?
  {
    var n := |past| - 1;
    if past[n].Reported? {
      i := RequestPlace(past[..n]);
      j := n;
    } else {
      i, j := ReportPlace(past[..n]);
    }
  }

  lemma LatestReportIs(past: seq<Fact>)
    requires CleanEvidence(past)
    ensures LatestReport(past) == Some(past[|past| - 2].report)
  {
    assert past[..|past| - 1][|past| - 2] == past[|past| - 2];
  }

  lemma {:induction false} BegunIff(past: seq<Fact>)
    ensures LatestRequest(past).Some? <==> exists fact | fact in past :: fact.Began?
  {
    if past != [] {
      var n := |past| - 1;
      assert past == past[..n] + [past[n]];
      BegunIff(past[..n]);
    }
  }

  /** While a request is in flight no earlier receipt helps, and the child is neither clean nor lost. */
  lemma InFlightBlocksForce(hasPid: bool, events: seq<Event>)
    requires Run(hasPid, events).gen.stopping.inFlight.Some?
    ensures !CanForceQuit(Some(Run(hasPid, events)))
    ensures ExitCleanupState(Some(Run(hasPid, events))).StoppingNow?
  {
    RunKeepsInv(hasPid, events);
  }

  /** Messages about any other request, and anything after a clean end, change nothing. */
  lemma OldMessagesAreIgnored(hasPid: bool, events: seq<Event>, e: Event)
    requires Inv(Run(hasPid, events))
    requires (e.ShutdownResult? && Some(e.id) != LatestRequest(Run(hasPid, events).past))
             || Run(hasPid, events).gen.stopping.outcome == Some(Clean)
    ensures Step(Run(hasPid, events), e).gen.stopping == Run(hasPid, events).gen.stopping
    ensures Step(Run(hasPid, events), e).past == Run(hasPid, events).past
  {
  }

  // ---------------------------------------------------------------- the object

  class Generation {
    const hasPid: bool
    var awaited: bool
    var ready: Option<Ownership>
    var exited: bool
    var attempts: nat
    var inFlight: Option<nat>
    var result: Option<Outcome>
    var shutdown: bool
    var shutdownOutcome: Option<Outcome>
    var persistenceSettled: bool
    ghost var past: seq<Fact>

    constructor (hasPid: bool)
      ensures View() == Spawned(hasPid)
    {
      this.hasPid, awaited, ready, exited := hasPid, true, None, false;
      attempts, inFlight, result, shutdown, shutdownOutcome, persistenceSettled := 0, None, None, false, None, false;
      past := [];
    }

    ghost function View(): Child
      reads this
    {
      Child(Gen(Startup(hasPid, awaited, ready), exited, attempts,
                Stopping(inFlight, shutdown, result, shutdownOutcome, persistenceSettled)), past)
    }

    /** The end of `requestShutdown` and of the `then` that follows it. */
    method FinishShutdown(outcome: Outcome)
      modifies this
      ensures View() == old(View()).(gen := Finish(old(View()).gen, outcome))
    {
      inFlight, result := None, None;
      shutdownOutcome := Some(outcome);
      shutdown := true;
      if outcome.Incomplete? && !exited { shutdown := false; }
    }

    method OnReady(ownership: Ownership)
      modifies this
      ensures View() == Step(old(View()), Ready(ownership))
    {
      if !awaited { return; }
      awaited := false;
      ready := if shutdown then None else Some(ownership);
    }

    method SettleExit(code: Option<int>)
      requires !exited
      modifies this
      ensures View() == Child(ExitGen(old(View()).gen, code), old(past) + [Exited(code)])
    {
      exited := true;
      awaited := false;
      past := past + [Exited(code)];
      if inFlight.Some? {
        FinishShutdown(if result == Some(Clean) && code == Some(0) then Clean else Incomplete);
      }
    }

    method OnExit(code: Option<int>)
      modifies this
      ensures View() == Step(old(View()), Exit(code))
    {
      if !exited { SettleExit(code); }
    }

    method OnError()
      modifies this
      ensures View() == Step(old(View()), SpawnError)
    {
      if !hasPid && !exited { SettleExit(None); }
    }

    method Ask()
      modifies this
      ensures View() == Asked(old(View()))
    {
      if shutdown || exited { return; }
      // A new attempt may perform persistence again.
      persistenceSettled := false;
      inFlight, result, shutdown := Some(attempts), None, true;
      past := past + [Began(attempts)];
      attempts := attempts + 1;
    }

    method OnStartupFailure()
      modifies this
      ensures View() == Step(old(View()), StartupFails)
    {
      if !awaited { return; }
      awaited := false;
      Ask();
    }

    method OnShutdownResult(id: nat, outcome: Outcome, settled: bool)
      modifies this
      ensures View() == Step(old(View()), ShutdownResult(id, outcome, settled))
    {
      if inFlight != Some(id) { return; }
      result, persistenceSettled := Some(outcome), settled;
      past := past + [Reported(Report(outcome, settled))];
      if outcome.Incomplete? { FinishShutdown(Incomplete); }
    }

    method OnDeadline()
      modifies this
      ensures View() == Step(old(View()), Deadline)
    {
      if inFlight.None? { return; }
      past := past + [GaveUp];
      FinishShutdown(Incomplete);
    }

    method OnSendFailure()
      modifies this
      ensures View() == Step(old(View()), SendFails)
    {
      if inFlight.None? { return; }
      past := past + [GaveUp];
      FinishShutdown(Incomplete);
    }
  }

  class Supervisor {
    var active: Generation?

    constructor ()
      ensures active == null
    {
      active := null;
    }

    ghost function View(): Option<Child>
      reads this, active
    {
      if active == null then None else Some(active.View())
    }

    /** A new child replaces an exited one only. */
    method Start(hasPid: bool) returns (started: bool)
      modifies this
      ensures started == (old(active) == null || old(active.exited))
      ensures started ==> fresh(active) && View() == Some(Spawned(hasPid))
      ensures !started ==> active == old(active)
    {
      if active != null && !active.exited { return false; }
      active := new Generation(hasPid);
      return true;
    }

    /** Answers at once, or asks the child; `None` means that the answer is still to come. */
    method Stop() returns (answer: Option<Outcome>)
      modifies active
      ensures answer == StopAnswer(old(View()))
      ensures active != null ==> active.View() == Step(old(active.View()), CallStop)
    {
      if active == null { return Some(Clean); }
      if active.shutdown { return if active.inFlight.Some? then None else active.shutdownOutcome; }
      if active.exited { return Some(if !active.hasPid || active.ready == Some(Attached) then Clean else Incomplete); }
      active.Ask();
      return None;
    }

    method ExitState() returns (state: CleanupState)
      ensures state == ExitCleanupState(View())
    {
      if active == null { return NotStarted; }
      if !active.exited { return if active.shutdown || active.shutdownOutcome.Some? then StoppingNow else Running; }
      if !active.hasPid || active.ready == Some(Attached) || active.shutdownOutcome == Some(Clean) { return CleanedUp; }
      return Unconfirmed;
    }

    method MayForceQuit() returns (may: bool)
      ensures may == CanForceQuit(View())
    {
      if active == null { return false; }
      if active.exited {
        var state := ExitState();
        return state.Unconfirmed?;
      }
      return active.ready == Some(Owned) && !active.shutdown && active.shutdownOutcome == Some(Incomplete)
             && active.persistenceSettled;
    }
  }
}
