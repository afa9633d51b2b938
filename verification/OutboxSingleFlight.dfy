/**
 * One replay pass at a time: a periodic call joins the pass in progress, a
 * complete call waits for it and then runs a pass of its own.
 */
module OutboxSingleFlight {
  import opened Values

  /** A call in progress: complete calls ask for everything, `since` counts the passes begun before the call. */
  datatype Call = Call(complete: bool, since: nat, pass: Option<nat>)

  /** `active` is the variable the calls share; `running` are the passes that have not ended. */
  datatype Flight = Flight(active: Option<nat>, running: set<nat>, passes: nat, calls: seq<Call>)

  datatype Event = Arrive(complete: bool) | Wake(call: nat) | End(pass: nat)

  const IDLE: Flight := Flight(None, {}, 0, [])

  /** The caller begins a pass; nothing can come between its look at `active` and this. */
  function Begin(f: Flight, calls: seq<Call>): Flight {
    Flight(Some(f.passes), f.running + {f.passes}, f.passes + 1, calls)
  }

  function Step(f: Flight, e: Event): Flight {
    match e
    case Arrive(complete) =>
      if f.active.Some? && !complete then f.(calls := f.calls + [Call(false, f.passes, f.active)])
      else if f.active.Some? then f.(calls := f.calls + [Call(true, f.passes, None)])
      else Begin(f, f.calls + [Call(complete, f.passes, Some(f.passes))])
    case Wake(i) =>
      // A waiting call looks again each time it wakes.
      if i >= |f.calls| || f.calls[i].pass.Some? || f.active.Some? then f
      else Begin(f, f.calls[i := f.calls[i].(pass := Some(f.passes))])
    case End(pass) => if pass in f.running then f.(running := f.running - {pass}, active := None) else f
  }

  function Run(events: seq<Event>): Flight {
    if events == [] then IDLE else Step(Run(events[..|events| - 1]), events[|events| - 1])
  }

  /** A call without a pass waits, as only complete calls do; a complete call's pass began no earlier than the call. */
  predicate CallOk(call: Call, passes: nat) {
    && call.since <= passes
    && match call.pass
       case None => call.complete
       case Some(pass) => pass < passes && (call.complete ==> call.since <= pass)
  }

  ghost predicate OwnPasses(calls: seq<Call>) {
    forall i, j | 0 <= i < j < |calls| && calls[i].complete && calls[j].complete && calls[i].pass.Some? ::
      calls[i].pass != calls[j].pass
  }

  ghost predicate Inv(f: Flight) {
    && f.running == (if f.active.Some? then {f.active.value} else {})
    && (f.active.Some? ==> f.active.value < f.passes)
    && (forall i | 0 <= i < |f.calls| :: CallOk(f.calls[i], f.passes))
    && OwnPasses(f.calls)
  }

  lemma StepKeepsInv(f: Flight, e: Event)
    requires Inv(f)
    ensures Inv(Step(f, e))
  {
  }

  lemma {:induction false} RunKeepsInv(events: seq<Event>)
    ensures Inv(Run(events))
  {
    if events != [] {
      RunKeepsInv(events[..|events| - 1]);
      StepKeepsInv(Run(events[..|events| - 1]), events[|events| - 1]);
    }
  }

  /** No two passes ever run at once. */
  lemma OnePassAtATime(events: seq<Event>, a: nat, b: nat)
    requires a in Run(events).running && b in Run(events).running
    ensures a == b
  {
    RunKeepsInv(events);
  }

  /** The pass of a complete call began no earlier than the call, and no other complete call has it. */
  lemma CompleteCallsRunTheirOwn(events: seq<Event>, i: nat)
    requires i < |Run(events).calls| && Run(events).calls[i].complete && Run(events).calls[i].pass.Some?
    ensures Run(events).calls[i].pass.value >= Run(events).calls[i].since
    ensures forall j | 0 <= j < |Run(events).calls| && j != i && Run(events).calls[j].complete ::
              Run(events).calls[j].pass != Run(events).calls[i].pass
  {
    RunKeepsInv(events);
    assert CallOk(Run(events).calls[i], Run(events).passes);
  }

  /**
   * A call that arrives while no pass runs begins one; else a periodic call joins the pass and a
   * complete one waits.
   */
  lemma ArrivingCall(events: seq<Event>, complete: bool)
    ensures var f, f' := Run(events), Run(events + [Arrive(complete)]);
            && |f'.calls| == |f.calls| + 1 && f'.calls[..|f.calls|] == f.calls
            && f'.calls[|f.calls|].pass
               == (if f.active.None? then Some(f.passes) else if complete then None else f.active)
            && (if f.active.None? then f'.active == Some(f.passes) && f'.passes == f.passes + 1
                else f'.active == f.active && f'.passes == f.passes)
  {
    RunOn(events, Arrive(complete));
  }

  /** A waiting call gets a pass of its own as soon as it wakes with the pass in progress ended. */
  lemma WaitingCallGetsAPass(events: seq<Event>, i: nat)
    requires i < |Run(events).calls| && Run(events).calls[i].pass.None?
    ensures var f := Run(events);
            var next := if f.active.Some? then [End(f.active.value), Wake(i)] else [Wake(i)];
            var f' := Run(events + next);
            && f'.active == Some(f.passes) && i < |f'.calls|
            && f'.calls[i] == f.calls[i].(pass := Some(f.passes)) && f.passes >= f.calls[i].since
  {
    var f := Run(events);
    RunKeepsInv(events);
    assert CallOk(f.calls[i], f.passes);
    if f.active.Some? {
      RunOn(events, End(f.active.value));
      RunOn(events + [End(f.active.value)], Wake(i));
      assert events + [End(f.active.value)] + [Wake(i)] == events + [End(f.active.value), Wake(i)];
    } else {
      RunOn(events, Wake(i));
    }
  }

  lemma RunOn(events: seq<Event>, e: Event)
    ensures Run(events + [e]) == Step(Run(events), e)
  {
    assert (events + [e])[..|events|] == events;
  }

  /** Only complete calls ever wait. */
  lemma PeriodicCallsNeverWait(events: seq<Event>, i: nat)
    requires i < |Run(events).calls| && !Run(events).calls[i].complete
    ensures Run(events).calls[i].pass.Some?
  {
    RunKeepsInv(events);
    assert CallOk(Run(events).calls[i], Run(events).passes);
  }
}
