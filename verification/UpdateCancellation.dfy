/** The early return of `cancel()`: exactly when npm can still start after it. */
module UpdateCancellation {
  import opened Values
  import opened UpdateHandoff

  // ---------------------------------------------------------------- what is in the channel to the parent

  /** What a worker in this stage has sent and the parent has not read: the end of its greeting. */
  predicate Unread(inbox: seq<Message>, worker: Worker, token: nat) {
    match worker
    case NotStarted => inbox == []
    case Connecting => inbox == []
    case AwaitEnvironment => inbox == [] || inbox == [Hello(token)]
    case AwaitDecision => inbox == [] || inbox == [WorkerReady] || inbox == [Hello(token), WorkerReady]
    case AwaitCommit =>
      || inbox == [] || inbox == [Authorized] || inbox == [WorkerReady, Authorized]
      || inbox == [Hello(token), WorkerReady, Authorized]
    case _ => true
  }

  /** The parent has read that the worker is ready. */
  predicate KnownReady(p: Parent) {
    p.state.Ready? || p.state.Armed? || p.state.Committed? || p.authorizing
  }

  /** Behind the readiness that the parent has read, only the acknowledgement can come. */
  predicate AfterReady(inbox: seq<Message>, worker: Worker) {
    && !worker.NotStarted? && !worker.Connecting? && !worker.AwaitEnvironment?
    && (worker.AwaitDecision? ==> |inbox| == 0)
    && (worker.AwaitCommit? ==> |inbox| <= 1)
  }

  predicate Ordered(w: World, token: nat) {
    Unread(w.channel.toParent, w.worker, token) && (KnownReady(w.parent) ==> AfterReady(w.channel.toParent, w.worker))
  }

  lemma PopKeepsOrder(inbox: seq<Message>, worker: Worker, token: nat)
    requires Unread(inbox, worker, token) && inbox != []
    ensures Unread(inbox[1..], worker, token)
    ensures inbox[0] == WorkerReady || AfterReady(inbox, worker) ==> AfterReady(inbox[1..], worker)
  {
  }

  /** The parent reads one message or none, and learns of the readiness only by reading it. */
  predicate Reads(w: World, w': World) {
    var inbox := w.channel.toParent;
    && w'.worker == w.worker
    && (if w'.channel.toParent == inbox then KnownReady(w'.parent) ==> KnownReady(w.parent)
        else inbox != [] && w'.channel.toParent == inbox[1..]
             && (KnownReady(w'.parent) ==> KnownReady(w.parent) || inbox[0] == WorkerReady))
  }

  lemma StartReads(w: World, token: nat, e: StartEvent)
    ensures Reads(w, StartStep(w, token, e))
  {
  }

  lemma DecideReads(w: World, e: DecideEvent)
    ensures Reads(w, DecideStep(w, e))
  {
  }

  lemma CancelReads(w: World, e: CancelEvent)
    ensures Reads(w, CancelStep(w, e))
  {
  }

  lemma ReadingKeepsOrder(w: World, token: nat, w': World)
    requires Ordered(w, token) && Reads(w, w')
    ensures Ordered(w', token)
  {
    if w'.channel.toParent != w.channel.toParent {
      PopKeepsOrder(w.channel.toParent, w.worker, token);
    }
  }

  lemma SendKeepsOrder(inbox: seq<Message>, worker: Worker, token: nat, m: Message, worker': Worker)
    requires Unread(inbox, worker, token)
    requires || (worker == Connecting && m == Hello(token) && worker' == AwaitEnvironment)
             || (worker == AwaitEnvironment && m == WorkerReady && worker' == AwaitDecision)
             || (worker == AwaitDecision && m == Authorized && worker' == AwaitCommit)
    ensures Unread(inbox + [m], worker', token)
    ensures AfterReady(inbox, worker) ==> AfterReady(inbox + [m], worker')
  {
  }

  lemma ReceiveKeepsOrder(w: World, token: nat, m: Message)
    requires Ordered(w, token) && Reading(w.worker)
    ensures Ordered(OnMessage(w, m), token)
  {
    var inbox := w.channel.toParent;
    match (w.worker, m)
    case (AwaitEnvironment, Environment) => SendKeepsOrder(inbox, w.worker, token, WorkerReady, AwaitDecision);
    case (AwaitDecision, Authorize) => SendKeepsOrder(inbox, w.worker, token, Authorized, AwaitCommit);
    case _ =>
  }

  lemma WorkerKeepsOrder(w: World, token: nat, e: WorkerEvent)
    requires Ordered(w, token)
    ensures Ordered(WorkerStep(w, token, e), token)
  {
    match e
    case SayHello =>
      if w.worker.Connecting? {
        SendKeepsOrder(w.channel.toParent, w.worker, token, Hello(token), AwaitEnvironment);
      }
    case Receive =>
      if Reading(w.worker) && w.channel.toWorker != [] {
        var read := w.(channel := w.channel.(toWorker := w.channel.toWorker[1..]));
        ReceiveKeepsOrder(read, token, w.channel.toWorker[0]);
      }
    case _ =>
  }

  lemma ApplyKeepsOrder(w: World, token: nat, e: Event)
    requires Ordered(w, token)
    ensures Ordered(Apply(w, token, e), token)
  {
    match e
    case S(start) => StartReads(w, token, start); ReadingKeepsOrder(w, token, StartStep(w, token, start));
    case D(decide) => DecideReads(w, decide); ReadingKeepsOrder(w, token, DecideStep(w, decide));
    case C(cancel) => CancelReads(w, cancel); ReadingKeepsOrder(w, token, CancelStep(w, cancel));
    case ParentExits =>
    case W(work) => WorkerKeepsOrder(w, token, work);
    case E(environment) =>
  }

  lemma {:induction false} RunKeepsOrder(w: World, token: nat, events: seq<Event>)
    requires Ordered(w, token)
    ensures Ordered(Run(w, token, events), token)
    decreases |events|
  {
    if events != [] {
      ApplyKeepsOrder(w, token, events[0]);
      RunKeepsOrder(Apply(w, token, events[0]), token, events[1..]);
    }
  }

  // ---------------------------------------------------------------- what can still lead to npm

  /** The authorization is the worker's next frame, or its acknowledgement the parent's. */
  predicate OnItsWay(w: World) {
    && w.parent.alive && w.parent.authorizing && w.channel.open
    && ((w.worker.AwaitDecision? && |w.channel.toWorker| == 1 && w.channel.toWorker[0] == Authorize
         && |w.channel.toParent| == 0)
        || (w.worker.AwaitCommit? && |w.channel.toWorker| == 0 && |w.channel.toParent| > 0
            && w.channel.toParent[0] == Authorized))
  }

  /** The acknowledgement was read, and the commit can be queued with nothing before it. */
  predicate CanCommit(w: World) {
    w.parent.alive && w.parent.state.Armed? && w.channel.open && w.worker.AwaitCommit? && |w.channel.toWorker| == 0
  }

  predicate Ahead(w: World) {
    CommitDelivered(w) || PastExit(w.worker) || OnItsWay(w) || CanCommit(w)
  }

  /** The handoff is decided one way or the other; readiness is behind it. */
  predicate Decided(p: Parent) {
    p.alive ==> p.state.Revoked? || p.state.Armed? || p.state.Committed?
  }

  /** Nothing ahead stays nothing ahead. */
  ghost predicate Hopeless(w: World, token: nat) {
    Inv(w, token) && Ordered(w, token) && Decided(w.parent) && !Ahead(w)
  }

  lemma DecidedStays(w: World, token: nat, e: Event)
    requires Decided(w.parent)
    ensures Decided(Apply(w, token, e).parent)
  {
  }

  lemma StartIsHopeless(w: World, token: nat, e: StartEvent)
    requires Hopeless(w, token) && w.parent.alive
    ensures !Ahead(StartStep(w, token, e))
  {
  }

  lemma DecideIsHopeless(w: World, token: nat, e: DecideEvent)
    requires Hopeless(w, token) && w.parent.alive
    ensures !Ahead(DecideStep(w, e))
  {
  }

  lemma CancelIsHopeless(w: World, token: nat, e: CancelEvent)
    requires Hopeless(w, token) && w.parent.alive
    ensures !Ahead(CancelStep(w, e))
  {
  }

  lemma WorkerIsHopeless(w: World, token: nat, e: WorkerEvent)
    requires Hopeless(w, token)
    ensures !Ahead(WorkerStep(w, token, e))
  {
  }

  lemma EnvironmentIsHopeless(w: World, token: nat, e: EnvironmentEvent)
    requires Hopeless(w, token)
    ensures !Ahead(EnvironmentStep(w, token, e))
  {
  }

  lemma ApplyIsHopeless(w: World, token: nat, e: Event)
    requires Hopeless(w, token)
    ensures Hopeless(Apply(w, token, e), token)
  {
    ApplyKeepsInv(w, token, e);
    ApplyKeepsOrder(w, token, e);
    DecidedStays(w, token, e);
    match e
    case S(start) => if w.parent.alive { StartIsHopeless(w, token, start); }
    case D(decide) => if w.parent.alive { DecideIsHopeless(w, token, decide); }
    case C(cancel) => if w.parent.alive { CancelIsHopeless(w, token, cancel); }
    case ParentExits =>
    case W(work) => WorkerIsHopeless(w, token, work);
    case E(environment) => EnvironmentIsHopeless(w, token, environment);
  }

  lemma {:induction false} HopelessNeverStartsNpm(w: World, token: nat, events: seq<Event>)
    requires Hopeless(w, token)
    ensures !Run(w, token, events).worker.Npm?
    decreases |events|
  {
    if events != [] {
      ApplyIsHopeless(w, token, events[0]);
      HopelessNeverStartsNpm(Apply(w, token, events[0]), token, events[1..]);
    }
  }

  /** With the files untouched, an authorization on its way can still end in npm. */
  lemma OnItsWayReachesNpm(w: World, token: nat) returns (after: seq<Event>)
    requires OnItsWay(w) && Untouched(w.files, token)
    ensures Run(w, token, after).worker.Npm?
  {
    if w.worker.AwaitCommit? {
      after := AcknowledgedAuthorizeReachesNpm(w, token);
    } else {
      var rest := AcknowledgedAuthorizeReachesNpm(Apply(w, token, W(Receive)), token);
      after := [W(Receive)] + rest;
      assert after[0] == W(Receive) && after[1..] == rest;
    }
  }

  /**
   * Exactly when npm can still start after a `cancel()` that returned early, in every run that
   * left the files alone so far: if the worker has the commit or reads it next, or if the
   * authorization or its acknowledgement is on its way.
   */
  lemma EarlyReturnIff(token: nat, before: seq<Event>)
    requires var w := Run(Initial(token), token, before); ReturnsEarly(w) && Untouched(w.files, token)
    ensures var w := Run(Initial(token), token, before);
            (exists after :: Run(w, token, after).worker.Npm?) <==> CommitDelivered(w) || OnItsWay(w)
  {
    var w := Run(Initial(token), token, before);
    RunKeepsInv(Initial(token), token, before);
    RunKeepsOrder(Initial(token), token, before);
    if CommitDelivered(w) {
      var after := DeliveredCommitReachesNpm(w, token);
    } else if OnItsWay(w) {
      var after := OnItsWayReachesNpm(w, token);
    } else {
      forall after
        ensures !Run(w, token, after).worker.Npm?
      {
        HopelessNeverStartsNpm(w, token, after);
      }
    }
  }

  // ---------------------------------------------------------------- what a cancellation does

  /** The clean-up of a cancellation or of a finished worker unlinks the marker. */
  predicate DeletesMarker(e: Event) {
    || (e.C? && e.cancel.CleanFile? && !e.cancel.request)
    || (e.W? && e.work.WorkerDeletes? && !e.work.request)
  }

  /** A marker stays until a clean-up deletes it. */
  lemma MarkerStays(w: World, token: nat, e: Event)
    requires w.files.marker && !DeletesMarker(e)
    ensures Apply(w, token, e).files.marker
  {
  }

  lemma {:induction false} MarkerStaysInRun(w: World, token: nat, events: seq<Event>)
    requires w.files.marker && forall e | e in events :: !DeletesMarker(e)
    ensures Run(w, token, events).files.marker
    decreases |events|
  {
    if events != [] {
      assert events[0] in events;
      MarkerStays(w, token, events[0]);
      MarkerStaysInRun(Apply(w, token, events[0]), token, events[1..]);
    }
  }

  /**
   * In every run: a cancellation that writes its marker while the parent lives leaves it there, and
   * unless a clean-up has deleted it by then, npm never starts after the parent's exit.
   */
  lemma MarkedCancelIsFinal(token: nat, before: seq<Event>, i: nat, between: seq<Event>, after: seq<Event>)
    requires var w := Run(Initial(token), token, before);
             w.parent.alive && w.files.directory && i < |w.parent.cancels| && w.parent.cancels[i].Marking?
    requires forall e | e in between :: !DeletesMarker(e)
    requires Run(Run(Initial(token), token, before + [C(StepCancel(i, true))]), token, between).parent.alive
    ensures var marked := Run(Initial(token), token, before + [C(StepCancel(i, true))]);
            && marked.files.marker && marked.parent.alive
            && var exited := Apply(Run(marked, token, between), token, ParentExits);
               exited.files.marker && !Run(exited, token, after).worker.Npm?
  {
    var step := C(StepCancel(i, true));
    var w := Run(Initial(token), token, before);
    RunSplit(Initial(token), token, before, [step]);
    var marked := Run(Initial(token), token, before + [step]);
    assert Run(w, token, [step]) == Apply(w, token, step);
    MarkerStaysInRun(marked, token, between);
    RunSplit(Initial(token), token, before + [step], between);
    MarkerAtExitIsFinal(token, before + [step] + between, after);
  }

  /** The steps of a cancellation that nothing disturbs, from its marker to the removed directory. */
  function Undisturbed(i: nat, told: bool, open: bool): seq<Event> {
    var step := C(StepCancel(i, true));
    [step] + (if told then [step] + (if open then [step] else []) else [])
    + [step, step, C(CleanFile(i, false)), step]
  }

  /** The worker is told if it may have been ready and somebody connected. */
  predicate Tells(w: World, i: nat)
    requires i < |w.parent.cancels|
  {
    w.parent.cancels[i].Marking? && w.parent.cancels[i].notify && !w.parent.admission.NoConnection?
  }

  lemma Stepped(w: World, token: nat, e: Event, w': World, rest: seq<Event>)
    requires Apply(w, token, e) == w'
    ensures Run(w, token, [e] + rest) == Run(w', token, rest)
  {
    assert ([e] + rest)[0] == e && ([e] + rest)[1..] == rest;
  }

  /** From the unlinking on: the request, the channel, the marker and the directory go. */
  lemma UnlinkingCompletes(w: World, token: nat, i: nat, revoked: bool)
    requires w.parent.alive && w.files.directory && i < |w.parent.cancels|
    requires w.parent.cancels[i] == Unlinking(revoked)
    ensures var step := C(StepCancel(i, true));
            Run(w, token, [step, step, C(CleanFile(i, false)), step])
            == w.(parent := w.parent.(cancels := w.parent.cancels[i := Resolved(true, true)]),
                  channel := w.channel.(open := false), files := Files(false, None, false))
  {
    var step, tasks := C(StepCancel(i, true)), w.parent.cancels;
    var unlinked := w.(parent := w.parent.(cancels := tasks[i := Closing(true, true)]),
                       files := w.files.(request := None));
    var closed := unlinked.(parent := w.parent.(cancels := tasks[i := Cleaning(true)]),
                            channel := w.channel.(open := false));
    var cleaned := closed.(files := Files(true, None, false));
    var removed := cleaned.(parent := w.parent.(cancels := tasks[i := Resolved(true, true)]),
                            files := Files(false, None, false));
    TraceIsRun([w, unlinked, closed, cleaned, removed], token, [step, step, C(CleanFile(i, false)), step]);
  }

  /**
   * A cancellation that nothing disturbs ends resolved, with request, marker and directory gone and
   * the channel closed; a worker that may have been ready is sent the cancellation before.
   */
  lemma UndisturbedCancelRemovesAll(w: World, token: nat, i: nat)
    requires w.parent.alive && w.files.directory && i < |w.parent.cancels| && w.parent.cancels[i].Marking?
    ensures Run(w, token, Undisturbed(i, Tells(w, i), w.channel.open))
            == w.(parent := w.parent.(cancels := w.parent.cancels[i := Resolved(true, true)]),
                  channel := Channel(false, if Tells(w, i) && w.channel.open then w.channel.toWorker + [Cancel]
                                            else w.channel.toWorker, w.channel.toParent),
                  files := Files(false, None, false))
  {
    var step, tasks := C(StepCancel(i, true)), w.parent.cancels;
    var rest := [step, step, C(CleanFile(i, false)), step];
    var marked := w.(files := w.files.(marker := true));
    var unlinking := SetTask(marked, i, Unlinking(true));
    if Tells(w, i) {
      var telling := SetTask(marked, i, Notifying(true));
      if w.channel.open {
        var told := SetTask(marked.(channel := SendToWorker(w.channel, Cancel)), i, AwaitingAck(true));
        unlinking := SetTask(told, i, Unlinking(true));
        Stepped(w, token, step, telling, [step, step] + rest);
        Stepped(telling, token, step, told, [step] + rest);
        Stepped(told, token, step, unlinking, rest);
        assert Undisturbed(i, true, true) == [step] + ([step, step] + rest);
        assert [step, step] + rest == [step] + ([step] + rest);
      } else {
        Stepped(w, token, step, telling, [step] + rest);
        Stepped(telling, token, step, unlinking, rest);
        assert Undisturbed(i, true, false) == [step] + ([step] + rest);
      }
    } else {
      Stepped(w, token, step, unlinking, rest);
      assert Undisturbed(i, false, w.channel.open) == [step] + rest;
    }
    UnlinkingCompletes(unlinking, token, i, true);
    assert unlinking.parent.cancels[i := Resolved(true, true)] == tasks[i := Resolved(true, true)];
  }

  /** A worker that reads the cancellation answers it, once it has its environment, and never starts npm. */
  lemma ReadCancelIsFinal(token: nat, before: seq<Event>, after: seq<Event>)
    requires var w := Run(Initial(token), token, before);
             Reading(w.worker) && w.channel.toWorker != [] && w.channel.toWorker[0] == Cancel
    ensures var w := Run(Initial(token), token, before);
            var w' := Apply(w, token, W(Receive));
            && w'.worker == Finished
            && w'.channel.toParent == w.channel.toParent + (if w.worker.AwaitEnvironment? then [] else [Cancelled])
            && !Run(w', token, after).worker.Npm?
  {
    var w := Run(Initial(token), token, before);
    RunKeepsInv(Initial(token), token, before);
    ApplyKeepsInv(w, token, W(Receive));
    BlockedNeverStartsNpm(Apply(w, token, W(Receive)), token, after);
    assert w.channel.toParent + [] == w.channel.toParent;
  }

  /**
   * Admission: the parent sends the environment only for this worker's greeting on an open channel,
   * and becomes ready only for its readiness while launching; any other message closes the channel.
   */
  lemma AdmissionIsDecisive(w: World, token: nat, e: Event)
    requires w.parent.alive
    ensures var w' := Apply(w, token, e);
            && (w'.parent.admission.AwaitReady? && !w.parent.admission.AwaitReady? <==>
                  e == S(ReadHello) && w.parent.admission.AwaitHello? && w.channel.open
                  && w.channel.toParent != [] && w.channel.toParent[0] == Hello(token))
            && (w'.parent.state.Ready? && !w.parent.state.Ready? <==>
                  e == S(ReadReady) && w.parent.admission.AwaitReady? && w.parent.state.Launching?
                  && w.channel.toParent != [] && w.channel.toParent[0] == WorkerReady)
            && (w'.parent.admission.Settled? && !w.parent.admission.Settled? && !w'.parent.state.Ready? ==>
                  !w'.channel.open)
  {
  }

  // ---------------------------------------------------------------- how a cancellation and an authorization end

  /** A step of this cancellation succeeds: the marker is there, the worker confirms, or the request is unlinked. */
  predicate Revokes(w: World, e: Event, i: nat)
    requires i < |w.parent.cancels|
  {
    && w.parent.alive && e.C? && e.cancel.task == i
    && match e.cancel
       case StepCancel(_, ok) => ok && (w.parent.cancels[i].Marking? || w.parent.cancels[i].Unlinking?)
       case AckCancel(_) =>
         w.parent.cancels[i].AwaitingAck? && w.channel.toParent != [] && w.channel.toParent[0] == Cancelled
       case _ => false
  }

  /** Some step of this cancellation succeeds in the run. */
  predicate RevokesInRun(w: World, token: nat, events: seq<Event>, i: nat)
    requires i < |w.parent.cancels|
    decreases |events|
  {
    events != [] && (Revokes(w, events[0], i) || (TasksStay(w, token, events[0]);
                                                  RevokesInRun(Apply(w, token, events[0]), token, events[1..], i)))
  }

  /** Cancellations are never forgotten. */
  lemma TasksStay(w: World, token: nat, e: Event)
    ensures |Apply(w, token, e).parent.cancels| >= |w.parent.cancels|
  {
  }

  /** What a cancellation knows of its success; it goes on to the clean-up exactly with one. */
  predicate Knows(task: CancelTask, revoked: bool) {
    match task
    case Marking(_) => !revoked
    case Notifying(r) => r == revoked
    case AwaitingAck(r) => r == revoked
    case Unlinking(r) => r == revoked
    case Closing(r, _) => r == revoked
    case Cleaning(_) => revoked
    case Resolved(_, _) => revoked
    case Rejected => true
  }

  lemma KnowsStep(w: World, token: nat, e: Event, i: nat, revoked: bool)
    requires i < |w.parent.cancels| && Knows(w.parent.cancels[i], revoked)
    ensures i < |Apply(w, token, e).parent.cancels|
    ensures Knows(Apply(w, token, e).parent.cancels[i], revoked || Revokes(w, e, i))
  {
    TasksStay(w, token, e);
  }

  /**
   * In every run a cancellation resolves only if one of its steps revoked the handoff; while it is on
   * its way it knows exactly whether one did.
   */
  lemma {:induction false} ResolvedMeansRevoked(w: World, token: nat, events: seq<Event>, i: nat, revoked: bool)
    requires i < |w.parent.cancels| && Knows(w.parent.cancels[i], revoked)
    ensures i < |Run(w, token, events).parent.cancels|
    ensures Knows(Run(w, token, events).parent.cancels[i], revoked || RevokesInRun(w, token, events, i))
    decreases |events|
  {
    if events != [] {
      KnowsStep(w, token, events[0], i, revoked);
      ResolvedMeansRevoked(Apply(w, token, events[0]), token, events[1..], i, revoked || Revokes(w, events[0], i));
    }
  }

  /** It resolves only with the directory removed, or with a listed file found gone. */
  lemma ResolvesOnlyThen(w: World, token: nat, e: Event, i: nat)
    requires i < |w.parent.cancels| && !w.parent.cancels[i].Resolved?
    requires i < |Apply(w, token, e).parent.cancels| && Apply(w, token, e).parent.cancels[i].Resolved?
    ensures w.parent.cancels[i].Cleaning?
    ensures if Apply(w, token, e).parent.cancels[i].removed then !Apply(w, token, e).files.directory
            else w.files.request.None? || !w.files.marker
  {
  }

  /** `authorize()` ends armed exactly with the acknowledgement read, and in every other way with a cancellation. */
  lemma AuthorizeEnds(w: World, token: nat, e: Event)
    requires w.parent.alive && w.parent.authorizing
    requires Apply(w, token, e).parent.alive && !Apply(w, token, e).parent.authorizing
    ensures var w' := Apply(w, token, e);
            if e == D(ReadAuthorized) && w.channel.toParent != [] && w.channel.toParent[0] == Authorized
            then w'.parent.state.Armed? && w'.parent.cancels == w.parent.cancels
            else w'.parent.state.Revoked?
                 && (!w.parent.state.Revoked? ==> |w'.parent.cancels| == |w.parent.cancels| + 1)
  {
  }

  /** A worker that fails before npm is finished and closes its channel; npm never starts. */
  lemma FailedWorkerIsFinal(token: nat, before: seq<Event>, after: seq<Event>)
    requires !Run(Initial(token), token, before).worker.Npm?
    ensures var w' := Apply(Run(Initial(token), token, before), token, W(WorkerFails));
            && w'.worker.Finished? && !w'.channel.open
            && !Run(w', token, after).worker.Npm?
  {
    var w := Run(Initial(token), token, before);
    RunKeepsInv(Initial(token), token, before);
    ApplyKeepsInv(w, token, W(WorkerFails));
    BlockedNeverStartsNpm(Apply(w, token, W(WorkerFails)), token, after);
  }

  // ---------------------------------------------------------------- the directory

  /** Nothing is left in a directory that is gone. */
  predicate NoStrays(f: Files) {
    !f.directory ==> f.request.None? && !f.marker
  }

  /** In every run the directory goes only when the request and the marker are gone. */
  lemma {:induction false} DirectoryGoesEmpty(w: World, token: nat, events: seq<Event>)
    requires NoStrays(w.files)
    ensures NoStrays(Run(w, token, events).files)
    decreases |events|
  {
    if events != [] {
      assert NoStrays(Apply(w, token, events[0]).files);
      DirectoryGoesEmpty(Apply(w, token, events[0]), token, events[1..]);
    }
  }

  /** A worker that never found its request: it may have finished, and has sent nothing. */
  predicate Silent(w: World, token: nat) {
    (w.worker.NotStarted? || w.worker.Finished?) && w.channel.toParent == [] && w.files.request != Some(token)
  }

  lemma {:induction false} SilentStays(w: World, token: nat, events: seq<Event>)
    requires Silent(w, token)
    ensures Silent(Run(w, token, events), token)
    decreases |events|
  {
    if events != [] {
      assert Silent(Apply(w, token, events[0]), token);
      SilentStays(Apply(w, token, events[0]), token, events[1..]);
    }
  }

  /** A worker that starts after its request is gone or replaced never connects. */
  lemma LateWorkerNeverConnects(token: nat, before: seq<Event>, after: seq<Event>)
    requires var w := Run(Initial(token), token, before); w.worker.NotStarted? && w.files.request != Some(token)
    ensures var w' := Run(Run(Initial(token), token, before), token, after);
            (w'.worker.NotStarted? || w'.worker.Finished?) && w'.channel.toParent == []
  {
    RunKeepsOrder(Initial(token), token, before);
    SilentStays(Run(Initial(token), token, before), token, after);
  }
}
