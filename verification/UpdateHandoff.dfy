/**
 * The two-process update handoff: the app (parent) and the npm worker share a
 * FIFO channel, two files of a private directory and the parent's liveness.
 * Each event is one step of either process or of the environment; an event that
 * does not apply changes nothing, so every sequence of events is a run.
 */
module UpdateHandoff {
  import opened Values

  datatype Message =
    | Hello(token: nat) | Environment | WorkerReady
    | Authorize | Authorized | Commit | Cancel | Cancelled

  datatype Handoff = Prepared | Launching | Ready | Armed | Committed | Revoked

  datatype Admission = NoConnection | AwaitHello | AwaitReady | Settled

  /** The steps of one `cancel()` that owns the revocation. */
  datatype CancelTask =
    | Marking(notify: bool)
    | Notifying(revoked: bool)
    | AwaitingAck(revoked: bool)
    | Unlinking(revoked: bool)
    | Closing(revoked: bool, unlinked: bool)
    | Cleaning(unlinked: bool)
    | Resolved(removed: bool, unlinked: bool)
    | Rejected

  datatype Worker =
    | NotStarted | Connecting | AwaitEnvironment | AwaitDecision | AwaitCommit | AwaitExit
    | CheckRequest | CheckMarker | CheckTools | Npm | Finished

  datatype Parent = Parent(alive: bool, state: Handoff, admission: Admission, authorizing: bool,
                           cancels: seq<CancelTask>)

  datatype Channel = Channel(open: bool, toWorker: seq<Message>, toParent: seq<Message>)

  datatype Files = Files(directory: bool, request: Option<nat>, marker: bool)

  /**
   * What has happened: the worker acknowledged, the parent read that and queued the commit; then the
   * worker found the original request with the parent dead, and after that no marker.
   */
  datatype History = History(acknowledged: bool, armed: bool, committed: bool, found: bool, unmarked: bool)

  const NOTHING: History := History(false, false, false, false, false)

  const ACKNOWLEDGED: History := NOTHING.(acknowledged := true)

  const COMMITTED: History := History(true, true, true, false, false)

  datatype World = World(parent: Parent, channel: Channel, worker: Worker, files: Files, past: History)

  datatype StartEvent = Launch | Accept | ReadHello | ReadReady | AdmissionFails

  datatype DecideEvent = CallAuthorize | ReadAuthorized | AuthorizeFails | CallCommit | CallCancel

  datatype CancelEvent =
    | StepCancel(task: nat, ok: bool) | AckCancel(task: nat)
    | CleanFile(task: nat, request: bool) | CleanVanished(task: nat)

  datatype WorkerEvent =
    | Start | SayHello | Receive | SeeParentDead | Recheck | ToolsOk | WorkerFails | WorkerDeletes(request: bool)

  datatype EnvironmentEvent = SocketBreaks | LoseFrames(keep: nat) | RequestReplaced(token: nat)

  datatype Event =
    | S(start: StartEvent) | D(decide: DecideEvent) | C(cancel: CancelEvent) | ParentExits
    | W(work: WorkerEvent) | E(environment: EnvironmentEvent)

  /** What `prepareNpmUpdate` returns with: the request is written and nothing is launched. */
  function Initial(token: nat): World {
    World(Parent(true, Prepared, NoConnection, false, []), Channel(false, [], []), NotStarted,
          Files(true, Some(token), false), NOTHING)
  }

  function SendToWorker(c: Channel, m: Message): Channel {
    c.(toWorker := c.toWorker + [m])
  }

  function SendToParent(c: Channel, m: Message): Channel {
    c.(toParent := c.toParent + [m])
  }

  // ---------------------------------------------------------------- parent

  /** Launch and admission: one connection, only while launching, only with the right token. */
  function StartStep(w: World, token: nat, e: StartEvent): World {
    var p, c := w.parent, w.channel;
    match e
    case Launch => if p.state.Prepared? then w.(parent := p.(state := Launching)) else w
    case Accept =>
      if p.admission.NoConnection? && p.state.Launching? && w.worker.AwaitEnvironment?
      then w.(parent := p.(admission := AwaitHello), channel := c.(open := true)) else w
    case ReadHello =>
      if !p.admission.AwaitHello? || c.toParent == [] then w
      else
        var c' := c.(toParent := c.toParent[1..]);
        if c.toParent[0] == Hello(token) && c.open
        then w.(parent := p.(admission := AwaitReady), channel := SendToWorker(c', Environment))
        else w.(parent := p.(admission := Settled), channel := c'.(open := false))
    case ReadReady =>
      if !p.admission.AwaitReady? || c.toParent == [] then w
      else
        var c' := c.(toParent := c.toParent[1..]);
        if c.toParent[0] == WorkerReady && p.state.Launching?
        then w.(parent := p.(admission := Settled, state := Ready), channel := c')
        else w.(parent := p.(admission := Settled), channel := c'.(open := false))
    case AdmissionFails =>
      if p.admission.AwaitHello? || p.admission.AwaitReady?
      then w.(parent := p.(admission := Settled), channel := c.(open := false)) else w
  }

  /** `cancel()`: an already cancelled handoff returns at once, any other starts the revocation. */
  function BeginCancel(p: Parent): Parent {
    if p.state.Revoked? then p
    else p.(state := Revoked, cancels := p.cancels + [Marking(p.state.Ready? || p.state.Armed? || p.state.Committed?)])
  }

  /** `authorize()`, `commit()` and the call of `cancel()`. */
  function DecideStep(w: World, e: DecideEvent): World {
    var p, c := w.parent, w.channel;
    match e
    case CallAuthorize =>
      if !p.state.Ready? || p.authorizing then w
      else w.(parent := p.(authorizing := true), channel := if c.open then SendToWorker(c, Authorize) else c)
    case ReadAuthorized =>
      if !p.authorizing || c.toParent == [] then w
      else
        var c' := c.(toParent := c.toParent[1..]);
        if c.toParent[0] == Authorized
        // Whatever the state has become meanwhile, a successful `authorize()` ends armed.
        then w.(parent := p.(authorizing := false, state := Armed), channel := c', past := w.past.(armed := true))
        else w.(parent := BeginCancel(p.(authorizing := false)), channel := c')
    case AuthorizeFails =>
      if p.authorizing then w.(parent := BeginCancel(p.(authorizing := false))) else w
    case CallCommit =>
      if p.state.Armed? && c.open
      then w.(parent := p.(state := Committed), channel := SendToWorker(c, Commit), past := w.past.(committed := true))
      else w
    case CallCancel => w.(parent := BeginCancel(p))
  }

  function SetTask(w: World, i: nat, task: CancelTask): World
    requires i < |w.parent.cancels|
  {
    w.(parent := w.parent.(cancels := w.parent.cancels[i := task]))
  }

  /** `ok` covers success and the error codes that prove the file is already as wanted. */
  function StepTask(w: World, i: nat, ok: bool): World
    requires i < |w.parent.cancels|
  {
    var f := w.files;
    match w.parent.cancels[i]
    case Marking(notify) =>
      SetTask(w.(files := f.(marker := f.marker || (ok && f.directory))), i,
              if notify && !w.parent.admission.NoConnection? then Notifying(ok) else Unlinking(ok))
    case Notifying(revoked) =>
      if ok && w.channel.open
      then SetTask(w.(channel := SendToWorker(w.channel, Cancel)), i, AwaitingAck(revoked))
      else SetTask(w, i, Unlinking(revoked))
    case AwaitingAck(revoked) => SetTask(w, i, Unlinking(revoked))
    case Unlinking(revoked) =>
      SetTask(w.(files := if ok then f.(request := None) else f), i, Closing(revoked || ok, ok))
    case Closing(revoked, unlinked) =>
      SetTask(w.(channel := w.channel.(open := false)), i, if revoked then Cleaning(unlinked) else Rejected)
    case Cleaning(unlinked) =>
      // Removing the directory: it must be empty or already gone.
      if !ok then SetTask(w, i, Rejected)
      else if !f.directory || (f.request.None? && !f.marker)
      then SetTask(w.(files := f.(directory := false)), i, Resolved(true, unlinked))
      else w
    case Resolved(_, _) => w
    case Rejected => w
  }

  function CancelStep(w: World, e: CancelEvent): World {
    var tasks, f := w.parent.cancels, w.files;
    if e.task >= |tasks| then w
    else
      match e
      case StepCancel(i, ok) => StepTask(w, i, ok)
      case AckCancel(i) =>
        if !tasks[i].AwaitingAck? || w.channel.toParent == [] then w
        else SetTask(w.(channel := w.channel.(toParent := w.channel.toParent[1..])), i,
                     Unlinking(tasks[i].revoked || w.channel.toParent[0] == Cancelled))
      case CleanFile(i, request) =>
        // The cleanup unlinks the files it listed in directory order.
        if !tasks[i].Cleaning? || !f.directory then w
        else w.(files := if request then f.(request := None) else f.(marker := false))
      case CleanVanished(i) =>
        // A listed file that is gone again ends the cleanup early, and `cancel()` resolves.
        if !tasks[i].Cleaning? || (f.request.Some? && f.marker) then w
        else SetTask(w, i, Resolved(false, tasks[i].unlinked))
  }

  // ---------------------------------------------------------------- worker

  /** A decoded frame; one that the current stage does not expect is an error and ends the worker. */
  function OnMessage(w: World, m: Message): World {
    match (w.worker, m)
    case (AwaitEnvironment, Environment) =>
      w.(worker := AwaitDecision, channel := SendToParent(w.channel, WorkerReady))
    case (AwaitDecision, Authorize) =>
      w.(worker := AwaitCommit, channel := SendToParent(w.channel, Authorized), past := w.past.(acknowledged := true))
    case (AwaitCommit, Commit) => w.(worker := AwaitExit)
    case (_, Cancel) =>
      if w.worker.AwaitEnvironment? then w.(worker := Finished)
      else w.(worker := Finished, channel := SendToParent(w.channel, Cancelled))
    case _ => w.(worker := Finished)
  }

  predicate Reading(worker: Worker) {
    worker.AwaitEnvironment? || worker.AwaitDecision? || worker.AwaitCommit? || worker.AwaitExit?
  }

  function WorkerStep(w: World, token: nat, e: WorkerEvent): World {
    var c, f := w.channel, w.files;
    match e
    case Start =>
      if !w.worker.NotStarted? then w
      else w.(worker := if f.directory && f.request == Some(token) then Connecting else Finished)
    case SayHello =>
      if !w.worker.Connecting? then w
      else w.(worker := AwaitEnvironment, channel := SendToParent(c, Hello(token)))
    case Receive =>
      if !Reading(w.worker) || c.toWorker == [] then w
      else OnMessage(w.(channel := c.(toWorker := c.toWorker[1..])), c.toWorker[0])
    case SeeParentDead =>
      if w.worker.AwaitExit? && !w.parent.alive then w.(worker := CheckRequest, channel := c.(open := false)) else w
    case Recheck =>
      if w.worker.CheckRequest? then
        if f.directory && f.request == Some(token)
        then w.(worker := CheckMarker, past := w.past.(found := !w.parent.alive)) else w.(worker := Finished)
      else if w.worker.CheckMarker? then
        if f.marker then w.(worker := Finished)
        else w.(worker := CheckTools, past := w.past.(unmarked := w.past.found && !w.parent.alive))
      else w
    case ToolsOk => if w.worker.CheckTools? then w.(worker := Npm) else w
    case WorkerFails =>
      if w.worker.Npm? then w else w.(worker := Finished, channel := c.(open := false))
    case WorkerDeletes(request) =>
      // The worker's own cleanup, once it has finished.
      if !w.worker.Finished? || !f.directory then w
      else w.(files := if request then f.(request := None) else f.(marker := false))
  }

  function EnvironmentStep(w: World, token: nat, e: EnvironmentEvent): World {
    var c, f := w.channel, w.files;
    match e
    case SocketBreaks => w.(channel := c.(open := false))
    case LoseFrames(keep) =>
      if !c.open && keep <= |c.toWorker| then w.(channel := c.(toWorker := c.toWorker[..keep])) else w
    case RequestReplaced(t) => if f.directory && t != token then w.(files := f.(request := Some(t))) else w
  }

  /** A dead parent takes no further step. */
  function Apply(w: World, token: nat, e: Event): World {
    match e
    case S(start) => if w.parent.alive then StartStep(w, token, start) else w
    case D(decide) => if w.parent.alive then DecideStep(w, decide) else w
    case C(cancel) => if w.parent.alive then CancelStep(w, cancel) else w
    case ParentExits => w.(parent := w.parent.(alive := false, authorizing := false))
    case W(work) => WorkerStep(w, token, work)
    case E(environment) => EnvironmentStep(w, token, environment)
  }

  function Run(w: World, token: nat, events: seq<Event>): World
    decreases |events|
  {
    if events == [] then w else Run(Apply(w, token, events[0]), token, events[1..])
  }

  // ---------------------------------------------------------------- invariant

  predicate PastExit(worker: Worker) {
    worker.CheckRequest? || worker.CheckMarker? || worker.CheckTools? || worker.Npm?
  }

  predicate PastAcknowledgement(worker: Worker) {
    worker.AwaitCommit? || worker.AwaitExit? || PastExit(worker) || worker.Finished?
  }

  ghost predicate MessagesOk(c: Channel, past: History) {
    (Authorized in c.toParent ==> past.acknowledged) && (Commit in c.toWorker ==> past.committed)
  }

  ghost predicate ParentOk(p: Parent, past: History) {
    && (p.state.Armed? || p.state.Committed? ==> past.armed)
    && (past.armed ==> past.acknowledged)
    && (past.committed ==> past.armed)
  }

  ghost predicate WorkerOk(w: World) {
    && (w.worker.AwaitExit? || PastExit(w.worker) ==> w.past.committed)
    && (PastExit(w.worker) ==> !w.parent.alive)
    && (w.worker.CheckTools? || w.worker.Npm? ==> !w.files.marker)
    && (w.past.acknowledged ==> PastAcknowledgement(w.worker))
    && (w.worker.CheckMarker? || w.worker.CheckTools? || w.worker.Npm? ==> w.past.found)
    && (w.worker.CheckTools? || w.worker.Npm? ==> w.past.unmarked)
  }

  /** A task that unlinked the request or removed the directory finds it that way ever after. */
  ghost predicate TaskOk(f: Files, token: nat, task: CancelTask) {
    match task
    case Closing(_, unlinked) => unlinked ==> f.request != Some(token)
    case Cleaning(unlinked) => unlinked ==> f.request != Some(token)
    case Resolved(removed, unlinked) => (removed ==> !f.directory) && (unlinked ==> f.request != Some(token))
    case _ => true
  }

  ghost predicate TasksOk(f: Files, token: nat, tasks: seq<CancelTask>) {
    forall task | task in tasks :: TaskOk(f, token, task)
  }

  ghost predicate Inv(w: World, token: nat) {
    && MessagesOk(w.channel, w.past)
    && ParentOk(w.parent, w.past)
    && WorkerOk(w)
    && TasksOk(w.files, token, w.parent.cancels)
  }

  /** Files only ever move away from the original request. */
  ghost predicate Wanes(f: Files, f': Files, token: nat) {
    && (f.request != Some(token) ==> f'.request != Some(token))
    && (!f.directory ==> !f'.directory)
  }

  lemma StartKeepsInv(w: World, token: nat, e: StartEvent)
    requires Inv(w, token) && w.parent.alive
    ensures Inv(StartStep(w, token, e), token)
  {
  }

  lemma DecideKeepsInv(w: World, token: nat, e: DecideEvent)
    requires Inv(w, token) && w.parent.alive
    ensures Inv(DecideStep(w, e), token)
  {
  }

  lemma TasksUpdated(f: Files, f': Files, token: nat, tasks: seq<CancelTask>, i: nat, task: CancelTask)
    requires TasksOk(f, token, tasks) && Wanes(f, f', token) && i < |tasks| && TaskOk(f', token, task)
    ensures TasksOk(f', token, tasks[i := task])
  {
    forall x | x in tasks[i := task]
      ensures TaskOk(f', token, x)
    {
      assert x == task || x in tasks;
    }
  }

  lemma CancelKeepsTheRest(w: World, token: nat, e: CancelEvent)
    requires Inv(w, token) && w.parent.alive
    ensures var w' := CancelStep(w, e);
            MessagesOk(w'.channel, w'.past) && ParentOk(w'.parent, w'.past) && WorkerOk(w')
  {
  }

  lemma CancelKeepsTasks(w: World, token: nat, e: CancelEvent)
    requires TasksOk(w.files, token, w.parent.cancels)
    ensures TasksOk(CancelStep(w, e).files, token, CancelStep(w, e).parent.cancels)
  {
    var w', tasks, i := CancelStep(w, e), w.parent.cancels, e.task;
    if i < |tasks| {
      assert tasks[i] in tasks;
      var task := w'.parent.cancels[i];
      assert w'.parent.cancels == tasks[i := task];
      TasksUpdated(w.files, w'.files, token, tasks, i, task);
    }
  }

  lemma CancelKeepsInv(w: World, token: nat, e: CancelEvent)
    requires Inv(w, token) && w.parent.alive
    ensures Inv(CancelStep(w, e), token)
  {
    CancelKeepsTheRest(w, token, e);
    CancelKeepsTasks(w, token, e);
  }

  lemma WorkerKeepsInv(w: World, token: nat, e: WorkerEvent)
    requires Inv(w, token)
    ensures Inv(WorkerStep(w, token, e), token)
  {
  }

  lemma EnvironmentKeepsInv(w: World, token: nat, e: EnvironmentEvent)
    requires Inv(w, token)
    ensures Inv(EnvironmentStep(w, token, e), token)
  {
  }

  lemma ApplyKeepsInv(w: World, token: nat, e: Event)
    requires Inv(w, token)
    ensures Inv(Apply(w, token, e), token)
  {
    match e
    case S(start) => if w.parent.alive { StartKeepsInv(w, token, start); }
    case D(decide) => if w.parent.alive { DecideKeepsInv(w, token, decide); }
    case C(cancel) => if w.parent.alive { CancelKeepsInv(w, token, cancel); }
    case ParentExits =>
    case W(work) => WorkerKeepsInv(w, token, work);
    case E(environment) => EnvironmentKeepsInv(w, token, environment);
  }

  lemma {:induction false} RunKeepsInv(w: World, token: nat, events: seq<Event>)
    requires Inv(w, token)
    ensures Inv(Run(w, token, events), token)
    decreases |events|
  {
    if events != [] {
      ApplyKeepsInv(w, token, events[0]);
      RunKeepsInv(Apply(w, token, events[0]), token, events[1..]);
    }
  }

  // ---------------------------------------------------------------- safety of every run

  /**
   * npm starts only if this worker acknowledged the authorization, the parent read that and
   * queued the commit, and, with the parent dead, the worker found the original request and
   * then no cancellation marker; and there still is none.
   */
  lemma NpmNeedsTheWholeHandoff(token: nat, events: seq<Event>)
    ensures var w := Run(Initial(token), token, events);
            w.worker.Npm? ==>
              w.past == History(true, true, true, true, true) && !w.parent.alive && !w.files.marker
  {
    RunKeepsInv(Initial(token), token, events);
  }

  /** The stages before npm: commit frame, dead parent, the original request, no marker, checked tools. */
  lemma StagesAreDecisive(w: World, token: nat, e: Event)
    ensures var w' := Apply(w, token, e);
            w'.worker != w.worker ==>
              match w'.worker
              case AwaitExit => w.worker.AwaitCommit? && w.channel.toWorker != [] && w.channel.toWorker[0] == Commit
              case CheckRequest => w.worker.AwaitExit? && !w.parent.alive
              case CheckMarker => w.worker.CheckRequest? && w.files.directory && w.files.request == Some(token)
              case CheckTools => w.worker.CheckMarker? && !w.files.marker
              case Npm => w.worker.CheckTools?
              case _ => true
  {
  }

  /** The handoff is dead for good. */
  ghost predicate Blocked(w: World, token: nat) {
    || w.worker.Finished?
    || (!w.worker.CheckMarker? && !w.worker.CheckTools? && !w.worker.Npm?
        && (!w.files.directory || w.files.request != Some(token)))
    || (!w.worker.CheckTools? && !w.worker.Npm? && !w.parent.alive && w.files.marker)
    || (!w.parent.alive && !w.past.committed)
  }

  lemma BlockedForever(w: World, token: nat, e: Event)
    requires Inv(w, token) && Blocked(w, token)
    ensures Blocked(Apply(w, token, e), token)
  {
  }

  lemma {:induction false} BlockedNeverStartsNpm(w: World, token: nat, events: seq<Event>)
    requires Inv(w, token) && Blocked(w, token)
    ensures !Run(w, token, events).worker.Npm?
    decreases |events|
  {
    if events != [] {
      BlockedForever(w, token, events[0]);
      ApplyKeepsInv(w, token, events[0]);
      BlockedNeverStartsNpm(Apply(w, token, events[0]), token, events[1..]);
    }
  }

  /** A parent that dies before queueing the commit never leads to npm. */
  lemma CrashBeforeCommit(token: nat, before: seq<Event>, after: seq<Event>)
    requires var w := Run(Initial(token), token, before); !w.parent.alive && !w.past.committed
    ensures !Run(Run(Initial(token), token, before), token, after).worker.Npm?
  {
    RunKeepsInv(Initial(token), token, before);
    BlockedNeverStartsNpm(Run(Initial(token), token, before), token, after);
  }

  /** Once the request is gone while the parent lives, npm never starts, even if the parent then crashes. */
  lemma RemovedRequestIsFinal(token: nat, before: seq<Event>, after: seq<Event>)
    requires var w := Run(Initial(token), token, before); w.parent.alive && w.files.request != Some(token)
    ensures !Run(Run(Initial(token), token, before), token, after).worker.Npm?
  {
    RunKeepsInv(Initial(token), token, before);
    BlockedNeverStartsNpm(Run(Initial(token), token, before), token, after);
  }

  /** A cancellation marker present when the parent exits is as final. */
  lemma MarkerAtExitIsFinal(token: nat, before: seq<Event>, after: seq<Event>)
    requires var w := Run(Initial(token), token, before); w.parent.alive && w.files.marker
    ensures !Run(Apply(Run(Initial(token), token, before), token, ParentExits), token, after).worker.Npm?
  {
    var w := Run(Initial(token), token, before);
    RunKeepsInv(Initial(token), token, before);
    ApplyKeepsInv(w, token, ParentExits);
    BlockedNeverStartsNpm(Apply(w, token, ParentExits), token, after);
  }

  /**
   * A `cancel()` that owns the revocation and resolved, having removed the directory
   * or unlinked the request: npm never starts in any continuation.
   */
  lemma ResolvedCancelIsFinal(token: nat, before: seq<Event>, i: nat, after: seq<Event>)
    requires var w := Run(Initial(token), token, before);
             && w.parent.alive && i < |w.parent.cancels|
             && w.parent.cancels[i].Resolved? && (w.parent.cancels[i].removed || w.parent.cancels[i].unlinked)
    ensures !Run(Run(Initial(token), token, before), token, after).worker.Npm?
  {
    var w := Run(Initial(token), token, before);
    RunKeepsInv(Initial(token), token, before);
    assert w.parent.cancels[i] in w.parent.cancels;
    BlockedNeverStartsNpm(w, token, after);
  }

  // ---------------------------------------------------------------- the early return of `cancel()`

  /** A call of `cancel()` here resolves at once: another call already owns the revocation. */
  predicate ReturnsEarly(w: World) {
    w.parent.alive && w.parent.state.Revoked?
  }

  /** While the parent lives: cancelled, nothing committed, and no authorization in flight. */
  ghost predicate NoCommitAhead(w: World) {
    !w.past.committed && (w.parent.alive ==> w.parent.state.Revoked? && !w.parent.authorizing)
  }

  lemma NoCommitAheadKept(w: World, token: nat, e: Event)
    requires NoCommitAhead(w)
    ensures NoCommitAhead(Apply(w, token, e))
  {
  }

  lemma {:induction false} NoCommitAheadNeverStartsNpm(w: World, token: nat, events: seq<Event>)
    requires Inv(w, token) && NoCommitAhead(w)
    ensures !Run(w, token, events).worker.Npm?
    decreases |events|
  {
    if events != [] {
      NoCommitAheadKept(w, token, events[0]);
      ApplyKeepsInv(w, token, events[0]);
      NoCommitAheadNeverStartsNpm(Apply(w, token, events[0]), token, events[1..]);
    }
  }

  /** The early return is safe whenever nothing was committed and no `authorize()` awaits its answer. */
  lemma EarlyReturnSafe(token: nat, before: seq<Event>, after: seq<Event>)
    requires var w := Run(Initial(token), token, before);
             ReturnsEarly(w) && !w.past.committed && !w.parent.authorizing
    ensures !Run(Run(Initial(token), token, before), token, after).worker.Npm?
  {
    RunKeepsInv(Initial(token), token, before);
    NoCommitAheadNeverStartsNpm(Run(Initial(token), token, before), token, after);
  }

  // ---------------------------------------------------------------- what the early return leaves open

  const TO_READY: seq<Event> := [S(Launch), W(Start), W(SayHello), S(Accept), S(ReadHello), W(Receive), S(ReadReady)]

  const FROM_EXIT: seq<Event> := [ParentExits, W(SeeParentDead), W(Recheck), W(Recheck), W(ToolsOk)]

  /** The worlds a run passes through, first and last included. */
  ghost predicate Trace(worlds: seq<World>, token: nat, events: seq<Event>) {
    |worlds| == |events| + 1 && forall i | 0 <= i < |events| :: worlds[i + 1] == Apply(worlds[i], token, events[i])
  }

  lemma {:induction false} TraceIsRun(worlds: seq<World>, token: nat, events: seq<Event>)
    requires Trace(worlds, token, events)
    ensures Run(worlds[0], token, events) == worlds[|events|]
    decreases |events|
  {
    if events != [] {
      TraceIsRun(worlds[1..], token, events[1..]);
    }
  }

  lemma {:induction false} RunSplit(w: World, token: nat, a: seq<Event>, b: seq<Event>)
    ensures Run(w, token, a + b) == Run(Run(w, token, a), token, b)
    decreases |a|
  {
    if a == [] {
      assert a + b == b;
    } else {
      assert (a + b)[1..] == a[1..] + b;
      RunSplit(Apply(w, token, a[0]), token, a[1..], b);
    }
  }

  function ReadyWorld(token: nat): World {
    World(Parent(true, Ready, Settled, false, []), Channel(true, [], []), AwaitDecision,
          Files(true, Some(token), false), NOTHING)
  }

  lemma ReachesReady(token: nat)
    ensures Run(Initial(token), token, TO_READY) == ReadyWorld(token)
  {
    var past, files := NOTHING, Files(true, Some(token), false);
    var idle, dead := Parent(true, Launching, NoConnection, false, []), Channel(false, [], []);
    var hello := Channel(true, [], [Hello(token)]);
    var environment := Channel(true, [Environment], []);
    TraceIsRun([Initial(token),
                World(idle, dead, NotStarted, files, past),
                World(idle, dead, Connecting, files, past),
                World(idle, hello.(open := false), AwaitEnvironment, files, past),
                World(idle.(admission := AwaitHello), hello, AwaitEnvironment, files, past),
                World(idle.(admission := AwaitReady), environment, AwaitEnvironment, files, past),
                World(idle.(admission := AwaitReady), Channel(true, [], [WorkerReady]), AwaitDecision, files, past),
                ReadyWorld(token)], token, TO_READY);
  }

  predicate Untouched(f: Files, token: nat) {
    f.directory && f.request == Some(token) && !f.marker
  }

  /** The worker has the commit frame or reads it next. */
  predicate CommitDelivered(w: World) {
    w.worker.AwaitExit? || (w.worker.AwaitCommit? && w.channel.toWorker != [] && w.channel.toWorker[0] == Commit)
  }

  lemma FromExitReachesNpm(w: World, token: nat)
    requires w.worker.AwaitExit? && Untouched(w.files, token)
    ensures Run(w, token, FROM_EXIT).worker.Npm?
  {
    var a := Apply(w, token, FROM_EXIT[0]);
    var b := Apply(a, token, FROM_EXIT[1]);
    var c := b.(worker := CheckMarker, past := b.past.(found := true));
    var d := b.(worker := CheckTools, past := b.past.(found := true, unmarked := true));
    TraceIsRun([w, a, b, c, d, d.(worker := Npm)], token, FROM_EXIT);
  }

  /** Once the commit is delivered and no file is touched yet, npm still starts if the parent exits now. */
  lemma DeliveredCommitReachesNpm(w: World, token: nat) returns (after: seq<Event>)
    requires CommitDelivered(w) && Untouched(w.files, token)
    ensures Run(w, token, after).worker.Npm?
  {
    if w.worker.AwaitExit? {
      after := FROM_EXIT;
      FromExitReachesNpm(w, token);
    } else {
      after := [W(Receive)] + FROM_EXIT;
      var w' := Apply(w, token, W(Receive));
      FromExitReachesNpm(w', token);
      assert after[0] == W(Receive) && after[1..] == FROM_EXIT;
    }
  }

  /** An acknowledgement on its way overrides the cancellation: `authorize()` ends armed, and the commit goes out. */
  lemma AcknowledgedAuthorizeReachesNpm(w: World, token: nat) returns (after: seq<Event>)
    requires w.parent.alive && w.parent.authorizing && w.channel.open && w.channel.toWorker == []
    requires w.channel.toParent != [] && w.channel.toParent[0] == Authorized
    requires w.worker.AwaitCommit? && Untouched(w.files, token)
    ensures Run(w, token, after).worker.Npm?
  {
    var a := Apply(w, token, D(ReadAuthorized));
    var b := Apply(a, token, D(CallCommit));
    var rest := DeliveredCommitReachesNpm(b, token);
    after := [D(ReadAuthorized), D(CallCommit)] + rest;
    TraceIsRun([w, a, b], token, [D(ReadAuthorized), D(CallCommit)]);
    RunSplit(w, token, [D(ReadAuthorized), D(CallCommit)], rest);
  }

  /** The parent's `cancel()` right after its commit. */
  function CancelledAfterCommit(token: nat): World {
    World(Parent(true, Revoked, Settled, false, [Marking(true)]), Channel(true, [Commit], []), AwaitCommit,
          Files(true, Some(token), false), COMMITTED)
  }

  /** The parent's `cancel()` while the worker's acknowledgement is on its way. */
  function CancelledInFlight(token: nat): World {
    World(Parent(true, Revoked, Settled, true, [Marking(true)]), Channel(true, [], [Authorized]), AwaitCommit,
          Files(true, Some(token), false), ACKNOWLEDGED)
  }

  function AskedWorld(token: nat): World {
    ReadyWorld(token).(parent := Parent(true, Ready, Settled, true, []), channel := Channel(true, [Authorize], []))
  }

  function AnsweredWorld(token: nat): World {
    AskedWorld(token).(channel := Channel(true, [], [Authorized]), worker := AwaitCommit, past := ACKNOWLEDGED)
  }

  lemma ReachesCancelledAfterCommit(token: nat) returns (before: seq<Event>)
    ensures Run(Initial(token), token, before) == CancelledAfterCommit(token)
  {
    var files := Files(true, Some(token), false);
    var armed := World(Parent(true, Armed, Settled, false, []), Channel(true, [], []), AwaitCommit,
                       files, ACKNOWLEDGED.(armed := true));
    var committed := World(Parent(true, Committed, Settled, false, []), Channel(true, [Commit], []), AwaitCommit,
                           files, COMMITTED);
    var events := [D(CallAuthorize), W(Receive), D(ReadAuthorized), D(CallCommit), D(CallCancel)];
    TraceIsRun([ReadyWorld(token), AskedWorld(token), AnsweredWorld(token), armed, committed,
                CancelledAfterCommit(token)], token, events);
    before := TO_READY + events;
    ReachesReady(token);
    RunSplit(Initial(token), token, TO_READY, events);
  }

  lemma ReachesCancelledInFlight(token: nat) returns (before: seq<Event>)
    ensures Run(Initial(token), token, before) == CancelledInFlight(token)
  {
    var events := [D(CallAuthorize), W(Receive), D(CallCancel)];
    TraceIsRun([ReadyWorld(token), AskedWorld(token), AnsweredWorld(token), CancelledInFlight(token)], token, events);
    before := TO_READY + events;
    ReachesReady(token);
    RunSplit(Initial(token), token, TO_READY, events);
  }

  /**
   * Both cases that `EarlyReturnSafe` shuts out do occur, with npm still ahead:
   * a second `cancel()` resolves at once after a commit, or while the worker's
   * acknowledgement of `authorize()` is on its way.
   */
  lemma EarlyReturnMayPrecedeNpm(token: nat)
    returns (late: seq<Event>, lateAfter: seq<Event>, inFlight: seq<Event>, inFlightAfter: seq<Event>)
    ensures var w := Run(Initial(token), token, late);
            ReturnsEarly(w) && w.past.committed && Run(w, token, lateAfter).worker.Npm?
    ensures var w := Run(Initial(token), token, inFlight);
            ReturnsEarly(w) && !w.past.committed && w.parent.authorizing && Run(w, token, inFlightAfter).worker.Npm?
  {
    late := ReachesCancelledAfterCommit(token);
    lateAfter := DeliveredCommitReachesNpm(CancelledAfterCommit(token), token);
    inFlight := ReachesCancelledInFlight(token);
    inFlightAfter := AcknowledgedAuthorizeReachesNpm(CancelledInFlight(token), token);
  }
}
