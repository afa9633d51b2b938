/**
 * One update transaction: validate, prepare, launch, quit, commit. The app may
 * dispose of the controller at every await; every exit runs the same clean-up.
 */
module UpdateController {
  import opened Values

  datatype QuitKind = CleanQuit | ForcedQuit | CancelledQuit

  datatype Try<+T> = Threw | Got(value: T)

  /** The answers of the rest of the app by their place in the log; a disposal comes in at the awaits of `disposes`. */
  datatype World = World(
    disposes: nat -> bool, validate: nat -> Try<bool>, handoff: Handoff, quit: nat -> Try<QuitKind>, callbacks: nat,
    exits: nat -> bool)

  datatype Handoff = Handoff(prepare: nat -> bool, launch: nat -> bool, authorize: nat -> bool, commit: nat -> bool)

  /** What the controller asked for, with the answer it gets, and what came of it. */
  datatype Act =
    | Disposed
    | Validated(valid: Try<bool>)
    | AskedPrepare(made: bool)
    | Prepared
    | Launched(launched: bool)
    | RequestedQuit
    | AskedAuthorization(acknowledged: bool)
    | Authorized
    | QuitEnded(result: Try<QuitKind>)
    | CommitFailed
    | Committed
    | CalledQuit(exits: bool)
    | Cancelled
    | ReportedCancelledQuit
    | Warned

  // ---------------------------------------------------------------- what a log shows

  /** What has happened so far; an answer is recorded where it was asked for. */
  datatype Seen = Seen(start: Starting, quit: Quitting, undo: Undoing)

  datatype Starting = Starting(valid: Option<Try<bool>>, made: Option<bool>, prepared: bool, launched: Option<bool>)

  datatype Quitting = Quitting(
    requested: bool, acknowledged: bool, authorized: bool, ended: Option<Try<QuitKind>>,
    commitFailed: bool, committed: bool, called: bool)

  datatype Undoing = Undoing(disposed: bool, cancelled: bool, reported: bool, warned: bool)

  const UNDISTURBED: Undoing := Undoing(false, false, false, false)

  const STAYING: Quitting := Quitting(false, false, false, None, false, false, false)

  const NOTHING: Seen := Seen(Starting(None, None, false, None), STAYING, UNDISTURBED)

  function See(s: Seen, act: Act): Seen {
    match act
    case Validated(valid) => s.(start := s.start.(valid := Some(valid)))
    case AskedPrepare(made) => s.(start := s.start.(made := Some(made)))
    case Prepared => s.(start := s.start.(prepared := true))
    case Launched(launched) => s.(start := s.start.(launched := Some(launched)))
    case RequestedQuit => s.(quit := s.quit.(requested := true))
    case AskedAuthorization(ok) => s.(quit := s.quit.(acknowledged := s.quit.acknowledged || ok))
    case Authorized => s.(quit := s.quit.(authorized := true))
    case QuitEnded(result) => s.(quit := s.quit.(ended := Some(result)))
    case CommitFailed => s.(quit := s.quit.(commitFailed := true))
    case Committed => s.(quit := s.quit.(committed := true))
    case CalledQuit(_) => s.(quit := s.quit.(called := true))
    case Disposed => s.(undo := s.undo.(disposed := true))
    case Cancelled => s.(undo := s.undo.(cancelled := true))
    case ReportedCancelledQuit => s.(undo := s.undo.(reported := true))
    case Warned => s.(undo := s.undo.(warned := true))
  }

  function SeenIn(log: seq<Act>): Seen {
    if log == [] then NOTHING else See(SeenIn(log[..|log| - 1]), log[|log| - 1])
  }

  function Last(log: seq<Act>): Option<Act> {
    if log == [] then None else Some(log[|log| - 1])
  }

  /** What is seen is what is in the log. */
  ghost predicate Means(s: Seen, log: seq<Act>) {
    && StartMeans(s.start, log) && QuitMeans(s.quit, log) && UndoMeans(s.undo, log)
  }

  ghost predicate StartMeans(s: Starting, log: seq<Act>) {
    && (s.made == Some(true) ==> AskedPrepare(true) in log)
    && (s.prepared <==> Prepared in log)
    && (s.launched == Some(true) ==> Launched(true) in log)
  }

  ghost predicate QuitMeans(s: Quitting, log: seq<Act>) {
    && (s.requested <==> RequestedQuit in log)
    && (s.acknowledged <==> AskedAuthorization(true) in log) && (s.authorized <==> Authorized in log)
    && (s.commitFailed <==> CommitFailed in log) && (s.committed <==> Committed in log)
    && (s.called <==> CalledQuit(true) in log || CalledQuit(false) in log)
  }

  ghost predicate UndoMeans(s: Undoing, log: seq<Act>) {
    && (s.disposed <==> Disposed in log) && (s.cancelled <==> Cancelled in log)
    && (s.reported <==> ReportedCancelledQuit in log) && (s.warned <==> Warned in log)
  }

  lemma StartMeansStep(s: Seen, log: seq<Act>, act: Act)
    requires StartMeans(s.start, log)
    ensures StartMeans(See(s, act).start, log + [act])
  {
  }

  lemma QuitMeansStep(s: Seen, log: seq<Act>, act: Act)
    requires QuitMeans(s.quit, log)
    ensures QuitMeans(See(s, act).quit, log + [act])
  {
  }

  lemma UndoMeansStep(s: Seen, log: seq<Act>, act: Act)
    requires UndoMeans(s.undo, log)
    ensures UndoMeans(See(s, act).undo, log + [act])
  {
  }

  lemma {:induction false} SeenMeans(log: seq<Act>)
    ensures Means(SeenIn(log), log)
  {
    if log != [] {
      var before, last := log[..|log| - 1], log[|log| - 1];
      SeenMeans(before);
      StartMeansStep(SeenIn(before), before, last);
      QuitMeansStep(SeenIn(before), before, last);
      UndoMeansStep(SeenIn(before), before, last);
      assert log == before + [last];
    }
  }

  /** Something failed with an exception. */
  predicate Failed(s: Seen) {
    || (s.start.valid.Some? && s.start.valid != Some(Got(true)))
    || s.start.made == Some(false) || s.start.launched == Some(false) || s.quit.ended == Some(Threw)
    || s.quit.commitFailed
  }

  // ---------------------------------------------------------------- what may happen when

  /** A clean quit was just reported, behind an authorization, with nothing disposed or cancelled. */
  predicate MayCommit(s: Seen, last: Option<Act>) {
    && last == Some(QuitEnded(Got(CleanQuit))) && s.quit.authorized && !s.undo.disposed && !s.undo.cancelled
    && !s.quit.committed && !s.quit.commitFailed
  }

  /** When an act may happen, given everything before it. */
  predicate Lawful(s: Seen, last: Option<Act>, act: Act) {
    match act
    case Disposed => !s.undo.disposed
    case Validated(_) => last.None?
    case AskedPrepare(_) => s.start.valid == Some(Got(true)) && !s.undo.disposed && s.start.made.None?
    case Prepared => s.start.made == Some(true)
    case Launched(_) => s.start.prepared && !s.undo.disposed && s.start.launched.None?
    case RequestedQuit => s.start.launched == Some(true) && !s.undo.disposed
    case AskedAuthorization(_) => s.quit.requested && !s.undo.disposed && s.quit.ended.None?
    case Authorized => s.quit.acknowledged && s.quit.ended.None?
    case QuitEnded(_) => s.quit.requested && s.quit.ended.None?
    case CommitFailed => MayCommit(s, last)
    case Committed => MayCommit(s, last)
    case CalledQuit(_) => last == Some(Committed)
    case Cancelled => s.start.prepared && !s.quit.committed
    case ReportedCancelledQuit => s.quit.requested && s.undo.cancelled && !s.quit.committed
    case Warned => Failed(s) && !s.quit.committed && !s.undo.disposed
  }

  ghost predicate AllLawful(log: seq<Act>) {
    log == [] ||
    var before := log[..|log| - 1];
    AllLawful(before) && Lawful(SeenIn(before), Last(before), log[|log| - 1])
  }

  /** The answer is the one that the world has for this place. */
  ghost predicate Answered(world: World, k: nat, act: Act) {
    match act
    case Validated(valid) => valid == world.validate(k)
    case AskedPrepare(made) => made == world.handoff.prepare(k)
    case Launched(launched) => launched == world.handoff.launch(k)
    case AskedAuthorization(acknowledged) => acknowledged == world.handoff.authorize(k)
    case QuitEnded(result) => result == world.quit(k)
    case CommitFailed => !world.handoff.commit(k)
    case Committed => world.handoff.commit(k)
    case CalledQuit(exits) => exits == world.exits(k)
    case _ => true
  }

  ghost predicate AllAnswered(world: World, log: seq<Act>) {
    forall k | 0 <= k < |log| :: Answered(world, k, log[k])
  }

  ghost predicate Sound(world: World, log: seq<Act>) {
    AllLawful(log) && AllAnswered(world, log)
  }

  lemma SoundAppend(world: World, log: seq<Act>, act: Act)
    requires Sound(world, log) && Lawful(SeenIn(log), Last(log), act) && Answered(world, |log|, act)
    ensures Sound(world, log + [act]) && SeenIn(log + [act]) == See(SeenIn(log), act)
  {
    assert (log + [act])[..|log|] == log;
  }

  lemma {:induction false} LawfulAt(log: seq<Act>, i: nat)
    requires AllLawful(log) && i < |log|
    ensures AllLawful(log[..i]) && Lawful(SeenIn(log[..i]), Last(log[..i]), log[i])
    decreases |log|
  {
    var before := log[..|log| - 1];
    if i < |before| {
      LawfulAt(before, i);
      assert before[..i] == log[..i];
    }
  }

  // ---------------------------------------------------------------- what follows for every log

  /** After the commit nothing cancels, warns of or reports back the update, whatever fails. */
  lemma CommitIsFinal(log: seq<Act>, i: nat, j: nat)
    requires AllLawful(log) && i < j < |log| && log[i] == Committed
    ensures !log[j].Cancelled? && !log[j].ReportedCancelledQuit? && !log[j].Warned?
    ensures !log[j].Committed? && !log[j].CommitFailed?
    ensures log[j].CalledQuit? ==> j == i + 1
  {
    LawfulAt(log, j);
    SeenMeans(log[..j]);
    assert log[..j][i] == Committed;
    if log[j].CalledQuit? && i < j - 1 { CommitIsFinal(log, i, j - 1); }
  }

  /** A commit directly follows a clean quit, behind an authorization, with nothing disposed or cancelled. */
  lemma CommitFollowsCleanQuit(log: seq<Act>, i: nat)
    requires AllLawful(log) && i < |log| && log[i] == Committed
    ensures i > 0 && log[i - 1] == QuitEnded(Got(CleanQuit))
    ensures Authorized in log[..i] && Disposed !in log[..i] && Cancelled !in log[..i]
  {
    LawfulAt(log, i);
    SeenMeans(log[..i]);
  }

  /** Quitting directly follows the commit, that a clean quit and an authorization while undisposed preceded. */
  lemma QuitMeansCommitted(log: seq<Act>, j: nat)
    requires AllLawful(log) && j < |log| && log[j].CalledQuit?
    ensures j >= 2 && log[j - 1] == Committed && log[j - 2] == QuitEnded(Got(CleanQuit))
    ensures Authorized in log[..j] && Disposed !in log[..j] && Cancelled !in log[..j]
  {
    LawfulAt(log, j);
    CommitFollowsCleanQuit(log, j - 1);
    assert log[..j] == log[..j - 1] + [log[j - 1]];
  }

  /** Each stage stands on the success of the one before. */
  predicate Staged(s: Seen) {
    && (s.start.made.Some? ==> s.start.valid == Some(Got(true)))
    && (s.start.prepared ==> s.start.made == Some(true))
    && (s.start.launched.Some? ==> s.start.prepared)
    && (s.quit.requested ==> s.start.launched == Some(true))
    && (s.quit.acknowledged ==> s.quit.requested) && (s.quit.authorized ==> s.quit.acknowledged)
    && (s.quit.ended.Some? ==> s.quit.requested)
    && (s.quit.committed || s.quit.commitFailed ==> s.quit.authorized && s.quit.ended == Some(Got(CleanQuit)))
    && (s.quit.called ==> s.quit.committed)
    && (s.undo.reported ==> s.quit.requested)
    && (s.undo.cancelled ==> s.start.prepared && !s.quit.committed)
    && (s.undo.warned ==> Failed(s) && !s.quit.committed)
  }

  lemma StagedStep(s: Seen, last: Option<Act>, act: Act)
    requires Staged(s) && Lawful(s, last, act)
    requires (last.None? ==> s == NOTHING) && (last == Some(Committed) ==> s.quit.committed)
    requires last.Some? && last.value.QuitEnded? ==> s.quit.ended == Some(last.value.result)
    ensures Staged(See(s, act))
  {
  }

  lemma {:induction false} LawfulIsStaged(log: seq<Act>)
    requires AllLawful(log)
    ensures Staged(SeenIn(log))
    decreases |log|
  {
    if log != [] {
      var before := log[..|log| - 1];
      LawfulIsStaged(before);
      StagedStep(SeenIn(before), Last(before), log[|log| - 1]);
    }
  }

  lemma {:induction false} ValidatedFirst(log: seq<Act>)
    requires AllLawful(log) && SeenIn(log).start.valid.Some?
    ensures log != [] && log[0].Validated? && SeenIn(log).start.valid == Some(log[0].valid)
    decreases |log|
  {
    var before, last := log[..|log| - 1], log[|log| - 1];
    if last.Validated? {
      assert before == [];
    } else {
      OthersDoNotValidate(SeenIn(before), last);
      ValidatedFirst(before);
      assert before[0] == log[0];
    }
  }

  lemma OthersDoNotValidate(s: Seen, act: Act)
    requires !act.Validated?
    ensures See(s, act).start.valid == s.start.valid
  {
  }

  /** A commit was let through by the world's own answers: validation, preparation, launch, authorization and quit. */
  lemma CommitIsAnswered(world: World, log: seq<Act>, j: nat)
    requires Sound(world, log) && j < |log| && log[j] == Committed
    ensures j >= 1 && world.validate(0) == Got(true) && world.quit(j - 1) == Got(CleanQuit) && world.handoff.commit(j)
    ensures exists k: nat | k < j :: log[k] == AskedPrepare(true) && world.handoff.prepare(k)
    ensures exists k: nat | k < j :: log[k] == Launched(true) && world.handoff.launch(k)
    ensures exists k: nat | k < j :: log[k] == AskedAuthorization(true) && world.handoff.authorize(k)
  {
    var before := log[..j];
    LawfulAt(log, j);
    SeenMeans(before);
    LawfulIsStaged(before);
    ValidatedFirst(before);
    assert before[0] == log[0];
    assert Answered(world, 0, log[0]) && Answered(world, j - 1, log[j - 1]) && Answered(world, j, log[j]);
    var a :| 0 <= a < j && before[a] == AskedPrepare(true);
    var b :| 0 <= b < j && before[b] == Launched(true);
    var c :| 0 <= c < j && before[c] == AskedAuthorization(true);
    assert Answered(world, a, log[a]) && Answered(world, b, log[b]) && Answered(world, c, log[c]);
  }

  /** Up to the launch: validation first, and while nobody disposes each success is followed by the next step. */
  predicate Begun(s: Seen) {
    && s.start.valid.Some? && (s.start.made == Some(true) ==> s.start.prepared)
    && (!s.undo.disposed ==>
          (s.start.valid == Some(Got(true)) ==> s.start.made.Some?) && (s.start.prepared ==> s.start.launched.Some?))
  }

  /** From there on, with a warning of every failure. */
  predicate Advanced(s: Seen) {
    && (s.start.launched == Some(true) ==> s.quit.requested)
    && (s.quit.ended == Some(Got(CleanQuit)) && s.quit.authorized ==> s.quit.committed || s.quit.commitFailed)
    && (Failed(s) ==> s.undo.warned)
  }

  /**
   * A whole transaction. A prepared handoff ends either committed or cancelled, never both; a
   * requested quit ends in a quit or is reported back. While nobody disposes every success is
   * followed by the next step, and every failure by a warning.
   */
  predicate Concluded(s: Seen) {
    && Begun(s)
    && (s.start.prepared ==> s.quit.committed != s.undo.cancelled)
    && (s.quit.committed <==> s.quit.called)
    && (s.quit.requested ==> s.quit.ended.Some? && s.quit.committed != s.undo.reported)
    && (!s.undo.disposed ==> Advanced(s))
  }

  /** A transaction whose installation does not validate prepares nothing, and says so unless disposed of. */
  lemma InvalidPreparesNothing(world: World, log: seq<Act>)
    requires Sound(world, log) && Concluded(SeenIn(log)) && world.validate(0) != Got(true)
    ensures Prepared !in log && RequestedQuit !in log && Committed !in log && !SeenIn(log).quit.committed
    ensures Disposed in log || Warned in log
  {
    SeenMeans(log);
    LawfulIsStaged(log);
    ValidatedFirst(log);
    assert Answered(world, 0, log[0]);
  }

  predicate WellAt(world: World, k: nat) {
    && !world.disposes(k) && world.validate(k) == Got(true) && world.quit(k) == Got(CleanQuit) && world.exits(k)
    && world.handoff.prepare(k) && world.handoff.launch(k) && world.handoff.authorize(k) && world.handoff.commit(k)
  }

  /** Nothing fails and nobody disposes; the quit coordinator asks for the authorization at least once. */
  ghost predicate GoesWell(world: World) {
    world.callbacks > 0 && forall k: nat :: WellAt(world, k)
  }

  /** Nothing but a disposal and the cancellation that comes with it. */
  predicate OnlyDisposed(before: Undoing, after: Undoing) {
    && after.reported == before.reported && after.warned == before.warned
    && (before.disposed ==> after.disposed) && (before.cancelled ==> after.cancelled)
  }

  class Controller {
    const world: World
    var disposed: bool
    var committed: bool
    var prepared: bool
    var epoch: nat
    var awaits: nat
    var length: nat
    ghost var log: seq<Act>
    ghost var seen: Seen

    ghost predicate Valid()
      reads this
    {
      && Sound(world, log) && seen == SeenIn(log) && length == |log|
      && disposed == seen.undo.disposed && committed == seen.quit.committed && (prepared ==> seen.start.prepared)
      && (seen.undo.cancelled ==> !committed)
    }

    constructor (world: World)
      ensures Valid() && log == [] && !disposed && !committed && !prepared && this.world == world
    {
      this.world := world;
      disposed, committed, prepared, epoch, awaits, length := false, false, false, 0, 0, 0;
      log, seen := [], NOTHING;
    }

    method Note(act: Act)
      requires Sound(world, log) && seen == SeenIn(log) && length == |log|
      requires Lawful(seen, Last(log), act) && Answered(world, length, act)
      modifies this`log, this`seen, this`length
      ensures Sound(world, log) && seen == SeenIn(log) && length == |log|
      ensures seen == See(old(seen), act) && log == old(log) + [act]
    {
      SoundAppend(world, log, act);
      log, seen, length := log + [act], See(seen, act), length + 1;
    }

    /** Disposing revokes a prepared handoff that is not committed. */
    method Dispose()
      requires Valid()
      modifies this`disposed, this`epoch, this`log, this`seen, this`length
      ensures Valid() && disposed
      ensures old(disposed) ==> log == old(log)
      ensures epoch == if old(disposed) then old(epoch) else old(epoch) + 1
      ensures !old(disposed) ==> log == old(log) + [Disposed] + if prepared && !committed then [Cancelled] else []
      ensures seen.start == old(seen).start && seen.quit == old(seen).quit && OnlyDisposed(old(seen).undo, seen.undo)
      ensures seen.undo.cancelled == (old(seen).undo.cancelled || (!old(disposed) && prepared && !committed))
    {
      if disposed { return; }
      disposed := true;
      epoch := epoch + 1;
      Note(Disposed);
      if !committed && prepared { Note(Cancelled); }
    }

    /** An await: the app may dispose of the controller meanwhile. */
    method Await()
      requires Valid()
      modifies this`disposed, this`epoch, this`awaits, this`log, this`seen, this`length
      ensures Valid() && (old(disposed) ==> disposed) && old(length) <= length
      ensures !disposed ==> log == old(log) && epoch == old(epoch)
      ensures seen.start == old(seen).start && seen.quit == old(seen).quit && OnlyDisposed(old(seen).undo, seen.undo)
      ensures seen.undo.cancelled
              == (old(seen).undo.cancelled || (disposed && !old(disposed) && prepared && !committed))
      ensures GoesWell(world) ==> disposed == old(disposed)
    {
      awaits := awaits + 1;
      assert GoesWell(world) ==> WellAt(world, awaits);
      if world.disposes(awaits) { Dispose(); }
    }

    /** Validates and prepares; `Threw` is an exception, `Got(false)` an early return. */
    method Prepare(start: nat) returns (go: Try<bool>, owned: bool)
      requires Valid() && log == [] && seen == NOTHING && !prepared && epoch == start
      modifies this
      ensures Valid() && prepared == owned == seen.start.prepared && (!disposed ==> epoch == start)
      ensures seen.start == Starting(Some(world.validate(0)), seen.start.made, owned, None)
      ensures seen.quit == STAYING && OnlyDisposed(UNDISTURBED, seen.undo)
      ensures (seen.undo.cancelled ==> disposed) && (seen.start.made == Some(true) <==> owned)
      ensures world.validate(0) == Got(true) ==> disposed || seen.start.made.Some?
      ensures go.Threw? <==> Failed(seen)
      ensures go == Got(true) <==> owned && !disposed
      ensures GoesWell(world) ==> go == Got(true)
    {
      assert GoesWell(world) ==> WellAt(world, 0);
      var valid := world.validate(length);
      Note(Validated(valid));
      Await();
      if valid != Got(true) { return Threw, false; }
      if disposed || epoch != start { return Got(false), false; }
      assert GoesWell(world) ==> WellAt(world, length);
      var made := world.handoff.prepare(length);
      Note(AskedPrepare(made));
      Await();
      if !made { return Threw, false; }
      Note(Prepared);
      prepared := true;
      return Got(!disposed && epoch == start), true;
    }

    /** Validates, prepares and launches, in this order. */
    method Begin(start: nat) returns (go: Try<bool>, owned: bool)
      requires Valid() && log == [] && seen == NOTHING && !prepared && epoch == start
      modifies this
      ensures Valid() && prepared == owned == seen.start.prepared && Begun(seen) && (!disposed ==> epoch == start)
      ensures seen.start == Starting(Some(world.validate(0)), seen.start.made, owned, seen.start.launched)
      ensures seen.quit == STAYING && OnlyDisposed(UNDISTURBED, seen.undo)
      ensures seen.undo.cancelled ==> disposed
      ensures go.Threw? <==> Failed(seen)
      ensures go == Got(true) <==> seen.start.launched == Some(true) && !disposed
      ensures go == Got(true) ==> owned
      ensures GoesWell(world) ==> go == Got(true)
    {
      go, owned := Prepare(start);
      if go != Got(true) { return; }
      assert GoesWell(world) ==> WellAt(world, length);
      var launched := world.handoff.launch(length);
      Note(Launched(launched));
      Await();
      if !launched { return Threw, true; }
      return Got(!disposed && epoch == start), true;
    }

    /** The callback that the quit coordinator calls under its lease. */
    method Authorize(start: nat) returns (ok: bool)
      requires Valid() && prepared && seen.quit.requested && seen.quit.ended.None?
      modifies this
      ensures Valid() && prepared && (old(disposed) ==> disposed) && (!disposed ==> epoch == old(epoch))
      ensures seen.start == old(seen).start && OnlyDisposed(old(seen).undo, seen.undo)
      ensures seen.quit == old(seen).quit.(acknowledged := seen.quit.acknowledged,
                                           authorized := old(seen).quit.authorized || ok)
      ensures seen.undo.cancelled ==> old(seen).undo.cancelled || disposed
      ensures ok <==> !old(disposed) && start == old(epoch) && world.handoff.authorize(old(length))
      ensures GoesWell(world) ==> disposed == old(disposed)
    {
      if disposed || epoch != start { return false; }
      ok := AskAuthorization();
      if ok { Note(Authorized); }
    }

    method AskAuthorization() returns (ok: bool)
      requires Valid() && seen.quit.requested && !seen.undo.disposed && seen.quit.ended.None?
      modifies this`disposed, this`epoch, this`awaits, this`log, this`seen, this`length
      ensures Valid() && ok == world.handoff.authorize(old(length)) && (!disposed ==> epoch == old(epoch))
      ensures seen.start == old(seen).start && OnlyDisposed(old(seen).undo, seen.undo)
      ensures seen.quit == old(seen).quit.(acknowledged := old(seen).quit.acknowledged || ok)
      ensures seen.undo.cancelled ==> old(seen).undo.cancelled || disposed
      ensures GoesWell(world) ==> !disposed
    {
      ok := world.handoff.authorize(length);
      Note(AskedAuthorization(ok));
      Await();
    }

    method AnswerCallbacks(start: nat) returns (armed: bool)
      requires Valid() && prepared && seen.quit.requested && seen.quit.ended.None?
      requires !disposed && epoch == start && !seen.undo.cancelled && !seen.quit.authorized
      modifies this
      ensures Valid() && prepared && (!disposed ==> epoch == start)
      ensures seen.start == old(seen).start && OnlyDisposed(old(seen).undo, seen.undo)
      ensures seen.quit == old(seen).quit.(acknowledged := seen.quit.acknowledged, authorized := armed)
      ensures seen.undo.cancelled ==> disposed
      ensures GoesWell(world) ==> armed && !disposed
    {
      armed := false;
      for k := 0 to world.callbacks
        invariant GoesWell(world) ==> !disposed && (k > 0 ==> armed)
        invariant Valid() && prepared && (!disposed ==> epoch == start) && (seen.undo.cancelled ==> disposed)
        invariant seen.start == old(seen).start && OnlyDisposed(old(seen).undo, seen.undo)
        invariant seen.quit == old(seen).quit.(acknowledged := seen.quit.acknowledged, authorized := armed)
      {
        Await();
        assert GoesWell(world) ==> WellAt(world, length);
        var ok := Authorize(start);
        armed := armed || ok;
      }
    }

    /** Asks for the quit and commits behind it; `Threw` is an exception, `Got` an ordinary end. */
    method QuitAndCommit(start: nat) returns (done: Try<bool>)
      requires Valid() && prepared && !disposed && epoch == start && !Failed(seen)
      requires seen == Seen(Starting(seen.start.valid, seen.start.made, true, Some(true)), STAYING, UNDISTURBED)
      modifies this
      ensures Valid() && prepared
      ensures seen.start == old(seen).start && OnlyDisposed(old(seen).undo, seen.undo)
      ensures seen.quit.requested && seen.quit.called == committed
      ensures seen.quit.ended.Some? && (seen.undo.cancelled ==> disposed)
      ensures (seen.quit.ended == Some(Got(CleanQuit)) && seen.quit.authorized && !disposed)
              == (committed || seen.quit.commitFailed)
      ensures !committed ==> (done.Threw? <==> Failed(seen))
      ensures committed ==> !Failed(seen)
      ensures GoesWell(world) ==> committed
    {
      Note(RequestedQuit);
      var armed := AnswerCallbacks(start);
      Await();
      assert GoesWell(world) ==> WellAt(world, length) && WellAt(world, length + 1);
      var result := world.quit(length);
      done := Decide(result, armed);
    }

    /** The result of the quit decides whether the handoff is committed. */
    method Decide(result: Try<QuitKind>, armed: bool) returns (done: Try<bool>)
      requires Valid() && !committed && prepared && result == world.quit(length)
      requires seen.quit.requested && seen.quit.ended.None? && !seen.quit.commitFailed && !seen.quit.called
               && armed == seen.quit.authorized
      requires seen.undo.cancelled ==> disposed
      modifies this`committed, this`log, this`seen, this`length
      ensures Valid()
      ensures var may := result == Got(CleanQuit) && armed && !disposed;
              var ok := world.handoff.commit(old(length) + 1);
              && committed == (may && ok)
              && log == old(log) + [QuitEnded(result)]
                        + (if may && ok then [Committed, CalledQuit(world.exits(old(length) + 2))]
                           else if may then [CommitFailed] else [])
              && seen == old(seen).(quit := old(seen).quit.(ended := Some(result), committed := committed,
                                                            commitFailed := may && !ok, called := committed))
              && (!committed ==> (done.Threw? <==> result.Threw? || may))
    {
      Note(QuitEnded(result));
      if result.Threw? { return Threw; }
      if disposed || result != Got(CleanQuit) || !armed { return Got(false); }
      done := Commit();
    }

    /** Nothing may come between the commit and the request to quit. */
    method Commit() returns (done: Try<bool>)
      requires Valid() && !committed && MayCommit(seen, Last(log))
      modifies this`committed, this`log, this`seen, this`length
      ensures Valid() && committed == world.handoff.commit(old(length))
      ensures log == old(log) + if committed then [Committed, CalledQuit(world.exits(old(length) + 1))]
                                else [CommitFailed]
      ensures seen.start == old(seen).start && seen.undo == old(seen).undo
      ensures seen.quit == if committed then old(seen).quit.(committed := true, called := true)
                           else old(seen).quit.(commitFailed := true)
      ensures !committed ==> done == Threw
    {
      if !world.handoff.commit(length) {
        Note(CommitFailed);
        return Threw;
      }
      Note(Committed);
      committed := true;
      var exits := world.exits(length);
      Note(CalledQuit(exits));
      return if exits then Got(true) else Threw;
    }

    /** All that the clean-up follows; `threw` is an exception. */
    method Attempt(start: nat) returns (owned: bool, requested: bool, threw: bool)
      requires Valid() && log == [] && seen == NOTHING && !prepared && epoch == start
      modifies this
      ensures Valid() && prepared == owned == seen.start.prepared && requested == seen.quit.requested && Begun(seen)
      ensures (requested ==> owned && seen.quit.ended.Some?) && !seen.undo.reported && !seen.undo.warned
      ensures committed == seen.quit.called && (seen.undo.cancelled ==> disposed)
      ensures !disposed && seen.start.launched == Some(true) ==> requested
      ensures !disposed && seen.quit.ended == Some(Got(CleanQuit)) && seen.quit.authorized ==>
                committed || seen.quit.commitFailed
      ensures !committed ==> (threw <==> Failed(seen))
      ensures committed ==> !Failed(seen)
      ensures GoesWell(world) ==> committed
    {
      var go;
      go, owned := Begin(start);
      requested, threw := go == Got(true), go.Threw?;
      if requested {
        var done := QuitAndCommit(start);
        threw := done.Threw?;
      }
    }

    /** The whole transaction, from the guards to the clean-up that every exit runs. */
    method Update(eligible: bool, start: nat)
      requires Valid() && !committed && !prepared
      modifies this
      ensures Valid() && !prepared
      ensures !eligible || old(disposed) || start != old(epoch) ==> log == old(log)
      ensures eligible && !old(disposed) && start == old(epoch) ==> Concluded(seen)
      ensures eligible && !old(disposed) && start == old(epoch) && world.validate(0) != Got(true) ==>
                Prepared !in log && RequestedQuit !in log && !committed && (Disposed in log || Warned in log)
      ensures eligible && !old(disposed) && start == old(epoch) && GoesWell(world) ==> committed
    {
      if !eligible || disposed || epoch != start { return; }
      log, seen, length := [], NOTHING, 0;
      var owned, requested, threw := Attempt(start);
      if threw && !disposed && !committed {
        Note(Warned);
        Await();
      }
      CleanUp(owned, requested);
      if world.validate(0) != Got(true) { InvalidPreparesNothing(world, log); }
    }

    method CleanUp(owned: bool, quitRequested: bool)
      requires Valid() && prepared == owned == seen.start.prepared && quitRequested == seen.quit.requested
      requires (quitRequested ==> owned && seen.quit.ended.Some?) && !seen.undo.reported
      requires committed == seen.quit.called && Begun(seen) && (!disposed ==> Advanced(seen))
      modifies this
      ensures Valid() && !prepared && Concluded(seen) && committed == old(committed)
    {
      if owned && !committed {
        Note(Cancelled);
        Await();
      }
      if quitRequested && !committed { Note(ReportedCancelledQuit); }
      prepared := false;
    }
  }
}
