/** The durable record of one User File Import: its validity and its transitions. */
module ImportRecord {
  import opened Common

  datatype BackgroundState = Queued | Running | Succeeded | Failed | Cancelled

  datatype Kind = Sample | DataPortal

  /** A fraction of None is indeterminate; the public message is left out. */
  datatype Progress = Progress(fraction: Option<real>)

  /** Why an import failed, by code. */
  datatype Failure = ImportInterrupted | ProgressInvalid | ExecutionFailed

  datatype ImportResult = ImportResult(kind: Kind, fileCount: nat, bytesWritten: nat)

  datatype UserFileImport = UserFileImport(
    id: nat,
    kind: Kind,
    state: BackgroundState,
    progress: Progress,
    cancellationRequestedAt: Option<int>,
    error: Option<Failure>,
    result: Option<ImportResult>,
    createdAt: int,
    startedAt: Option<int>,
    finishedAt: Option<int>,
    revision: nat)

  datatype TransitionError = WrongState | InvalidRecord

  const COMPLETE: Progress := Progress(Some(1.0))

  predicate Terminal(state: BackgroundState) {
    state.Succeeded? || state.Failed? || state.Cancelled?
  }

  predicate ValidProgress(p: Progress) {
    p.fraction.Some? ==> 0.0 <= p.fraction.value <= 1.0
  }

  predicate ValidLifecycle(r: UserFileImport) {
    && r.revision >= 1 && ValidProgress(r.progress)
    && (Terminal(r.state) <==> r.finishedAt.Some?)
    && (r.state.Queued? ==> r.startedAt.None?)
    && (r.state.Running? || r.state.Succeeded? ==> r.startedAt.Some?)
    && (r.state.Failed? <==> r.error.Some?)
    && (r.state.Succeeded? <==> r.result.Some?)
    && (r.result.Some? ==> r.result.value.kind == r.kind)
    && (r.state.Cancelled? ==> r.cancellationRequestedAt.Some?)
    && (r.state.Succeeded? <==> r.progress == COMPLETE)
    && (r.startedAt.Some? ==> r.startedAt.value >= r.createdAt)
    && (r.cancellationRequestedAt.Some? ==> r.cancellationRequestedAt.value >= r.createdAt)
    && (r.finishedAt.Some? ==>
          r.finishedAt.value >= if r.startedAt.Some? then r.startedAt.value else r.createdAt)
  }

  /** Every change counts one revision and is validated before it exists. */
  function Transition(r: UserFileImport, changed: UserFileImport): Result<UserFileImport, TransitionError> {
    var next := changed.(revision := r.revision + 1);
    if ValidLifecycle(next) then Ok(next) else Err(InvalidRecord)
  }

  function Create(id: nat, kind: Kind, now: int): UserFileImport {
    UserFileImport(id, kind, Queued, Progress(Some(0.0)), None, None, None, now, None, None, 1)
  }

  function Start(r: UserFileImport, now: int): Result<UserFileImport, TransitionError> {
    if !r.state.Queued? then Err(WrongState)
    else Transition(r, r.(state := Running, startedAt := Some(now)))
  }

  function CancelQueued(r: UserFileImport, now: int): Result<UserFileImport, TransitionError> {
    if !r.state.Queued? then Err(WrongState)
    else Transition(r, r.(state := Cancelled, cancellationRequestedAt := Some(now), finishedAt := Some(now)))
  }

  /** Asking again changes nothing. */
  function RequestRunningCancellation(r: UserFileImport, now: int): Result<UserFileImport, TransitionError> {
    if !r.state.Running? then Err(WrongState)
    else if r.cancellationRequestedAt.Some? then Ok(r)
    else Transition(r, r.(cancellationRequestedAt := Some(now)))
  }

  function ConfirmCancelled(r: UserFileImport, now: int, progress: Progress): Result<UserFileImport, TransitionError> {
    if !r.state.Running? || r.cancellationRequestedAt.None? then Err(WrongState)
    else Transition(r, r.(state := Cancelled, progress := progress, finishedAt := Some(now)))
  }

  function Fail(r: UserFileImport, now: int, failure: Failure, progress: Progress)
    : Result<UserFileImport, TransitionError>
  {
    if Terminal(r.state) then Err(WrongState)
    else Transition(r, r.(state := Failed, progress := progress, error := Some(failure), finishedAt := Some(now)))
  }

  function Succeed(r: UserFileImport, now: int, result: ImportResult): Result<UserFileImport, TransitionError> {
    if !r.state.Running? then Err(WrongState)
    else Transition(r, r.(state := Succeeded, progress := COMPLETE, result := Some(result), finishedAt := Some(now)))
  }

  // ---------------------------------------------------------------- what every transition keeps

  /** No time in the record lies after now. */
  predicate NoLaterThan(r: UserFileImport, now: int) {
    && r.createdAt <= now
    && (r.cancellationRequestedAt.Some? ==> r.cancellationRequestedAt.value <= now)
    && (r.startedAt.Some? ==> r.startedAt.value <= now)
    && (r.finishedAt.Some? ==> r.finishedAt.value <= now)
  }

  predicate WrittenOnce(before: Option<int>, after: Option<int>) {
    before.Some? ==> after == before
  }

  /**
   How a record may follow another: the same import one revision later, times set at most once,
   a terminal state never left, and a result or an error only on reaching the end.
   */
  predicate Follows(before: UserFileImport, after: UserFileImport) {
    && after.id == before.id && after.kind == before.kind && after.createdAt == before.createdAt
    && after.revision == before.revision + 1
    && !Terminal(before.state)
    && WrittenOnce(before.cancellationRequestedAt, after.cancellationRequestedAt)
    && WrittenOnce(before.startedAt, after.startedAt)
    && (before.state.Running? ==> !after.state.Queued?)
  }

  /** A record that came about by transitions: nobody asks to cancel while it is queued and leaves it queued. */
  predicate Regular(r: UserFileImport) {
    ValidLifecycle(r) && (r.state.Queued? ==> r.cancellationRequestedAt.None?)
  }

  /** Progress that a live import can report, and that an unsuccessful record can carry. */
  predicate LiveProgress(p: Progress) {
    p.fraction.Some? ==> 0.0 <= p.fraction.value < 1.0
  }

  /** With a clock that never runs backwards each transition is accepted in its own states, and in no others. */
  lemma TransitionsSucceed(r: UserFileImport, now: int, progress: Progress, failure: Failure, result: ImportResult)
    requires ValidLifecycle(r) && NoLaterThan(r, now) && LiveProgress(progress)
    ensures Start(r, now).Ok? <==> r.state.Queued?
    ensures CancelQueued(r, now).Ok? <==> r.state.Queued?
    ensures RequestRunningCancellation(r, now).Ok? <==> r.state.Running?
    ensures ConfirmCancelled(r, now, progress).Ok? <==> r.state.Running? && r.cancellationRequestedAt.Some?
    ensures Fail(r, now, failure, progress).Ok? <==> !Terminal(r.state)
    ensures Succeed(r, now, result).Ok? <==> r.state.Running? && result.kind == r.kind
    ensures Start(r, now) == Err(WrongState) <==> !r.state.Queued?
    ensures CancelQueued(r, now) == Err(WrongState) <==> !r.state.Queued?
    ensures RequestRunningCancellation(r, now) == Err(WrongState) <==> !r.state.Running?
    ensures ConfirmCancelled(r, now, progress) == Err(WrongState)
            <==> !(r.state.Running? && r.cancellationRequestedAt.Some?)
    ensures Fail(r, now, failure, progress) == Err(WrongState) <==> r.finishedAt.Some?
    ensures Succeed(r, now, result) == Err(WrongState) <==> !r.state.Running?
  {
  }

  /** Every accepted transition yields a valid record that follows the old one, and nothing leaves a terminal state. */
  lemma TransitionsFollow(
      r: UserFileImport, now: int, progress: Progress, failure: Failure, result: ImportResult,
      t: Result<UserFileImport, TransitionError>)
    requires Regular(r) && NoLaterThan(r, now)
    requires t in {Start(r, now), CancelQueued(r, now), RequestRunningCancellation(r, now),
                   ConfirmCancelled(r, now, progress), Fail(r, now, failure, progress), Succeed(r, now, result)}
    ensures t.Ok? ==>
              && Regular(t.value) && NoLaterThan(t.value, now)
              && !Terminal(r.state)
              && (t.value == r || Follows(r, t.value))
              && (t.value.state.Succeeded? ==> t == Succeed(r, now, result))
              && (t.value.state.Cancelled? ==> t.value.cancellationRequestedAt.Some?)
    ensures t.Ok? && !t.value.state.Succeeded? ==> t.value.progress != COMPLETE
  {
  }
}
