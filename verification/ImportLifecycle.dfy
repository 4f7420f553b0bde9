/**
 One User File Import from submission to deletion: cancellation, progress, publication and
 interruption meet under a per-import gate, so each gated region is one step.
 */
module ImportLifecycle {
  import opened Common
  import opened ImportRecord

  /** How far the scheduler and the runner of the import have come. */
  datatype Runner = Pending | Dispatched | Executing | Interrupted | Failing(failure: Failure) | Gone

  /**
   record is None once deleted; queued says whether the prepared execution and its storage
   reservation wait for the runner; scopeCancelled whether the runner's scope was cancelled.
   accepted, published and reported are history: whether a running cancellation was accepted, how
   often the result was published, and the progress that was accepted, oldest first.
   */
  datatype State = State(
    record: Option<UserFileImport>, queued: bool, live: Option<Progress>, runner: Runner, scopeCancelled: bool,
    clock: int, accepted: bool, published: nat, reported: seq<Progress>)

  /** saved says whether the durable store accepted the record that the step wants to write. */
  datatype Step =
    | Dispatch
    | Begin(now: int, saved: bool)
    | Cancel(now: int, saved: bool)
    | Report(now: int, progress: Progress, saved: bool)
    | Complete(now: int, result: ImportResult, checked: bool, publishes: bool, saved: bool)
    | ExecutionFails
    | Interrupt
    | FinishInterruption(now: int, saved: bool)
    | FinishFailure(now: int, saved: bool)
    | InterruptQueued(now: int, saved: bool)
    | Delete

  function Now(s: State, step: Step): int {
    match step
    case Begin(now, _) => now
    case Cancel(now, _) => now
    case Report(now, _, _) => now
    case Complete(now, _, _, _, _) => now
    case FinishInterruption(now, _) => now
    case FinishFailure(now, _) => now
    case InterruptQueued(now, _) => now
    case _ => s.clock
  }

  /** A step happens at its place in the runner's course, and the clock never runs backwards. */
  predicate Enabled(s: State, step: Step) {
    && Now(s, step) >= s.clock
    && match step
       case Dispatch => s.runner.Pending?
       case Begin(_, _) => s.runner.Dispatched?
       case Complete(_, _, _, _, _) => s.runner.Executing?
       case ExecutionFails => s.runner.Executing?
       case Interrupt => s.scopeCancelled && (s.runner.Dispatched? || s.runner.Executing?)
       case FinishInterruption(_, _) => s.runner.Interrupted?
       case FinishFailure(_, _) => s.runner.Failing?
       case _ => true
  }

  function CurrentProgress(s: State, r: UserFileImport): Progress {
    if s.live.Some? then s.live.value else r.progress
  }

  /** Stores a record and drops the live progress. */
  function Settled(s: State, r: UserFileImport): State {
    s.(record := Some(r), live := None)
  }

  /** The runner takes the queued import; without one it stops, and without a durable record it fails. */
  function DoBegin(s: State, now: int, saved: bool): State {
    if s.record.None? || !s.record.value.state.Queued? || !s.queued then s.(runner := Gone)
    else
      match Start(s.record.value, now)
      case Ok(running) =>
        if saved then s.(record := Some(running), queued := false, runner := Executing)
        else s.(runner := Failing(ExecutionFailed))
      case Err(_) => s.(runner := Failing(ExecutionFailed))
  }

  /** The scheduler drops a pending import, and cancels the scope of one it has handed out. */
  function Told(s: State): State {
    match s.runner
    case Pending => s.(runner := Gone)
    case Gone => s
    case _ => s.(scopeCancelled := true)
  }

  /** Queued work is cancelled now; running work is asked to stop, which the runner has to confirm. */
  function DoCancel(s: State, now: int, saved: bool): State {
    if s.record.None? || Terminal(s.record.value.state) then s
    else if s.record.value.state.Queued? then
      if s.runner.Gone? || !s.queued then Told(s)
      else
        var cleaned := Told(s).(queued := false);
        match CancelQueued(s.record.value, now)
        case Ok(cancelled) => if saved then cleaned.(record := Some(cancelled)) else cleaned
        case Err(_) => cleaned
    else if s.runner.Gone? then s
    else
      match RequestRunningCancellation(s.record.value, now)
      case Ok(requested) =>
        if requested == s.record.value || saved then Told(s).(record := Some(requested), accepted := true)
        else Told(s)
      case Err(_) => Told(s)
  }

  /** A value a running executor may report after what it reported before. */
  predicate Acceptable(s: State, r: UserFileImport, p: Progress) {
    && ValidProgress(p) && p != COMPLETE
    && if p.fraction.None? then s.live.Some? ==> s.live.value.fraction.None?
       else
         var before := CurrentProgress(s, r).fraction;
         before.Some? ==> p.fraction.value >= before.value
  }

  /** Bad progress fails the import and then stops its runner; nobody else is affected. */
  function DoReport(s: State, now: int, p: Progress, saved: bool): State {
    if s.record.None? || !s.record.value.state.Running? then s
    else
      var r := s.record.value;
      if Acceptable(s, r, p) then s.(live := Some(p), reported := s.reported + [p])
      else
        match Fail(r, now, ProgressInvalid, CurrentProgress(s, r))
        case Ok(failed) =>
          if saved then Settled(s, failed).(scopeCancelled := true)
          else if s.runner.Executing? then s.(runner := Failing(ExecutionFailed)) else s
        case Err(_) => s
  }

  /**
   Publication: only while running and not asked to cancel, with a result of the right kind, within
   the storage that was reserved. The record becomes successful only after publishing.
   */
  function DoComplete(
      s: State, now: int, result: ImportResult, checked: bool, publishes: bool, saved: bool): State
  {
    if s.record.None? || !s.record.value.state.Running? then s.(runner := Gone)
    else if s.record.value.cancellationRequestedAt.Some? then s.(runner := Interrupted)
    else if !checked || result.kind != s.record.value.kind || !publishes then s.(runner := Failing(ExecutionFailed))
    else
      var done := s.(published := s.published + 1);
      match Succeed(s.record.value, now, result)
      case Ok(succeeded) =>
        if saved then Settled(done, succeeded).(runner := Gone) else done.(runner := Failing(ExecutionFailed))
      case Err(_) => done.(runner := Failing(ExecutionFailed))
  }

  /** An interrupted runner confirms a cancellation that was asked for, and otherwise failed. */
  function DoFinishInterruption(s: State, now: int, saved: bool): State {
    var gone := s.(runner := Gone);
    if s.record.None? || !s.record.value.state.Running? then gone
    else
      var r := s.record.value;
      var progress := CurrentProgress(s, r);
      match if r.cancellationRequestedAt.Some? then ConfirmCancelled(r, now, progress)
            else Fail(r, now, ImportInterrupted, progress)
      case Ok(ended) => if saved then Settled(gone, ended) else gone
      case Err(_) => gone
  }

  function DoFinishFailure(s: State, now: int, failure: Failure, saved: bool): State {
    var gone := s.(runner := Gone);
    if s.record.None? || Terminal(s.record.value.state) then gone
    else
      match Fail(s.record.value, now, failure, CurrentProgress(s, s.record.value))
      case Ok(failed) => if saved then Settled(gone, failed) else gone
      case Err(_) => gone
  }

  /** At shutdown an import still queued is failed; its dispatch has already stopped. */
  function DoInterruptQueued(s: State, now: int, saved: bool): State {
    var stopped := s.(queued := false, runner := if s.runner.Pending? then Gone else s.runner);
    if s.record.None? || !s.record.value.state.Queued? then stopped
    else
      match Fail(s.record.value, now, ImportInterrupted, s.record.value.progress)
      case Ok(failed) => if saved then stopped.(record := Some(failed)) else stopped
      case Err(_) => stopped
  }

  function Apply(s: State, step: Step): State {
    match step
    case Dispatch => s.(runner := Dispatched)
    case Begin(now, saved) => DoBegin(s, now, saved)
    case Cancel(now, saved) => DoCancel(s, now, saved)
    case Report(now, p, saved) => DoReport(s, now, p, saved)
    case Complete(now, result, checked, publishes, saved) => DoComplete(s, now, result, checked, publishes, saved)
    case ExecutionFails => s.(runner := Failing(ExecutionFailed))
    case Interrupt => s.(runner := Interrupted)
    case FinishInterruption(now, saved) => DoFinishInterruption(s, now, saved)
    case FinishFailure(now, saved) =>
      DoFinishFailure(s, now, if s.runner.Failing? then s.runner.failure else ExecutionFailed, saved)
    case InterruptQueued(now, saved) => DoInterruptQueued(s, now, saved)
    case Delete =>
      if s.record.Some? && Terminal(s.record.value.state) then s.(record := None, live := None) else s
  }

  function Next(s: State, step: Step): State {
    Apply(s.(clock := Now(s, step)), step)
  }

  function Submitted(id: nat, kind: Kind, now: int): State {
    State(Some(Create(id, kind, now)), true, None, Pending, false, now, false, 0, [])
  }

  /** Any interleaving; a step that cannot happen is skipped. */
  function Run(s: State, steps: seq<Step>): State {
    if steps == [] then s
    else
      var r, step := Run(s, steps[..|steps| - 1]), steps[|steps| - 1];
      if Enabled(r, step) then Next(r, step) else r
  }

  // ---------------------------------------------------------------- invariants

  /** Indeterminate values, then fractions below one that never decrease. */
  ghost predicate ProperProgress(reported: seq<Progress>) {
    && (forall i :: 0 <= i < |reported| ==> LiveProgress(reported[i]))
    && forall i, j :: 0 <= i < j < |reported| && reported[i].fraction.Some? ==>
         reported[j].fraction.Some? && reported[i].fraction.value <= reported[j].fraction.value
  }

  ghost predicate RecordOk(s: State) {
    s.record.Some? ==>
      && Regular(s.record.value) && NoLaterThan(s.record.value, s.clock)
      && (s.record.value.state.Queued? || s.record.value.state.Running? ==> s.record.value.progress == Progress(Some(0.0)))
  }

  ghost predicate ProgressOk(s: State) {
    && ProperProgress(s.reported)
    && (s.live.Some? ==> s.reported != [] && s.live.value == s.reported[|s.reported| - 1])
    && (s.live.Some? ==> s.record.Some? && s.record.value.state.Running?)
    && (s.record.Some? && !Terminal(s.record.value.state) && s.live.None? ==> s.reported == [])
    && (s.record.Some? && s.record.value.state.Queued? ==> s.live.None?)
  }

  /** An accepted cancellation stays on record, and is never followed by success. */
  ghost predicate AcceptedOk(s: State) {
    s.accepted && s.record.Some? ==>
      s.record.value.cancellationRequestedAt.Some? && !s.record.value.state.Queued? && !s.record.value.state.Succeeded?
  }

  /** What was published is on its way to success, or to a failure of the durable record. */
  ghost predicate PublishedOk(s: State) {
    && s.published <= 1
    && (s.published == 1 ==>
          && (s.runner.Failing? || s.runner.Gone?)
          && (s.record.Some? ==> s.record.value.state.Running? || s.record.value.state.Succeeded? || s.record.value.state.Failed?))
    && (s.record.Some? && s.record.value.state.Succeeded? ==> s.published == 1)
    && (s.record.Some? && s.record.value.state.Queued? ==> !s.runner.Executing?)
    && (s.runner.Pending? ==> s.record.Some? && s.record.value.state.Queued?)
  }

  ghost predicate Inv(s: State) {
    RecordOk(s) && ProgressOk(s) && AcceptedOk(s) && PublishedOk(s)
  }

  lemma BeginKeeps(s: State, now: int, saved: bool)
    requires Inv(s) && s.runner.Dispatched? && now == s.clock
    ensures Inv(DoBegin(s, now, saved))
  {
    if s.record.Some? {
      TransitionsFollow(s.record.value, now, COMPLETE, ExecutionFailed, ImportResult(Sample, 0, 0), Start(s.record.value, now));
    }
  }

  lemma CancelQueuedKeeps(s: State, now: int, saved: bool)
    requires Inv(s) && s.record.Some? && s.record.value.state.Queued? && now == s.clock
    ensures Inv(DoCancel(s, now, saved))
  {
    var t := DoCancel(s, now, saved);
    assert t.live == s.live && t.reported == s.reported && t.accepted == s.accepted && t.published == s.published;
    assert RecordOk(t);
    assert ProgressOk(t) by {
      hide ProperProgress;
    }
    assert AcceptedOk(t) && PublishedOk(t) by {
      hide ProgressOk;
    }
  }

  lemma CancelRunningKeeps(s: State, now: int, saved: bool)
    requires Inv(s) && s.record.Some? && s.record.value.state.Running? && now == s.clock
    ensures Inv(DoCancel(s, now, saved))
  {
    var t := DoCancel(s, now, saved);
    assert RecordOk(t);
    assert ProgressOk(t) by {
      hide ProperProgress;
    }
    assert AcceptedOk(t) && PublishedOk(t) by {
      hide ProgressOk;
    }
  }

  lemma CancelKeeps(s: State, now: int, saved: bool)
    requires Inv(s) && now == s.clock
    ensures Inv(DoCancel(s, now, saved))
  {
    if s.record.Some? && s.record.value.state.Queued? {
      CancelQueuedKeeps(s, now, saved);
    } else if s.record.Some? && s.record.value.state.Running? {
      CancelRunningKeeps(s, now, saved);
    }
  }

  lemma AcceptKeeps(s: State, now: int, p: Progress)
    requires Inv(s) && now == s.clock && s.record.Some? && s.record.value.state.Running?
    requires Acceptable(s, s.record.value, p)
    ensures Inv(s.(live := Some(p), reported := s.reported + [p]))
  {
    ProperExtends(s, p);
    hide ProperProgress, Acceptable;
  }

  lemma RefuseKeeps(s: State, now: int, p: Progress, saved: bool)
    requires Inv(s) && now == s.clock && s.record.Some? && s.record.value.state.Running?
    requires !Acceptable(s, s.record.value, p)
    ensures Inv(DoReport(s, now, p, saved))
  {
    LiveIsProper(s);
    TransitionsSucceed(s.record.value, now, CurrentProgress(s, s.record.value), ProgressInvalid, ImportResult(Sample, 0, 0));
    hide ProperProgress, Acceptable, CurrentProgress;
    var t := DoReport(s, now, p, saved);
    assert RecordOk(t) by {
      hide PublishedOk, AcceptedOk, ProgressOk;
    }
    assert ProgressOk(t);
  }

  lemma ReportKeeps(s: State, now: int, p: Progress, saved: bool)
    requires Inv(s) && now == s.clock
    ensures Inv(DoReport(s, now, p, saved))
  {
    if s.record.Some? && s.record.value.state.Running? {
      if Acceptable(s, s.record.value, p) {
        AcceptKeeps(s, now, p);
      } else {
        RefuseKeeps(s, now, p, saved);
      }
      hide Acceptable, Inv;
    }
  }

  /** What a record that does not succeed is given as its progress is never complete. */
  lemma LiveIsProper(s: State)
    requires RecordOk(s) && ProgressOk(s) && s.record.Some? && !Terminal(s.record.value.state)
    ensures LiveProgress(CurrentProgress(s, s.record.value))
  {
  }

  /** An acceptable value continues the reported progress properly. */
  lemma ProperExtends(s: State, p: Progress)
    requires RecordOk(s) && ProgressOk(s) && s.record.Some? && s.record.value.state.Running?
    requires Acceptable(s, s.record.value, p)
    ensures ProperProgress(s.reported + [p])
  {
  }

  /** A success that can be saved keeps the invariants. */
  lemma SucceedKeeps(s: State, now: int, result: ImportResult)
    requires Inv(s) && s.runner.Executing? && now == s.clock && s.record.Some? && s.record.value.state.Running?
    requires s.record.value.cancellationRequestedAt.None?
    ensures var succeeded := Succeed(s.record.value, now, result);
            succeeded.Ok? ==>
              Inv(Settled(s.(published := s.published + 1), succeeded.value).(runner := Gone))
  {
    var succeeded := Succeed(s.record.value, now, result);
    if succeeded.Ok? {
      var t := Settled(s.(published := s.published + 1), succeeded.value).(runner := Gone);
      hide ProperProgress;
      assert RecordOk(t) by {
        hide PublishedOk, AcceptedOk, ProgressOk;
      }
      hide ValidLifecycle, NoLaterThan;
      assert ProgressOk(t);
    }
  }

  lemma CompleteKeeps(s: State, now: int, result: ImportResult, checked: bool, publishes: bool, saved: bool)
    requires Inv(s) && s.runner.Executing? && now == s.clock
    ensures Inv(DoComplete(s, now, result, checked, publishes, saved))
  {
    if s.record.Some? && s.record.value.state.Running? && s.record.value.cancellationRequestedAt.None? {
      SucceedKeeps(s, now, result);
    }
    hide ProperProgress, Succeed, ValidLifecycle, NoLaterThan;
  }

  lemma FinishInterruptionKeeps(s: State, now: int, saved: bool)
    requires Inv(s) && s.runner.Interrupted? && now == s.clock
    ensures Inv(DoFinishInterruption(s, now, saved))
  {
  }

  lemma FinishFailureKeeps(s: State, now: int, failure: Failure, saved: bool)
    requires Inv(s) && s.runner.Failing? && now == s.clock
    ensures Inv(DoFinishFailure(s, now, failure, saved))
  {
  }

  lemma InterruptQueuedKeeps(s: State, now: int, saved: bool)
    requires Inv(s) && now == s.clock
    ensures Inv(DoInterruptQueued(s, now, saved))
  {
  }

  /** Time passes without harm. */
  lemma ClockMoves(s: State, now: int)
    requires Inv(s) && now >= s.clock
    ensures Inv(s.(clock := now))
  {
    hide ProperProgress;
  }

  lemma StepKeepsInv(s: State, step: Step)
    requires Enabled(s, step) && Inv(s)
    ensures Inv(Next(s, step))
  {
    ClockMoves(s, Now(s, step));
    var t := s.(clock := Now(s, step));
    match step
    case Begin(now, saved) => BeginKeeps(t, now, saved);
    case Cancel(now, saved) => CancelKeeps(t, now, saved);
    case Report(now, p, saved) => ReportKeeps(t, now, p, saved);
    case Complete(now, result, checked, publishes, saved) => CompleteKeeps(t, now, result, checked, publishes, saved);
    case FinishInterruption(now, saved) => FinishInterruptionKeeps(t, now, saved);
    case FinishFailure(now, saved) => FinishFailureKeeps(t, now, s.runner.failure, saved);
    case InterruptQueued(now, saved) => InterruptQueuedKeeps(t, now, saved);
    case _ =>
  }

  lemma {:induction false} RunKeepsInv(s: State, steps: seq<Step>)
    requires Inv(s)
    ensures Inv(Run(s, steps))
  {
    if steps != [] {
      var r, step := Run(s, steps[..|steps| - 1]), steps[|steps| - 1];
      RunKeepsInv(s, steps[..|steps| - 1]);
      if Enabled(r, step) {
        StepKeepsInv(r, step);
      }
    }
  }

  lemma SubmittedIsOk(id: nat, kind: Kind, now: int)
    ensures Inv(Submitted(id, kind, now)) && InterruptedOk(Submitted(id, kind, now))
  {
  }

  // ---------------------------------------------------------------- cancellation against publication

  /**
   Cancel versus publish. In every run, an import whose running cancellation was accepted never
   succeeds, a cancelled import was never published, a successful one was published once, and
   nothing is ever published twice.
   */
  lemma CancelExcludesPublication(id: nat, kind: Kind, now: int, steps: seq<Step>)
    ensures var s := Run(Submitted(id, kind, now), steps);
            && s.published <= 1
            && (s.record.Some? && s.accepted ==> !s.record.value.state.Succeeded?)
            && (s.record.Some? && s.record.value.state.Cancelled? ==> s.published == 0)
            && (s.record.Some? && s.record.value.state.Succeeded? ==> s.published == 1)
  {
    SubmittedIsOk(id, kind, now);
    RunKeepsInv(Submitted(id, kind, now), steps);
  }

  /** Publication happens only while the import runs and nobody has asked to cancel it. */
  lemma PublishesOnlyUncancelled(s: State, step: Step)
    requires Enabled(s, step) && Inv(s) && Next(s, step).published != s.published
    ensures s.record.Some? && s.record.value.state.Running? && s.record.value.cancellationRequestedAt.None?
    ensures !s.accepted && s.published == 0 && Next(s, step).published == 1
    ensures step.Complete? && step.checked && step.publishes && step.result.kind == s.record.value.kind
  {
    hide ProgressOk, RecordOk, Acceptable, ValidLifecycle;
  }

  lemma RunMore(s: State, steps: seq<Step>, step: Step)
    ensures Run(s, steps + [step]) == if Enabled(Run(s, steps), step) then Next(Run(s, steps), step) else Run(s, steps)
  {
    assert (steps + [step])[..|steps|] == steps;
  }

  /** An import that has just published its result, and then failed to save its record. */
  lemma PublishedUnsaved(s: State, steps: seq<Step>)
    requires s == Submitted(0, Sample, 0)
    requires steps == [] + [Dispatch] + [Begin(1, true)]
                      + [Complete(2, ImportResult(Sample, 1, 10), true, true, false)]
    ensures var r := Start(Create(0, Sample, 0), 1);
            r.Ok? && Run(s, steps) == State(Some(r.value), false, None, Failing(ExecutionFailed), false, 2, false, 1, [])
  {
    hide Run;
    RunNothing(s);
    RunMore(s, [], Dispatch);
    RunMore(s, [] + [Dispatch], Begin(1, true));
    RunMore(s, [] + [Dispatch] + [Begin(1, true)], Complete(2, ImportResult(Sample, 1, 10), true, true, false));
  }

  /** Published, and still not successful: this needs the durable store to refuse the record afterwards. */
  lemma PublishedMayStillFail()
    ensures exists steps :: var s := Run(Submitted(0, Sample, 0), steps);
                            s.record.Some? && s.record.value.state.Failed? && s.published == 1
  {
    hide Run;
    var s := Submitted(0, Sample, 0);
    var steps := [] + [Dispatch] + [Begin(1, true)]
                 + [Complete(2, ImportResult(Sample, 1, 10), true, true, false)];
    PublishedUnsaved(s, steps);
    RunMore(s, steps, FinishFailure(3, true));
    assert Run(s, steps + [FinishFailure(3, true)]).published == 1;
  }

  lemma RunNothing(s: State)
    ensures Run(s, []) == s
  {
  }

  /** Publication succeeds on the spot exactly when its record can be saved. */
  lemma SavedPublicationSucceeds(s: State, step: Step)
    requires Enabled(s, step) && Inv(s) && Next(s, step).published != s.published
    ensures Next(s, step).record.Some?
    ensures Next(s, step).record.value.state.Succeeded? <==> step.saved
  {
    PublishesOnlyUncancelled(s, step);
    hide ProgressOk, PublishedOk, AcceptedOk;
  }

  /** Published, and yet no success on record. */
  ghost predicate Stranded(s: State) {
    s.published == 1 && (s.record.Some? ==> !s.record.value.state.Succeeded?)
  }

  /** Nothing publishes a second time, so nothing turns such an import into a success. */
  lemma StepKeepsStranded(s: State, step: Step)
    requires Enabled(s, step) && Inv(s) && Stranded(s)
    ensures Stranded(Next(s, step))
  {
    hide ProgressOk, RecordOk, Acceptable, ValidLifecycle;
  }

  lemma {:induction false} RunKeepsStranded(s: State, steps: seq<Step>)
    requires Inv(s) && Stranded(s)
    ensures Stranded(Run(s, steps))
  {
    if steps != [] {
      var r, step := Run(s, steps[..|steps| - 1]), steps[|steps| - 1];
      RunKeepsStranded(s, steps[..|steps| - 1]);
      RunKeepsInv(s, steps[..|steps| - 1]);
      if Enabled(r, step) {
        StepKeepsStranded(r, step);
      }
    }
  }

  /**
   The exact condition for "published implies successful", over whole runs: whatever led to a
   publication and whatever follows it, the import is successful for as long as its record exists
   if the record could be saved right after publishing, and never otherwise.
   */
  lemma PublicationSucceedsIffSaved(id: nat, kind: Kind, now: int, before: seq<Step>, step: Step, more: seq<Step>)
    requires Enabled(Run(Submitted(id, kind, now), before), step)
    requires Next(Run(Submitted(id, kind, now), before), step).published
             != Run(Submitted(id, kind, now), before).published
    ensures var t := Run(Next(Run(Submitted(id, kind, now), before), step), more);
            t.record.Some? ==> (t.record.value.state.Succeeded? <==> step.saved)
  {
    var s := Run(Submitted(id, kind, now), before);
    SubmittedIsOk(id, kind, now);
    RunKeepsInv(Submitted(id, kind, now), before);
    PublishesOnlyUncancelled(s, step);
    SavedPublicationSucceeds(s, step);
    StepKeepsInv(s, step);
    var t := Next(s, step);
    hide Run, Next, Inv, Enabled;
    if step.saved {
      RecordsMoveOn(t, more);
    } else {
      RunKeepsStranded(t, more);
    }
  }

  // ---------------------------------------------------------------- the record over whole runs

  /** Whether the durable store would accept the record that the step wants to write. */
  function Saved(step: Step): bool {
    match step
    case Begin(_, saved) => saved
    case Cancel(_, saved) => saved
    case Report(_, _, saved) => saved
    case Complete(_, _, _, _, saved) => saved
    case FinishInterruption(_, saved) => saved
    case FinishFailure(_, saved) => saved
    case InterruptQueued(_, saved) => saved
    case _ => false
  }

  /** The transition a step asks for, if it asks for one. */
  function Attempt(s: State, step: Step): Option<Result<UserFileImport, TransitionError>> {
    if s.record.None? then None
    else
      var r := s.record.value;
      match step
      case Begin(now, _) => if r.state.Queued? && s.queued then Some(Start(r, now)) else None
      case Cancel(now, _) =>
        if Terminal(r.state) || s.runner.Gone? || (r.state.Queued? && !s.queued) then None
        else Some(if r.state.Queued? then CancelQueued(r, now) else RequestRunningCancellation(r, now))
      case Report(now, p, _) =>
        if r.state.Running? && !Acceptable(s, r, p) then Some(Fail(r, now, ProgressInvalid, CurrentProgress(s, r)))
        else None
      case Complete(now, result, checked, publishes, _) =>
        if r.state.Running? && r.cancellationRequestedAt.None? && checked && publishes && result.kind == r.kind
        then Some(Succeed(r, now, result)) else None
      case FinishInterruption(now, _) =>
        if !r.state.Running? then None
        else Some(if r.cancellationRequestedAt.Some? then ConfirmCancelled(r, now, CurrentProgress(s, r))
                  else Fail(r, now, ImportInterrupted, CurrentProgress(s, r)))
      case FinishFailure(now, _) =>
        if Terminal(r.state) || !s.runner.Failing? then None
        else Some(Fail(r, now, s.runner.failure, CurrentProgress(s, r)))
      case InterruptQueued(now, _) => if r.state.Queued? then Some(Fail(r, now, ImportInterrupted, r.progress)) else None
      case _ => None
  }

  /** Deletion aside, a step changes the record by its attempt if that is accepted and saved, and not otherwise. */
  lemma RecordChangesByAttempt(s: State, step: Step)
    requires Enabled(s, step) && !step.Delete?
    ensures var attempt := Attempt(s, step);
            Next(s, step).record
            == if attempt.Some? && attempt.value.Ok? && Saved(step) then Some(attempt.value.value) else s.record
  {
    hide ValidLifecycle;
    if step.Report? && s.record.Some? {
      assert Acceptable(s.(clock := step.now), s.record.value, step.progress)
          == Acceptable(s, s.record.value, step.progress);
    }
    hide Acceptable;
  }

  /** Where an accepted attempt leads. */
  lemma AttemptFollows(s: State, step: Step)
    requires Enabled(s, step) && Inv(s) && Attempt(s, step).Some? && Attempt(s, step).value.Ok?
    ensures s.record.Some?
    ensures var r := Attempt(s, step).value.value;
            r == s.record.value || Follows(s.record.value, r)
  {
    hide PublishedOk, AcceptedOk, ProgressOk, Acceptable, CurrentProgress;
  }

  /** A step leaves the record alone, moves it on by one valid transition, or deletes a terminal one. */
  lemma StepMovesRecordOn(s: State, step: Step)
    requires Enabled(s, step) && Inv(s)
    ensures var t := Next(s, step);
            || t.record == s.record
            || (s.record.Some? && t.record.Some? && Follows(s.record.value, t.record.value))
            || (s.record.Some? && Terminal(s.record.value.state) && t.record.None? && step.Delete?)
  {
    if !step.Delete? {
      RecordChangesByAttempt(s, step);
      if Next(s, step).record != s.record {
        AttemptFollows(s, step);
      }
      hide Next, Attempt, Inv, Follows;
    }
  }

  /** How a record relates to what it was earlier in the run. */
  ghost predicate LaterThan(before: Option<UserFileImport>, after: Option<UserFileImport>) {
    after.Some? ==>
      && before.Some?
      && after.value.id == before.value.id && after.value.kind == before.value.kind
      && after.value.createdAt == before.value.createdAt
      && after.value.revision >= before.value.revision
      && (after.value.revision == before.value.revision || Terminal(before.value.state) ==> after == before)
      && WrittenOnce(before.value.startedAt, after.value.startedAt)
      && WrittenOnce(before.value.cancellationRequestedAt, after.value.cancellationRequestedAt)
      && (before.value.state.Running? ==> !after.value.state.Queued?)
  }

  /**
   Over whole runs: revisions only grow, a terminal record stays as it is until it is deleted, a
   deleted one never comes back, and times once written stay.
   */
  lemma {:induction false} RecordsMoveOn(s: State, steps: seq<Step>)
    requires Inv(s)
    ensures LaterThan(s.record, Run(s, steps).record)
  {
    if steps != [] {
      var r, step := Run(s, steps[..|steps| - 1]), steps[|steps| - 1];
      RecordsMoveOn(s, steps[..|steps| - 1]);
      RunKeepsInv(s, steps[..|steps| - 1]);
      if Enabled(r, step) {
        StepMovesRecordOn(r, step);
        hide Next;
      }
    }
  }

  /** With a clock that never runs backwards no transition is ever refused, in any run. */
  lemma NoTransitionIsRefused(id: nat, kind: Kind, now: int, steps: seq<Step>, step: Step)
    requires Enabled(Run(Submitted(id, kind, now), steps), step)
    ensures var attempt := Attempt(Run(Submitted(id, kind, now), steps), step);
            attempt.Some? ==> attempt.value.Ok?
  {
    SubmittedIsOk(id, kind, now);
    RunKeepsInv(Submitted(id, kind, now), steps);
    var s := Run(Submitted(id, kind, now), steps);
    if s.record.Some? && !Terminal(s.record.value.state) {
      LiveIsProper(s);
      var result := if step.Complete? then step.result else ImportResult(Sample, 0, 0);
      hide Run, ProperProgress, PublishedOk, AcceptedOk, Acceptable;
      TransitionsSucceed(s.record.value, Now(s, step), CurrentProgress(s, s.record.value), ImportInterrupted, result);
      TransitionsSucceed(s.record.value, Now(s, step), CurrentProgress(s, s.record.value), ProgressInvalid, result);
      if s.runner.Failing? {
        TransitionsSucceed(s.record.value, Now(s, step), CurrentProgress(s, s.record.value), s.runner.failure, result);
      }
    }
  }

  ghost predicate CompleteOnlyOnSuccess(r: UserFileImport) {
    && ValidLifecycle(r)
    && if r.state.Succeeded? then r.progress == COMPLETE else LiveProgress(r.progress)
  }

  /**
   Live progress over whole runs: what was accepted is a run of indeterminate values followed by
   fractions below one that never decrease, every stored record is valid, and only a successful
   one carries complete progress.
   */
  lemma ProgressIsProper(id: nat, kind: Kind, now: int, steps: seq<Step>)
    ensures var s := Run(Submitted(id, kind, now), steps);
            ProperProgress(s.reported) && (s.record.Some? ==> CompleteOnlyOnSuccess(s.record.value))
  {
    hide Run, ProperProgress, RecordOk, CompleteOnlyOnSuccess;
    SubmittedIsOk(id, kind, now);
    RunKeepsInv(Submitted(id, kind, now), steps);
    RecordIsProper(Run(Submitted(id, kind, now), steps));
  }

  lemma RecordIsProper(s: State)
    requires RecordOk(s)
    ensures s.record.Some? ==> CompleteOnlyOnSuccess(s.record.value)
  {
  }

  /** The progress accepted last, which is zero before anything was accepted. */
  function LastReported(reported: seq<Progress>): Progress {
    if reported == [] then Progress(Some(0.0)) else reported[|reported| - 1]
  }

  /** An import that ended without success tells how far it had come. */
  ghost predicate EndedOk(s: State) {
    s.record.Some? && (s.record.value.state.Failed? || s.record.value.state.Cancelled?) ==>
      s.record.value.progress == LastReported(s.reported)
  }

  lemma CurrentIsLastReported(s: State)
    requires Inv(s) && s.record.Some? && !Terminal(s.record.value.state)
    ensures CurrentProgress(s, s.record.value) == LastReported(s.reported)
  {
  }

  /** An attempt that ends the import without success carries the current progress. */
  lemma AttemptKeepsProgress(s: State, step: Step)
    requires Inv(s) && Attempt(s, step).Some? && Attempt(s, step).value.Ok?
    ensures var r := Attempt(s, step).value.value;
            r.state.Failed? || r.state.Cancelled? ==>
              !Terminal(s.record.value.state) && r.progress == CurrentProgress(s, s.record.value)
  {
    hide ValidLifecycle, ProperProgress, PublishedOk, AcceptedOk, Acceptable;
  }

  lemma ReportedChangesWhileRunning(s: State, step: Step)
    requires Next(s, step).reported != s.reported
    ensures s.record.Some? && s.record.value.state.Running? && Next(s, step).record == s.record
  {
    hide Acceptable, Start, CancelQueued, RequestRunningCancellation, ConfirmCancelled, Fail, Succeed;
  }

  lemma StepKeepsEnded(s: State, step: Step)
    requires Enabled(s, step) && Inv(s) && EndedOk(s)
    ensures EndedOk(Next(s, step))
  {
    if Next(s, step).reported != s.reported {
      ReportedChangesWhileRunning(s, step);
    } else if step.Delete? {
      assert Next(s, step).record.Some? ==> Next(s, step).record == s.record;
    } else {
      RecordChangesByAttempt(s, step);
      if Next(s, step).record != s.record {
        AttemptKeepsProgress(s, step);
        if !Terminal(s.record.value.state) {
          CurrentIsLastReported(s);
        }
      }
      hide Next, Attempt, Inv;
    }
  }

  lemma {:induction false} RunKeepsEnded(s: State, steps: seq<Step>)
    requires Inv(s) && EndedOk(s)
    ensures EndedOk(Run(s, steps))
  {
    if steps != [] {
      var r, step := Run(s, steps[..|steps| - 1]), steps[|steps| - 1];
      RunKeepsEnded(s, steps[..|steps| - 1]);
      RunKeepsInv(s, steps[..|steps| - 1]);
      if Enabled(r, step) {
        StepKeepsEnded(r, step);
      }
    }
  }

  /**
   In every run a FAILED or CANCELLED record carries the progress that was accepted last: neither
   a report that was refused nor one that came after the end leaves a trace in it.
   */
  lemma EndedRecordsKeepLastProgress(id: nat, kind: Kind, now: int, steps: seq<Step>)
    ensures var s := Run(Submitted(id, kind, now), steps);
            s.record.Some? && (s.record.value.state.Failed? || s.record.value.state.Cancelled?) ==>
              s.record.value.progress == LastReported(s.reported)
  {
    SubmittedIsOk(id, kind, now);
    RunKeepsEnded(Submitted(id, kind, now), steps);
  }

  // ---------------------------------------------------------------- a cancellation takes effect

  /**
   An accepted cancellation, and progress that failed the import, have interrupted the runner; an
   import that runs has been handed out; and a runner fails by itself only in its execution.
   */
  ghost predicate InterruptedOk(s: State) {
    && (s.accepted ==> s.scopeCancelled)
    && (s.record.Some? && s.record.value.error == Some(ProgressInvalid) ==> s.scopeCancelled)
    && (s.record.Some? && s.record.value.state.Running? ==> !s.runner.Pending?)
    && (s.runner.Failing? ==> s.runner.failure == ExecutionFailed)
  }

  lemma CancelKeepsInterrupted(s: State, now: int, saved: bool)
    requires Inv(s) && InterruptedOk(s)
    ensures InterruptedOk(DoCancel(s, now, saved))
  {
    hide ProgressOk, RecordOk, ValidLifecycle;
  }

  lemma ReportKeepsInterrupted(s: State, now: int, p: Progress, saved: bool)
    requires InterruptedOk(s)
    ensures InterruptedOk(DoReport(s, now, p, saved))
  {
    hide Acceptable, ValidLifecycle;
  }

  lemma StepKeepsInterrupted(s: State, step: Step)
    requires Enabled(s, step) && Inv(s) && InterruptedOk(s)
    ensures InterruptedOk(Next(s, step))
  {
    ClockMoves(s, Now(s, step));
    var t := s.(clock := Now(s, step));
    match step
    case Cancel(now, saved) =>
      CancelKeepsInterrupted(t, now, saved);
      hide InterruptedOk, DoCancel;
    case Report(now, p, saved) =>
      ReportKeepsInterrupted(t, now, p, saved);
      hide InterruptedOk, DoReport;
    case _ => hide ValidLifecycle, Inv;
  }

  lemma {:induction false} RunKeepsInterrupted(s: State, steps: seq<Step>)
    requires Inv(s) && InterruptedOk(s)
    ensures InterruptedOk(Run(s, steps))
  {
    if steps != [] {
      var r, step := Run(s, steps[..|steps| - 1]), steps[|steps| - 1];
      RunKeepsInterrupted(s, steps[..|steps| - 1]);
      RunKeepsInv(s, steps[..|steps| - 1]);
      if Enabled(r, step) {
        StepKeepsInterrupted(r, step);
      }
    }
  }

  lemma ReachableIsSound(id: nat, kind: Kind, now: int, steps: seq<Step>)
    ensures Inv(Run(Submitted(id, kind, now), steps)) && InterruptedOk(Run(Submitted(id, kind, now), steps))
  {
    SubmittedIsOk(id, kind, now);
    RunKeepsInv(Submitted(id, kind, now), steps);
    RunKeepsInterrupted(Submitted(id, kind, now), steps);
  }

  /**
   In every run, the runner of an import whose running cancellation was accepted, and of one that
   failed by bad progress, has been interrupted.
   */
  lemma AcceptedIsInterrupted(id: nat, kind: Kind, now: int, steps: seq<Step>)
    ensures var s := Run(Submitted(id, kind, now), steps);
            && (s.accepted ==> s.scopeCancelled)
            && (s.record.Some? && s.record.value.error == Some(ProgressInvalid) ==> s.scopeCancelled)
  {
    hide Run;
    ReachableIsSound(id, kind, now, steps);
  }

  lemma TwoMore(s: State, a: Step, b: Step)
    requires Enabled(s, a) && Enabled(Next(s, a), b)
    ensures Run(s, [a, b]) == Next(Next(s, a), b)
  {
    assert [a, b] == [] + [a] + [b];
    RunNothing(s);
    RunMore(s, [], a);
    RunMore(s, [] + [a], b);
  }

  /**
   And so it ends. Whatever has happened, an import that still runs after its cancellation was
   accepted can be interrupted, and then ends CANCELLED with the progress it reported last.
   */
  lemma AcceptedEndsCancelled(id: nat, kind: Kind, now: int, steps: seq<Step>, later: int)
    requires var s := Run(Submitted(id, kind, now), steps);
             && s.accepted && s.record.Some? && s.record.value.state.Running?
             && (s.runner.Dispatched? || s.runner.Executing?) && later >= s.clock
    ensures var s := Run(Submitted(id, kind, now), steps);
            && Enabled(s, Interrupt)
            && var t := Run(s, [Interrupt, FinishInterruption(later, true)]);
               && t.record.Some? && t.record.value.state.Cancelled? && t.record.value.finishedAt == Some(later)
               && t.record.value.progress == LastReported(s.reported) && t.published == 0 && t.runner.Gone?
  {
    hide Run;
    ReachableIsSound(id, kind, now, steps);
    InterruptionEnds(Run(Submitted(id, kind, now), steps), later);
  }

  lemma InterruptionEnds(s: State, later: int)
    requires Inv(s) && InterruptedOk(s) && s.accepted && s.record.Some? && s.record.value.state.Running?
    requires (s.runner.Dispatched? || s.runner.Executing?) && later >= s.clock
    ensures Enabled(s, Interrupt)
    ensures var t := Run(s, [Interrupt, FinishInterruption(later, true)]);
            && t.record.Some? && t.record.value.state.Cancelled? && t.record.value.finishedAt == Some(later)
            && t.record.value.progress == LastReported(s.reported) && t.published == 0 && t.runner.Gone?
  {
    hide Run, ProperProgress, NoLaterThan, ValidLifecycle;
    CurrentIsLastReported(s);
    LiveIsProper(s);
    ConfirmationSucceeds(s, later);
    assert Next(s, Interrupt) == s.(runner := Runner.Interrupted);
    TwoMore(s, Interrupt, FinishInterruption(later, true));
  }

  lemma ConfirmationSucceeds(s: State, later: int)
    requires RecordOk(s) && ProgressOk(s) && s.record.Some? && s.record.value.state.Running? && later >= s.clock
    requires s.record.value.cancellationRequestedAt.Some?
    ensures ConfirmCancelled(s.record.value, later, CurrentProgress(s, s.record.value)).Ok?
  {
    LiveIsProper(s);
    TransitionsSucceed(s.record.value, later, CurrentProgress(s, s.record.value), ExecutionFailed, ImportResult(Sample, 0, 0));
  }

  // ---------------------------------------------------------------- what a step achieves

  /** The exact condition of publication, and what it records. */
  lemma PublishesExactly(s: State, step: Step)
    requires Enabled(s, step) && Inv(s)
    ensures Next(s, step).published != s.published <==>
              && step.Complete? && s.record.Some? && s.record.value.state.Running?
              && s.record.value.cancellationRequestedAt.None?
              && step.checked && step.publishes && step.result.kind == s.record.value.kind
  {
    hide ProgressOk, RecordOk, Acceptable, ValidLifecycle;
  }

  /** The exact condition under which a runner starts, and then the record is RUNNING from now on. */
  lemma BeginsExactly(s: State, now: int, saved: bool)
    requires Enabled(s, Begin(now, saved)) && Inv(s)
    ensures var t := Next(s, Begin(now, saved));
            && (t.runner.Executing? <==> s.record.Some? && s.record.value.state.Queued? && s.queued && saved)
            && (t.runner.Executing? ==>
                  && t.record == Some(s.record.value.(state := Running, startedAt := Some(now),
                                                      revision := s.record.value.revision + 1))
                  && !t.queued)
  {
    if s.record.Some? {
      TransitionsSucceed(s.record.value, now, COMPLETE.(fraction := None), ExecutionFailed, ImportResult(Sample, 0, 0));
    }
    hide ProgressOk;
  }

  /** A live import accepts exactly the reports that continue what it has reported properly. */
  lemma AcceptsExactly(s: State, now: int, p: Progress, saved: bool)
    requires Enabled(s, Report(now, p, saved)) && Inv(s) && s.record.Some? && s.record.value.state.Running?
    ensures Next(s, Report(now, p, saved)).reported
            == if ProperProgress(s.reported + [p]) then s.reported + [p] else s.reported
  {
    var t := s.(clock := now);
    ClockMoves(s, now);
    AcceptableIsProper(t, p);
    hide ProperProgress, Acceptable, Inv;
  }

  lemma AcceptableIsProper(s: State, p: Progress)
    requires Inv(s) && s.record.Some? && s.record.value.state.Running?
    ensures Acceptable(s, s.record.value, p) <==> ProperProgress(s.reported + [p])
  {
    if Acceptable(s, s.record.value, p) {
      ProperExtends(s, p);
    }
    if ProperProgress(s.reported + [p]) {
      var n := |s.reported|;
      assert (s.reported + [p])[n] == p;
      if n > 0 {
        assert (s.reported + [p])[n - 1] == s.reported[n - 1];
      }
    }
  }

  /**
   What a changed record tells: who started, stopped or ended the import and when, with which result
   or for which reason.
   */
  lemma RecordsTell(s: State, step: Step)
    requires Enabled(s, step) && Inv(s) && Next(s, step).record != s.record && !step.Delete?
    ensures s.record.Some? && Next(s, step).record.Some? && Saved(step)
    ensures var r, t, now := s.record.value, Next(s, step).record.value, Now(s, step);
            && (Terminal(t.state) ==> t.finishedAt == Some(now) && t.startedAt == r.startedAt)
            && (t.state.Running? && r.state.Queued? ==> step.Begin? && t.startedAt == Some(now))
            && (t.state.Running? && r.state.Running? ==> step.Cancel? && t.cancellationRequestedAt == Some(now))
            && (t.state.Succeeded? ==> step.Complete? && t.result == Some(step.result))
            && (t.state.Cancelled? ==>
                  if r.state.Queued? then step.Cancel? && t.cancellationRequestedAt == Some(now)
                  else step.FinishInterruption? && t.cancellationRequestedAt == r.cancellationRequestedAt)
            && (t.state.Failed? ==>
                  || (step.Report? && t.error == Some(ProgressInvalid))
                  || ((step.FinishInterruption? || step.InterruptQueued?) && t.error == Some(ImportInterrupted))
                  || (step.FinishFailure? && t.error == Some(s.runner.failure)))
  {
    RecordChangesByAttempt(s, step);
    hide Next, ValidLifecycle, ProgressOk, AcceptedOk, PublishedOk, Acceptable;
  }

  /** A runner that stops leaves an ended record behind, if that can be saved. */
  lemma RunnersEndRecords(s: State, step: Step)
    requires Enabled(s, step) && Inv(s) && s.record.Some? && Saved(step)
    requires || (step.FinishInterruption? && s.record.value.state.Running?)
             || (step.FinishFailure? && !Terminal(s.record.value.state))
             || (step.InterruptQueued? && s.record.value.state.Queued?)
    ensures Next(s, step).record.Some? && Terminal(Next(s, step).record.value.state)
    ensures Next(s, step).record.value.state.Cancelled? <==>
              step.FinishInterruption? && s.record.value.cancellationRequestedAt.Some?
  {
    var r, now, p := s.record.value, Now(s, step), CurrentProgress(s, s.record.value);
    LiveIsProper(s);
    TransitionsSucceed(r, now, p, if s.runner.Failing? then s.runner.failure else ImportInterrupted,
                       ImportResult(Sample, 0, 0));
    TransitionsSucceed(r, now, r.progress, ImportInterrupted, ImportResult(Sample, 0, 0));
    TransitionsSucceed(r, now, p, ImportInterrupted, ImportResult(Sample, 0, 0));
    hide ValidLifecycle, ProgressOk, PublishedOk, AcceptedOk;
  }

  /** An import that nobody disturbs: it is handed out, runs, and succeeds with its result. */
  lemma UndisturbedSucceeds(id: nat, kind: Kind, now: int, start: int, end: int, result: ImportResult)
    requires now <= start <= end && result.kind == kind
    ensures var t := Run(Submitted(id, kind, now), [] + [Dispatch] + [Begin(start, true)]
                                                   + [Complete(end, result, true, true, true)]);
            && t.record.Some? && t.record.value.state.Succeeded? && t.record.value.result == Some(result)
            && t.record.value.startedAt == Some(start) && t.record.value.finishedAt == Some(end)
            && t.published == 1 && t.runner.Gone?
  {
    var s := Submitted(id, kind, now);
    RunNothing(s);
    RunMore(s, [], Dispatch);
    RunMore(s, [] + [Dispatch], Begin(start, true));
    RunMore(s, [] + [Dispatch] + [Begin(start, true)], Complete(end, result, true, true, true));
    hide Run;
    assert Next(s, Dispatch) == s.(runner := Dispatched);
  }

  // ---------------------------------------------------------------- the service

  datatype CancelOutcome = NotFound | NotCancellable | Unavailable | NotSaved | Ended(record: UserFileImport) | Requested

  /**
   The service. What it keeps about one import in separate dictionaries (record, waiting execution,
   live progress, gate) is one entry here, together with the import's place in the scheduler.
   */
  class UserFileImportService {
    var imports: map<nat, State>

    /** Every import is in a state that some run of its own reaches. */
    ghost predicate Valid()
      reads this
    {
      forall key: nat :: key in imports ==> Inv(imports[key]) && InterruptedOk(imports[key])
    }

    constructor ()
      ensures Valid() && imports == map[]
    {
      imports := map[];
    }

    /** enqueued says whether the scheduler still takes new imports; if not, nothing of this one is kept. */
    method Submit(key: nat, kind: Kind, now: int, enqueued: bool) returns (accepted: bool)
      requires Valid() && key !in imports
      modifies this
      ensures Valid() && accepted == enqueued
      ensures imports == if accepted then old(imports)[key := Submitted(key, kind, now)] else old(imports)
    {
      SubmittedIsOk(key, kind, now);
      hide Inv, InterruptedOk;
      var record := Create(key, kind, now);
      imports := imports[key := State(Some(record), true, None, Pending, false, now, false, 0, [])];
      if !enqueued {
        imports := imports - {key};
      }
      return enqueued;
    }

    /** Drops a pending import, or cancels the scope of a running one. */
    method TellScheduler(key: nat) returns (known: bool)
      requires key in imports
      modifies this
      ensures known <==> !old(imports)[key].runner.Gone?
      ensures imports == old(imports)[key := Told(old(imports)[key])]
    {
      var s := imports[key];
      known := !s.runner.Gone?;
      if s.runner.Pending? {
        imports := imports[key := s.(runner := Gone)];
      } else if known {
        imports := imports[key := s.(scopeCancelled := true)];
      }
    }

    method Cancel(key: nat, now: int, saved: bool) returns (r: CancelOutcome)
      requires Valid() && (key in imports ==> now >= imports[key].clock)
      modifies this
      ensures Valid()
      ensures imports == if key in old(imports)
                         then old(imports)[key := Next(old(imports)[key], Step.Cancel(now, saved))] else old(imports)
      ensures r == NotFound <==> key !in old(imports) || old(imports)[key].record.None?
      ensures r == NotCancellable <==>
                && key in old(imports) && old(imports)[key].record.Some?
                && (old(imports)[key].record.value.state.Succeeded? || old(imports)[key].record.value.state.Failed?)
      ensures r.Ended? <==>
                && key in old(imports) && old(imports)[key].record.Some?
                && var before := old(imports)[key];
                   || before.record.value.state.Cancelled?
                   || (before.record.value.state.Queued? && !before.runner.Gone? && before.queued && saved)
      ensures r == Requested <==>
                && key in old(imports) && old(imports)[key].record.Some?
                && var before := old(imports)[key];
                   before.record.value.state.Running? && !before.runner.Gone?
                   && (before.record.value.cancellationRequestedAt.Some? || saved)
      ensures r == Requested ==>
                && key in imports && imports[key].accepted && imports[key].scopeCancelled
                && imports[key].record.Some? && !imports[key].record.value.state.Succeeded?
      ensures r.Ended? ==>
                && key in imports && imports[key].record == Some(r.record)
                && r.record.state.Cancelled? && imports[key].published == 0
    {
      hide Inv, InterruptedOk, ValidLifecycle, CancelQueued, RequestRunningCancellation, Told;
      if key !in imports {
        return NotFound;
      }
      StepInvariants(imports[key], Step.Cancel(now, saved));
      if imports[key].record.Some? {
        CancelTransitions(imports[key], now);
      }
      imports := imports[key := imports[key].(clock := now)];
      var s := imports[key];
      if s.record.None? {
        return NotFound;
      }
      var record := s.record.value;
      if record.state.Succeeded? || record.state.Failed? {
        return NotCancellable;
      }
      if record.state.Cancelled? {
        return Ended(record);
      }
      if record.state.Queued? {
        r := CancelWaiting(key, record, now, saved);
      } else {
        r := RequestCancellation(key, record, now, saved);
      }
    }

    /** Cleans up the waiting execution and ends the import, without a runner. */
    method CancelWaiting(key: nat, record: UserFileImport, now: int, saved: bool) returns (r: CancelOutcome)
      requires key in imports && imports[key].record == Some(record) && record.state.Queued?
      modifies this
      ensures imports == old(imports)[key := DoCancel(old(imports)[key], now, saved)]
      ensures r.Ended? ==> imports[key].record == Some(r.record) && r.record.state.Cancelled?
      ensures r.Ended? <==>
                !old(imports)[key].runner.Gone? && old(imports)[key].queued && CancelQueued(record, now).Ok? && saved
      ensures r != Requested && r != NotFound && r != NotCancellable
    {
      var known := TellScheduler(key);
      var s := imports[key];
      if !known || !s.queued {
        return Unavailable;
      }
      imports := imports[key := s.(queued := false)];
      var cancelled := CancelQueued(record, now);
      if cancelled.Err? || !saved {
        return NotSaved;
      }
      imports := imports[key := s.(queued := false, record := Some(cancelled.value))];
      return Ended(cancelled.value);
    }

    /** Interrupts the runner first, and then puts the request on record. */
    method RequestCancellation(key: nat, record: UserFileImport, now: int, saved: bool) returns (r: CancelOutcome)
      requires key in imports && imports[key].record == Some(record) && record.state.Running?
      requires !imports[key].runner.Pending?
      modifies this
      ensures imports == old(imports)[key := DoCancel(old(imports)[key], now, saved)]
      ensures r == Requested ==> imports[key].accepted && imports[key].record.Some? && imports[key].scopeCancelled
      ensures r == Requested <==>
                && !old(imports)[key].runner.Gone? && RequestRunningCancellation(record, now).Ok?
                && (saved || RequestRunningCancellation(record, now).value == record)
      ensures !r.Ended? && r != NotFound && r != NotCancellable
    {
      var known := TellScheduler(key);
      if !known {
        return Unavailable;
      }
      var requested := RequestRunningCancellation(record, now);
      if requested.Err? || (requested.value != record && !saved) {
        return NotSaved;
      }
      imports := imports[key := imports[key].(record := Some(requested.value), accepted := true)];
      return Requested;
    }

    /** The runner's start: takes execution and reservation only once the running record is durable. */
    method Begin(key: nat, now: int, saved: bool) returns (started: bool)
      requires Valid() && key in imports && Enabled(imports[key], Step.Begin(now, saved))
      modifies this
      ensures Valid()
      ensures imports == old(imports)[key := Next(old(imports)[key], Step.Begin(now, saved))]
      ensures started <==> imports[key].runner.Executing?
    {
      hide Inv, InterruptedOk, ValidLifecycle, Start;
      StepInvariants(imports[key], Step.Begin(now, saved));
      var s := imports[key].(clock := now);
      if s.record.None? || !s.record.value.state.Queued? || !s.queued {
        imports := imports[key := s.(runner := Gone)];
        return false;
      }
      var running := Start(s.record.value, now);
      if running.Err? || !saved {
        imports := imports[key := s.(runner := Failing(ExecutionFailed))];
        return false;
      }
      imports := imports[key := s.(record := Some(running.value), queued := false, runner := Executing)];
      return true;
    }

    /** Takes one live value; a bad one fails this import and stops its runner. */
    method ReportProgress(key: nat, now: int, progress: Progress, saved: bool)
      requires Valid() && (key in imports ==> now >= imports[key].clock)
      modifies this
      ensures Valid()
      ensures imports == if key in old(imports)
                         then old(imports)[key := Next(old(imports)[key], Step.Report(now, progress, saved))]
                         else old(imports)
      ensures key in imports && imports[key].record.Some? && imports[key].record.value.error == Some(ProgressInvalid) ==>
                imports[key].scopeCancelled
    {
      hide Inv, InterruptedOk, ValidLifecycle, Fail, ValidProgress;
      if key !in imports {
        return;
      }
      StepInvariants(imports[key], Step.Report(now, progress, saved));
      var s := imports[key].(clock := now);
      imports := imports[key := s];
      if s.record.None? || !s.record.value.state.Running? {
        return;
      }
      var record := s.record.value;
      var valid := ValidProgress(progress) && progress != COMPLETE;
      if valid {
        if progress.fraction.None? {
          valid := !(s.live.Some? && s.live.value.fraction.Some?);
        } else {
          var previous := if s.live.Some? then s.live.value.fraction else record.progress.fraction;
          valid := !(previous.Some? && progress.fraction.value < previous.value);
        }
      }
      if valid {
        imports := imports[key := s.(live := Some(progress), reported := s.reported + [progress])];
        return;
      }
      var failed := Fail(record, now, ProgressInvalid, CurrentProgress(s, record));
      if failed.Err? {
        return;
      }
      if saved {
        imports := imports[key := s.(record := Some(failed.value), live := None, scopeCancelled := true)];
      } else if s.runner.Executing? {
        imports := imports[key := s.(runner := Failing(ExecutionFailed))];
      }
    }

    /**
     Publishes a finished import. checked says whether the staged files fit the reservation,
     publishes whether putting them in place succeeded.
     */
    method Complete(key: nat, now: int, result: ImportResult, checked: bool, publishes: bool, saved: bool)
      returns (succeeded: bool)
      requires Valid() && key in imports
      requires Enabled(imports[key], Step.Complete(now, result, checked, publishes, saved))
      modifies this
      ensures Valid()
      ensures imports == old(imports)[key :=
                Next(old(imports)[key], Step.Complete(now, result, checked, publishes, saved))]
      ensures succeeded ==> imports[key].record.Some? && imports[key].record.value.state.Succeeded?
      ensures succeeded <==>
                && old(imports)[key].record.Some? && checked && publishes && saved
                && var before := old(imports)[key].record.value;
                   before.state.Running? && before.cancellationRequestedAt.None? && result.kind == before.kind
      ensures old(imports)[key].accepted ==> !succeeded && imports[key].published == old(imports)[key].published
    {
      hide Inv, InterruptedOk, ValidLifecycle;
      var step := Step.Complete(now, result, checked, publishes, saved);
      StepInvariants(imports[key], step);
      PublishesExactly(imports[key], step);
      if Next(imports[key], step).published != imports[key].published {
        PublishesOnlyUncancelled(imports[key], step);
        SavedPublicationSucceeds(imports[key], step);
      }
      var s := imports[key].(clock := now);
      if s.record.None? || !s.record.value.state.Running? {
        imports := imports[key := s.(runner := Gone)];
        return false;
      }
      var record := s.record.value;
      if record.cancellationRequestedAt.Some? {
        imports := imports[key := s.(runner := Interrupted)];
        return false;
      }
      if !checked || result.kind != record.kind || !publishes {
        imports := imports[key := s.(runner := Failing(ExecutionFailed))];
        return false;
      }
      s := s.(published := s.published + 1);
      var ended := Succeed(record, now, result);
      if ended.Err? || !saved {
        imports := imports[key := s.(runner := Failing(ExecutionFailed))];
        return false;
      }
      imports := imports[key := s.(record := Some(ended.value), live := None, runner := Gone)];
      return true;
    }

    /** Ends an interrupted run: cancelled if that was asked for, failed otherwise. */
    method FinishInterruption(key: nat, now: int, saved: bool)
      requires Valid() && key in imports && Enabled(imports[key], Step.FinishInterruption(now, saved))
      modifies this
      ensures Valid()
      ensures imports == old(imports)[key := Next(old(imports)[key], Step.FinishInterruption(now, saved))]
    {
      hide Inv, InterruptedOk, ValidLifecycle, Fail, ConfirmCancelled;
      StepInvariants(imports[key], Step.FinishInterruption(now, saved));
      var s := imports[key].(clock := now, runner := Gone);
      imports := imports[key := s];
      if s.record.None? || !s.record.value.state.Running? {
        return;
      }
      var record := s.record.value;
      var progress := if s.live.Some? then s.live.value else record.progress;
      var ended := if record.cancellationRequestedAt.Some? then ConfirmCancelled(record, now, progress)
                   else Fail(record, now, ImportInterrupted, progress);
      if ended.Ok? && saved {
        imports := imports[key := s.(record := Some(ended.value), live := None)];
      }
    }

    /** Ends a failed run, unless the import has already ended. */
    method FinishFailure(key: nat, now: int, saved: bool)
      requires Valid() && key in imports && Enabled(imports[key], Step.FinishFailure(now, saved))
      modifies this
      ensures Valid()
      ensures imports == old(imports)[key := Next(old(imports)[key], Step.FinishFailure(now, saved))]
    {
      hide Inv, InterruptedOk, ValidLifecycle, Fail;
      StepInvariants(imports[key], Step.FinishFailure(now, saved));
      var failure := imports[key].runner.failure;
      var s := imports[key].(clock := now, runner := Gone);
      imports := imports[key := s];
      if s.record.None? || Terminal(s.record.value.state) {
        return;
      }
      var failed := Fail(s.record.value, now, failure, CurrentProgress(s, s.record.value));
      if failed.Ok? && saved {
        imports := imports[key := s.(record := Some(failed.value), live := None)];
      }
    }

    /** Removes the record of an import that has ended. */
    method Delete(key: nat) returns (deleted: bool)
      requires Valid()
      modifies this
      ensures Valid()
      ensures deleted <==> key in old(imports) && old(imports)[key].record.Some?
                           && Terminal(old(imports)[key].record.value.state)
      ensures imports == if key in old(imports) then old(imports)[key := Next(old(imports)[key], Step.Delete)]
                         else old(imports)
    {
      hide Inv, InterruptedOk, ValidLifecycle;
      if key !in imports || imports[key].record.None? || !Terminal(imports[key].record.value.state) {
        return false;
      }
      StepInvariants(imports[key], Step.Delete);
      imports := imports[key := imports[key].(record := None, live := None)];
      return true;
    }
  }

  /** Where a cancellation can take effect at a time. */
  lemma CancelTransitions(s: State, now: int)
    requires Inv(s) && now >= s.clock && s.record.Some?
    ensures s.record.value.state.Running? ==> !s.runner.Pending?
    ensures s.record.value.state.Queued? ==> CancelQueued(s.record.value, now).Ok?
    ensures s.record.value.state.Running? ==> RequestRunningCancellation(s.record.value, now).Ok?
    ensures s.record.value.state.Running? ==>
              (RequestRunningCancellation(s.record.value, now).value == s.record.value
               <==> s.record.value.cancellationRequestedAt.Some?)
  {
    TransitionsSucceed(s.record.value, now, Progress(None), ExecutionFailed, ImportResult(Sample, 0, 0));
  }

  /** What a caller may rely on right after a step. */
  lemma StepInvariants(s: State, step: Step)
    requires Enabled(s, step) && Inv(s) && InterruptedOk(s)
    ensures var t := Next(s, step);
            && Inv(t) && InterruptedOk(t)
            && (t.accepted && t.record.Some? ==> !t.record.value.state.Succeeded? && t.scopeCancelled)
            && (t.record.Some? && t.record.value.state.Cancelled? ==> t.published == 0)
            && (t.record.Some? && t.record.value.error == Some(ProgressInvalid) ==> t.scopeCancelled)
  {
    StepKeepsInv(s, step);
    StepKeepsInterrupted(s, step);
    hide Next;
  }
}
