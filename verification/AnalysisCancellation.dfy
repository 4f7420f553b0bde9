/** Admission, execution and cancellation of Analyses across three lock owners. */
module AnalysisCancellation {
  import opened Common
  import opened AnalysisScheduling
  import opened AnalysisExecution

  /*
   The owners are the Workspace mutation gate (durable records), the scheduler (who is queued or
   running) and the executor (launch entries). One step is one region under one of these locks;
   regions of different tasks interleave freely, and any number of cancelling tasks may be under way.
   A cancelling task can itself be cancelled before it has delivered its signal. `sent` is the
   history of all signals, by task, and `lost` of those that were lost in this way; `unsettled` is
   the history of the Analyses whose last commit failed.
   */

  /** The durable record; one that was taken out of the Workspace is Removed. */
  datatype Record = Queued | Running(requested: bool) | Succeeded | Failed | Cancelled | Removed

  datatype Outcome = GotResult | WasCancelled | Errored

  /** Where the scheduler and the runner stand with one Analysis. */
  datatype Stage =
    | Unscheduled
    | InQueue
    | Selected
    | Reserved
    | Unadmitted
    | Admitted
    | Executing
    | Ended(outcome: Outcome)
    | RolledBack
    | Settled
    | Gone

  /** A committed cancellation on its way: first to the scheduler, then to the executor. */
  datatype Signal = ToScheduler(key: Key) | ToExecutor(key: Key)

  datatype System = System(
    exec: Exec,
    records: map<Key, Record>,
    stages: map<Key, Stage>,
    signals: map<nat, Signal>,
    sent: map<nat, Key>,
    lost: set<nat>,
    unsettled: set<Key>)

  const INITIAL: System := System(NEW_EXECUTOR, map[], map[], map[], map[], {}, {})

  datatype Action =
    | Submit(key: Key)
    | Enqueue(key: Key)
    | EnqueueFails(key: Key)
    | Select(key: Key)
    | StopTakesAll
    | AdmitReserve(key: Key)
    | AdmitCommit(key: Key)
    | CommitFails(key: Key)
    | AdmitRollBack(key: Key)
    | AdmitRefuse(key: Key)
    | Execute(key: Key, breaks: bool)
    | EndExecution(key: Key, outcome: Outcome)
    | SettleRecord(key: Key, detached: bool, valid: bool)
    | SettlingFails(key: Key)
    | LeaveSlot(key: Key)
    | RequestCancel(key: Key, signal: nat)
    | Detach(key: Key, signal: nat)
    | Remove(key: Key)
    | InvalidProgress(key: Key, signal: nat)
    | DeliverToScheduler(signal: nat)
    | DeliverToExecutor(signal: nat)
    | LoseSignal(signal: nat)
    | InterruptAfterShutdown(key: Key)
    | ExecutorMoves(event: ExecEvent)

  /** Executor activity that belongs to no single region above. */
  predicate Background(e: ExecEvent) {
    e.Close? || e.Terminate? || e.ProcessExit?
  }

  predicate InStage(s: System, key: Key, stage: Stage) {
    key in s.stages && s.stages[key] == stage
  }

  /** What complete_execution, confirm_cancellation and fail_execution commit. */
  function Settle(r: Record, outcome: Outcome, detached: bool, valid: bool): Record {
    match outcome
    case GotResult =>
      if !r.Running? then r
      else if detached && r.requested then Cancelled
      else if valid then Succeeded else Failed
    case WasCancelled => if r == Running(true) then Cancelled else r
    case Errored => if r.Queued? || r.Running? then Failed else r
  }

  predicate Terminal(r: Record) {
    !r.Queued? && !r.Running?
  }

  /** A command can change the record: between reservation and commit the admission holds its gate. */
  predicate Reachable(s: System, key: Key) {
    key in s.records && !InStage(s, key, Reserved)
  }

  /** Commits a record, with a signal that is then to be delivered. */
  function Send(s: System, key: Key, id: nat, record: Record): System {
    s.(records := s.records[key := record], signals := s.signals[id := ToScheduler(key)], sent := s.sent[id := key])
  }

  function Act(s: System, a: Action): System {
    match a
    case Submit(key) =>
      if key in s.records then s
      else s.(records := s.records[key := Queued], stages := s.stages[key := Unscheduled])
    case Enqueue(key) => if InStage(s, key, Unscheduled) then s.(stages := s.stages[key := InQueue]) else s
    case EnqueueFails(key) =>
      if !InStage(s, key, Unscheduled) || key !in s.records then s
      else if s.records[key] == Queued then s.(records := s.records[key := Removed], stages := s.stages[key := Gone])
      else s.(stages := s.stages[key := Gone])
    case Select(key) => if InStage(s, key, InQueue) then s.(stages := s.stages[key := Selected]) else s
    case StopTakesAll => s.(stages := map k | k in s.stages :: if s.stages[k] == InQueue then Gone else s.stages[k])
    case AdmitReserve(key) =>
      if InStage(s, key, Selected) && key in s.records && s.records[key] == Queued && MayReserve(s.exec, key)
      then s.(exec := ExecStep(s.exec, Reserve(key)), stages := s.stages[key := Reserved]) else s
    case AdmitCommit(key) =>
      if InStage(s, key, Reserved)
      then s.(records := s.records[key := Running(false)], stages := s.stages[key := Admitted]) else s
    case CommitFails(key) => if InStage(s, key, Reserved) then s.(stages := s.stages[key := Unadmitted]) else s
    case AdmitRollBack(key) =>
      if InStage(s, key, Reserved) || InStage(s, key, Unadmitted)
      then s.(exec := ExecStep(s.exec, DiscardReservation(key)), stages := s.stages[key := RolledBack]) else s
    case AdmitRefuse(key) =>
      if (InStage(s, key, Selected) || InStage(s, key, RolledBack)) && key in s.records
      then s.(records := s.records[key := Settle(s.records[key], Errored, false, false)],
              stages := s.stages[key := Settled]) else s
    case Execute(key, breaks) =>
      if InStage(s, key, Admitted)
      then s.(exec := ExecStep(s.exec, if breaks then LaunchBreaks(key) else Launch(key)),
              stages := s.stages[key := Executing]) else s
    case EndExecution(key, outcome) =>
      if InStage(s, key, Executing) && MayFinish(s.exec, key)
         && (outcome == WasCancelled ==> key in s.exec.entries && s.exec.entries[key].cancelled)
      then s.(exec := ExecStep(s.exec, Finish(key)), stages := s.stages[key := Ended(outcome)]) else s
    case SettleRecord(key, detached, valid) =>
      if key in s.stages && s.stages[key].Ended? && key in s.records
      then s.(records := s.records[key := Settle(s.records[key], s.stages[key].outcome, detached, valid)],
              stages := s.stages[key := Settled]) else s
    case SettlingFails(key) =>
      if InStage(s, key, Selected) || InStage(s, key, RolledBack) || (key in s.stages && s.stages[key].Ended?)
      then s.(stages := s.stages[key := Settled], unsettled := s.unsettled + {key}) else s
    case LeaveSlot(key) => if InStage(s, key, Settled) then s.(stages := s.stages[key := Gone]) else s
    case RequestCancel(key, id) =>
      if !Reachable(s, key) || id in s.sent then s
      else if s.records[key] == Queued then Send(s, key, id, Cancelled)
      else if s.records[key] == Running(false) then Send(s, key, id, Running(true))
      else s
    case Detach(key, id) =>
      if !Reachable(s, key) || id in s.sent then s
      else if s.records[key] == Queued then Send(s, key, id, Cancelled)
      else if s.records[key].Running? then Send(s, key, id, Running(true))
      else s
    case Remove(key) =>
      if key in s.records && Terminal(s.records[key]) then s.(records := s.records[key := Removed]) else s
    case InvalidProgress(key, id) =>
      if InStage(s, key, Executing) && id !in s.sent && key in s.records && s.records[key].Running?
      then Send(s, key, id, Failed) else s
    case DeliverToScheduler(id) =>
      if id !in s.signals || s.signals[id].ToExecutor? then s
      else
        var key := s.signals[id].key;
        if InStage(s, key, InQueue) then s.(stages := s.stages[key := Gone], signals := s.signals - {id})
        else if InStage(s, key, Gone) || InStage(s, key, Unscheduled) then s.(signals := s.signals - {id})
        else s.(signals := s.signals[id := ToExecutor(key)])
    case DeliverToExecutor(id) =>
      if id !in s.signals || s.signals[id].ToScheduler? then s
      else s.(exec := ExecStep(s.exec, CancelLaunch(s.signals[id].key)), signals := s.signals - {id})
    case LoseSignal(id) =>
      if id in s.signals then s.(signals := s.signals - {id}, lost := s.lost + {id}) else s
    case InterruptAfterShutdown(key) =>
      if InStage(s, key, Gone) && key in s.records && (s.records[key].Queued? || s.records[key].Running?)
      then s.(records := s.records[key := if s.records[key] == Running(true) then Cancelled else Failed]) else s
    case ExecutorMoves(event) => if Background(event) then s.(exec := ExecStep(s.exec, event)) else s
  }

  function ActAll(s: System, actions: seq<Action>): System
    decreases |actions|
  {
    if actions == [] then s else ActAll(Act(s, actions[0]), actions[1..])
  }

  // ---------------------------------------------------------------- the invariant

  /** A signal for key is on its way. */
  ghost predicate Signalled(s: System, key: Key) {
    exists id :: id in s.signals && s.signals[id].key == key
  }

  ghost predicate SentFor(s: System, key: Key) {
    exists id :: id in s.sent && s.sent[id] == key
  }

  ghost predicate Arrived(s: System, key: Key) {
    exists id :: id in s.sent && s.sent[id] == key && id !in s.signals && id !in s.lost
  }

  /** The executor may still start or run a process for this stage. */
  predicate Launching(stage: Stage) {
    stage == Admitted || stage == Executing
  }

  /** There is a launch entry in this stage. */
  predicate Holding(stage: Stage) {
    stage == Reserved || stage == Unadmitted || Launching(stage)
  }

  predicate BeforeStart(stage: Stage) {
    stage in {Unscheduled, InQueue, Selected, Reserved, Unadmitted, RolledBack}
  }

  ghost predicate KeyInv(exec: Exec, record: Record, stage: Stage, sent: bool, arrived: bool, key: Key) {
    && (key in exec.entries <==> Holding(stage))
    && (key in exec.frames <==> stage == Executing)
    && (stage == Reserved ==> record == Queued)
    && (record == Queued ==> !sent && (BeforeStart(stage) || stage == Settled || stage == Gone))
    && (record.Running? ==> !BeforeStart(stage) && (sent <==> record.requested))
    && (record == Cancelled ==> !Launching(stage))
    && (stage == Admitted ==> record.Running?)
    && (Holding(stage) && stage != Executing ==> exec.entries[key].process == None)
    && (Holding(stage) ==> (exec.entries[key].cancelled <==> arrived || exec.closed))
  }

  ghost predicate KeyHolds(s: System, k: Key) {
    && k in s.records && k in s.stages
    && KeyInv(s.exec, s.records[k], s.stages[k], SentFor(s, k), Arrived(s, k), k)
  }

  ghost predicate Domains(s: System) {
    && s.records.Keys == s.stages.Keys
    && s.exec.entries.Keys <= s.stages.Keys
    && s.exec.frames.Keys <= s.stages.Keys
  }

  /** Signals are on their way, lost or have arrived. */
  ghost predicate SignalsOk(s: System) {
    && (forall id :: id in s.signals ==> id in s.sent && s.sent[id] == s.signals[id].key && id !in s.lost)
    && (forall id :: id in s.lost ==> id in s.sent)
    && (forall id :: id in s.sent ==> s.sent[id] in s.records)
  }

  ghost predicate SystemInv(s: System) {
    ExecInv(s.exec) && Domains(s) && SignalsOk(s) && forall k :: k in s.records ==> KeyHolds(s, k)
  }

  predicate MovesExecutor(a: Action) {
    a.AdmitReserve? || a.AdmitRollBack? || a.Execute? || a.EndExecution? || a.ExecutorMoves?
  }

  lemma ExecutorOnlyMoves(s: System, a: Action)
    requires !MovesExecutor(a) && !a.DeliverToExecutor?
    ensures Act(s, a).exec == s.exec
  {
    hide Settle, ExecStep;
  }

  lemma StepKeepsExec(s: System, a: Action)
    requires ExecInv(s.exec)
    ensures ExecInv(Act(s, a).exec)
  {
    hide ExecStep, ExecInv, Settle, Launches, MayReserve, MayFinish;
    match a
    case AdmitReserve(key) => ExecStepKeepsInv(s.exec, Reserve(key));
    case AdmitRollBack(key) => ExecStepKeepsInv(s.exec, DiscardReservation(key));
    case Execute(key, breaks) => ExecStepKeepsInv(s.exec, if breaks then LaunchBreaks(key) else Launch(key));
    case EndExecution(key, _) => ExecStepKeepsInv(s.exec, Finish(key));
    case DeliverToExecutor(id) =>
      if id in s.signals { ExecStepKeepsInv(s.exec, CancelLaunch(s.signals[id].key)); }
    case ExecutorMoves(event) => ExecStepKeepsInv(s.exec, event);
    case _ =>
      ExecutorOnlyMoves(s, a);
      hide Act;
  }

  /** Sending makes a new signal, which has not arrived yet. */
  lemma SendHistory(s: System, key: Key, id: nat, record: Record, k: Key)
    requires SignalsOk(s) && id !in s.sent
    ensures SentFor(Send(s, key, id, record), k) <==> SentFor(s, k) || k == key
    ensures Arrived(Send(s, key, id, record), k) <==> Arrived(s, k)
  {
    var t := Send(s, key, id, record);
    assert t.sent[id] == key;
    if SentFor(s, k) {
      var i :| i in s.sent && s.sent[i] == k;
      assert i in t.sent && t.sent[i] == k;
    }
    if Arrived(s, k) {
      var i :| i in s.sent && s.sent[i] == k && i !in s.signals && i !in s.lost;
      assert i in t.sent && t.sent[i] == k && i !in t.signals;
    }
  }

  /** A signal that is taken off without being lost has arrived. */
  lemma DeliverHistory(s: System, id: nat, k: Key)
    requires SignalsOk(s) && id in s.signals
    ensures Arrived(s.(signals := s.signals - {id}), k) <==> Arrived(s, k) || k == s.signals[id].key
  {
    var t := s.(signals := s.signals - {id});
    assert id in t.sent && id !in t.signals && id !in t.lost;
    if Arrived(s, k) {
      var i :| i in s.sent && s.sent[i] == k && i !in s.signals && i !in s.lost;
      assert i in t.sent && i !in t.signals;
    }
  }

  /** Nothing else changes what was sent and what has arrived. */
  lemma SameHistory(s: System, t: System, k: Key)
    requires t.sent == s.sent
    requires forall id :: id in s.sent ==> (id in t.signals || id in t.lost <==> id in s.signals || id in s.lost)
    ensures SentFor(t, k) == SentFor(s, k) && Arrived(t, k) == Arrived(s, k)
    ensures Arrived(s, k) ==> SentFor(s, k)
  {
    if Arrived(s, k) {
      var i :| i in s.sent && s.sent[i] == k && i !in s.signals && i !in s.lost;
      assert i in t.sent && t.sent[i] == k && i !in t.signals && i !in t.lost;
    }
    assert Arrived(s, k) ==> SentFor(s, k);
  }

  predicate Sends(a: Action) {
    a.RequestCancel? || a.Detach? || a.InvalidProgress?
  }

  predicate Delivers(a: Action) {
    a.DeliverToScheduler? || a.DeliverToExecutor?
  }

  /** A sent signal comes with a record that is no longer waiting for one. */
  lemma SendKeepsKey(s: System, key: Key, id: nat, record: Record, k: Key)
    requires KeyHolds(s, k) && SignalsOk(s) && id !in s.sent && key in s.records && Reachable(s, key)
    requires record == Running(true) || record == Cancelled || record == Failed
    requires k == key ==>
               && (record == Running(true) ==> s.records[k].Running?)
               && (record == Cancelled ==> s.records[k] == Queued)
               && (record == Failed ==> s.stages[k] == Executing)
    ensures KeyHolds(Send(s, key, id, record), k)
  {
    SendHistory(s, key, id, record, k);
    hide SentFor, Arrived, SignalsOk;
  }

  lemma SendStepKeepsKey(s: System, a: Action, k: Key)
    requires KeyHolds(s, k) && SignalsOk(s) && Sends(a)
    ensures KeyHolds(Act(s, a), k)
  {
    if a.signal !in s.sent && a.key in s.records && Reachable(s, a.key) && Act(s, a) != s {
      SendKeepsKey(s, a.key, a.signal, Act(s, a).records[a.key], k);
    }
    hide KeyHolds, SignalsOk;
  }

  /** The scheduler drops a signal for what it does not run: there is no launch entry then. */
  lemma DropKeepsKey(s: System, id: nat, stage: Stage, k: Key)
    requires KeyHolds(s, k) && SignalsOk(s) && id in s.signals && s.signals[id].key in s.stages
    requires s.stages[s.signals[id].key] in {InQueue, Gone, Unscheduled}
    requires stage == s.stages[s.signals[id].key] || stage == Gone
    ensures KeyHolds(s.(stages := s.stages[s.signals[id].key := stage], signals := s.signals - {id}), k)
  {
    DeliverHistory(s, id, k);
    SameHistory(s.(signals := s.signals - {id}),
                s.(stages := s.stages[s.signals[id].key := stage], signals := s.signals - {id}), k);
    QueuedUnsent(s, id, k);
    hide SentFor, Arrived, SignalsOk;
  }

  lemma QueuedUnsent(s: System, id: nat, k: Key)
    requires SignalsOk(s) && id in s.signals
    ensures s.signals[id].key == k ==> SentFor(s, k)
  {
    assert id in s.sent;
  }

  lemma PassKeepsKey(s: System, id: nat, k: Key)
    requires KeyHolds(s, k) && id in s.signals
    ensures KeyHolds(s.(signals := s.signals[id := ToExecutor(s.signals[id].key)]), k)
  {
    SameHistory(s, s.(signals := s.signals[id := ToExecutor(s.signals[id].key)]), k);
    hide SentFor, Arrived;
  }

  lemma ToSchedulerKeepsKey(s: System, id: nat, k: Key)
    requires KeyHolds(s, k) && SignalsOk(s)
    ensures KeyHolds(Act(s, DeliverToScheduler(id)), k)
  {
    if id in s.signals && s.signals[id].ToScheduler? {
      var key := s.signals[id].key;
      if InStage(s, key, InQueue) {
        DropKeepsKey(s, id, Gone, k);
      } else if InStage(s, key, Gone) || InStage(s, key, Unscheduled) {
        DropKeepsKey(s, id, s.stages[key], k);
        assert s.stages[key := s.stages[key]] == s.stages;
      } else {
        PassKeepsKey(s, id, k);
      }
    }
    hide KeyHolds, SignalsOk;
  }

  lemma ToExecutorKeepsKey(s: System, id: nat, k: Key)
    requires KeyHolds(s, k) && SignalsOk(s)
    ensures KeyHolds(Act(s, DeliverToExecutor(id)), k)
  {
    var t := Act(s, DeliverToExecutor(id));
    if id in s.signals && s.signals[id].ToExecutor? {
      DeliverHistory(s, id, k);
      SameHistory(s.(signals := s.signals - {id}), t, k);
      assert SentFor(t, k) == SentFor(s, k);
    }
    hide SentFor, Arrived, SignalsOk;
  }

  lemma SignalStepKeepsKey(s: System, a: Action, k: Key)
    requires KeyHolds(s, k) && SignalsOk(s) && (Sends(a) || Delivers(a))
    ensures KeyHolds(Act(s, a), k)
  {
    hide KeyHolds, Act, SignalsOk;
    match a
    case DeliverToScheduler(id) => ToSchedulerKeepsKey(s, id, k);
    case DeliverToExecutor(id) => ToExecutorKeepsKey(s, id, k);
    case _ => SendStepKeepsKey(s, a, k);
  }

  /** An executor event together with the stage it leads to. */
  function Moved(s: System, key: Key, e: ExecEvent, stage: Stage): System {
    s.(exec := ExecStep(s.exec, e), stages := s.stages[key := stage])
  }

  lemma ReserveKeepsKey(s: System, key: Key, k: Key)
    requires KeyHolds(s, k) && InStage(s, key, Selected) && MayReserve(s.exec, key)
    requires key in s.records && s.records[key] == Queued
    ensures KeyHolds(Moved(s, key, Reserve(key), Reserved), k)
  {
    SameHistory(s, Moved(s, key, Reserve(key), Reserved), k);
    hide SentFor, Arrived;
  }

  lemma RollBackKeepsKey(s: System, key: Key, k: Key)
    requires KeyHolds(s, k) && (InStage(s, key, Reserved) || InStage(s, key, Unadmitted))
    ensures KeyHolds(Moved(s, key, DiscardReservation(key), RolledBack), k)
  {
    SameHistory(s, Moved(s, key, DiscardReservation(key), RolledBack), k);
    hide SentFor, Arrived;
  }

  lemma LaunchKeepsKey(s: System, key: Key, e: ExecEvent, k: Key)
    requires KeyHolds(s, k) && InStage(s, key, Admitted) && (e == Launch(key) || e == LaunchBreaks(key))
    ensures KeyHolds(Moved(s, key, e, Executing), k)
  {
    SameHistory(s, Moved(s, key, e, Executing), k);
    hide SentFor, Arrived;
  }

  lemma FinishKeepsKey(s: System, key: Key, outcome: Outcome, k: Key)
    requires KeyHolds(s, k) && InStage(s, key, Executing) && MayFinish(s.exec, key)
    ensures KeyHolds(Moved(s, key, Finish(key), Ended(outcome)), k)
  {
    SameHistory(s, Moved(s, key, Finish(key), Ended(outcome)), k);
    hide SentFor, Arrived;
  }

  lemma BackgroundKeepsKey(s: System, e: ExecEvent, k: Key)
    requires KeyHolds(s, k) && Background(e)
    ensures KeyHolds(s.(exec := ExecStep(s.exec, e)), k)
  {
    SameHistory(s, s.(exec := ExecStep(s.exec, e)), k);
    hide SentFor, Arrived;
  }

  lemma ExecutorStepKeepsKey(s: System, a: Action, k: Key)
    requires KeyHolds(s, k) && MovesExecutor(a)
    ensures KeyHolds(Act(s, a), k)
  {
    hide KeyHolds, ExecStep, Settle;
    if Act(s, a) != s {
      match a
      case AdmitReserve(key) => ReserveKeepsKey(s, key, k);
      case AdmitRollBack(key) => RollBackKeepsKey(s, key, k);
      case Execute(key, breaks) => LaunchKeepsKey(s, key, if breaks then LaunchBreaks(key) else Launch(key), k);
      case EndExecution(key, outcome) => FinishKeepsKey(s, key, outcome, k);
      case ExecutorMoves(e) => BackgroundKeepsKey(s, e, k);
    }
  }

  /** The steps of the submitter. */
  predicate Submits(a: Action) {
    a.Submit? || a.Enqueue? || a.EnqueueFails?
  }

  lemma SubmitStepKeepsKey(s: System, a: Action, k: Key)
    requires KeyHolds(s, k) && Submits(a)
    ensures KeyHolds(Act(s, a), k)
  {
    hide SentFor, Arrived;
    SameHistory(s, Act(s, a), k);
  }

  /** The steps of the scheduler and its runner that leave executor and records alone. */
  predicate Schedules(a: Action) {
    a.Select? || a.StopTakesAll? || a.CommitFails? || a.SettlingFails? || a.LeaveSlot?
  }

  lemma ScheduleStepKeepsKey(s: System, a: Action, k: Key)
    requires KeyHolds(s, k) && Schedules(a)
    ensures KeyHolds(Act(s, a), k)
  {
    hide SentFor, Arrived;
    SameHistory(s, Act(s, a), k);
  }

  /** What the runner, or the shutdown after it, writes into a record. */
  predicate Concludes(a: Action) {
    a.AdmitRefuse? || a.SettleRecord? || a.InterruptAfterShutdown?
  }

  lemma ConclusionKeepsKey(s: System, a: Action, k: Key)
    requires KeyHolds(s, k) && Concludes(a)
    ensures KeyHolds(Act(s, a), k)
  {
    hide SentFor, Arrived;
    SameHistory(s, Act(s, a), k);
  }

  lemma RecordStepKeepsKey(s: System, a: Action, k: Key)
    requires KeyHolds(s, k) && SignalsOk(s) && (a.AdmitCommit? || a.Remove? || a.LoseSignal?)
    ensures KeyHolds(Act(s, a), k)
  {
    hide SentFor, Arrived;
    SameHistory(s, Act(s, a), k);
    hide SignalsOk;
  }

  /** Only a submission brings a new record. */
  lemma NewRecordIsSubmitted(s: System, a: Action, k: Key)
    requires Domains(s) && k !in s.records && k in Act(s, a).records
    ensures a == Submit(k)
  {
    hide ExecStep, Settle;
  }

  lemma NewRecordHolds(s: System, k: Key)
    requires Domains(s) && SignalsOk(s) && k !in s.records
    ensures KeyHolds(Act(s, Submit(k)), k)
  {
    SameHistory(s, Act(s, Submit(k)), k);
    assert !SentFor(s, k);
    hide SentFor, Arrived, SignalsOk;
  }

  lemma ActKeepsKeys(s: System, a: Action)
    requires SystemInv(s)
    ensures forall k :: k in Act(s, a).records ==> KeyHolds(Act(s, a), k)
  {
    hide Act, KeyHolds, ExecInv, Domains, SignalsOk;
    forall k | k in Act(s, a).records ensures KeyHolds(Act(s, a), k) {
      if k !in s.records {
        NewRecordIsSubmitted(s, a, k);
        NewRecordHolds(s, k);
      } else if Sends(a) || Delivers(a) {
        SignalStepKeepsKey(s, a, k);
      } else if MovesExecutor(a) {
        ExecutorStepKeepsKey(s, a, k);
      } else if Submits(a) {
        SubmitStepKeepsKey(s, a, k);
      } else if Schedules(a) {
        ScheduleStepKeepsKey(s, a, k);
      } else if Concludes(a) {
        ConclusionKeepsKey(s, a, k);
      } else {
        RecordStepKeepsKey(s, a, k);
      }
    }
  }

  lemma ExecKeepsKeys(x: Exec, e: ExecEvent)
    ensures ExecStep(x, e).entries.Keys <= x.entries.Keys + if e.Reserve? then {e.key} else {}
    ensures ExecStep(x, e).frames.Keys <= x.frames.Keys + if e.Launch? || e.LaunchBreaks? then {e.key} else {}
  {
  }

  /** An event for one Analysis, together with the stage it leads to. */
  lemma MovedKeepsDomains(s: System, key: Key, e: ExecEvent, stage: Stage)
    requires Domains(s) && key in s.stages
    requires e.Reserve? || e.Launch? || e.LaunchBreaks? ==> e.key == key
    ensures Domains(Moved(s, key, e, stage))
  {
    ExecKeepsKeys(s.exec, e);
    hide ExecStep;
  }

  lemma ExecutorKeepsDomains(s: System, a: Action)
    requires Domains(s) && (MovesExecutor(a) || a.DeliverToExecutor?)
    ensures Domains(Act(s, a))
  {
    hide ExecStep, Settle, Domains, MayReserve, MayFinish;
    if Act(s, a) != s {
      match a
      case AdmitReserve(key) => MovedKeepsDomains(s, key, Reserve(key), Reserved);
      case AdmitRollBack(key) => MovedKeepsDomains(s, key, DiscardReservation(key), RolledBack);
      case Execute(key, breaks) =>
        MovedKeepsDomains(s, key, if breaks then LaunchBreaks(key) else Launch(key), Executing);
      case EndExecution(key, outcome) => MovedKeepsDomains(s, key, Finish(key), Ended(outcome));
      case DeliverToExecutor(id) => EventKeepsDomains(s, CancelLaunch(s.signals[id].key), s.signals - {id});
      case ExecutorMoves(event) => EventKeepsDomains(s, event, s.signals);
    }
  }

  lemma EventKeepsDomains(s: System, e: ExecEvent, signals: map<nat, Signal>)
    requires Domains(s) && !e.Reserve? && !e.Launch? && !e.LaunchBreaks?
    ensures Domains(s.(exec := ExecStep(s.exec, e), signals := signals))
  {
    ExecKeepsKeys(s.exec, e);
    hide ExecStep;
  }

  lemma StagesKeepDomains(s: System, a: Action)
    requires Domains(s) && (Submits(a) || Schedules(a))
    ensures Domains(Act(s, a))
  {
  }

  lemma RecordsKeepDomains(s: System, a: Action)
    requires Domains(s) && !MovesExecutor(a) && !a.DeliverToExecutor? && !Submits(a) && !Schedules(a)
    ensures Domains(Act(s, a))
  {
    ExecutorOnlyMoves(s, a);
    hide ExecStep, Settle, MayReserve, MayFinish, Terminal, Background;
  }

  lemma ActKeepsDomains(s: System, a: Action)
    requires Domains(s)
    ensures Domains(Act(s, a))
  {
    hide Act, Domains;
    if MovesExecutor(a) || a.DeliverToExecutor? {
      ExecutorKeepsDomains(s, a);
    } else if Submits(a) || Schedules(a) {
      StagesKeepDomains(s, a);
    } else {
      RecordsKeepDomains(s, a);
    }
  }

  lemma SendKeepsSignals(s: System, a: Action)
    requires SignalsOk(s) && Sends(a)
    ensures SignalsOk(Act(s, a))
  {
    hide ExecStep;
  }

  lemma DeliveryKeepsSignals(s: System, a: Action)
    requires SignalsOk(s) && (Delivers(a) || a.LoseSignal?)
    ensures SignalsOk(Act(s, a))
  {
    hide ExecStep;
  }

  lemma ActKeepsSignals(s: System, a: Action)
    requires SignalsOk(s)
    ensures SignalsOk(Act(s, a))
  {
    hide ExecStep, Settle, MayReserve, MayFinish;
    if Sends(a) {
      SendKeepsSignals(s, a);
      hide Act, SignalsOk;
    } else if Delivers(a) || a.LoseSignal? {
      DeliveryKeepsSignals(s, a);
      hide Act, SignalsOk;
    }
  }

  lemma ActKeepsInv(s: System, a: Action)
    requires SystemInv(s)
    ensures SystemInv(Act(s, a))
  {
    StepKeepsExec(s, a);
    ActKeepsDomains(s, a);
    ActKeepsSignals(s, a);
    ActKeepsKeys(s, a);
    hide Act, KeyInv;
  }

  lemma {:induction false} RunKeepsSystemInv(s: System, actions: seq<Action>)
    requires SystemInv(s)
    ensures SystemInv(ActAll(s, actions))
    decreases |actions|
  {
    if actions != [] {
      ActKeepsInv(s, actions[0]);
      RunKeepsSystemInv(Act(s, actions[0]), actions[1..]);
    }
  }

  lemma ReachableIsSound(actions: seq<Action>)
    ensures SystemInv(ActAll(INITIAL, actions))
  {
    assert SystemInv(INITIAL);
    hide SystemInv, ActAll;
    RunKeepsSystemInv(INITIAL, actions);
  }

  // ---------------------------------------------------------------- what cancellation guarantees

  /** key owns a process that has not ended. */
  ghost predicate ProcessRuns(s: System, key: Key) {
    key in s.exec.frames && s.exec.frames[key].Some? && s.exec.frames[key].value in s.exec.alive
  }

  /** The launch entry is flagged and its process doomed, or the execution has ended. */
  ghost predicate Reached(s: System, key: Key) {
    || (key in s.exec.entries && s.exec.entries[key].cancelled && !Launches(s.exec, key)
        && (ProcessRuns(s, key) ==> s.exec.frames[key].value in s.exec.doomed))
    || (key !in s.exec.entries && !ProcessRuns(s, key) && key in s.stages && !Launching(s.stages[key]))
  }

  /** Every signal that was sent for key was lost on its way. */
  ghost predicate AllLost(s: System, key: Key) {
    forall id :: id in s.sent && s.sent[id] == key ==> id in s.lost
  }

  /**
   When a committed cancellation reaches execution. In every run, once no signal for a RUNNING
   Analysis with a committed cancellation is still on its way, its launch entry is flagged (so
   nothing starts any more and a running process is doomed) or its execution has ended, if and only
   if some signal was not lost, or the executor was closed, or the execution is over anyway.
   */
  lemma CancelReachesExecution(actions: seq<Action>, key: Key)
    ensures var s := ActAll(INITIAL, actions);
            key in s.records && s.records[key] == Running(true) && !Signalled(s, key) ==>
              && SentFor(s, key) && key in s.stages
              && (Reached(s, key) <==> !AllLost(s, key) || s.exec.closed || !Launching(s.stages[key]))
  {
    ReachableIsSound(actions);
    var s := ActAll(INITIAL, actions);
    if key in s.records && s.records[key] == Running(true) && !Signalled(s, key) {
      assert KeyHolds(s, key);
      assert Arrived(s, key) <==> !AllLost(s, key);
    }
    hide ActAll, SentFor, Arrived, AllLost, Signalled;
  }

  lemma {:induction false} ActAllConcat(s: System, a: seq<Action>, b: seq<Action>)
    ensures ActAll(s, a + b) == ActAll(ActAll(s, a), b)
    decreases |a|
  {
    if a == [] {
      assert a + b == b;
    } else {
      assert (a + b)[1..] == a[1..] + b;
      ActAllConcat(Act(s, a[0]), a[1..], b);
    }
  }

  /** Two steps, from states that are spelled out. */
  lemma TwoSteps(s: System, a: Action, b: Action)
    ensures ActAll(s, [a, b]) == Act(Act(s, a), b)
  {
    assert [a, b][1..] == [b] && [b][1..] == [];
    assert ActAll(s, [a, b]) == ActAll(Act(s, a), [b]) == ActAll(Act(Act(s, a), b), []);
  }

  function Enqueued(key: Key): System {
    INITIAL.(records := map[key := Queued], stages := map[key := InQueue])
  }

  function Reserving(key: Key): System {
    Enqueued(key).(stages := map[key := Reserved], exec := NEW_EXECUTOR.(entries := map[key := Entry(None, false)]))
  }

  /** key runs, with its process and its entry, and nobody has asked to cancel it. */
  function RunningAlone(key: Key): System {
    System(Exec(map[key := Entry(Some(0), false)], false, map[key := Some(0)], {0}, {}, 1),
           map[key := Running(false)], map[key := Executing], map[], map[], {}, {})
  }

  lemma ReachesEnqueued(key: Key)
    ensures ActAll(INITIAL, [Submit(key), Action.Enqueue(key)]) == Enqueued(key)
  {
    TwoSteps(INITIAL, Submit(key), Action.Enqueue(key));
  }

  lemma ReachesReserving(key: Key)
    ensures ActAll(Enqueued(key), [Action.Select(key), AdmitReserve(key)]) == Reserving(key)
  {
    TwoSteps(Enqueued(key), Action.Select(key), AdmitReserve(key));
  }

  lemma ReachesRunning(key: Key)
    ensures ActAll(Reserving(key), [AdmitCommit(key), Execute(key, false)]) == RunningAlone(key)
  {
    TwoSteps(Reserving(key), AdmitCommit(key), Execute(key, false));
  }

  /** The same after a cancellation whose signal was lost. */
  function RunningForgotten(key: Key): System {
    RunningAlone(key).(records := map[key := Running(true)], sent := map[0 := key], lost := {0})
  }

  lemma ReachesForgotten(key: Key)
    ensures ActAll(RunningAlone(key), [RequestCancel(key, 0), LoseSignal(0)]) == RunningForgotten(key)
  {
    TwoSteps(RunningAlone(key), RequestCancel(key, 0), LoseSignal(0));
  }

  ghost predicate Forgotten(s: System, key: Key) {
    && key in s.records && s.records[key] == Running(true)
    && !Signalled(s, key) && !Reached(s, key) && ProcessRuns(s, key)
    && forall id :: Act(s, RequestCancel(key, id)) == s
  }

  lemma IsForgotten(key: Key)
    ensures Forgotten(RunningForgotten(key), key)
  {
  }

  /**
   A request does not send a lost signal again. The Analysis stays RUNNING with a committed cancellation and a
   process nobody terminates, and asking once more changes nothing.
   */
  lemma LostSignalIsNotResent(key: Key)
    ensures exists actions :: Forgotten(ActAll(INITIAL, actions), key)
  {
    var a, b := [Submit(key), Action.Enqueue(key)], [Action.Select(key), AdmitReserve(key)];
    var c, d := [AdmitCommit(key), Execute(key, false)], [RequestCancel(key, 0), LoseSignal(0)];
    ReachesEnqueued(key);
    ReachesReserving(key);
    ReachesRunning(key);
    ReachesForgotten(key);
    IsForgotten(key);
    ActAllConcat(INITIAL, a, b);
    ActAllConcat(INITIAL, a + b, c);
    ActAllConcat(INITIAL, a + b + c, d);
    hide ActAll, Forgotten, RunningForgotten, RunningAlone, Reserving, Enqueued;
    assert ActAll(INITIAL, a + b + c + d) == RunningForgotten(key);
  }

  lemma TerminalStep(s: System, a: Action, key: Key)
    requires key in s.records && Terminal(s.records[key]) && !InStage(s, key, Reserved)
    ensures var t := Act(s, a); key in t.records && (t.records[key] == s.records[key] || t.records[key] == Removed)
  {
    hide ExecStep, MayReserve, MayFinish;
  }

  /** Terminal records never change until they are removed, and then never come back. */
  lemma {:induction false} TerminalIsFinal(s: System, actions: seq<Action>, key: Key)
    requires SystemInv(s) && key in s.records && Terminal(s.records[key])
    ensures var t := ActAll(s, actions);
            key in t.records && (t.records[key] == s.records[key] || t.records[key] == Removed)
    decreases |actions|
  {
    if actions != [] {
      assert KeyHolds(s, key);
      TerminalStep(s, actions[0], key);
      ActKeepsInv(s, actions[0]);
      TerminalIsFinal(Act(s, actions[0]), actions[1..], key);
    }
  }

  /** The record has ended, and so has every execution. */
  ghost predicate Halted(s: System, key: Key) {
    key in s.records && key in s.stages && Terminal(s.records[key]) && !Launching(s.stages[key])
  }

  lemma StepKeepsHalted(s: System, a: Action, key: Key)
    requires Halted(s, key) && !InStage(s, key, Reserved) && !InStage(s, key, Admitted)
    ensures Halted(Act(s, a), key)
  {
    hide ExecStep, MayReserve, MayFinish;
  }

  lemma {:induction false} RunKeepsHalted(s: System, actions: seq<Action>, key: Key)
    requires SystemInv(s) && Halted(s, key)
    ensures Halted(ActAll(s, actions), key)
    decreases |actions|
  {
    if actions != [] {
      assert KeyHolds(s, key);
      StepKeepsHalted(s, actions[0], key);
      ActKeepsInv(s, actions[0]);
      RunKeepsHalted(Act(s, actions[0]), actions[1..], key);
    }
  }

  /** The runner is about to execute, and the launch region would start a process. */
  predicate CanStart(s: System, key: Key) {
    InStage(s, key, Admitted) && Launches(s.exec, key)
  }

  /**
   Once CANCELLED is committed, no process of that Analysis runs, then or ever after, and its runner
   never comes to start one.
   */
  lemma CancelledHasNoProcess(before: seq<Action>, after: seq<Action>, key: Key)
    requires var s := ActAll(INITIAL, before); key in s.records && s.records[key] == Cancelled
    ensures var s := ActAll(ActAll(INITIAL, before), after);
            !ProcessRuns(s, key) && !CanStart(s, key)
  {
    var s := ActAll(INITIAL, before);
    ReachableIsSound(before);
    assert KeyHolds(s, key);
    RunKeepsHalted(s, after, key);
    RunKeepsSystemInv(s, after);
    assert KeyHolds(ActAll(s, after), key);
  }

  lemma ExecutingLaunches(s: System, key: Key)
    requires InStage(s, key, Admitted)
    ensures Act(s, Execute(key, false)) == Moved(s, key, Launch(key), Executing)
  {
    hide ExecStep;
  }

  /** A process starts only for a RUNNING Analysis, and only while its entry is not cancelled. */
  lemma StartsOnlyWhileRunning(actions: seq<Action>, key: Key)
    ensures var s := ActAll(INITIAL, actions);
            InStage(s, key, Admitted) && ProcessRuns(Act(s, Execute(key, false)), key) ==>
              key in s.records && s.records[key].Running? && Launches(s.exec, key)
  {
    var s := ActAll(INITIAL, actions);
    ReachableIsSound(actions);
    if InStage(s, key, Admitted) {
      assert KeyHolds(s, key);
      ExecutingLaunches(s, key);
    }
    hide ActAll, SystemInv, SentFor, Arrived, Act;
  }

  /**
   When an admitted Analysis starts. In every run its runner's launch gets a process running exactly
   if no signal for it has arrived and the executor has not been closed; a launch that breaks never does.
   */
  lemma StartsExactlyUncancelled(actions: seq<Action>, key: Key)
    requires InStage(ActAll(INITIAL, actions), key, Admitted)
    ensures var s := ActAll(INITIAL, actions);
            && (ProcessRuns(Act(s, Execute(key, false)), key) <==> !Arrived(s, key) && !s.exec.closed)
            && !ProcessRuns(Act(s, Execute(key, true)), key)
  {
    var s := ActAll(INITIAL, actions);
    ReachableIsSound(actions);
    assert KeyHolds(s, key);
    ExecutingLaunches(s, key);
    ExecutingBreaks(s, key);
    LaunchRuns(s.exec, key);
    hide ActAll, SentFor, Arrived, Act, SystemInv, ExecStep;
  }

  lemma ExecutingBreaks(s: System, key: Key)
    requires InStage(s, key, Admitted) && key !in s.exec.frames
    ensures !ProcessRuns(Act(s, Execute(key, true)), key)
  {
  }

  lemma LaunchRuns(x: Exec, key: Key)
    requires key in x.entries && x.entries[key].process.None? && key !in x.frames
    ensures var t := ExecStep(x, Launch(key));
            key in t.frames && (t.frames[key].Some? && t.frames[key].value in t.alive
                                <==> !x.closed && !x.entries[key].cancelled)
  {
  }

  // ---------------------------------------------------------------- who writes what

  /** The record of one key after a step that concerns it. */
  function RecordAfter(s: System, a: Action, key: Key): Record
    requires key in s.records && key in s.stages
  {
    var r, stage := s.records[key], s.stages[key];
    match a
    case EnqueueFails(_) => if stage == Unscheduled && r == Queued then Removed else r
    case AdmitCommit(_) => if stage == Reserved then Running(false) else r
    case AdmitRefuse(_) =>
      if stage == Selected || stage == RolledBack then Settle(r, Errored, false, false) else r
    case SettleRecord(_, detached, valid) => if stage.Ended? then Settle(r, stage.outcome, detached, valid) else r
    case RequestCancel(_, id) =>
      if stage == Reserved || id in s.sent then r
      else if r == Queued then Cancelled else if r == Running(false) then Running(true) else r
    case Detach(_, id) =>
      if stage == Reserved || id in s.sent then r
      else if r == Queued then Cancelled else if r.Running? then Running(true) else r
    case Remove(_) => if Terminal(r) then Removed else r
    case InvalidProgress(_, id) => if stage == Executing && id !in s.sent && r.Running? then Failed else r
    case InterruptAfterShutdown(_) =>
      if stage == Gone && (r.Queued? || r.Running?) then if r == Running(true) then Cancelled else Failed else r
    case _ => r
  }

  predicate Concerns(a: Action, key: Key) {
    match a
    case StopTakesAll => false
    case DeliverToScheduler(_) => false
    case DeliverToExecutor(_) => false
    case LoseSignal(_) => false
    case ExecutorMoves(_) => false
    case _ => a.key == key
  }

  lemma ActMovesRecord(s: System, a: Action, key: Key)
    requires KeyHolds(s, key)
    ensures key in Act(s, a).records
    ensures Act(s, a).records[key] == if Concerns(a, key) then RecordAfter(s, a, key) else s.records[key]
  {
    hide ExecStep, SentFor, Arrived, MayReserve, MayFinish, Settle, KeyInv, Terminal;
  }

  /** The step moves the record of key to a new value. */
  predicate Writes(s: System, a: Action, key: Key, record: Record) {
    && key in s.records && key in Act(s, a).records
    && Act(s, a).records[key] == record && s.records[key] != record
  }

  /** A command asks for the end of key: a request or the detaching of its Tab, under an identity not used before. */
  predicate Asks(s: System, a: Action, key: Key) {
    (a.RequestCancel? || a.Detach?) && a.key == key && a.signal !in s.sent && !InStage(s, key, Reserved)
  }

  /** A record becomes RUNNING only by its admission, and is marked as requested only by a command. */
  lemma RunsByAdmission(s: System, a: Action, key: Key)
    requires KeyHolds(s, key)
    ensures Writes(s, a, key, Running(false)) <==> a == AdmitCommit(key) && s.stages[key] == Reserved
    ensures Writes(s, a, key, Running(true)) <==> Asks(s, a, key) && s.records[key] == Running(false)
  {
    ActMovesRecord(s, a, key);
    hide Act, ExecStep, SentFor, Arrived;
  }

  /**
   SUCCEEDED is written exactly when a RUNNING execution has delivered a result that is valid,
   unless its Tab was detached and its end asked for.
   */
  lemma SucceedsByResult(s: System, a: Action, key: Key)
    requires KeyHolds(s, key)
    ensures Writes(s, a, key, Succeeded) <==>
              && a.SettleRecord? && a.key == key && s.stages[key] == Ended(GotResult) && s.records[key].Running?
              && a.valid && !(a.detached && s.records[key].requested)
  {
    ActMovesRecord(s, a, key);
    hide Act, ExecStep, SentFor, Arrived;
  }

  /**
   CANCELLED is written exactly when a command meets a QUEUED record, or when a RUNNING one whose
   end was asked for has been cancelled, delivers a result into a detached Tab, or is shut down.
   */
  lemma CancelledByRequest(s: System, a: Action, key: Key)
    requires KeyHolds(s, key)
    ensures Writes(s, a, key, Cancelled) <==>
              || (Asks(s, a, key) && s.records[key] == Queued)
              || (s.records[key] == Running(true) && a == InterruptAfterShutdown(key) && s.stages[key] == Gone)
              || (s.records[key] == Running(true) && a.SettleRecord? && a.key == key
                  && (s.stages[key] == Ended(WasCancelled) || (s.stages[key] == Ended(GotResult) && a.detached)))
  {
    ActMovesRecord(s, a, key);
    hide Act, ExecStep, SentFor, Arrived;
  }

  /**
   FAILED is written exactly when the admission of a QUEUED record is refused, an execution ends with
   an error or an invalid result, progress is invalid, or a shutdown finds it unfinished.
   */
  lemma FailsByError(s: System, a: Action, key: Key)
    requires KeyHolds(s, key)
    ensures Writes(s, a, key, Failed) <==>
              || (a == AdmitRefuse(key) && (s.stages[key] == Selected || s.stages[key] == RolledBack)
                  && s.records[key] == Queued)
              || (a.SettleRecord? && a.key == key && s.records[key].Running?
                  && (s.stages[key] == Ended(Errored)
                      || (s.stages[key] == Ended(GotResult) && !a.valid && !(a.detached && s.records[key].requested))))
              || (a.InvalidProgress? && a.key == key && a.signal !in s.sent && s.stages[key] == Executing
                  && s.records[key].Running?)
              || (a == InterruptAfterShutdown(key) && s.stages[key] == Gone
                  && (s.records[key] == Queued || s.records[key] == Running(false)))
  {
    ActMovesRecord(s, a, key);
    hide Act, ExecStep, SentFor, Arrived;
  }

  /** A record goes exactly when it has ended and is removed, or when it could never be scheduled. */
  lemma RemovedAfterEnd(s: System, a: Action, key: Key)
    requires KeyHolds(s, key)
    ensures Writes(s, a, key, Removed) <==>
              || (a == Remove(key) && s.records[key] in {Succeeded, Failed, Cancelled})
              || (a == EnqueueFails(key) && s.stages[key] == Unscheduled && s.records[key] == Queued)
    ensures !Writes(s, a, key, Queued)
  {
    ActMovesRecord(s, a, key);
    hide Act, ExecStep, SentFor, Arrived;
  }

  // ---------------------------------------------------------------- whole courses

  /** key alone has moved on. */
  function At(s: System, key: Key, exec: Exec, record: Record, stage: Stage): System {
    s.(exec := exec, records := s.records[key := record], stages := s.stages[key := stage])
  }

  lemma ActMore(s: System, actions: seq<Action>, a: Action)
    ensures ActAll(s, actions + [a]) == Act(ActAll(s, actions), a)
  {
    ActAllConcat(s, actions, [a]);
    assert [a][1..] == [];
    assert ActAll(ActAll(s, actions), [a]) == ActAll(Act(ActAll(s, actions), a), []);
  }

  lemma NoActions(s: System)
    ensures ActAll(s, []) == s
  {
  }

  lemma SchedulingCourse(s: System, key: Key, x: Exec)
    ensures Act(At(s, key, x, Queued, Unscheduled), Action.Enqueue(key)) == At(s, key, x, Queued, InQueue)
    ensures Act(At(s, key, x, Queued, InQueue), Action.Select(key)) == At(s, key, x, Queued, Selected)
    ensures Act(At(s, key, x, Succeeded, Settled), LeaveSlot(key)) == At(s, key, x, Succeeded, Gone)
  {
    hide ExecStep;
  }

  lemma AdmissionCourse(s: System, key: Key, x: Exec)
    requires !x.closed && key !in x.entries
    ensures var y := x.(entries := x.entries[key := Entry(None, false)]);
            && Act(At(s, key, x, Queued, Selected), AdmitReserve(key)) == At(s, key, y, Queued, Reserved)
            && Act(At(s, key, y, Queued, Reserved), AdmitCommit(key)) == At(s, key, y, Running(false), Admitted)
  {
  }

  lemma LaunchCourse(s: System, key: Key, x: Exec)
    requires !x.closed && key !in x.entries && key !in x.frames
    ensures var y := x.(entries := x.entries[key := Entry(None, false)]);
            Act(At(s, key, y, Running(false), Admitted), Execute(key, false))
            == At(s, key, RunningBeside(x, key), Running(false), Executing)
  {
    var y := x.(entries := x.entries[key := Entry(None, false)]);
    ExecutingLaunches(At(s, key, y, Running(false), Admitted), key);
    assert ExecStep(y, Launch(key)) == RunningBeside(x, key);
    hide Act, ExecStep, RunningBeside;
  }

  lemma ExitCourse(s: System, key: Key, x: Exec)
    requires x.nextProcess !in x.alive
    ensures Act(At(s, key, RunningBeside(x, key), Running(false), Executing), ExecutorMoves(ProcessExit(x.nextProcess)))
            == At(s, key, RunningBeside(x, key).(alive := x.alive), Running(false), Executing)
  {
  }

  lemma EndCourse(s: System, key: Key, x: Exec)
    requires key !in x.entries && key !in x.frames && x.nextProcess !in x.alive
    ensures Act(At(s, key, RunningBeside(x, key).(alive := x.alive), Running(false), Executing),
                EndExecution(key, GotResult))
            == At(s, key, x.(nextProcess := x.nextProcess + 1), Running(false), Ended(GotResult))
  {
    assert ExecStep(RunningBeside(x, key).(alive := x.alive), Finish(key)) == x.(nextProcess := x.nextProcess + 1);
    hide ExecStep;
  }

  lemma SettlingCourse(s: System, key: Key, x: Exec)
    ensures Act(At(s, key, x, Running(false), Ended(GotResult)), SettleRecord(key, false, true))
            == At(s, key, x, Succeeded, Settled)
  {
    hide ExecStep;
  }

  function StartCourse(key: Key): seq<Action> {
    [] + [Action.Enqueue(key)] + [Action.Select(key)] + [AdmitReserve(key)] + [AdmitCommit(key)] + [Execute(key, false)]
  }

  function FinalCourse(key: Key, process: nat): seq<Action> {
    [] + [ExecutorMoves(ProcessExit(process))] + [EndExecution(key, GotResult)] + [SettleRecord(key, false, true)]
    + [LeaveSlot(key)]
  }

  lemma CourseStarts(s: System, key: Key)
    requires s == At(s, key, s.exec, Queued, Unscheduled) && !s.exec.closed
    requires key !in s.exec.entries && key !in s.exec.frames
    ensures ActAll(s, StartCourse(key)) == At(s, key, RunningBeside(s.exec, key), Running(false), Executing)
  {
    hide ActAll, Act, At, RunningBeside, ExecStep;
    SchedulingCourse(s, key, s.exec);
    AdmissionCourse(s, key, s.exec);
    LaunchCourse(s, key, s.exec);
    NoActions(s);
    ActMore(s, [], Action.Enqueue(key));
    ActMore(s, [] + [Action.Enqueue(key)], Action.Select(key));
    ActMore(s, [] + [Action.Enqueue(key)] + [Action.Select(key)], AdmitReserve(key));
    ActMore(s, [] + [Action.Enqueue(key)] + [Action.Select(key)] + [AdmitReserve(key)], AdmitCommit(key));
    ActMore(s, [] + [Action.Enqueue(key)] + [Action.Select(key)] + [AdmitReserve(key)] + [AdmitCommit(key)],
            Execute(key, false));
  }

  lemma CourseEnds(s: System, key: Key, x: Exec)
    requires key !in x.entries && key !in x.frames && x.nextProcess !in x.alive
    ensures ActAll(At(s, key, RunningBeside(x, key), Running(false), Executing), FinalCourse(key, x.nextProcess))
            == At(s, key, x.(nextProcess := x.nextProcess + 1), Succeeded, Gone)
  {
    hide ActAll, Act, At, RunningBeside, ExecStep;
    var p, t := x.nextProcess, At(s, key, RunningBeside(x, key), Running(false), Executing);
    ExitCourse(s, key, x);
    EndCourse(s, key, x);
    SettlingCourse(s, key, x.(nextProcess := p + 1));
    SchedulingCourse(s, key, x.(nextProcess := p + 1));
    NoActions(t);
    ActMore(t, [], ExecutorMoves(ProcessExit(p)));
    ActMore(t, [] + [ExecutorMoves(ProcessExit(p))], EndExecution(key, GotResult));
    ActMore(t, [] + [ExecutorMoves(ProcessExit(p))] + [EndExecution(key, GotResult)], SettleRecord(key, false, true));
    ActMore(t, [] + [ExecutorMoves(ProcessExit(p))] + [EndExecution(key, GotResult)] + [SettleRecord(key, false, true)],
            LeaveSlot(key));
  }

  /**
   An Analysis that nobody disturbs succeeds. Whatever else is going on in a reachable state with an
   open executor, one that was just submitted can be enqueued, admitted, executed and settled, and
   ends SUCCEEDED, with nothing else changed.
   */
  lemma UndisturbedSucceeds(actions: seq<Action>, key: Key)
    requires var s := ActAll(INITIAL, actions);
             InStage(s, key, Unscheduled) && key in s.records && s.records[key] == Queued && !s.exec.closed
    ensures var s := ActAll(INITIAL, actions);
            ActAll(s, StartCourse(key) + FinalCourse(key, s.exec.nextProcess))
            == At(s, key, s.exec.(nextProcess := s.exec.nextProcess + 1), Succeeded, Gone)
  {
    hide ActAll, SystemInv, StartCourse, FinalCourse, At;
    ReachableIsSound(actions);
    SubmittedSucceeds(ActAll(INITIAL, actions), key);
  }

  lemma SubmittedSucceeds(s: System, key: Key)
    requires SystemInv(s) && InStage(s, key, Unscheduled) && key in s.records && s.records[key] == Queued
    requires !s.exec.closed
    ensures ActAll(s, StartCourse(key) + FinalCourse(key, s.exec.nextProcess))
            == At(s, key, s.exec.(nextProcess := s.exec.nextProcess + 1), Succeeded, Gone)
  {
    hide ActAll, SystemInv, StartCourse, FinalCourse, RunningBeside, At;
    SubmittedHasNoEntry(s, key);
    AtItself(s, key);
    CourseStarts(s, key);
    CourseEnds(s, key, s.exec);
    ActAllConcat(s, StartCourse(key), FinalCourse(key, s.exec.nextProcess));
  }

  lemma AtItself(s: System, key: Key)
    requires key in s.records && key in s.stages
    ensures s == At(s, key, s.exec, s.records[key], s.stages[key])
  {
  }

  lemma SubmittedHasNoEntry(s: System, key: Key)
    requires SystemInv(s) && InStage(s, key, Unscheduled) && key in s.records
    ensures key !in s.exec.entries && key !in s.exec.frames && s.exec.nextProcess !in s.exec.alive
  {
    assert KeyHolds(s, key);
    AliveIsOwned(s.exec);
  }

  /**
   A command against an Analysis in the queue ends it on the spot: the record is CANCELLED and the
   scheduler drops it, and a command against one that runs, once delivered, lets its process be
   terminated and its record be CANCELLED.
   */
  lemma QueuedIsCancelled(actions: seq<Action>, key: Key, id: nat)
    requires var s := ActAll(INITIAL, actions);
             InStage(s, key, InQueue) && key in s.records && s.records[key] == Queued && id !in s.sent
    ensures var s := ActAll(INITIAL, actions);
            var t := Act(Act(s, RequestCancel(key, id)), DeliverToScheduler(id));
            && t.records == s.records[key := Cancelled] && t.stages == s.stages[key := Gone]
            && t.signals == s.signals && t.exec == s.exec
  {
    var s := ActAll(INITIAL, actions);
    ReachableIsSound(actions);
    assert id !in s.signals;
    hide ActAll, SystemInv;
    QueueDropsIt(s, key, id);
  }

  lemma QueueDropsIt(s: System, key: Key, id: nat)
    requires InStage(s, key, InQueue) && key in s.records && s.records[key] == Queued
    requires id !in s.sent && id !in s.signals
    ensures Act(Act(s, RequestCancel(key, id)), DeliverToScheduler(id))
            == s.(records := s.records[key := Cancelled], sent := s.sent[id := key], stages := s.stages[key := Gone])
  {
    hide ExecStep;
    assert Act(s, RequestCancel(key, id)) == Send(s, key, id, Cancelled);
    assert Send(s, key, id, Cancelled).signals - {id} == s.signals;
  }

  function CancelCourse(key: Key, id: nat, process: nat): seq<Action> {
    [] + [RequestCancel(key, id)] + [DeliverToScheduler(id)] + [DeliverToExecutor(id)]
    + [ExecutorMoves(Terminate(process))] + [EndExecution(key, WasCancelled)] + [SettleRecord(key, false, false)]
  }

  /** The course of a request against a process that runs, with its signal delivered. */
  lemma RunningIsCancelled(actions: seq<Action>, key: Key, id: nat)
    requires var s := ActAll(INITIAL, actions); s.records.Keys >= {key} && s.records[key] == Running(false)
    requires var s := ActAll(INITIAL, actions); ProcessRuns(s, key) && id !in s.sent
    ensures var s := ActAll(INITIAL, actions);
            var t := ActAll(s, CancelCourse(key, id, s.exec.frames[key].value));
            && t.records == s.records[key := Cancelled] && t.stages == s.stages[key := Settled]
            && t.exec.alive == s.exec.alive - {s.exec.frames[key].value}
            && t.exec.entries == s.exec.entries - {key} && t.exec.frames == s.exec.frames - {key}
  {
    var s := ActAll(INITIAL, actions);
    ReachableIsSound(actions);
    RunningIsExecuting(s, key);
    RequestTerminates(s, key, id);
    TerminationSettles(s, key, id);
  }

  lemma RunningIsExecuting(s: System, key: Key)
    requires SystemInv(s) && ProcessRuns(s, key)
    ensures key in s.exec.entries && s.exec.entries[key].process == s.exec.frames[key]
    ensures key in s.records && key in s.stages && s.stages[key] == Executing
    ensures forall id :: id in s.signals ==> id in s.sent
  {
    assert key in s.exec.entries && s.exec.entries[key].process == s.exec.frames[key];
    assert KeyHolds(s, key);
  }

  /** What the request has brought about when its signal has arrived and the process has ended. */
  function Terminated(s: System, key: Key, id: nat): System
    requires key in s.exec.entries && s.exec.entries[key].process.Some?
  {
    var p := s.exec.entries[key].process.value;
    s.(records := s.records[key := Running(true)], sent := s.sent[id := key],
       exec := s.exec.(entries := s.exec.entries[key := Entry(Some(p), true)], doomed := s.exec.doomed + {p},
                       alive := s.exec.alive - {p}))
  }

  lemma RequestTerminates(s: System, key: Key, id: nat)
    requires key in s.records && s.records[key] == Running(false) && InStage(s, key, Executing)
    requires id !in s.sent && id !in s.signals
    requires key in s.exec.entries && s.exec.entries[key].process.Some?
    ensures var p := s.exec.entries[key].process.value;
            ActAll(s, [] + [RequestCancel(key, id)] + [DeliverToScheduler(id)] + [DeliverToExecutor(id)]
                      + [ExecutorMoves(Terminate(p))]) == Terminated(s, key, id)
  {
    var p := s.exec.entries[key].process.value;
    var sent := Send(s, key, id, Running(true));
    var passed := sent.(signals := s.signals[id := ToExecutor(key)]);
    var x := s.exec.(entries := s.exec.entries[key := Entry(Some(p), true)], doomed := s.exec.doomed + {p});
    var told := sent.(signals := s.signals, exec := x);
    RequestIsSent(s, key, id);
    SignalPasses(s, key, id);
    SignalTells(passed, key, id, p, s.signals);
    NoActions(s);
    hide ActAll, Act, ExecStep;
    ActMore(s, [], RequestCancel(key, id));
    ActMore(s, [] + [RequestCancel(key, id)], DeliverToScheduler(id));
    ActMore(s, [] + [RequestCancel(key, id)] + [DeliverToScheduler(id)], DeliverToExecutor(id));
    ActMore(s, [] + [RequestCancel(key, id)] + [DeliverToScheduler(id)] + [DeliverToExecutor(id)],
            ExecutorMoves(Terminate(p)));
  }

  lemma RequestIsSent(s: System, key: Key, id: nat)
    requires key in s.records && s.records[key] == Running(false) && InStage(s, key, Executing) && id !in s.sent
    ensures Act(s, RequestCancel(key, id)) == Send(s, key, id, Running(true))
  {
    hide ExecStep;
  }

  lemma SignalPasses(s: System, key: Key, id: nat)
    requires InStage(s, key, Executing)
    ensures var sent := Send(s, key, id, Running(true));
            Act(sent, DeliverToScheduler(id)) == sent.(signals := s.signals[id := ToExecutor(key)])
  {
    hide ExecStep;
  }

  lemma SignalTells(s: System, key: Key, id: nat, p: nat, others: map<nat, Signal>)
    requires s.signals == others[id := ToExecutor(key)] && id !in others
    requires key in s.exec.entries && s.exec.entries[key].process == Some(p)
    ensures var x := s.exec.(entries := s.exec.entries[key := Entry(Some(p), true)], doomed := s.exec.doomed + {p});
            var told := s.(signals := others, exec := x);
            && Act(s, DeliverToExecutor(id)) == told
            && Act(told, ExecutorMoves(Terminate(p))) == told.(exec := x.(alive := x.alive - {p}))
  {
    assert others[id := ToExecutor(key)] - {id} == others;
  }

  lemma TerminationSettles(s: System, key: Key, id: nat)
    requires key in s.records && s.records[key] == Running(false) && InStage(s, key, Executing)
    requires id !in s.sent && id !in s.signals && key in s.exec.frames && s.exec.frames[key].Some?
    requires key in s.exec.entries && s.exec.entries[key].process == s.exec.frames[key]
    ensures var p := s.exec.frames[key].value;
            var t := ActAll(s, CancelCourse(key, id, p));
            && t.records == s.records[key := Cancelled] && t.stages == s.stages[key := Settled]
            && t.exec.alive == s.exec.alive - {p}
            && t.exec.entries == s.exec.entries - {key} && t.exec.frames == s.exec.frames - {key}
  {
    var p := s.exec.frames[key].value;
    RequestTerminates(s, key, id);
    var begun := [] + [RequestCancel(key, id)] + [DeliverToScheduler(id)] + [DeliverToExecutor(id)]
                 + [ExecutorMoves(Terminate(p))];
    var t := Terminated(s, key, id);
    CancelledEnds(t, key);
    hide ActAll, Act, ExecStep;
    ActMore(s, begun, EndExecution(key, WasCancelled));
    ActMore(s, begun + [EndExecution(key, WasCancelled)], SettleRecord(key, false, false));
  }

  lemma CancelledEnds(s: System, key: Key)
    requires InStage(s, key, Executing) && key in s.records && s.records[key] == Running(true)
    requires MayFinish(s.exec, key) && key in s.exec.entries && s.exec.entries[key].cancelled
    ensures Act(Act(s, EndExecution(key, WasCancelled)), SettleRecord(key, false, false))
            == s.(exec := s.exec.(entries := s.exec.entries - {key}, frames := s.exec.frames - {key}),
                  records := s.records[key := Cancelled], stages := s.stages[key := Settled])
  {
    var ended := Act(s, EndExecution(key, WasCancelled));
    assert ended == s.(exec := ExecStep(s.exec, Finish(key)), stages := s.stages[key := Ended(WasCancelled)]);
  }
}
