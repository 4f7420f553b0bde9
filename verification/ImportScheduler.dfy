/** The dispatcher of User File Imports: the shared dispatch loop, and a cancel scope per running import. */
module ImportScheduling {
  import opened Common
  import opened FairQueue
  import opened AnalysisScheduling

  /*
   Through its handle a cancellation reaches the runner's scope, whether that is installed before
   or after. An import key carries no Workspace; its Workspace component is empty.
   */

  datatype Scope = NotInstalled | Open | Interrupted

  /** One running import: its cancel scope, and whether a cancellation was asked for. */
  datatype Handle = Handle(scope: Scope, requested: bool)

  datatype ImportState = ImportState(base: State, handles: map<Key, Handle>)

  datatype ImportEvent =
    | Shared(event: Event)
    | CancelImport(key: Key)
    | CancelActive
    | RunnerEnter(key: Key)

  datatype Target = WasQueued | WasRunning | Missing

  function Flagged(h: Handle): Handle {
    Handle(if h.scope == NotInstalled then NotInstalled else Interrupted, true)
  }

  function Entered(h: Handle): Handle {
    h.(scope := if h.requested then Interrupted else Open)
  }

  ghost function TargetOf(s: ImportState, key: Key): Target {
    if Filter(ItemsFor(s.base.queue, key.user), KeyIs(key)) != [] then WasQueued
    else if key in s.handles then WasRunning else Missing
  }

  /** Handles appear and disappear with the running keys. */
  ghost function Rehandled(handles: map<Key, Handle>, active: set<Key>): map<Key, Handle> {
    map k | k in active :: if k in handles then handles[k] else Handle(NotInstalled, false)
  }

  ghost function BaseEvent(s: ImportState, e: ImportEvent): Option<Event> {
    match e
    case Shared(event) => Some(event)
    case CancelImport(key) => Some(Cancel(key))
    case _ => None
  }

  ghost function ImportStep(s: ImportState, e: ImportEvent): (r: ImportState)
    requires WellFormed(s.base.queue)
    ensures WellFormed(r.base.queue)
  {
    match e
    case Shared(event) =>
      var base := Step(s.base, event);
      ImportState(base, Rehandled(s.handles, base.active))
    case CancelImport(key) =>
      ImportState(
        Step(s.base, Cancel(key)),
        if TargetOf(s, key) == WasRunning then s.handles[key := Flagged(s.handles[key])] else s.handles)
    case CancelActive => s.(handles := map k | k in s.handles :: Flagged(s.handles[k]))
    case RunnerEnter(key) =>
      if key in s.handles && s.handles[key].scope == NotInstalled
      then s.(handles := s.handles[key := Entered(s.handles[key])]) else s
  }

  ghost function ImportRun(s: ImportState, es: seq<ImportEvent>): (r: ImportState)
    requires WellFormed(s.base.queue)
    ensures WellFormed(r.base.queue)
    decreases |es|
  {
    if es == [] then s else ImportRun(ImportStep(s, es[0]), es[1..])
  }

  /** One handle per running import; its scope is interrupted exactly when that was asked for. */
  ghost predicate ImportInv(s: ImportState) {
    && Inv(s.base)
    && s.handles.Keys == s.base.active
    && forall k :: k in s.handles && s.handles[k].scope != NotInstalled ==>
         (s.handles[k].scope == Interrupted <==> s.handles[k].requested)
  }

  lemma ImportStepKeepsInv(s: ImportState, e: ImportEvent)
    requires ImportInv(s)
    ensures ImportInv(ImportStep(s, e))
  {
    match e
    case Shared(event) => StepKeepsInv(s.base, event);
    case CancelImport(key) => StepKeepsInv(s.base, Cancel(key));
    case CancelActive =>
    case RunnerEnter(_) =>
  }

  lemma {:induction false} ImportRunKeepsInv(s: ImportState, es: seq<ImportEvent>)
    requires ImportInv(s)
    ensures ImportInv(ImportRun(s, es))
    decreases |es|
  {
    if es != [] {
      ImportStepKeepsInv(s, es[0]);
      ImportRunKeepsInv(ImportStep(s, es[0]), es[1..]);
    }
  }

  function InitImports(capacity: nat): ImportState {
    ImportState(Init(capacity), map[])
  }

  // ---------------------------------------------------------------- refinement

  ghost function BaseEvents(s: ImportState, es: seq<ImportEvent>): seq<Event>
    requires WellFormed(s.base.queue)
    decreases |es|
  {
    if es == [] then []
    else
      var rest := BaseEvents(ImportStep(s, es[0]), es[1..]);
      match BaseEvent(s, es[0])
      case None => rest
      case Some(event) => [event] + rest
  }

  /** Every run of the import scheduler is, underneath, a run of the shared dispatcher. */
  lemma {:induction false} ImportRunRefines(s: ImportState, es: seq<ImportEvent>)
    requires WellFormed(s.base.queue)
    ensures ImportRun(s, es).base == Run(s.base, BaseEvents(s, es))
    decreases |es|
  {
    if es != [] {
      var rest := BaseEvents(ImportStep(s, es[0]), es[1..]);
      ImportRunRefines(ImportStep(s, es[0]), es[1..]);
      match BaseEvent(s, es[0])
      case None =>
      case Some(event) => assert ([event] + rest)[1..] == rest;
    }
  }

  /** So the dispatcher's guarantees hold for imports: no lost wake-up, no stale idle event, no lost key. */
  lemma ImportDispatchIsSafe(capacity: nat, es: seq<ImportEvent>, key: Key)
    ensures var s := ImportRun(InitImports(capacity), es).base;
            && (s.dispatcher.Blocked? && s.dispatcher.on !in s.fired ==>
                  s.dispatcher.on == s.wake && !s.stopping && (s.queue.order == [] || |s.active| == capacity))
            && (s.idle in s.fired <==> s.active == {})
            && |s.active| <= capacity
            && (var f := FatesOf(Init(capacity), BaseEvents(InitImports(capacity), es), key);
                && f.accepted == Here(s.queue, s.active, key) + f.finished + f.cancelled + f.returned
                && Here(s.queue, s.active, key) <= 1)
  {
    var base := BaseEvents(InitImports(capacity), es);
    ImportRunRefines(InitImports(capacity), es);
    NoLostWakeup(capacity, base);
    IdleIsNeverStale(capacity, base);
    ExactlyOneFate(capacity, base, key);
  }

  // ---------------------------------------------------------------- cancellation reaches the runner

  ghost predicate Exits(es: seq<ImportEvent>, key: Key) {
    exists i :: 0 <= i < |es| && es[i] == Shared(RunnerExit(key))
  }

  lemma ActiveUntilExit(s: State, e: Event, key: Key)
    requires WellFormed(s.queue) && key in s.active && e != RunnerExit(key)
    ensures key in Step(s, e).active
  {
  }

  lemma RequestStaysOneStep(s: ImportState, e: ImportEvent, key: Key)
    requires ImportInv(s) && key in s.handles && s.handles[key].requested && e != Shared(RunnerExit(key))
    ensures var s' := ImportStep(s, e); key in s'.handles && s'.handles[key].requested
  {
    if e.Shared? {
      ActiveUntilExit(s.base, e.event, key);
    }
  }

  lemma {:induction false} RequestsStick(s: ImportState, es: seq<ImportEvent>, key: Key)
    requires ImportInv(s) && key in s.handles && s.handles[key].requested && !Exits(es, key)
    ensures var s' := ImportRun(s, es); key in s'.handles && s'.handles[key].requested
    decreases |es|
  {
    if es != [] {
      assert es[0] != Shared(RunnerExit(key));
      RequestStaysOneStep(s, es[0], key);
      ImportStepKeepsInv(s, es[0]);
      forall i | 0 <= i < |es[1..]| ensures es[1..][i] != Shared(RunnerExit(key)) {
        assert es[1..][i] == es[i + 1];
      }
      RequestsStick(ImportStep(s, es[0]), es[1..], key);
    }
  }

  /**
   A cancellation answered "running" is never lost: until that runner leaves, in every later state,
   its scope either is interrupted or will be interrupted when it is installed.
   */
  lemma CancellationReachesRunner(s: ImportState, key: Key, es: seq<ImportEvent>)
    requires ImportInv(s) && TargetOf(s, key) == WasRunning && !Exits(es, key)
    ensures var s' := ImportRun(ImportStep(s, CancelImport(key)), es);
            && key in s'.handles && s'.handles[key].requested && s'.handles[key].scope != Open
            && (s'.handles[key].scope == NotInstalled ==>
                  ImportStep(s', RunnerEnter(key)).handles[key].scope == Interrupted)
  {
    var s1 := ImportStep(s, CancelImport(key));
    ImportStepKeepsInv(s, CancelImport(key));
    RequestsStick(s1, es, key);
    ImportRunKeepsInv(s1, es);
  }

  /** Nothing asks for the end of key. */
  ghost predicate LeftAlone(es: seq<ImportEvent>, key: Key) {
    forall e | e in es :: e != CancelImport(key) && e != CancelActive
  }

  lemma StepLeavesAlone(s: ImportState, e: ImportEvent, key: Key)
    requires WellFormed(s.base.queue) && e != CancelImport(key) && e != CancelActive
    requires key in s.handles ==> !s.handles[key].requested && s.handles[key].scope != Interrupted
    ensures var s' := ImportStep(s, e);
            key in s'.handles ==> !s'.handles[key].requested && s'.handles[key].scope != Interrupted
  {
    hide Step, WellFormed;
  }

  lemma {:induction false} RunLeavesAlone(s: ImportState, es: seq<ImportEvent>, key: Key)
    requires WellFormed(s.base.queue) && LeftAlone(es, key)
    requires key in s.handles ==> !s.handles[key].requested && s.handles[key].scope != Interrupted
    ensures var s' := ImportRun(s, es);
            key in s'.handles ==> !s'.handles[key].requested && s'.handles[key].scope != Interrupted
    decreases |es|
  {
    if es != [] {
      assert es[0] in es && forall e :: e in es[1..] ==> e in es;
      StepLeavesAlone(s, es[0], key);
      RunLeavesAlone(ImportStep(s, es[0]), es[1..], key);
    }
  }

  /** An import that nobody asked to cancel is never interrupted, whatever happens to the others. */
  lemma OnlyCancelledAreInterrupted(capacity: nat, es: seq<ImportEvent>, key: Key)
    requires LeftAlone(es, key)
    ensures var s := ImportRun(InitImports(capacity), es);
            key in s.handles ==> !s.handles[key].requested && s.handles[key].scope != Interrupted
  {
    RunLeavesAlone(InitImports(capacity), es, key);
  }

  lemma TurnAddsActive(s: State)
    requires Inv(s)
    ensures StartsNext(s) ==> NextItem(s.queue).key !in s.active
    ensures DispatchStep(s).active == s.active + if StartsNext(s) then {NextItem(s.queue).key} else {}
  {
    if StartsNext(s) {
      StartKeepsQueueInv(s);
    }
  }

  lemma CancelledIsGone(s: State, key: Key)
    requires Inv(s)
    ensures !IsQueued(Step(s, Cancel(key)).queue, key)
  {
    StepKeepsInv(s, Cancel(key));
    QueuedIsCounted(Step(s, Cancel(key)).queue, key);
    DiscardBalances(s, key.user, KeyIs(key), key);
    if QueuedCount(s.queue, key) > 0 {
      QueuedHasEntry(s, key);
    }
    hide Inv, Filter, IsQueued;
  }

  lemma RehandledNext(handles: map<Key, Handle>, key: Key)
    ensures Rehandled(handles, handles.Keys) == handles
    ensures key !in handles ==>
              Rehandled(handles, handles.Keys + {key}) == handles[key := Handle(NotInstalled, false)]
  {
  }

  /** The import scheduler's fields: the shared dispatcher, and the handles of running imports. */
  class UserFileImportScheduler {
    const dispatch: AnalysisScheduler
    var handles: map<Key, Handle>

    ghost function View(): ImportState
      reads this, dispatch, dispatch.pending
    {
      ImportState(dispatch.View(), handles)
    }

    constructor (capacity: nat)
      requires capacity >= 1
      ensures View() == InitImports(capacity) && fresh(dispatch) && fresh(dispatch.pending)
    {
      dispatch := new AnalysisScheduler(capacity);
      handles := map[];
    }

    method CancelKey(key: Key) returns (target: Target)
      requires ImportInv(View())
      modifies this, dispatch, dispatch.pending
      ensures View() == ImportStep(old(View()), CancelImport(key))
      ensures target == WasQueued <==> IsQueued(old(View()).base.queue, key)
      ensures target == WasRunning <==> key in old(dispatch.active)
      ensures !IsQueued(View().base.queue, key) && dispatch.active == old(dispatch.active)
      ensures target == WasRunning ==>
                && key in handles && handles[key].requested && handles[key].scope != Open
                && handles == old(handles)[key := handles[key]]
      ensures target != WasRunning ==> handles == old(handles)
    {
      ghost var before := View();
      QueuedIsCounted(before.base.queue, key);
      assert Here(before.base.queue, before.base.active, key) <= 1;
      CancelledIsGone(before.base, key);
      var removed, isActive := dispatch.CancelQueued(key);
      if removed {
        return WasQueued;
      }
      if key !in handles {
        return Missing;
      }
      handles := handles[key := Flagged(handles[key])];
      return WasRunning;
    }

    method CancelAll() returns (keys: set<Key>)
      requires ImportInv(View())
      modifies this
      ensures View() == ImportStep(old(View()), CancelActive)
      ensures keys == dispatch.active && handles.Keys == keys
      ensures forall k :: k in handles ==> handles[k].requested && handles[k].scope != Open
    {
      keys := handles.Keys;
      handles := map k | k in handles :: Flagged(handles[k]);
    }

    /** The runner's first region: install its scope, interrupted already if that was asked for. */
    method Enter(key: Key)
      requires ImportInv(View()) && key in dispatch.active && handles[key].scope == NotInstalled
      modifies this
      ensures View() == ImportStep(old(View()), RunnerEnter(key))
      ensures key in handles && handles[key].scope == if old(handles)[key].requested then Interrupted else Open
    {
      handles := handles[key := Entered(handles[key])];
    }

    method Leave(key: Key)
      requires ImportInv(View()) && key in dispatch.active
      modifies this, dispatch
      ensures View() == ImportStep(old(View()), Shared(RunnerExit(key)))
      ensures key !in handles && key !in dispatch.active
    {
      dispatch.Exit(key);
      handles := handles - {key};
    }

    /** The top of the dispatch loop; an import that starts gets a handle without a scope. */
    method TakeOrSleep() returns (started: Option<Work>)
      requires ImportInv(View()) && dispatch.dispatcher == Top
      modifies this, dispatch, dispatch.pending
      ensures View() == ImportStep(old(View()), Shared(DispatcherTurn))
      ensures handles == if started.Some? then old(handles)[started.value.key := Handle(NotInstalled, false)]
                         else old(handles)
    {
      TurnAddsActive(dispatch.View());
      assert handles.Keys == dispatch.active;
      started := dispatch.TakeOrSleep();
      RehandledNext(handles, if started.Some? then started.value.key else Key("", "", 0));
      if started.Some? {
        handles := handles[started.value.key := Handle(NotInstalled, false)];
      }
    }
  }
}
