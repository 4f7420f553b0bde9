/** The runtime in one run: the scheduler's queue and slots together with records, runners and processes. */
module AnalysisRuntime {
  import opened Common
  import opened StableSorting
  import opened FairQueue
  import opened AnalysisExecution
  import opened AnalysisCancellation
  import Scheduling = AnalysisScheduling

  type Key = Scheduling.Key

  datatype Runtime = Runtime(scheduler: Scheduling.State, system: System)

  /**
   Dispatch is a region of the dispatch loop, of the stop or of the idle wait; Schedule the attempt
   to enqueue a committed Analysis, Deliver a signal that reaches the scheduler, Leave a runner that
   frees its slot. Whatever happens outside the scheduler is Elsewhere.
   */
  datatype Move =
    | Dispatch(event: Scheduling.Event)
    | Schedule(key: Key, createdAt: int)
    | Deliver(signal: nat)
    | Leave(key: Key)
    | Elsewhere(action: Action)

  predicate UnderLock(a: Action) {
    a.Enqueue? || a.Select? || a.StopTakesAll? || a.LeaveSlot? || a.DeliverToScheduler?
  }

  predicate Allowed(r: Runtime, m: Move) {
    match m
    case Dispatch(e) => e.Start? || e.DispatcherTurn? || e.StopDispatch? || e.AwaitIdle? || e.IdleWakes?
    case Schedule(key, _) => InStage(r.system, key, Unscheduled)
    case Deliver(id) => id in r.system.signals && r.system.signals[id].ToScheduler?
    case Leave(key) => InStage(r.system, key, Settled)
    case Elsewhere(a) => !UnderLock(a)
  }

  /** What the move is for the scheduler. */
  function EventOf(r: Runtime, m: Move): Option<Scheduling.Event>
    requires Allowed(r, m)
  {
    match m
    case Dispatch(e) => Some(e)
    case Schedule(key, createdAt) => Some(Scheduling.Event.Enqueue(key, createdAt))
    case Deliver(id) => Some(Scheduling.Event.Cancel(r.system.signals[id].key))
    case Leave(key) => Some(Scheduling.Event.RunnerExit(key))
    case Elsewhere(_) => None
  }

  /** What the move is for the rest; a refused attempt to enqueue leaves it to the submitter to fail. */
  ghost function ActionOf(r: Runtime, m: Move): Option<Action>
    requires WellFormed(r.scheduler.queue) && Allowed(r, m)
  {
    match m
    case Dispatch(e) =>
      if e.DispatcherTurn? && Scheduling.StartsNext(r.scheduler) then
        Some(Action.Select(NextItem(r.scheduler.queue).key))
      else if e.StopDispatch? && !r.scheduler.stopping then Some(StopTakesAll)
      else None
    case Schedule(key, _) => if Scheduling.Accepts(r.scheduler, key) then Some(Action.Enqueue(key)) else None
    case Deliver(id) => Some(DeliverToScheduler(id))
    case Leave(key) => Some(LeaveSlot(key))
    case Elsewhere(a) => Some(a)
  }

  ghost function Next(r: Runtime, m: Move): (t: Runtime)
    requires WellFormed(r.scheduler.queue)
    ensures WellFormed(t.scheduler.queue)
  {
    if !Allowed(r, m) then r
    else
      Runtime(match EventOf(r, m) case Some(e) => Scheduling.Step(r.scheduler, e) case None => r.scheduler,
              match ActionOf(r, m) case Some(a) => Act(r.system, a) case None => r.system)
  }

  ghost function Run(r: Runtime, moves: seq<Move>): (t: Runtime)
    requires WellFormed(r.scheduler.queue)
    ensures WellFormed(t.scheduler.queue)
    decreases |moves|
  {
    if moves == [] then r else Run(Next(r, moves[0]), moves[1..])
  }

  function Init(capacity: nat): Runtime {
    Runtime(Scheduling.Init(capacity), INITIAL)
  }

  // ---------------------------------------------------------------- both projections are runs

  ghost function EventsOf(r: Runtime, moves: seq<Move>): seq<Scheduling.Event>
    requires WellFormed(r.scheduler.queue)
    decreases |moves|
  {
    if moves == [] then []
    else
      (if !Allowed(r, moves[0]) || EventOf(r, moves[0]).None? then [] else [EventOf(r, moves[0]).value])
      + EventsOf(Next(r, moves[0]), moves[1..])
  }

  ghost function ActionsOf(r: Runtime, moves: seq<Move>): seq<Action>
    requires WellFormed(r.scheduler.queue)
    decreases |moves|
  {
    if moves == [] then []
    else
      (if !Allowed(r, moves[0]) || ActionOf(r, moves[0]).None? then [] else [ActionOf(r, moves[0]).value])
      + ActionsOf(Next(r, moves[0]), moves[1..])
  }

  lemma OneMoreEvent(s: Scheduling.State, events: seq<Scheduling.Event>, rest: seq<Scheduling.Event>)
    requires WellFormed(s.queue) && |events| <= 1
    ensures Scheduling.Run(s, events + rest)
            == if events == [] then Scheduling.Run(s, rest) else Scheduling.Run(Scheduling.Step(s, events[0]), rest)
  {
    if events == [] {
      assert events + rest == rest;
    } else {
      assert (events + rest)[1..] == rest;
    }
  }

  lemma OneMoreAction(s: System, actions: seq<Action>, rest: seq<Action>)
    requires |actions| <= 1
    ensures ActAll(s, actions + rest)
            == if actions == [] then ActAll(s, rest) else ActAll(Act(s, actions[0]), rest)
  {
    if actions == [] {
      assert actions + rest == rest;
    } else {
      assert (actions + rest)[1..] == rest;
    }
  }

  /** Every run is a run of the scheduler and, at the same time, a run of records, runners and processes. */
  lemma {:induction false} RunRefines(r: Runtime, moves: seq<Move>)
    requires WellFormed(r.scheduler.queue)
    ensures Run(r, moves).scheduler == Scheduling.Run(r.scheduler, EventsOf(r, moves))
    ensures Run(r, moves).system == ActAll(r.system, ActionsOf(r, moves))
    decreases |moves|
  {
    if moves != [] {
      var m, t := moves[0], Next(r, moves[0]);
      RunRefines(t, moves[1..]);
      var events := if !Allowed(r, m) || EventOf(r, m).None? then [] else [EventOf(r, m).value];
      var actions := if !Allowed(r, m) || ActionOf(r, m).None? then [] else [ActionOf(r, m).value];
      OneMoreEvent(r.scheduler, events, EventsOf(t, moves[1..]));
      OneMoreAction(r.system, actions, ActionsOf(t, moves[1..]));
      hide ActAll, Act, Scheduling.Run, Scheduling.Step, WellFormed;
    }
  }

  // ---------------------------------------------------------------- queue, slots and stages agree

  predicate Queued(s: Scheduling.State, key: Key) {
    Scheduling.QueuedCount(s.queue, key) > 0
  }

  predicate Waits(s: System, key: Key) {
    InStage(s, key, InQueue)
  }

  /** Between its selection and the freeing of its slot. */
  predicate HasRunner(s: System, key: Key) {
    key in s.stages && s.stages[key] !in {Unscheduled, InQueue, Gone}
  }

  /** A QUEUED record that nobody attends to any more, though no commit of its own failed. */
  predicate Stranded(s: System, key: Key) {
    && key in s.records && s.records[key] == Record.Queued
    && (InStage(s, key, Settled) || InStage(s, key, Gone)) && key !in s.unsettled
  }

  ghost predicate Agree(r: Runtime, key: Key) {
    && (Queued(r.scheduler, key) <==> Waits(r.system, key))
    && (key in r.scheduler.active <==> HasRunner(r.system, key))
    && (Stranded(r.system, key) ==> r.scheduler.stopping)
  }

  ghost predicate Coupled(r: Runtime) {
    Scheduling.Inv(r.scheduler) && SystemInv(r.system) && forall key :: Agree(r, key)
  }

  /** What one region of the scheduler does to the place of one key. */
  lemma SchedulerPlaces(s: Scheduling.State, e: Scheduling.Event, key: Key)
    requires Scheduling.Inv(s)
    ensures var t := Scheduling.Step(s, e);
            && (s.stopping ==> t.stopping)
            && (e.StopDispatch? ==> !Queued(t, key) && t.active == s.active && t.stopping)
            && (e.Enqueue? ==>
                  && (Queued(t, key) <==> Queued(s, key) || (Scheduling.Accepts(s, e.key) && key == e.key))
                  && t.active == s.active)
            && (e.Cancel? ==> (Queued(t, key) <==> Queued(s, key) && key != e.key) && t.active == s.active)
            && (e.RunnerExit? ==> (Queued(t, key) <==> Queued(s, key)) && t.active == s.active - {e.key})
            && (e.Start? || e.AwaitIdle? || e.IdleWakes? ==>
                  (Queued(t, key) <==> Queued(s, key)) && t.active == s.active)
  {
    hide WellFormed, Filter, Scheduling.EventInv, Scheduling.DispatcherInv, StableSort;
    match e
    case Enqueue(k, createdAt) => Scheduling.CountOfAdded(s.queue, Scheduling.Work(k, createdAt), key);
    case Cancel(k) => CancelPlaces(s, k, key);
    case StopDispatch =>
      Scheduling.NothingQueued(key);
      if s.stopping {
        StoppedIsEmpty(s, key);
      }
    case _ =>
  }

  lemma StoppedIsEmpty(s: Scheduling.State, key: Key)
    requires Scheduling.Inv(s) && s.stopping
    ensures !Queued(s, key)
  {
  }

  lemma CancelPlaces(s: Scheduling.State, k: Key, key: Key)
    requires Scheduling.Inv(s)
    ensures var t := Scheduling.DiscardStep(s, k.user, Scheduling.KeyIs(k));
            (Queued(t, key) <==> Queued(s, key) && key != k) && t.active == s.active
  {
    Scheduling.DiscardBalances(s, k.user, Scheduling.KeyIs(k), key);
    if Queued(s, key) {
      Scheduling.QueuedHasEntry(s, key);
    }
    hide Scheduling.Inv, Scheduling.QueuedCount, Filter;
  }

  /** A turn of the dispatch loop moves the item it selects from the queue to a slot. */
  lemma TurnPlaces(s: Scheduling.State, key: Key)
    requires Scheduling.Inv(s)
    ensures var t := Scheduling.DispatchStep(s);
            && t.stopping == s.stopping
            && (Scheduling.StartsNext(s) ==>
                  && Queued(s, NextItem(s.queue).key)
                  && (Queued(t, key) <==> Queued(s, key) && key != NextItem(s.queue).key)
                  && t.active == s.active + {NextItem(s.queue).key})
            && (!Scheduling.StartsNext(s) ==> t.queue == s.queue && t.active == s.active)
  {
    if Scheduling.StartsNext(s) {
      var next := NextItem(s.queue).key;
      Scheduling.CountOfPopped(s.queue, key);
      Scheduling.CountOfPopped(s.queue, next);
      assert Scheduling.Here(s.queue, s.active, next) <= 1;
      PopWellFormed(s.queue);
    }
    hide WellFormed, Pop, Scheduling.OwnItems, Filter, Scheduling.EventInv, Scheduling.DispatcherInv;
  }

  /** What the coupling says about one key. */
  lemma CoupledAt(r: Runtime, key: Key)
    requires Coupled(r)
    ensures Scheduling.Inv(r.scheduler) && Domains(r.system) && Agree(r, key)
    ensures key in r.system.records ==> KeyHolds(r.system, key)
  {
  }

  lemma InitCoupled(capacity: nat)
    ensures Coupled(Init(capacity))
  {
    Scheduling.InitInv(capacity);
  }

  /** Steps outside the scheduler neither queue nor start nor end a runner. */
  lemma ElsewhereKeepsPlaces(s: System, a: Action, key: Key)
    requires Domains(s) && !UnderLock(a)
    ensures Waits(Act(s, a), key) == Waits(s, key) && HasRunner(Act(s, a), key) == HasRunner(s, key)
  {
    hide ExecStep, Settle, MayReserve, MayFinish, Terminal;
  }

  /** Outside the scheduler no QUEUED record becomes stranded. */
  lemma ElsewhereStrandsNothing(s: System, a: Action, key: Key)
    requires Domains(s) && !UnderLock(a) && Stranded(Act(s, a), key) && (key in s.records ==> KeyHolds(s, key))
    ensures Stranded(s, key)
  {
    hide ExecStep, MayReserve, MayFinish, SentFor, Arrived;
  }

  /** What one region of the scheduler means for the stages; records are not touched. */
  lemma SystemPlaces(s: System, a: Action, key: Key)
    requires UnderLock(a)
    ensures var t := Act(s, a);
            && t.records == s.records
            && (a.Enqueue? && InStage(s, a.key, Unscheduled) ==>
                  && (Waits(t, key) <==> Waits(s, key) || key == a.key)
                  && HasRunner(t, key) == HasRunner(s, key)
                  && (Stranded(t, key) ==> Stranded(s, key)))
            && (a.Select? && Waits(s, a.key) ==>
                  && (Waits(t, key) <==> Waits(s, key) && key != a.key)
                  && (HasRunner(t, key) <==> HasRunner(s, key) || key == a.key)
                  && (Stranded(t, key) ==> Stranded(s, key)))
            && (a.StopTakesAll? ==> !Waits(t, key) && HasRunner(t, key) == HasRunner(s, key))
            && (a.LeaveSlot? && InStage(s, a.key, Settled) ==>
                  && Waits(t, key) == Waits(s, key)
                  && (HasRunner(t, key) <==> HasRunner(s, key) && key != a.key)
                  && (Stranded(t, key) ==> Stranded(s, key)))
            && (a.DeliverToScheduler? && a.signal in s.signals && s.signals[a.signal].ToScheduler? ==>
                  && (Waits(t, key) <==> Waits(s, key) && key != s.signals[a.signal].key)
                  && HasRunner(t, key) == HasRunner(s, key)
                  && (Stranded(t, key) ==>
                        Stranded(s, key) || (key == s.signals[a.signal].key && s.records[key] == Record.Queued)))
  {
    hide ExecStep, Settle, MayReserve, MayFinish, Terminal;
  }

  lemma DispatchAgrees(r: Runtime, e: Scheduling.Event, key: Key)
    requires Coupled(r) && Allowed(r, Dispatch(e))
    ensures Agree(Next(r, Dispatch(e)), key)
  {
    CoupledAt(r, key);
    hide Act, Scheduling.DispatchStep, Coupled, WellFormed, Waits, HasRunner, Queued, Stranded;
    hide KeyHolds, Domains, Scheduling.Inv;
    if e.DispatcherTurn? {
      TurnPlaces(r.scheduler, key);
      if Scheduling.StartsNext(r.scheduler) {
        CoupledAt(r, NextItem(r.scheduler.queue).key);
        SystemPlaces(r.system, Action.Select(NextItem(r.scheduler.queue).key), key);
      }
    } else {
      SchedulerPlaces(r.scheduler, e, key);
      SystemPlaces(r.system, StopTakesAll, key);
      if r.scheduler.stopping {
        StoppedIsEmpty(r.scheduler, key);
      }
    }
  }

  lemma ScheduleAgrees(r: Runtime, k: Key, createdAt: int, key: Key)
    requires Coupled(r) && Allowed(r, Schedule(k, createdAt))
    ensures Agree(Next(r, Schedule(k, createdAt)), key)
  {
    CoupledAt(r, key);
    hide Act, Scheduling.StepState, Coupled, WellFormed, Waits, HasRunner, Queued, Stranded, Scheduling.Accepts;
    hide KeyHolds, Domains, Scheduling.Inv;
    SchedulerPlaces(r.scheduler, Scheduling.Event.Enqueue(k, createdAt), key);
    SystemPlaces(r.system, Action.Enqueue(k), key);
  }

  lemma DeliverAgrees(r: Runtime, id: nat, key: Key)
    requires Coupled(r) && Allowed(r, Deliver(id))
    ensures Agree(Next(r, Deliver(id)), key)
  {
    var k := r.system.signals[id].key;
    CoupledAt(r, key);
    SignalledIsNotQueued(r.system, id);
    hide Act, Scheduling.StepState, Coupled, WellFormed, Waits, HasRunner, Queued, Stranded;
    hide KeyHolds, Domains, Scheduling.Inv;
    SchedulerPlaces(r.scheduler, Scheduling.Event.Cancel(k), key);
    SystemPlaces(r.system, DeliverToScheduler(id), key);
  }

  /** A record that was sent for is no longer QUEUED. */
  lemma SignalledIsNotQueued(s: System, id: nat)
    requires SystemInv(s) && id in s.signals
    ensures var key := s.signals[id].key; key in s.records && s.records[key] != Record.Queued
  {
    var key := s.signals[id].key;
    assert id in s.sent && s.sent[id] == key;
    assert SentFor(s, key) && KeyHolds(s, key);
  }

  lemma LeaveAgrees(r: Runtime, k: Key, key: Key)
    requires Coupled(r) && Allowed(r, Leave(k))
    ensures Agree(Next(r, Leave(k)), key)
  {
    CoupledAt(r, key);
    hide Act, Scheduling.StepState, Coupled, WellFormed, Waits, HasRunner, Queued, Stranded;
    hide KeyHolds, Domains, Scheduling.Inv;
    SchedulerPlaces(r.scheduler, Scheduling.Event.RunnerExit(k), key);
    SystemPlaces(r.system, LeaveSlot(k), key);
  }

  lemma NextElsewhere(r: Runtime, a: Action)
    requires WellFormed(r.scheduler.queue) && !UnderLock(a)
    ensures Next(r, Elsewhere(a)) == r.(system := Act(r.system, a))
  {
    hide Act, UnderLock;
  }

  lemma ElsewhereAgrees(r: Runtime, a: Action, key: Key)
    requires Coupled(r) && Allowed(r, Elsewhere(a))
    ensures Agree(Next(r, Elsewhere(a)), key)
  {
    CoupledAt(r, key);
    NextElsewhere(r, a);
    hide Act, Next, Coupled, WellFormed, Waits, HasRunner, Queued, Stranded;
    hide KeyHolds, Domains, UnderLock, Scheduling.Inv;
    ElsewhereKeepsPlaces(r.system, a, key);
    if Stranded(Act(r.system, a), key) {
      ElsewhereStrandsNothing(r.system, a, key);
    }
  }

  lemma NextKeepsCoupled(r: Runtime, m: Move)
    requires Coupled(r)
    ensures Coupled(Next(r, m))
  {
    if Allowed(r, m) {
      if EventOf(r, m).Some? {
        Scheduling.StepKeepsInv(r.scheduler, EventOf(r, m).value);
      }
      if ActionOf(r, m).Some? {
        ActKeepsInv(r.system, ActionOf(r, m).value);
      }
      forall key ensures Agree(Next(r, m), key) {
        match m
        case Dispatch(e) => DispatchAgrees(r, e, key);
        case Schedule(k, createdAt) => ScheduleAgrees(r, k, createdAt, key);
        case Deliver(id) => DeliverAgrees(r, id, key);
        case Leave(k) => LeaveAgrees(r, k, key);
        case Elsewhere(a) => ElsewhereAgrees(r, a, key);
      }
      hide Act, Scheduling.Step, Scheduling.Inv, SystemInv, WellFormed, Agree, Allowed, EventOf, ActionOf;
    }
  }

  lemma {:induction false} RunKeepsCoupled(r: Runtime, moves: seq<Move>)
    requires Coupled(r)
    ensures Coupled(Run(r, moves))
    decreases |moves|
  {
    if moves != [] {
      NextKeepsCoupled(r, moves[0]);
      RunKeepsCoupled(Next(r, moves[0]), moves[1..]);
    }
  }

  // ---------------------------------------------------------------- what holds of the whole

  /**
   In every run the scheduler and the stages tell the same: what is queued waits, what has a slot has
   a runner, and so the scheduler's answer to a cancellation is the one the stage gives.
   */
  lemma StagesFollowScheduler(capacity: nat, moves: seq<Move>, key: Key)
    ensures var r := Run(Init(capacity), moves);
            && (Scheduling.IsQueued(r.scheduler.queue, key) <==> InStage(r.system, key, InQueue))
            && (key in r.scheduler.active
                <==> key in r.system.stages && r.system.stages[key] !in {Unscheduled, InQueue, Gone})
  {
    var r := Run(Init(capacity), moves);
    InitCoupled(capacity);
    RunKeepsCoupled(Init(capacity), moves);
    assert Agree(r, key);
    Scheduling.QueuedIsCounted(r.scheduler.queue, key);
    hide Run;
  }

  /**
   No committed Analysis is forgotten: while its record is QUEUED it has not yet been handed to the
   scheduler, or waits in its queue, or has a runner, unless dispatch was stopped or the commit
   that was to end it failed.
   */
  lemma QueuedIsInGoodHands(capacity: nat, moves: seq<Move>, key: Key)
    ensures var r := Run(Init(capacity), moves);
            key in r.system.records && r.system.records[key] == Record.Queued ==>
              || InStage(r.system, key, Unscheduled)
              || Scheduling.IsQueued(r.scheduler.queue, key)
              || key in r.scheduler.active
              || r.scheduler.stopping
              || key in r.system.unsettled
  {
    var r := Run(Init(capacity), moves);
    InitCoupled(capacity);
    RunKeepsCoupled(Init(capacity), moves);
    assert Agree(r, key);
    assert key in r.system.records ==> key in r.system.stages && KeyHolds(r.system, key);
    Scheduling.QueuedIsCounted(r.scheduler.queue, key);
    hide Run, Scheduling.Inv, SystemInv, Coupled, KeyInv;
  }

  lemma TurnMoves(r: Runtime, key: Key)
    requires WellFormed(r.scheduler.queue) && Scheduling.StartsNext(r.scheduler)
    requires key == NextItem(r.scheduler.queue).key && InStage(r.system, key, InQueue)
    ensures var t := Next(r, Dispatch(Scheduling.DispatcherTurn));
            t.scheduler == Scheduling.Step(r.scheduler, Scheduling.DispatcherTurn) && InStage(t.system, key, Selected)
  {
    hide Scheduling.Step, WellFormed;
  }

  lemma NextKey(r: Runtime) returns (key: Key)
    requires Coupled(r) && r.scheduler.queue.order != []
    ensures WellFormed(r.scheduler.queue) && key == NextItem(r.scheduler.queue).key
  {
    key := NextItem(r.scheduler.queue).key;
  }

  lemma TurnSelects(r: Runtime) returns (key: Key)
    requires Coupled(r)
    requires var s := r.scheduler; s.dispatcher == Scheduling.Top && !s.stopping && s.queue.order != [] && |s.active| < s.capacity
    ensures var t := Next(r, Dispatch(Scheduling.DispatcherTurn));
            && InStage(r.system, key, InQueue) && InStage(t.system, key, Selected)
            && key !in r.scheduler.active && t.scheduler.active == r.scheduler.active + {key}
  {
    hide Coupled, Scheduling.Step, Next, Act, Scheduling.EventInv, Scheduling.DispatcherInv;
    key := NextKey(r);
    CoupledAt(r, key);
    TurnPlaces(r.scheduler, key);
    Scheduling.TurnStarts(r.scheduler);
    TurnMoves(r, key);
  }

  /** In every run a turn of the loop with work waiting, a free slot and no stop gives one more Analysis a runner. */
  lemma TurnGivesRunner(capacity: nat, moves: seq<Move>) returns (key: Key)
    requires var s := Run(Init(capacity), moves).scheduler;
             s.dispatcher == Scheduling.Top && !s.stopping && s.queue.order != [] && |s.active| < s.capacity
    ensures var r := Run(Init(capacity), moves);
            var t := Next(r, Dispatch(Scheduling.DispatcherTurn));
            && InStage(r.system, key, InQueue) && InStage(t.system, key, Selected)
            && key !in r.scheduler.active && t.scheduler.active == r.scheduler.active + {key}
  {
    InitCoupled(capacity);
    RunKeepsCoupled(Init(capacity), moves);
    key := TurnSelects(Run(Init(capacity), moves));
    hide Coupled, Next, Act;
  }

  lemma OfferMoves(r: Runtime, key: Key, createdAt: int)
    requires Coupled(r) && InStage(r.system, key, Unscheduled)
    requires r.scheduler.dispatcher != Scheduling.NotStarted && r.scheduler.accepting
    ensures InStage(Next(r, Schedule(key, createdAt)).system, key, InQueue)
  {
    CoupledAt(r, key);
    Scheduling.QueuedIsCounted(r.scheduler.queue, key);
    hide Coupled, Scheduling.Step, Scheduling.Inv, WellFormed, Scheduling.IsQueued, KeyHolds, Domains;
  }

  lemma WaitingIsQueued(r: Runtime, key: Key)
    requires Coupled(r) && InStage(r.system, key, InQueue)
    ensures Scheduling.IsQueued(r.scheduler.queue, key)
  {
    CoupledAt(r, key);
    Scheduling.QueuedIsCounted(r.scheduler.queue, key);
    hide Coupled, KeyHolds, Domains;
  }

  /** In every run what is offered to a started scheduler that still accepts work waits afterwards. */
  lemma OfferedIsQueued(capacity: nat, moves: seq<Move>, key: Key, createdAt: int)
    requires var r := Run(Init(capacity), moves);
             && InStage(r.system, key, Unscheduled)
             && r.scheduler.dispatcher != Scheduling.NotStarted && r.scheduler.accepting
    ensures var t := Next(Run(Init(capacity), moves), Schedule(key, createdAt));
            InStage(t.system, key, InQueue) && Scheduling.IsQueued(t.scheduler.queue, key)
  {
    InitCoupled(capacity);
    RunKeepsCoupled(Init(capacity), moves);
    var r := Run(Init(capacity), moves);
    hide Coupled, Next;
    OfferMoves(r, key, createdAt);
    NextKeepsCoupled(r, Schedule(key, createdAt));
    WaitingIsQueued(Next(r, Schedule(key, createdAt)), key);
  }

  /** As many owners as processes. */
  lemma {:induction false} OwnersSuffice(frames: map<Key, Option<nat>>, alive: set<nat>, owners: set<Key>)
    requires forall p :: p in alive ==> exists k :: k in owners && k in frames && frames[k] == Some(p)
    ensures |alive| <= |owners|
    decreases alive
  {
    if alive != {} {
      var p :| p in alive;
      var owner :| owner in owners && owner in frames && frames[owner] == Some(p);
      forall q | q in alive - {p} ensures exists k :: k in owners - {owner} && k in frames && frames[k] == Some(q) {
        var k :| k in owners && k in frames && frames[k] == Some(q);
        assert k in owners - {owner};
      }
      OwnersSuffice(frames, alive - {p}, owners - {owner});
    }
  }

  /** A process runs only for an Analysis that has a slot. */
  lemma ProcessHasSlot(r: Runtime, p: nat)
    requires Coupled(r) && p in r.system.exec.alive
    ensures exists k :: k in r.scheduler.active && k in r.system.exec.frames && r.system.exec.frames[k] == Some(p)
  {
    assert NoOrphans(r.system.exec);
    var k :| k in r.system.exec.frames && r.system.exec.frames[k] == Some(p);
    assert KeyHolds(r.system, k) && Agree(r, k);
  }

  /**
   The capacity bounds the processes: in every run never more than capacity of them are alive, each
   for an Analysis that has a slot, and none once the scheduler is idle.
   */
  lemma ProcessesWithinCapacity(capacity: nat, moves: seq<Move>)
    ensures var r := Run(Init(capacity), moves);
            && |r.system.exec.alive| <= |r.scheduler.active| <= capacity
            && (forall p :: p in r.system.exec.alive ==>
                  exists k :: k in r.scheduler.active && k in r.system.exec.frames && r.system.exec.frames[k] == Some(p))
            && (r.scheduler.active == {} ==> r.system.exec.alive == {})
  {
    var r := Run(Init(capacity), moves);
    InitCoupled(capacity);
    RunKeepsCoupled(Init(capacity), moves);
    RunRefines(Init(capacity), moves);
    Scheduling.CapacityIsFixed(Scheduling.Init(capacity), EventsOf(Init(capacity), moves));
    hide Run;
    forall p | p in r.system.exec.alive
      ensures exists k :: k in r.scheduler.active && k in r.system.exec.frames && r.system.exec.frames[k] == Some(p)
    {
      ProcessHasSlot(r, p);
    }
    OwnersSuffice(r.system.exec.frames, r.system.exec.alive, r.scheduler.active);
    hide Agree, SystemInv;
  }
}
