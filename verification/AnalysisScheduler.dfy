/** The dispatcher of Analysis execution: bounded capacity, fair selection, replaceable wake and idle events. */
module AnalysisScheduling {
  import opened Common
  import opened StableSorting
  import opened FairQueue

  /*
   Every region that the scheduler runs under its lock is one step. Events are modelled by their
   identities: `fired` holds the events that have been set, and a new event takes a fresh number,
   while others may still hold the old ones.
   */

  datatype Key = Key(user: string, workspace: string, id: nat)

  /** Queued work; within one user it runs in order of creation time, then identifier. */
  datatype Work = Work(key: Key, createdAt: int)

  function ByAge(): (Work, Work) -> bool {
    (a: Work, b: Work) => a.createdAt < b.createdAt || (a.createdAt == b.createdAt && a.key.id <= b.key.id)
  }

  function KeyIs(key: Key): Work -> bool {
    (w: Work) => w.key == key
  }

  function InWorkspace(workspace: string): Work -> bool {
    (w: Work) => w.key.workspace == workspace
  }

  /** Where the dispatch loop stands between two of its locked regions. */
  datatype Dispatcher =
    | NotStarted
    | Top
    | Blocked(on: nat)
    | Replacing(seen: nat)
    | Stopped

  datatype State = State(
    capacity: nat,
    queue: Queue<Work>,
    active: set<Key>,
    wake: nat,
    idle: nat,
    fired: set<nat>,
    nextEvent: nat,
    accepting: bool,
    stopping: bool,
    dispatcher: Dispatcher,
    waiters: map<nat, nat>)

  /** A new scheduler: wake event 0 is unset, idle event 1 is set. */
  function Init(capacity: nat): State {
    State(capacity, Empty(), {}, 0, 1, {1}, 2, true, false, NotStarted, map[])
  }

  ghost predicate IsQueued(q: Queue<Work>, key: Key) {
    exists u :: u in q.items && exists w :: w in q.items[u] && w.key == key
  }

  /** How many queue entries key has. */
  function QueuedCount(q: Queue<Work>, key: Key): nat {
    |Filter(ItemsFor(q, key.user), KeyIs(key))|
  }

  // ---------------------------------------------------------------- steps

  datatype Event =
    | Start
    | Enqueue(key: Key, createdAt: int)
    | Cancel(key: Key)
    | CancelWorkspace(user: string, workspace: string)
    | StopDispatch
    | DispatcherTurn
    | RunnerExit(key: Key)
    | AwaitIdle(waiter: nat)
    | IdleWakes(waiter: nat)

  ghost predicate Accepts(s: State, key: Key) {
    s.accepting && s.dispatcher != NotStarted && key !in s.active && !IsQueued(s.queue, key)
  }

  ghost function EnqueueStep(s: State, key: Key, createdAt: int): State {
    if !Accepts(s, key) then s
    else s.(queue := Add(s.queue, key.user, Work(key, createdAt), ByAge()), fired := s.fired + {s.wake})
  }

  /** Takes one user's matching queue entries away and wakes the dispatcher if there were any. */
  function DiscardStep(s: State, user: string, drop: Work -> bool): State {
    if Filter(ItemsFor(s.queue, user), drop) == [] then s
    else s.(queue := Remove(s.queue, user, drop), fired := s.fired + {s.wake})
  }

  function StopStep(s: State): State {
    if s.stopping then s
    else s.(accepting := false, stopping := true, queue := Clear(s.queue), fired := s.fired + {s.wake})
  }

  /** The dispatcher is at the top of its loop and finds both work and a free slot. */
  predicate StartsNext(s: State) {
    s.dispatcher == Top && !s.stopping && s.queue.order != [] && |s.active| < s.capacity
  }

  ghost function DispatchStep(s: State): State
    requires WellFormed(s.queue)
  {
    match s.dispatcher
    case Top =>
      if s.stopping then s.(dispatcher := Stopped)
      else if StartsNext(s) then
        PopWellFormed(s.queue);
        var key := NextItem(s.queue).key;
        if s.active == {} then
          s.(queue := Pop(s.queue), active := {key}, idle := s.nextEvent, nextEvent := s.nextEvent + 1)
        else
          s.(queue := Pop(s.queue), active := s.active + {key})
      else s.(dispatcher := Blocked(s.wake))
    case Blocked(event) => if event in s.fired then s.(dispatcher := Replacing(event)) else s
    case Replacing(event) =>
      if s.wake == event then s.(wake := s.nextEvent, nextEvent := s.nextEvent + 1, dispatcher := Top)
      else s.(dispatcher := Top)
    case _ => s
  }

  function ExitStep(s: State, key: Key): State {
    if key !in s.active then s
    else
      var active := s.active - {key};
      s.(active := active, fired := s.fired + {s.wake} + if active == {} then {s.idle} else {})
  }

  function AwaitIdleStep(s: State, waiter: nat): State {
    if s.active == {} then s.(waiters := s.waiters - {waiter})
    else s.(waiters := s.waiters[waiter := s.idle])
  }

  ghost function StepState(s: State, e: Event): State
    requires WellFormed(s.queue)
  {
    match e
    case Start => if s.dispatcher == NotStarted then s.(dispatcher := Top) else s
    case Enqueue(key, createdAt) => EnqueueStep(s, key, createdAt)
    case Cancel(key) => DiscardStep(s, key.user, KeyIs(key))
    case CancelWorkspace(user, workspace) => DiscardStep(s, user, InWorkspace(workspace))
    case StopDispatch => StopStep(s)
    case DispatcherTurn => DispatchStep(s)
    case RunnerExit(key) => ExitStep(s, key)
    case AwaitIdle(waiter) => AwaitIdleStep(s, waiter)
    case IdleWakes(waiter) =>
      if waiter in s.waiters && s.waiters[waiter] in s.fired then AwaitIdleStep(s, waiter) else s
  }

  lemma StepKeepsQueue(s: State, e: Event)
    requires WellFormed(s.queue)
    ensures WellFormed(StepState(s, e).queue)
  {
    hide WellFormed;
    match e
    case Enqueue(key, createdAt) => AddWellFormed(s.queue, key.user, Work(key, createdAt), ByAge());
    case Cancel(key) => RemoveWellFormed(s.queue, key.user, KeyIs(key));
    case CancelWorkspace(user, workspace) => RemoveWellFormed(s.queue, user, InWorkspace(workspace));
    case StopDispatch => ClearWellFormed(s.queue);
    case DispatcherTurn => if s.queue.order != [] { PopWellFormed(s.queue); }
    case _ =>
  }

  ghost function Step(s: State, e: Event): (r: State)
    requires WellFormed(s.queue)
    ensures WellFormed(r.queue)
  {
    StepKeepsQueue(s, e);
    StepState(s, e)
  }

  ghost function Run(s: State, es: seq<Event>): (r: State)
    requires WellFormed(s.queue)
    ensures WellFormed(r.queue)
    decreases |es|
  {
    if es == [] then s else Run(Step(s, es[0]), es[1..])
  }

  // ---------------------------------------------------------------- the invariant

  /** 1 if key runs, plus its queue entries. */
  function Here(q: Queue<Work>, active: set<Key>, key: Key): nat {
    QueuedCount(q, key) + if key in active then 1 else 0
  }

  ghost predicate OwnItems(q: Queue<Work>) {
    forall u, w :: u in q.items && w in q.items[u] ==> w.key.user == u
  }

  ghost predicate QueueInv(s: State) {
    && WellFormed(s.queue)
    && OwnItems(s.queue)
    && (forall k :: Here(s.queue, s.active, k) <= 1)
    && |s.active| <= s.capacity
  }

  /** Current events are fresh enough, and idle is set exactly when nothing runs. */
  ghost predicate EventInv(s: State) {
    && s.wake < s.nextEvent && s.idle < s.nextEvent && s.wake != s.idle
    && (forall e :: e in s.fired ==> e < s.nextEvent)
    && (s.idle in s.fired <==> s.active == {})
    && (forall x :: x in s.waiters ==> s.waiters[x] in s.fired || s.waiters[x] == s.idle)
  }

  ghost predicate DispatcherInv(s: State) {
    && (s.stopping <==> !s.accepting)
    && (s.stopping ==> s.queue.order == [])
    && (s.dispatcher == NotStarted ==> s.queue.order == [] && s.active == {})
    && (s.dispatcher == Stopped ==> s.stopping)
    && (s.dispatcher.Replacing? ==> s.dispatcher.seen == s.wake)
    && (s.dispatcher.Blocked? ==>
          && s.dispatcher.on == s.wake
          && (s.wake !in s.fired ==>
                !s.stopping && (s.queue.order == [] || |s.active| == s.capacity)))
  }

  ghost predicate Inv(s: State) {
    QueueInv(s) && EventInv(s) && DispatcherInv(s)
  }

  lemma CountOfAdded(q: Queue<Work>, work: Work, key: Key)
    ensures QueuedCount(Add(q, work.key.user, work, ByAge()), key)
            == QueuedCount(q, key) + if work.key == key then 1 else 0
  {
    if work.key.user == key.user {
      var mine := ItemsFor(q, key.user);
      FilterRearranged(StableSort(ByAge(), mine + [work]), mine + [work], KeyIs(key));
      SameLength(Filter(StableSort(ByAge(), mine + [work]), KeyIs(key)), Filter(mine + [work], KeyIs(key)));
      FilterConcat(mine, [work], KeyIs(key));
    }
  }

  lemma CountOfPopped(q: Queue<Work>, key: Key)
    requires WellFormed(q) && OwnItems(q) && q.order != []
    ensures OwnItems(Pop(q))
    ensures QueuedCount(q, key) == QueuedCount(Pop(q), key) + if NextItem(q).key == key then 1 else 0
  {
    var mine := q.items[NextUser(q)];
    assert mine == [mine[0]] + mine[1..];
    assert NextItem(q) in mine;
  }

  lemma CountOfRemoved(q: Queue<Work>, user: string, drop: Work -> bool, key: Key)
    requires WellFormed(q)
    requires forall w, v :: w in ItemsFor(q, user) && v in ItemsFor(q, user) && w.key == v.key
                            ==> drop(w) == drop(v)
    ensures QueuedCount(Remove(q, user, drop), key)
            == if user == key.user && exists w :: w in ItemsFor(q, user) && w.key == key && drop(w)
               then 0 else QueuedCount(q, key)
  {
    if user == key.user {
      var mine := ItemsFor(q, user);
      var both := (w: Work) => !drop(w) && w.key == key;
      FilterTwice(mine, Not(drop), KeyIs(key), both);
      if exists w :: w in mine && w.key == key && drop(w) {
        FilterNone(mine, both);
      } else {
        FilterAgree(mine, KeyIs(key), both);
      }
      if Filter(mine, drop) == [] {
        assert forall w :: w in mine ==> !drop(w) by {
          forall w | w in mine ensures !drop(w) { assert w in Filter(mine, drop) || !drop(w); }
        }
      }
    }
  }

  lemma QueuedIsCounted(q: Queue<Work>, key: Key)
    requires OwnItems(q)
    ensures IsQueued(q, key) <==> QueuedCount(q, key) > 0
  {
    var mine := Filter(ItemsFor(q, key.user), KeyIs(key));
    if QueuedCount(q, key) > 0 {
      assert mine[0] in mine;
    }
    if IsQueued(q, key) {
      var u :| u in q.items && exists w :: w in q.items[u] && w.key == key;
      var w :| w in q.items[u] && w.key == key;
      assert w in mine;
    }
  }

  // ---------------------------------------------------------------- the invariant is inductive

  lemma AddKeepsInv(s: State, key: Key, createdAt: int)
    requires Inv(s)
    ensures Inv(EnqueueStep(s, key, createdAt))
  {
    if Accepts(s, key) {
      var work, s' := Work(key, createdAt), EnqueueStep(s, key, createdAt);
      AddWellFormed(s.queue, key.user, work, ByAge());
      QueuedIsCounted(s.queue, key);
      forall k ensures Here(s'.queue, s'.active, k) <= 1 {
        assert Here(s.queue, s.active, k) <= 1;
        CountOfAdded(s.queue, work, k);
      }
      forall u, w | u in s'.queue.items && w in s'.queue.items[u] ensures w.key.user == u {
        if u == key.user {
          assert w in multiset(s'.queue.items[u]);
          assert w in multiset(ItemsFor(s.queue, u) + [work]);
          assert w in ItemsFor(s.queue, u) + [work];
        }
      }
    }
  }

  ghost predicate ByKey(drop: Work -> bool) {
    forall w: Work, v: Work :: w.key == v.key ==> drop(w) == drop(v)
  }

  lemma DiscardKeepsInv(s: State, user: string, drop: Work -> bool)
    requires Inv(s) && ByKey(drop)
    ensures Inv(DiscardStep(s, user, drop))
  {
    if Filter(ItemsFor(s.queue, user), drop) != [] {
      var s' := DiscardStep(s, user, drop);
      RemoveWellFormed(s.queue, user, drop);
      forall k ensures Here(s'.queue, s'.active, k) <= 1 {
        assert Here(s.queue, s.active, k) <= 1;
        CountOfRemoved(s.queue, user, drop, k);
      }
    }
  }

  lemma StartKeepsQueueInv(s: State)
    requires Inv(s) && StartsNext(s)
    ensures NextItem(s.queue).key !in s.active
    ensures QueueInv(DispatchStep(s))
  {
    var s', next := DispatchStep(s), NextItem(s.queue);
    PopWellFormed(s.queue);
    CountOfPopped(s.queue, next.key);
    hide WellFormed, Filter, Pop;
    assert Here(s.queue, s.active, next.key) <= 1;
    forall k ensures Here(s'.queue, s'.active, k) <= 1 {
      assert Here(s.queue, s.active, k) <= 1;
      CountOfPopped(s.queue, k);
    }
  }

  lemma DispatchKeepsInv(s: State)
    requires Inv(s)
    ensures Inv(DispatchStep(s))
  {
    if StartsNext(s) {
      StartKeepsQueueInv(s);
    }
  }

  lemma ExitKeepsInv(s: State, key: Key)
    requires Inv(s)
    ensures Inv(ExitStep(s, key))
  {
    if key in s.active {
      var s' := ExitStep(s, key);
      forall k ensures Here(s'.queue, s'.active, k) <= 1 {
        assert Here(s.queue, s.active, k) <= 1;
      }
    }
  }

  lemma StepKeepsInv(s: State, e: Event)
    requires Inv(s)
    ensures Inv(Step(s, e))
  {
    match e
    case Start =>
    case Enqueue(key, createdAt) => AddKeepsInv(s, key, createdAt);
    case Cancel(key) => DiscardKeepsInv(s, key.user, KeyIs(key));
    case CancelWorkspace(user, workspace) => DiscardKeepsInv(s, user, InWorkspace(workspace));
    case StopDispatch =>
      forall k ensures Here(StopStep(s).queue, s.active, k) <= 1 {
        assert Here(s.queue, s.active, k) <= 1;
      }
    case DispatcherTurn => DispatchKeepsInv(s);
    case RunnerExit(key) => ExitKeepsInv(s, key);
    case AwaitIdle(_) =>
    case IdleWakes(_) =>
  }

  lemma {:induction false} RunKeepsInv(s: State, es: seq<Event>)
    requires Inv(s)
    ensures Inv(Run(s, es))
    decreases |es|
  {
    if es != [] {
      StepKeepsInv(s, es[0]);
      RunKeepsInv(Step(s, es[0]), es[1..]);
    }
  }

  lemma InitInv(capacity: nat)
    ensures Inv(Init(capacity))
  {
  }

  // ---------------------------------------------------------------- properties of every run

  /**
   No lost wake-up. Whenever the dispatcher sleeps on an event that is not set, that event is the
   current one, dispatch is not stopping, and either nothing is queued or every slot is taken.
   */
  lemma NoLostWakeup(capacity: nat, es: seq<Event>)
    ensures var s := Run(Init(capacity), es);
            s.dispatcher.Blocked? && s.dispatcher.on !in s.fired ==>
              && s.dispatcher.on == s.wake
              && !s.stopping
              && (s.queue.order == [] || |s.active| == capacity)
  {
    InitInv(capacity);
    RunKeepsInv(Init(capacity), es);
    CapacityIsFixed(Init(capacity), es);
  }

  lemma {:induction false} CapacityIsFixed(s: State, es: seq<Event>)
    requires WellFormed(s.queue)
    ensures Run(s, es).capacity == s.capacity
    decreases |es|
  {
    if es != [] {
      CapacityIsFixed(Step(s, es[0]), es[1..]);
    }
  }

  /** Work is queued, a slot is free and dispatch runs, in every state of the run. */
  ghost predicate RoomThroughout(s: State, es: seq<Event>)
    requires WellFormed(s.queue)
    decreases |es|
  {
    && s.dispatcher != NotStarted && !s.stopping && s.queue.order != [] && |s.active| < s.capacity
    && (es != [] ==> RoomThroughout(Step(s, es[0]), es[1..]))
  }

  ghost function Turns(es: seq<Event>): nat {
    if es == [] then 0 else (if es[0].DispatcherTurn? then 1 else 0) + Turns(es[1..])
  }

  /** 1 if the step starts an item of user, or of anyone when user is None. */
  ghost function StartedBy(s: State, e: Event, user: Option<string>): nat
    requires WellFormed(s.queue)
  {
    if e.DispatcherTurn? && StartsNext(s) && (user.None? || user.value == NextUser(s.queue)) then 1 else 0
  }

  /** How many items the dispatcher starts in a run, for one user or (None) for all. */
  ghost function Starts(s: State, es: seq<Event>, user: Option<string>): nat
    requires WellFormed(s.queue)
    decreases |es|
  {
    if es == [] then 0 else StartedBy(s, es[0], user) + Starts(Step(s, es[0]), es[1..], user)
  }

  /** Turns the dispatcher needs, from where it stands, to reach the top of its loop. */
  function TurnsToTop(d: Dispatcher): nat {
    match d
    case Blocked(_) => 2
    case Replacing(_) => 1
    case _ => 0
  }

  /**
   Work conservation. While work is queued and a slot is free, the dispatcher starts something
   within three of its own turns, however the other tasks interleave with it.
   */
  lemma {:induction false} StartsWithinThreeTurns(s: State, es: seq<Event>)
    requires Inv(s) && RoomThroughout(s, es) && Starts(s, es, None) == 0
    ensures Turns(es) <= TurnsToTop(s.dispatcher) <= 2
    decreases |es|
  {
    if es != [] {
      StepKeepsInv(s, es[0]);
      StartsWithinThreeTurns(Step(s, es[0]), es[1..]);
    }
  }

  /** What became of one key: how often it was accepted, and how often each end was reached. */
  datatype Fates = Fates(accepted: nat, finished: nat, cancelled: nat, returned: nat)

  ghost function StepFates(s: State, e: Event, key: Key): Fates {
    match e
    case Enqueue(k, _) => Fates(if k == key && Accepts(s, k) then 1 else 0, 0, 0, 0)
    case RunnerExit(k) => Fates(0, if k == key && k in s.active then 1 else 0, 0, 0)
    case Cancel(k) => Fates(0, 0, if k == key then QueuedCount(s.queue, key) else 0, 0)
    case CancelWorkspace(u, w) =>
      Fates(0, 0, if key.user == u && key.workspace == w then QueuedCount(s.queue, key) else 0, 0)
    case StopDispatch => Fates(0, 0, 0, if s.stopping then 0 else QueuedCount(s.queue, key))
    case _ => Fates(0, 0, 0, 0)
  }

  ghost function FatesOf(s: State, es: seq<Event>, key: Key): Fates
    requires WellFormed(s.queue)
    decreases |es|
  {
    if es == [] then Fates(0, 0, 0, 0)
    else
      var now, later := StepFates(s, es[0], key), FatesOf(Step(s, es[0]), es[1..], key);
      Fates(now.accepted + later.accepted, now.finished + later.finished,
            now.cancelled + later.cancelled, now.returned + later.returned)
  }

  lemma DiscardBalances(s: State, user: string, drop: Work -> bool, key: Key)
    requires Inv(s) && ByKey(drop)
    ensures var gone := user == key.user && exists w :: w in ItemsFor(s.queue, user) && w.key == key && drop(w);
            Here(DiscardStep(s, user, drop).queue, s.active, key)
            == Here(s.queue, s.active, key) - if gone then QueuedCount(s.queue, key) else 0
  {
    CountOfRemoved(s.queue, user, drop, key);
    if exists w :: w in ItemsFor(s.queue, user) && drop(w) {
      var w :| w in ItemsFor(s.queue, user) && drop(w);
      assert w in Filter(ItemsFor(s.queue, user), drop);
    }
  }

  lemma QueuedHasEntry(s: State, key: Key)
    requires Inv(s) && QueuedCount(s.queue, key) > 0
    ensures exists w :: w in ItemsFor(s.queue, key.user) && w.key == key
  {
    var mine := Filter(ItemsFor(s.queue, key.user), KeyIs(key));
    assert mine[0] in mine;
  }

  lemma NothingQueued(key: Key)
    ensures forall last :: QueuedCount(Queue(map[], [], last), key) == 0
  {
  }

  lemma StepBalances(s: State, e: Event, key: Key)
    requires Inv(s)
    ensures var f, s' := StepFates(s, e, key), Step(s, e);
            Here(s.queue, s.active, key) + f.accepted
            == Here(s'.queue, s'.active, key) + f.finished + f.cancelled + f.returned
  {
    hide WellFormed, OwnItems, Filter, StableSort;
    match e
    case StopDispatch => NothingQueued(key);
    case Enqueue(k, createdAt) => CountOfAdded(s.queue, Work(k, createdAt), key);
    case Cancel(k) =>
      DiscardBalances(s, k.user, KeyIs(k), key);
      if QueuedCount(s.queue, key) > 0 { QueuedHasEntry(s, key); }
    case CancelWorkspace(user, workspace) =>
      DiscardBalances(s, user, InWorkspace(workspace), key);
      if QueuedCount(s.queue, key) > 0 { QueuedHasEntry(s, key); }
    case DispatcherTurn =>
      if StartsNext(s) {
        StartKeepsQueueInv(s);
        CountOfPopped(s.queue, key);
      }
    case _ =>
  }

  lemma {:induction false} FatesBalance(s: State, es: seq<Event>, key: Key)
    requires Inv(s)
    ensures var f, s' := FatesOf(s, es, key), Run(s, es);
            Here(s.queue, s.active, key) + f.accepted
            == Here(s'.queue, s'.active, key) + f.finished + f.cancelled + f.returned
    decreases |es|
  {
    if es != [] {
      StepKeepsInv(s, es[0]);
      StepBalances(s, es[0], key);
      FatesBalance(Step(s, es[0]), es[1..], key);
    }
  }

  /**
   Exactly one fate. Every accepted key is queued, running, finished, cancelled while queued or
   handed back by the stop, counted exactly once; it is never both queued and running, and never
   more than capacity items run.
   */
  lemma ExactlyOneFate(capacity: nat, es: seq<Event>, key: Key)
    ensures var s, f := Run(Init(capacity), es), FatesOf(Init(capacity), es, key);
            && f.accepted == Here(s.queue, s.active, key) + f.finished + f.cancelled + f.returned
            && Here(s.queue, s.active, key) <= 1
            && |s.active| <= capacity
  {
    InitInv(capacity);
    RunKeepsInv(Init(capacity), es);
    FatesBalance(Init(capacity), es, key);
    CapacityIsFixed(Init(capacity), es);
  }

  /** Once dispatch has stopped, nothing is queued and nothing starts any more. */
  lemma {:induction false} NothingStartsAfterStop(s: State, es: seq<Event>)
    requires Inv(s) && s.stopping
    ensures Starts(s, es, None) == 0
    ensures Run(s, es).stopping && Run(s, es).queue.order == [] && Run(s, es).active <= s.active
    decreases |es|
  {
    if es != [] {
      StepKeepsInv(s, es[0]);
      NothingStartsAfterStop(Step(s, es[0]), es[1..]);
    }
  }

  /**
   The idle event is set exactly when nothing runs, and a task that still sleeps waiting for
   idleness sleeps on the current idle event while something does run.
   */
  lemma IdleIsNeverStale(capacity: nat, es: seq<Event>)
    ensures var s := Run(Init(capacity), es);
            && (s.idle in s.fired <==> s.active == {})
            && (forall x :: x in s.waiters && s.waiters[x] !in s.fired ==>
                  s.waiters[x] == s.idle && s.active != {})
  {
    InitInv(capacity);
    RunKeepsInv(Init(capacity), es);
  }

  // ---------------------------------------------------------------- fairness, end to end

  /** What one scheduler step does to the queue. */
  ghost function QueueOp(s: State, e: Event): Option<Op<Work>> {
    match e
    case Enqueue(key, createdAt) =>
      if Accepts(s, key) then Some(OpAdd(key.user, Work(key, createdAt))) else None
    case Cancel(key) => Some(OpRemove(key.user, KeyIs(key)))
    case CancelWorkspace(user, workspace) => Some(OpRemove(user, InWorkspace(workspace)))
    case StopDispatch => if s.stopping then None else Some(OpClear)
    case DispatcherTurn => if StartsNext(s) then Some(OpPop) else None
    case _ => None
  }

  ghost function QueueOps(s: State, es: seq<Event>): seq<Op<Work>>
    requires WellFormed(s.queue)
    decreases |es|
  {
    if es == [] then []
    else
      var rest := QueueOps(Step(s, es[0]), es[1..]);
      match QueueOp(s, es[0])
      case None => rest
      case Some(op) => [op] + rest
  }

  lemma StepIsQueueOp(s: State, e: Event, user: string)
    requires WellFormed(s.queue)
    ensures match QueueOp(s, e)
            case None => Step(s, e).queue == s.queue && StartedBy(s, e, Some(user)) == 0
            case Some(op) =>
              && Step(s, e).queue == QueueStep(s.queue, op, ByAge())
              && StartedBy(s, e, Some(user)) == PickedBy(s.queue, op, user)
  {
    hide WellFormed, Filter, Accepts, StableSort;
  }

  /** user has queued work in every state of the run, and none of it is started. */
  ghost predicate KeptQueued(s: State, es: seq<Event>, user: string)
    requires WellFormed(s.queue)
    decreases |es|
  {
    && user in s.queue.order
    && (es != [] ==>
          && StartedBy(s, es[0], Some(user)) == 0
          && KeptQueued(Step(s, es[0]), es[1..], user))
  }

  lemma {:induction false} StartsArePicks(s: State, es: seq<Event>, user: string)
    requires WellFormed(s.queue)
    ensures Starts(s, es, Some(user)) == Picks(s.queue, QueueOps(s, es), ByAge(), user)
    decreases |es|
  {
    if es != [] {
      StepIsQueueOp(s, es[0], user);
      StartsArePicks(Step(s, es[0]), es[1..], user);
      Prepended(s, es);
    }
  }

  lemma {:induction false} QueuedIsWaiting(s: State, es: seq<Event>, user: string)
    requires WellFormed(s.queue) && KeptQueued(s, es, user)
    ensures KeptWaiting(s.queue, QueueOps(s, es), ByAge(), user)
    decreases |es|
  {
    if es != [] {
      StepIsQueueOp(s, es[0], user);
      QueuedIsWaiting(Step(s, es[0]), es[1..], user);
      Prepended(s, es);
    }
  }

  lemma Prepended(s: State, es: seq<Event>)
    requires WellFormed(s.queue) && es != []
    ensures var rest := QueueOps(Step(s, es[0]), es[1..]);
            match QueueOp(s, es[0])
            case None => QueueOps(s, es) == rest
            case Some(op) => QueueOps(s, es) != [] && QueueOps(s, es)[0] == op && QueueOps(s, es)[1..] == rest
  {
  }

  /**
   Fair dispatch. While one user's work stays queued, the dispatcher starts work of each other
   user at most once, over every run of every scheduler operation.
   */
  lemma FairDispatch(s: State, es: seq<Event>, user: string, other: string)
    requires WellFormed(s.queue) && KeptQueued(s, es, user) && other != user
    ensures Starts(s, es, Some(other)) <= 1
  {
    QueuedIsWaiting(s, es, user);
    StartsArePicks(s, es, other);
    BypassedAtMostOnce(s.queue, QueueOps(s, es), ByAge(), user, other);
  }

  // ---------------------------------------------------------------- what a step achieves

  lemma ByAgeIsPreorder()
    ensures TotalPreorder(ByAge())
  {
  }

  lemma StepKeepsOrder(s: State, e: Event, user: string)
    requires WellFormed(s.queue) && Sorted(ByAge(), ItemsFor(s.queue, user))
    ensures Sorted(ByAge(), ItemsFor(Step(s, e).queue, user))
  {
    ByAgeIsPreorder();
    StepIsQueueOp(s, e, user);
    if QueueOp(s, e).Some? {
      RunKeepsSorted(s.queue, [QueueOp(s, e).value], ByAge(), user);
      OneQueueOp(s.queue, QueueOp(s, e).value);
    }
    hide Step, QueueOp, WellFormed, TotalPreorder, Sorted;
  }

  lemma OneQueueOp(q: Queue<Work>, op: Op<Work>)
    requires WellFormed(q)
    ensures QueueRun(q, [op], ByAge()) == QueueStep(q, op, ByAge())
  {
    assert [op][1..] == [];
    assert QueueRun(q, [op], ByAge()) == QueueRun(QueueStep(q, op, ByAge()), [], ByAge());
  }

  lemma {:induction false} RunKeepsOrder(s: State, es: seq<Event>, user: string)
    requires WellFormed(s.queue) && Sorted(ByAge(), ItemsFor(s.queue, user))
    ensures Sorted(ByAge(), ItemsFor(Run(s, es).queue, user))
    decreases |es|
  {
    if es != [] {
      StepKeepsOrder(s, es[0], user);
      RunKeepsOrder(Step(s, es[0]), es[1..], user);
    }
  }

  /**
   What a turn of the loop starts. In every run a loop at its top, with work queued, a free slot and
   no stop, starts exactly one item: it was queued, and it is the oldest of its user, by creation
   time and then by identifier.
   */
  lemma OldestStartsFirst(capacity: nat, es: seq<Event>)
    ensures var s := Run(Init(capacity), es);
            s.dispatcher == Top && !s.stopping && s.queue.order != [] && |s.active| < capacity ==>
              exists user, w ::
                && user in s.queue.items && w in s.queue.items[user]
                && w.key !in s.active && Step(s, DispatcherTurn).active == s.active + {w.key}
                && !IsQueued(Step(s, DispatcherTurn).queue, w.key)
                && forall v :: v in s.queue.items[user] ==>
                     w.createdAt < v.createdAt || (w.createdAt == v.createdAt && w.key.id <= v.key.id)
  {
    var s := Run(Init(capacity), es);
    InitInv(capacity);
    RunKeepsInv(Init(capacity), es);
    CapacityIsFixed(Init(capacity), es);
    hide Run;
    if s.dispatcher == Top && !s.stopping && s.queue.order != [] && |s.active| < capacity {
      var user, w := NextUser(s.queue), NextItem(s.queue);
      RunKeepsOrder(Init(capacity), es, user);
      OldestIsNext(s);
      TurnStarts(s);
    }
  }

  lemma OldestIsNext(s: State)
    requires WellFormed(s.queue) && s.queue.order != [] && Sorted(ByAge(), ItemsFor(s.queue, NextUser(s.queue)))
    ensures var user, w := NextUser(s.queue), NextItem(s.queue);
            && user in s.queue.items && w in s.queue.items[user]
            && forall v :: v in s.queue.items[user] ==>
                 w.createdAt < v.createdAt || (w.createdAt == v.createdAt && w.key.id <= v.key.id)
  {
    var w, mine := NextItem(s.queue), s.queue.items[NextUser(s.queue)];
    assert w == mine[0];
    forall v | v in mine ensures w.createdAt < v.createdAt || (w.createdAt == v.createdAt && w.key.id <= v.key.id) {
      assert ByAge()(mine[0], v);
    }
  }

  lemma TurnStarts(s: State)
    requires Inv(s) && s.dispatcher == Top && !s.stopping && s.queue.order != [] && |s.active| < s.capacity
    ensures var key := NextItem(s.queue).key;
            && key !in s.active && Step(s, DispatcherTurn).active == s.active + {key}
            && !IsQueued(Step(s, DispatcherTurn).queue, key)
  {
    var key := NextItem(s.queue).key;
    assert StartsNext(s);
    StartKeepsQueueInv(s);
    CountOfPopped(s.queue, key);
    assert Here(s.queue, s.active, key) <= 1;
    QueuedIsCounted(Pop(s.queue), key);
    hide Pop, Filter, EventInv, DispatcherInv, OwnItems, IsQueued, QueuedCount, QueueInv, WellFormed;
  }

  lemma {:induction false} AcceptingIs(s: State, es: seq<Event>)
    requires WellFormed(s.queue)
    ensures var t := Run(s, es);
            && (t.dispatcher == NotStarted <==> s.dispatcher == NotStarted && Event.Start !in es)
            && (t.accepting <==> s.accepting && (s.stopping || StopDispatch !in es))
            && (t.stopping <==> s.stopping || StopDispatch in es)
    decreases |es|
  {
    if es != [] {
      AcceptingIs(Step(s, es[0]), es[1..]);
      assert es == [es[0]] + es[1..];
      StepMovesFlags(s, es[0]);
      hide Step, WellFormed;
    }
  }

  lemma StepMovesFlags(s: State, e: Event)
    requires WellFormed(s.queue)
    ensures var t := Step(s, e);
            && (t.dispatcher == NotStarted <==> s.dispatcher == NotStarted && e != Event.Start)
            && (t.accepting <==> s.accepting && (s.stopping || e != StopDispatch))
            && (t.stopping <==> s.stopping || e == StopDispatch)
  {
    hide StableSort, Filter;
  }

  /**
   What an attempt to enqueue achieves. In every run the key is queued afterwards exactly if it was
   queued before, or dispatch has been started and not been stopped and the key does not run.
   */
  lemma EnqueueTakesEffect(capacity: nat, es: seq<Event>, key: Key, createdAt: int)
    ensures var s := Run(Init(capacity), es);
            var t := Step(s, Enqueue(key, createdAt));
            && (IsQueued(t.queue, key) <==>
                  IsQueued(s.queue, key) || (Event.Start in es && StopDispatch !in es && key !in s.active))
            && t.active == s.active
            && forall k :: k != key ==> (IsQueued(t.queue, k) <==> IsQueued(s.queue, k))
  {
    var s := Run(Init(capacity), es);
    var t := Step(s, Enqueue(key, createdAt));
    InitInv(capacity);
    RunKeepsInv(Init(capacity), es);
    AcceptingIs(Init(capacity), es);
    StepKeepsInv(s, Enqueue(key, createdAt));
    hide Run;
    forall k ensures IsQueued(t.queue, k) <==> IsQueued(s.queue, k) || (Accepts(s, key) && k == key) {
      CountOfAdded(s.queue, Work(key, createdAt), k);
      QueuedIsCounted(s.queue, k);
      QueuedIsCounted(t.queue, k);
      hide IsQueued, Add, QueuedCount;
    }
    hide IsQueued, Step;
  }

  // ---------------------------------------------------------------- the mutable scheduler

  datatype EnqueueOutcome = Accepted | NotAccepting | AlreadyScheduled

  function KeyAmong(works: seq<Work>): Work -> bool {
    (w: Work) => w.key in KeysOf(works)
  }

  function KeysOf(works: seq<Work>): set<Key> {
    set w | w in works :: w.key
  }

  lemma KeyAmongNext(works: seq<Work>, i: nat)
    requires i < |works|
    ensures forall w :: KeyAmong(works[..i + 1])(w) == (KeyAmong(works[..i])(w) || KeyIs(works[i].key)(w))
  {
    assert works[..i + 1] == works[..i] + [works[i]];
    assert KeysOf(works[..i + 1]) == KeysOf(works[..i]) + {works[i].key};
  }

  /** The scheduler's fields; each method is one region run under its lock. */
  class AnalysisScheduler {
    const capacity: nat
    const pending: FairUserQueue<Work>
    var active: set<Key>
    var wake: nat
    var idle: nat
    var fired: set<nat>
    var nextEvent: nat
    var accepting: bool
    var stopping: bool
    var dispatcher: Dispatcher
    var waiters: map<nat, nat>

    ghost function View(): State
      reads this, pending
    {
      State(capacity, pending.View(), active, wake, idle, fired, nextEvent, accepting, stopping,
            dispatcher, waiters)
    }

    constructor (capacity: nat)
      requires capacity >= 1
      ensures View() == Init(capacity) && fresh(pending)
    {
      this.capacity := capacity;
      pending := new FairUserQueue();
      active, wake, idle, fired, nextEvent := {}, 0, 1, {1}, 2;
      accepting, stopping, dispatcher, waiters := true, false, NotStarted, map[];
    }

    method Start() returns (ok: bool)
      requires Inv(View())
      modifies this
      ensures View() == Step(old(View()), Event.Start) && Inv(View())
      ensures ok <==> old(dispatcher) == NotStarted
    {
      StepKeepsInv(View(), Event.Start);
      ok := dispatcher == NotStarted;
      if ok {
        dispatcher := Top;
      }
    }

    method Submit(key: Key, createdAt: int) returns (outcome: EnqueueOutcome)
      requires Inv(View())
      modifies this, pending
      ensures View() == Step(old(View()), Enqueue(key, createdAt)) && Inv(View())
      ensures outcome == Accepted <==>
                && old(accepting) && old(dispatcher) != NotStarted
                && key !in old(active) && !IsQueued(old(View()).queue, key)
      ensures outcome == NotAccepting <==> !old(accepting) || old(dispatcher) == NotStarted
    {
      StepKeepsInv(View(), Enqueue(key, createdAt));
      hide Inv, WellFormed, StableSort;
      if !accepting || dispatcher == NotStarted {
        return NotAccepting;
      }
      if key in active || exists u | u in pending.items.Keys :: exists w | w in pending.items[u] :: w.key == key {
        return AlreadyScheduled;
      }
      pending.Enqueue(key.user, Work(key, createdAt), ByAge());
      fired := fired + {wake};
      return Accepted;
    }

    /** Removes the queued work, or tells that the key runs and must be signalled. */
    method CancelQueued(key: Key) returns (removed: bool, isActive: bool)
      requires Inv(View())
      modifies this, pending
      ensures View() == Step(old(View()), Cancel(key)) && Inv(View())
      ensures removed <==> IsQueued(old(View()).queue, key)
      ensures isActive <==> key in active
      ensures !(removed && isActive)
    {
      StepKeepsInv(View(), Cancel(key));
      QueuedIsCounted(pending.View(), key);
      assert Here(pending.View(), active, key) <= 1;
      var gone := pending.Discard(key.user, KeyIs(key));
      removed := gone != [];
      if removed {
        fired := fired + {wake};
      }
      isActive := key in active;
    }

    method HasWorkspaceWork(user: string, workspace: string) returns (has: bool)
      requires Inv(View())
      ensures has <==> exists key: Key :: key.user == user && key.workspace == workspace
                         && (IsQueued(View().queue, key) || key in active)
    {
      var mine := if user in pending.items then pending.items[user] else [];
      var waiting := exists w | w in mine :: w.key.workspace == workspace;
      var running := exists key | key in active :: key.user == user && key.workspace == workspace;
      has := waiting || running;
      if waiting {
        var w :| w in mine && w.key.workspace == workspace;
        assert IsQueued(View().queue, w.key);
      }
    }

    method StopDispatching() returns (queued: seq<Work>)
      requires Inv(View())
      modifies this, pending
      ensures View() == Step(old(View()), StopDispatch) && Inv(View())
      ensures old(stopping) ==> queued == []
      ensures !old(stopping) ==>
                exists users :: Lists(users, old(pending.items).Keys) && queued == Gather(old(pending.items), users)
    {
      StepKeepsInv(View(), StopDispatch);
      if stopping {
        return [];
      }
      accepting := false;
      stopping := true;
      queued := pending.Drain();
      fired := fired + {wake};
    }

    /** Takes the next item into a free slot, behind a fresh idle event if nothing ran. */
    method TakeNext() returns (item: Work)
      requires Inv(View()) && StartsNext(View())
      modifies this, pending
      ensures View() == DispatchStep(old(View())) && item == NextItem(old(View()).queue)
    {
      item := pending.Select();
      if active == {} {
        idle := nextEvent;
        nextEvent := nextEvent + 1;
      }
      active := active + {item.key};
    }

    /** The top of the dispatch loop: start the next item, go to sleep, or stop. */
    method TakeOrSleep() returns (started: Option<Work>)
      requires Inv(View()) && dispatcher == Top
      modifies this, pending
      ensures View() == Step(old(View()), DispatcherTurn) && Inv(View())
      ensures started == if StartsNext(old(View())) then Some(NextItem(old(View()).queue)) else None
      ensures started.Some? <==> !old(stopping) && old(pending.userOrder) != [] && |old(active)| < capacity
      ensures started.Some? ==> active == old(active) + {started.value.key}
    {
      StepKeepsInv(View(), DispatcherTurn);
      started := None;
      if stopping {
        dispatcher := Stopped;
        return;
      }
      var waiting := pending.IsWaiting();
      if waiting && |active| < capacity {
        var item := TakeNext();
        started := Some(item);
      } else {
        dispatcher := Blocked(wake);
      }
    }

    /** The sleeping dispatcher runs on only once the event it captured is set. */
    method NoticeWake()
      requires Inv(View()) && dispatcher.Blocked?
      modifies this
      ensures View() == Step(old(View()), DispatcherTurn) && Inv(View())
    {
      StepKeepsInv(View(), DispatcherTurn);
      if dispatcher.on in fired {
        dispatcher := Replacing(dispatcher.on);
      }
    }

    method ReplaceWake()
      requires Inv(View()) && dispatcher.Replacing?
      modifies this
      ensures View() == Step(old(View()), DispatcherTurn) && Inv(View())
    {
      StepKeepsInv(View(), DispatcherTurn);
      if wake == dispatcher.seen {
        wake := nextEvent;
        nextEvent := nextEvent + 1;
      }
      dispatcher := Top;
    }

    /** The final region of a runner, whatever it did before. */
    method Exit(key: Key)
      requires Inv(View()) && key in active
      modifies this
      ensures View() == Step(old(View()), RunnerExit(key)) && Inv(View())
    {
      StepKeepsInv(View(), RunnerExit(key));
      hide Inv;
      active := active - {key};
      if active == {} {
        fired := fired + {idle};
      }
      fired := fired + {wake};
    }

    /** One turn of wait_idle: done, or asleep on the captured idle event. */
    method CheckIdle(waiter: nat) returns (done: bool)
      requires Inv(View())
      modifies this
      ensures View() == Step(old(View()), AwaitIdle(waiter)) && Inv(View())
      ensures done <==> active == {}
      ensures waiters == if done then old(waiters) - {waiter} else old(waiters)[waiter := idle]
      ensures active == old(active) && idle == old(idle) && fired == old(fired)
    {
      StepKeepsInv(View(), AwaitIdle(waiter));
      done := active == {};
      waiters := if done then waiters - {waiter} else waiters[waiter := idle];
    }

    /** Removes one Workspace's queued work, item by item. */
    method DiscardEach(user: string, workspace: string) returns (queued: seq<Work>)
      requires WellFormed(pending.View())
      modifies pending
      ensures pending.View() == Remove(old(pending.View()), user, InWorkspace(workspace))
      ensures queued == Filter(ItemsFor(old(pending.View()), user), InWorkspace(workspace))
    {
      ghost var before := pending.View();
      var mine := if user in pending.items then pending.items[user] else [];
      queued := Filter(mine, InWorkspace(workspace));
      RemoveNothing(before, user, KeyAmong([]));
      assert queued[..0] == [];
      for i := 0 to |queued|
        invariant pending.View() == Remove(before, user, KeyAmong(queued[..i]))
      {
        var gone := pending.Discard(user, KeyIs(queued[i].key));
        KeyAmongNext(queued, i);
        RemoveThenRemove(before, user, KeyAmong(queued[..i]), KeyIs(queued[i].key), KeyAmong(queued[..i + 1]));
      }
      assert queued[..|queued|] == queued;
      KeysOfWorkspace(mine, workspace);
      RemoveAgree(before, user, KeyAmong(queued), InWorkspace(workspace));
    }

    /** Removes one Workspace's queued work and lists its running keys, to be signalled. */
    method DiscardWorkspace(user: string, workspace: string) returns (toSignal: set<Key>)
      requires Inv(View())
      modifies this, pending
      ensures View() == Step(old(View()), CancelWorkspace(user, workspace)) && Inv(View())
      ensures toSignal == set key | key in active && key.user == user && key.workspace == workspace
    {
      StepKeepsInv(View(), CancelWorkspace(user, workspace));
      var queued := DiscardEach(user, workspace);
      toSignal := set key | key in active && key.user == user && key.workspace == workspace;
      if queued != [] {
        fired := fired + {wake};
      }
    }
  }

  lemma KeysOfWorkspace(mine: seq<Work>, workspace: string)
    ensures forall w :: w in mine ==>
              KeyAmong(Filter(mine, InWorkspace(workspace)))(w) == InWorkspace(workspace)(w)
  {
    var queued := Filter(mine, InWorkspace(workspace));
    forall w | w in mine && w.key.workspace == workspace ensures KeyAmong(queued)(w) {
      assert w in queued;
    }
    forall i | 0 <= i < |queued| ensures queued[i].key.workspace == workspace {
      assert queued[i] in queued;
    }
  }

  lemma RemoveNothing(q: Queue<Work>, user: string, drop: Work -> bool)
    requires forall w :: w in ItemsFor(q, user) ==> !drop(w)
    ensures Remove(q, user, drop) == q
  {
    FilterNone(ItemsFor(q, user), drop);
  }

  lemma RemoveAgree(q: Queue<Work>, user: string, p: Work -> bool, r: Work -> bool)
    requires forall w :: w in ItemsFor(q, user) ==> p(w) == r(w)
    ensures Remove(q, user, p) == Remove(q, user, r)
  {
    FilterAgree(ItemsFor(q, user), p, r);
    FilterAgree(ItemsFor(q, user), Not(p), Not(r));
  }

  lemma NothingFiltered(s: seq<Work>, p: Work -> bool)
    requires Filter(s, p) == []
    ensures forall w :: w in s ==> !p(w)
  {
    forall w | w in s ensures !p(w) {
      assert p(w) ==> w in Filter(s, p);
    }
  }

  /** Two removals of one user's items are one removal by either test. */
  lemma RemoveThenRemove(q: Queue<Work>, user: string, p: Work -> bool, r: Work -> bool, either: Work -> bool)
    requires forall w :: w in ItemsFor(q, user) ==> either(w) == (p(w) || r(w))
    ensures Remove(Remove(q, user, p), user, r) == Remove(q, user, either)
  {
    var mine := ItemsFor(q, user);
    if Filter(mine, p) == [] {
      NothingFiltered(mine, p);
      RemoveAgree(q, user, r, either);
    } else {
      var kept := Filter(mine, Not(p));
      assert Filter(mine, p)[0] in Filter(mine, either);
      FilterTwice(mine, Not(p), Not(r), Not(either));
      if kept != [] {
        assert ItemsFor(Remove(q, user, p), user) == kept;
        if Filter(kept, r) == [] {
          NothingFiltered(kept, r);
          FilterAll(kept, Not(r));
        } else {
          assert q.items[user := kept] - {user} == q.items - {user};
        }
      }
    }
  }
}
