/**
 The per-user gate shared by quota admission, User File mutations and Workspace lifecycle commands:
 a lock per user that is created on first use and reclaimed when its last user leaves.
 */
module KeyedGates {
  import opened Common

  datatype Phase = Waiting | Inside | Leaving

  /** A task between its registration and its deregistration, and the gate object it was given. */
  datatype Task = Task(user: nat, gate: nat, phase: Phase)

  datatype Gate = Gate(users: nat, holder: Option<nat>)

  /**
   gates holds every gate object ever created; registry says which one is current for a user;
   lost counts deregistrations that were cancelled before they took effect.
   */
  datatype State = State(registry: map<nat, nat>, gates: seq<Gate>, tasks: map<nat, Task>, lost: map<nat, nat>)

  datatype Step =
    | Register(task: nat, user: nat)
    | Acquire(task: nat)
    | GiveUp(task: nat)
    | Exit(task: nat)
    | Deregister(task: nat)
    | LoseDeregistration(task: nat)

  predicate Enabled(s: State, step: Step) {
    match step
    case Register(t, _) => t !in s.tasks
    case Acquire(t) =>
      t in s.tasks && s.tasks[t].phase.Waiting? && s.tasks[t].gate < |s.gates| && s.gates[s.tasks[t].gate].holder.None?
    case GiveUp(t) => t in s.tasks && s.tasks[t].phase.Waiting?
    case Exit(t) => t in s.tasks && s.tasks[t].phase.Inside? && s.tasks[t].gate < |s.gates|
    case Deregister(t) => t in s.tasks && s.tasks[t].phase.Leaving? && s.tasks[t].gate < |s.gates|
    case LoseDeregistration(t) => t in s.tasks && s.tasks[t].phase.Leaving?
  }

  function Lost(s: State, user: nat): nat {
    if user in s.lost then s.lost[user] else 0
  }

  function WithGate(s: State, g: nat, gate: Gate): State
    requires g < |s.gates|
  {
    s.(gates := s.gates[g := gate])
  }

  function InPhase(s: State, t: nat, phase: Phase): State
    requires t in s.tasks
  {
    s.(tasks := s.tasks[t := s.tasks[t].(phase := phase)])
  }

  /** Registration takes the current gate, or puts a new one in place. */
  function Registered(s: State, t: nat, user: nat): State {
    if user in s.registry && s.registry[user] < |s.gates| then
      var g := s.registry[user];
      WithGate(s, g, s.gates[g].(users := s.gates[g].users + 1)).(tasks := s.tasks[t := Task(user, g, Waiting)])
    else
      s.(registry := s.registry[user := |s.gates|],
         gates := s.gates + [Gate(1, None)],
         tasks := s.tasks[t := Task(user, |s.gates|, Waiting)])
  }

  /** The last one out removes whatever gate is registered for the user. */
  function Deregistered(s: State, t: nat): State
    requires t in s.tasks && s.tasks[t].gate < |s.gates|
  {
    var g, user := s.tasks[t].gate, s.tasks[t].user;
    var users := Max(0, s.gates[g].users - 1);
    WithGate(s, g, s.gates[g].(users := users))
    .(tasks := s.tasks - {t}, registry := if users == 0 then s.registry - {user} else s.registry)
  }

  function Next(s: State, step: Step): State
    requires Enabled(s, step)
  {
    match step
    case Register(t, user) => Registered(s, t, user)
    case Acquire(t) =>
      var g := s.tasks[t].gate;
      InPhase(WithGate(s, g, s.gates[g].(holder := Some(t))), t, Inside)
    case GiveUp(t) => InPhase(s, t, Leaving)
    case Exit(t) =>
      var g := s.tasks[t].gate;
      InPhase(WithGate(s, g, s.gates[g].(holder := None)), t, Leaving)
    case Deregister(t) => Deregistered(s, t)
    case LoseDeregistration(t) =>
      var user := s.tasks[t].user;
      s.(tasks := s.tasks - {t}, lost := s.lost[user := Lost(s, user) + 1])
  }

  const INIT: State := State(map[], [], map[], map[])

  /** Any interleaving of tasks; a step that cannot happen is skipped. */
  function Run(steps: seq<Step>): State {
    if steps == [] then INIT
    else
      var s, step := Run(steps[..|steps| - 1]), steps[|steps| - 1];
      if Enabled(s, step) then Next(s, step) else s
  }

  // ---------------------------------------------------------------- every run

  function TasksOf(s: State, user: nat): set<nat> {
    set t | t in s.tasks && s.tasks[t].user == user
  }

  /** Everyone registered for a user has the current gate. */
  ghost predicate Shared(s: State) {
    && (forall u: nat :: u in s.registry ==> s.registry[u] < |s.gates|)
    && (forall t: nat :: t in s.tasks ==> s.tasks[t].user in s.registry && s.registry[s.tasks[t].user] == s.tasks[t].gate)
    && (forall u: nat, v: nat :: u in s.registry && v in s.registry && s.registry[u] == s.registry[v] ==> u == v)
  }

  /** The current gate counts the registered tasks, and the lost deregistrations. */
  ghost predicate Counted(s: State, u: nat) {
    if u in s.registry
    then s.registry[u] < |s.gates| && s.gates[s.registry[u]].users == |TasksOf(s, u)| + Lost(s, u) > 0
    else |TasksOf(s, u)| == 0 && Lost(s, u) == 0
  }

  /** A gate is held by exactly the task that is inside it. */
  ghost predicate Held(s: State) {
    && (forall t: nat :: t in s.tasks && s.tasks[t].phase.Inside? ==>
          s.tasks[t].gate < |s.gates| && s.gates[s.tasks[t].gate].holder == Some(t))
    && (forall g: nat :: g < |s.gates| && s.gates[g].holder.Some? ==>
          var t := s.gates[g].holder.value;
          t in s.tasks && s.tasks[t].phase.Inside? && s.tasks[t].gate == g)
  }

  ghost predicate Inv(s: State) {
    Shared(s) && Held(s) && forall u: nat :: Counted(s, u)
  }

  lemma OnlyTask(s: State, t: nat, u: nat)
    requires t in TasksOf(s, u) && |TasksOf(s, u)| <= 1
    ensures TasksOf(s, u) == {t}
  {
    var others := TasksOf(s, u) - {t};
    assert |others| == 0;
    assert TasksOf(s, u) == others + {t};
  }

  lemma DeregisterKeepsShared(s: State, t: nat)
    requires Enabled(s, Deregister(t)) && Inv(s)
    ensures Shared(Deregistered(s, t))
  {
    var u := s.tasks[t].user;
    assert Counted(s, u);
    if |TasksOf(s, u)| + Lost(s, u) == 1 {
      OnlyTask(s, t, u);
      assert forall x: nat :: x in s.tasks && s.tasks[x].user == u ==> x in TasksOf(s, u);
    }
    hide TasksOf, Held, Inv, Counted;
  }

  lemma StepKeepsShared(s: State, step: Step)
    requires Enabled(s, step) && Inv(s)
    ensures Shared(Next(s, step))
  {
    match step
    case Deregister(t) => DeregisterKeepsShared(s, t);
    case Register(t, user) => RegisterKeepsShared(s, t, user);
    case _ => hide TasksOf, Held, Counted;
  }

  lemma RegisterKeepsShared(s: State, t: nat, user: nat)
    requires Shared(s) && t !in s.tasks
    ensures Shared(Registered(s, t, user))
  {
  }

  lemma RegisterKeepsHeld(s: State, t: nat, user: nat)
    requires t !in s.tasks && Shared(s) && Held(s)
    ensures Held(Registered(s, t, user))
  {
  }

  lemma LockKeepsHeld(s: State, step: Step)
    requires Enabled(s, step) && Held(s) && (step.Acquire? || step.Exit?)
    ensures Held(Next(s, step))
  {
  }

  lemma LeaveKeepsHeld(s: State, step: Step)
    requires Enabled(s, step) && Held(s) && !step.Acquire? && !step.Exit? && !step.Register?
    ensures Held(Next(s, step))
  {
  }

  lemma StepKeepsHeld(s: State, step: Step)
    requires Enabled(s, step) && Inv(s)
    ensures Held(Next(s, step))
  {
    hide Held;
    match step
    case Register(t, user) => RegisterKeepsHeld(s, t, user);
    case Acquire(_) => LockKeepsHeld(s, step);
    case Exit(_) => LockKeepsHeld(s, step);
    case _ => LeaveKeepsHeld(s, step);
  }

  lemma TasksMove(s: State, r: State, t: nat, u: nat)
    requires r.tasks == s.tasks - {t} || (t in r.tasks && r.tasks - {t} == s.tasks - {t})
    ensures var mine := t in r.tasks && r.tasks[t].user == u;
            TasksOf(r, u) == TasksOf(s, u) - {t} + if mine then {t} else {}
  {
    forall x ensures x in TasksOf(r, u) <==> x in TasksOf(s, u) - {t} + if t in r.tasks && r.tasks[t].user == u then {t} else {}
    {
      if x != t {
        assert x in r.tasks <==> x in r.tasks - {t};
        assert x in s.tasks <==> x in s.tasks - {t};
        if x in s.tasks {
          assert (s.tasks - {t})[x] == s.tasks[x];
        }
        if x in r.tasks {
          assert (r.tasks - {t})[x] == r.tasks[x];
        }
      }
    }
  }

  function Is(m: map<nat, Task>, t: nat, u: nat): nat {
    if t in m && m[t].user == u then 1 else 0
  }

  lemma CountOne(all: set<nat>, t: nat, mine: bool)
    ensures |all - {t} + if mine then {t} else {}| == |all| - (if t in all then 1 else 0) + if mine then 1 else 0
  {
    var others := all - {t};
    assert t in all ==> all == others + {t};
    assert t !in all ==> all == others;
  }

  lemma CountMoves(s: State, r: State, t: nat, u: nat)
    requires r.tasks == s.tasks - {t} || (t in r.tasks && r.tasks - {t} == s.tasks - {t})
    ensures |TasksOf(r, u)| == |TasksOf(s, u)| - Is(s.tasks, t, u) + Is(r.tasks, t, u)
  {
    TasksMove(s, r, t, u);
    CountOne(TasksOf(s, u), t, t in r.tasks && r.tasks[t].user == u);
  }

  lemma RegisterKeepsCounts(s: State, t: nat, user: nat, u: nat)
    requires t !in s.tasks && Inv(s)
    ensures Counted(Registered(s, t, user), u)
  {
    var r := Registered(s, t, user);
    assert Counted(s, u) && Counted(s, user);
    assert r.tasks - {t} == s.tasks - {t};
    CountMoves(s, r, t, u);
    hide TasksOf, Held;
  }

  lemma DeregisterKeepsCounts(s: State, t: nat, u: nat)
    requires Enabled(s, Deregister(t)) && Inv(s)
    ensures Counted(Deregistered(s, t), u)
  {
    var user := s.tasks[t].user;
    assert Counted(s, u) && Counted(s, user);
    CountMoves(s, Deregistered(s, t), t, u);
    CountMoves(s, Deregistered(s, t), t, user);
    hide TasksOf, Held;
  }

  /** Entering, giving up and leaving the lock change no count. */
  lemma LockKeepsCounts(s: State, step: Step, u: nat)
    requires Enabled(s, step) && Counted(s, u) && (step.Acquire? || step.GiveUp? || step.Exit?)
    ensures Counted(Next(s, step), u)
  {
    var r := Next(s, step);
    assert r.tasks - {step.task} == s.tasks - {step.task};
    CountMoves(s, r, step.task, u);
    hide TasksOf;
  }

  lemma LossKeepsCounts(s: State, t: nat, u: nat)
    requires Enabled(s, LoseDeregistration(t)) && Counted(s, u) && Counted(s, s.tasks[t].user)
    requires s.tasks[t].user in s.registry
    ensures Counted(Next(s, LoseDeregistration(t)), u)
  {
    CountMoves(s, Next(s, LoseDeregistration(t)), t, u);
    hide TasksOf;
  }

  lemma StepKeepsCounts(s: State, step: Step, u: nat)
    requires Enabled(s, step) && Inv(s)
    ensures Counted(Next(s, step), u)
  {
    assert Counted(s, u);
    match step
    case Register(t, user) => RegisterKeepsCounts(s, t, user, u);
    case Deregister(t) => DeregisterKeepsCounts(s, t, u);
    case LoseDeregistration(t) =>
      assert Counted(s, s.tasks[t].user);
      LossKeepsCounts(s, t, u);
      hide Counted;
    case _ =>
      LockKeepsCounts(s, step, u);
      hide Counted;
  }

  lemma StepKeepsInv(s: State, step: Step)
    requires Enabled(s, step) && Inv(s)
    ensures Inv(Next(s, step))
  {
    StepKeepsShared(s, step);
    StepKeepsHeld(s, step);
    forall u: nat ensures Counted(Next(s, step), u) {
      StepKeepsCounts(s, step, u);
    }
  }

  lemma {:induction false} RunKeepsInv(steps: seq<Step>)
    ensures Inv(Run(steps))
  {
    if steps != [] {
      var s, step := Run(steps[..|steps| - 1]), steps[|steps| - 1];
      RunKeepsInv(steps[..|steps| - 1]);
      if Enabled(s, step) {
        StepKeepsInv(s, step);
      }
    }
  }

  /** At most one task is inside a user's gate, whatever gate objects were reclaimed and created anew. */
  lemma MutualExclusion(steps: seq<Step>, t: nat, x: nat)
    requires var s := Run(steps);
             && t in s.tasks && x in s.tasks && s.tasks[t].user == s.tasks[x].user
             && s.tasks[t].phase.Inside? && s.tasks[x].phase.Inside?
    ensures t == x
  {
    RunKeepsInv(steps);
  }

  /** All tasks registered for a user share the current gate, whose counter is exact up to lost deregistrations. */
  lemma CurrentGateIsShared(steps: seq<Step>, user: nat)
    ensures var s := Run(steps);
            && (forall t: nat :: t in s.tasks && s.tasks[t].user == user ==>
                  user in s.registry && s.tasks[t].gate == s.registry[user])
            && (user in s.registry <==> TasksOf(s, user) != {} || Lost(s, user) > 0)
            && (user in s.registry ==>
                  s.registry[user] < |s.gates|
                  && s.gates[s.registry[user]].users == |TasksOf(s, user)| + Lost(s, user))
  {
    RunKeepsInv(steps);
    assert Counted(Run(steps), user);
  }

  predicate NothingLost(steps: seq<Step>) {
    forall step | step in steps :: !step.LoseDeregistration?
  }

  lemma {:induction false} NoneLost(steps: seq<Step>)
    requires NothingLost(steps)
    ensures Run(steps).lost == map[]
  {
    if steps != [] {
      assert steps[|steps| - 1] in steps;
      NoneLost(steps[..|steps| - 1]);
    }
  }

  /** Without cancelled deregistrations the counter is exact, and an unused registry is empty. */
  lemma RegistryIsReclaimed(steps: seq<Step>)
    requires NothingLost(steps)
    ensures var s := Run(steps);
            && (forall u: nat :: u in s.registry ==>
                  s.registry[u] < |s.gates| && s.gates[s.registry[u]].users == |TasksOf(s, u)| > 0)
            && (s.tasks == map[] ==> s.registry == map[])
  {
    NoneLost(steps);
    var s := Run(steps);
    forall u: nat ensures u in s.registry ==>
      s.registry[u] < |s.gates| && s.gates[s.registry[u]].users == |TasksOf(s, u)| > 0
    {
      CurrentGateIsShared(steps, u);
    }
    if s.tasks == map[] {
      forall u: nat ensures u !in s.registry {
        assert TasksOf(s, u) == {};
      }
    }
  }

  /** What was lost stays lost. */
  lemma {:induction false} LostStays(steps: seq<Step>, more: seq<Step>, user: nat)
    ensures Lost(Run(steps + more), user) >= Lost(Run(steps), user)
    decreases |more|
  {
    if more == [] {
      assert steps + more == steps;
    } else {
      var front := more[..|more| - 1];
      LostStays(steps, front, user);
      assert (steps + more)[..|steps + more| - 1] == steps + front;
    }
  }

  /** A gate with a lost deregistration is never reclaimed again, whatever happens afterwards. */
  lemma LostIsForGood(steps: seq<Step>, more: seq<Step>, user: nat)
    requires Lost(Run(steps), user) > 0
    ensures user in Run(steps + more).registry
  {
    LostStays(steps, more, user);
    CurrentGateIsShared(steps + more, user);
  }

  const LOSING: seq<Step> := [Register(0, 0), GiveUp(0), LoseDeregistration(0)]

  /** This does happen: one task that gives up and loses its deregistration leaves its gate behind for good. */
  lemma UnusedGateMayStay(more: seq<Step>)
    ensures Run(LOSING).tasks == map[] && Lost(Run(LOSING), 0) == 1
    ensures 0 in Run(LOSING + more).registry
  {
    assert LOSING[..2][..1][..0] == [];
    assert LOSING[..2][..1] == [Register(0, 0)];
    assert LOSING[..2] == [Register(0, 0), GiveUp(0)];
    assert Run(LOSING[..2][..1]).tasks == map[0 := Task(0, 0, Waiting)];
    assert Run(LOSING[..2]).tasks == map[0 := Task(0, 0, Leaving)];
    LostIsForGood(LOSING, more, 0);
  }

  /**
   No needless waiting: in every run a waiting task can enter exactly if no task of its own user is
   inside, whatever the tasks of other users do, and then it is inside.
   */
  lemma WaitsOnlyForItsUser(steps: seq<Step>, t: nat)
    ensures var s := Run(steps);
            && (Enabled(s, Acquire(t)) <==>
                  && t in s.tasks && s.tasks[t].phase.Waiting?
                  && forall x :: x in s.tasks && s.tasks[x].user == s.tasks[t].user ==> !s.tasks[x].phase.Inside?)
            && (Enabled(s, Acquire(t)) ==>
                  && t in Next(s, Acquire(t)).tasks && Next(s, Acquire(t)).tasks[t].phase.Inside?
                  && Next(s, Acquire(t)).tasks - {t} == s.tasks - {t})
  {
    var s := Run(steps);
    RunKeepsInv(steps);
    hide Run;
    if t in s.tasks {
      assert Counted(s, s.tasks[t].user);
      GateIsUsed(s, t);
      if s.gates[s.tasks[t].gate].holder.Some? {
        HolderIsOfUser(s, t);
      }
    }
    hide Counted;
  }

  lemma HolderIsOfUser(s: State, t: nat)
    requires Inv(s) && t in s.tasks && s.tasks[t].gate < |s.gates| && s.gates[s.tasks[t].gate].holder.Some?
    ensures var x := s.gates[s.tasks[t].gate].holder.value;
            x in s.tasks && s.tasks[x].phase.Inside? && s.tasks[x].user == s.tasks[t].user
  {
    hide Counted;
  }

  /**
   A visit comes and goes. A task whose user has no gate registers, enters, leaves and deregisters,
   one step after the other; then there is no gate for its user again, and nothing else has changed.
   */
  lemma VisitComesAndGoes(s: State, t: nat, user: nat)
    requires t !in s.tasks && user !in s.registry
    ensures Enabled(s, Register(t, user))
    ensures var s1 := Next(s, Register(t, user));
            && Enabled(s1, Acquire(t)) && Enabled(Next(s1, Acquire(t)), Exit(t))
            && Enabled(Next(Next(s1, Acquire(t)), Exit(t)), Deregister(t))
            && Next(Next(Next(s1, Acquire(t)), Exit(t)), Deregister(t))
               == s.(gates := s.gates + [Gate(0, None)])
  {
    var s1 := Next(s, Register(t, user));
    assert s1.gates == s.gates + [Gate(1, None)];
    var s2 := Next(s1, Acquire(t));
    assert s2.gates == s.gates + [Gate(1, Some(t))];
    var s3 := Next(s2, Exit(t));
    assert s3.gates == s.gates + [Gate(1, None)];
    var s4 := Next(s3, Deregister(t));
    assert s4.gates == s.gates + [Gate(0, None)];
    assert s4.tasks == s.tasks && s4.registry == s.registry;
  }

  // ---------------------------------------------------------------- the objects

  class UserGate {
    var users: nat
    var holder: Option<nat>

    constructor (users: nat)
      ensures View() == Gate(users, None)
    {
      this.users, holder := users, None;
    }

    ghost function View(): Gate
      reads this
    {
      Gate(users, holder)
    }
  }

  ghost function GateViews(all: seq<UserGate>): seq<Gate>
    reads all
  {
    seq(|all|, i requires 0 <= i < |all| reads all => all[i].View())
  }

  class GateRegistry {
    var gates: map<nat, UserGate>
    ghost var all: seq<UserGate>
    ghost var current: map<nat, nat>
    ghost var tasks: map<nat, Task>
    ghost var lost: map<nat, nat>

    ghost predicate Shape()
      reads this
    {
      && (forall i, j :: 0 <= i < j < |all| ==> all[i] != all[j])
      && current.Keys == gates.Keys
      && forall u: nat :: u in gates ==> current[u] < |all| && gates[u] == all[current[u]]
    }

    ghost function Gates(): seq<Gate>
      reads this`all, all
    {
      GateViews(all)
    }

    ghost function View(): State
      reads this, all
    {
      State(current, Gates(), tasks, lost)
    }

    ghost predicate Valid()
      reads this, all
    {
      Shape() && Inv(View())
    }

    constructor ()
      ensures Valid() && View() == INIT
    {
      gates, all, current, tasks, lost := map[], [], map[], map[], map[];
    }

    /** Changes one gate object. */
    method Set(gate: UserGate, users: nat, holder: Option<nat>, ghost g: nat)
      requires Shape() && g < |all| && all[g] == gate
      modifies gate
      ensures |Gates()| == |old(Gates())| && g < |Gates()|
      ensures Gates() == old(Gates())[g := Gate(users, holder)]
      ensures gate.users == users && gate.holder == holder
    {
      ghost var before := Gates();
      gate.users, gate.holder := users, holder;
      assert Gates() == before[g := gate.View()];
    }

    method Create(user: nat) returns (gate: UserGate)
      requires Shape() && user !in gates
      modifies this`gates, this`all, this`current
      ensures Shape() && fresh(gate) && all == old(all) + [gate]
      ensures gates == old(gates)[user := gate] && current == old(current)[user := |old(all)|]
      ensures |old(Gates())| == |old(all)| && Gates() == old(Gates()) + [Gate(1, None)]
    {
      ghost var before := Gates();
      gate := new UserGate(1);
      gates := gates[user := gate];
      current, all := current[user := |all|], all + [gate];
      assert Gates() == before + [gate.View()];
    }

    method Join(user: nat, ghost t: nat) returns (gate: UserGate)
      requires Shape() && user in gates
      modifies this`tasks, gates[user]
      ensures Shape() && View() == Registered(old(View()), t, user)
      ensures gate == gates[user] && t in tasks && tasks[t].gate == current[user]
    {
      hide GateRegistry.Gates, GateViews;
      GateOf(user);
      gate := gates[user];
      Set(gate, gate.users + 1, gate.holder, current[user]);
      tasks := tasks[t := Task(user, current[user], Waiting)];
    }

    method Found(user: nat, ghost t: nat) returns (gate: UserGate)
      requires Shape() && user !in gates
      modifies this
      ensures Shape() && View() == Registered(old(View()), t, user)
      ensures all == old(all) + [gate] && t in tasks && tasks[t].gate == |old(all)|
    {
      hide GateRegistry.Gates, GateViews;
      gate := Create(user);
      tasks := tasks[t := Task(user, current[user], Waiting)];
    }

    /** The gate of a user, with one more user; created if there is none. */
    method Register(user: nat, ghost t: nat) returns (gate: UserGate)
      requires Valid() && t !in tasks
      modifies this, all
      ensures Valid() && View() == Registered(old(View()), t, user)
      ensures t in tasks && tasks[t].gate < |all| && gate == all[tasks[t].gate]
    {
      hide Inv, GateRegistry.Gates, GateViews, Registered;
      StepKeepsInv(View(), Step.Register(t, user));
      if user in gates {
        gate := Join(user, t);
      } else {
        gate := Found(user, t);
      }
    }

    lemma GateOf(user: nat)
      requires Shape()
      ensures |Gates()| == |all|
      ensures user in gates ==> current[user] < |all| && Gates()[current[user]] == gates[user].View()
    {
    }

    lemma GateAt(g: nat)
      requires g < |all|
      ensures |Gates()| == |all| && Gates()[g] == all[g].View()
    {
    }

    method Acquire(gate: UserGate, t: nat)
      requires Valid() && t in tasks && tasks[t].phase.Waiting?
      requires tasks[t].gate < |all| && all[tasks[t].gate] == gate && gate.holder.None?
      modifies this`tasks, gate
      ensures Valid() && Enabled(old(View()), Step.Acquire(t)) && View() == Next(old(View()), Step.Acquire(t))
    {
      hide Inv, GateRegistry.Gates, GateViews, TasksOf;
      ghost var before := View();
      GateAt(tasks[t].gate);
      StepKeepsInv(before, Step.Acquire(t));
      Set(gate, gate.users, Some(t), tasks[t].gate);
      tasks := tasks[t := tasks[t].(phase := Inside)];
      assert View() == Next(before, Step.Acquire(t));
    }

    method Exit(gate: UserGate, ghost t: nat)
      requires Valid() && t in tasks && tasks[t].phase.Inside?
      requires tasks[t].gate < |all| && all[tasks[t].gate] == gate
      modifies this`tasks, gate
      ensures Valid() && Enabled(old(View()), Step.Exit(t)) && View() == Next(old(View()), Step.Exit(t))
    {
      hide Inv, GateRegistry.Gates, GateViews, TasksOf;
      ghost var before := View();
      GateAt(tasks[t].gate);
      StepKeepsInv(before, Step.Exit(t));
      Set(gate, gate.users, None, tasks[t].gate);
      tasks := tasks[t := tasks[t].(phase := Leaving)];
      assert View() == Next(before, Step.Exit(t));
    }

    /** One user less; the last one takes the gate out of the registry. */
    method Deregister(user: nat, gate: UserGate, ghost t: nat)
      requires Valid() && t in tasks && tasks[t].phase.Leaving? && tasks[t].user == user
      requires tasks[t].gate < |all| && all[tasks[t].gate] == gate
      modifies this, gate
      ensures Valid() && Enabled(old(View()), Step.Deregister(t)) && View() == Next(old(View()), Step.Deregister(t))
    {
      hide Inv, GateRegistry.Gates, GateViews, TasksOf;
      ghost var before := View();
      GateAt(tasks[t].gate);
      StepKeepsInv(before, Step.Deregister(t));
      GateIsUsed(before, t);
      Set(gate, gate.users - 1, gate.holder, tasks[t].gate);
      if gate.users == 0 {
        Reclaim(user);
      }
      tasks := tasks - {t};
      assert View() == Next(before, Step.Deregister(t));
    }

    method Reclaim(user: nat)
      requires Shape()
      modifies this`gates, this`current
      ensures Shape() && gates == old(gates) - {user} && current == old(current) - {user} && Gates() == old(Gates())
    {
      ghost var before := Gates();
      gates := gates - {user};
      current := current - {user};
      assert Gates() == before;
    }
  }

  lemma GateIsUsed(s: State, t: nat)
    requires Inv(s) && t in s.tasks
    ensures s.tasks[t].gate < |s.gates| && s.gates[s.tasks[t].gate].users > 0
  {
    assert Counted(s, s.tasks[t].user);
  }
}
