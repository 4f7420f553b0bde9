/** The launch entries that serialize starting a process against cancelling it and closing the executor. */
module AnalysisExecution {
  import opened Common
  import opened AnalysisScheduling

  /*
   A process is a number; `alive` holds those that run, `doomed` those that some canceller has
   taken from an entry and is committed to terminate. `frames` holds, per Analysis, what the call
   that executes it owns: the process it started, or nothing after a refused or failed launch.
   */

  datatype Entry = Entry(process: Option<nat>, cancelled: bool)

  datatype Exec = Exec(
    entries: map<Key, Entry>,
    closed: bool,
    frames: map<Key, Option<nat>>,
    alive: set<nat>,
    doomed: set<nat>,
    nextProcess: nat)

  const NEW_EXECUTOR: Exec := Exec(map[], false, map[], {}, {}, 0)

  datatype ExecEvent =
    | Reserve(key: Key)
    | DiscardReservation(key: Key)
    | Launch(key: Key)
    | LaunchBreaks(key: Key)
    | CancelLaunch(key: Key)
    | Close
    | Terminate(process: nat)
    | ProcessExit(process: nat)
    | Finish(key: Key)

  predicate MayReserve(x: Exec, key: Key) {
    !x.closed && key !in x.entries
  }

  /** The launch region starts a process now. */
  predicate Launches(x: Exec, key: Key) {
    && key !in x.frames && key in x.entries && x.entries[key].process == None
    && !x.closed && !x.entries[key].cancelled
  }

  /** The executing call may leave: its process, if it started one, has ended. */
  predicate MayFinish(x: Exec, key: Key) {
    key in x.frames && (x.frames[key].Some? ==> x.frames[key].value !in x.alive)
  }

  function ProcessesOf(entries: map<Key, Entry>): set<nat> {
    set k | k in entries && entries[k].process.Some? :: entries[k].process.value
  }

  function ExecStep(x: Exec, e: ExecEvent): Exec {
    match e
    case Reserve(key) =>
      if MayReserve(x, key) then x.(entries := x.entries[key := Entry(None, false)]) else x
    case DiscardReservation(key) =>
      if key in x.entries && x.entries[key].process == None
      then x.(entries := x.entries - {key}) else x
    case Launch(key) =>
      if Launches(x, key) then
        var p := x.nextProcess;
        x.(entries := x.entries[key := Entry(Some(p), false)], frames := x.frames[key := Some(p)],
           alive := x.alive + {p}, nextProcess := p + 1)
      else if key !in x.frames then x.(frames := x.frames[key := None])
      else x
    case LaunchBreaks(key) => if key !in x.frames then x.(frames := x.frames[key := None]) else x
    case CancelLaunch(key) =>
      if key !in x.entries then x
      else
        var p := x.entries[key].process;
        x.(entries := x.entries[key := Entry(p, true)],
           doomed := x.doomed + if p.Some? then {p.value} else {})
    case Close =>
      if x.closed then x
      else x.(closed := true, entries := map k | k in x.entries :: Entry(x.entries[k].process, true),
              doomed := x.doomed + ProcessesOf(x.entries))
    case Terminate(p) => if p in x.doomed then x.(alive := x.alive - {p}) else x
    case ProcessExit(p) => x.(alive := x.alive - {p})
    case Finish(key) => if MayFinish(x, key) then x.(entries := x.entries - {key}, frames := x.frames - {key}) else x
  }

  function ExecRun(x: Exec, es: seq<ExecEvent>): Exec
    decreases |es|
  {
    if es == [] then x else ExecRun(ExecStep(x, es[0]), es[1..])
  }

  ghost predicate OwnProcesses(x: Exec) {
    && (forall k :: k in x.entries && x.entries[k].process.Some? ==>
          k in x.frames && x.frames[k] == x.entries[k].process)
    && (forall k :: k in x.frames && x.frames[k].Some? ==>
          && k in x.entries && x.entries[k].process == x.frames[k]
          && x.frames[k].value < x.nextProcess)
    && (forall j, k :: j in x.frames && k in x.frames && j != k && x.frames[j].Some? ==> x.frames[j] != x.frames[k])
  }

  /** No process runs without a call that owns it. */
  ghost predicate NoOrphans(x: Exec) {
    forall p :: p in x.alive ==> exists k :: k in x.frames && x.frames[k] == Some(p)
  }

  /** A process that still runs under a cancelled entry is one some canceller terminates. */
  ghost predicate CancelledAreDoomed(x: Exec) {
    forall k :: k in x.entries && x.entries[k].cancelled && x.entries[k].process.Some? ==>
      x.entries[k].process.value in x.doomed || x.entries[k].process.value !in x.alive
  }

  ghost predicate ExecInv(x: Exec) {
    && OwnProcesses(x) && NoOrphans(x) && CancelledAreDoomed(x)
    && (x.closed ==> forall k :: k in x.entries ==> x.entries[k].cancelled)
  }

  lemma StepKeepsOwners(x: Exec, e: ExecEvent)
    requires OwnProcesses(x)
    ensures OwnProcesses(ExecStep(x, e))
  {
  }

  lemma StepKeepsNoOrphans(x: Exec, e: ExecEvent)
    requires OwnProcesses(x) && NoOrphans(x)
    ensures NoOrphans(ExecStep(x, e))
  {
    var x' := ExecStep(x, e);
    forall p | p in x'.alive ensures exists k :: k in x'.frames && x'.frames[k] == Some(p) {
      if p in x.alive {
        var k :| k in x.frames && x.frames[k] == Some(p);
        assert k in x'.frames && x'.frames[k] == Some(p);
      } else {
        assert x'.frames[e.key] == Some(p);
      }
    }
  }

  lemma StepKeepsDoomed(x: Exec, e: ExecEvent)
    requires OwnProcesses(x) && CancelledAreDoomed(x)
    ensures CancelledAreDoomed(ExecStep(x, e))
  {
    var x' := ExecStep(x, e);
    if e.Close? && !x.closed {
      forall k | k in x.entries && x.entries[k].process.Some? ensures x.entries[k].process.value in x'.doomed {
        assert x.entries[k].process.value in ProcessesOf(x.entries);
      }
    }
  }

  lemma ExecStepKeepsInv(x: Exec, e: ExecEvent)
    requires ExecInv(x)
    ensures ExecInv(ExecStep(x, e))
  {
    StepKeepsOwners(x, e);
    StepKeepsNoOrphans(x, e);
    StepKeepsDoomed(x, e);
  }

  lemma AliveIsOwned(x: Exec)
    requires ExecInv(x)
    ensures forall p :: p in x.alive ==> p < x.nextProcess && p in ProcessesOf(x.entries)
    ensures x.closed ==> x.alive <= x.doomed
  {
    forall p | p in x.alive
      ensures p < x.nextProcess && p in ProcessesOf(x.entries) && (x.closed ==> p in x.doomed)
    {
      var k :| k in x.frames && x.frames[k] == Some(p);
      assert x.entries[k].process.value == p;
    }
  }

  lemma {:induction false} ExecRunKeepsInv(x: Exec, es: seq<ExecEvent>)
    requires ExecInv(x)
    ensures ExecInv(ExecRun(x, es))
    decreases |es|
  {
    if es != [] {
      ExecStepKeepsInv(x, es[0]);
      ExecRunKeepsInv(ExecStep(x, es[0]), es[1..]);
    }
  }

  /** In every run, running processes are owned, and those under cancelled entries are doomed. */
  lemma CancelledProcessesAreTerminated(es: seq<ExecEvent>)
    ensures NoOrphans(ExecRun(NEW_EXECUTOR, es)) && CancelledAreDoomed(ExecRun(NEW_EXECUTOR, es))
  {
    ExecRunKeepsInv(NEW_EXECUTOR, es);
  }

  /** How many processes the run starts for key. */
  function LaunchCount(x: Exec, es: seq<ExecEvent>, key: Key): nat
    decreases |es|
  {
    if es == [] then 0
    else (if es[0] == Launch(key) && Launches(x, key) then 1 else 0) + LaunchCount(ExecStep(x, es[0]), es[1..], key)
  }

  predicate Reserves(es: seq<ExecEvent>, key: Key) {
    exists i :: 0 <= i < |es| && es[i] == Reserve(key)
  }

  /** After a cancellation or the closing, no process starts from that reservation. */
  lemma {:induction false} NoStartAfterCancel(x: Exec, es: seq<ExecEvent>, key: Key)
    requires ExecInv(x) && (x.closed || (!Reserves(es, key) && (key in x.entries ==> x.entries[key].cancelled)))
    ensures LaunchCount(x, es, key) == 0
    decreases |es|
  {
    if es != [] {
      ExecStepKeepsInv(x, es[0]);
      if !x.closed {
        assert es[0] != Reserve(key);
        forall i | 0 <= i < |es[1..]| ensures es[1..][i] != Reserve(key) {
          assert es[1..][i] == es[i + 1];
        }
      }
      NoStartAfterCancel(ExecStep(x, es[0]), es[1..], key);
    }
  }

  /** Cancelling in the launch protocol: whatever ran before, nothing starts from this entry afterwards. */
  lemma CancelPreventsStart(before: seq<ExecEvent>, key: Key, after: seq<ExecEvent>)
    requires !Reserves(after, key)
    ensures LaunchCount(ExecStep(ExecRun(NEW_EXECUTOR, before), CancelLaunch(key)), after, key) == 0
  {
    var x := ExecRun(NEW_EXECUTOR, before);
    ExecRunKeepsInv(NEW_EXECUTOR, before);
    ExecStepKeepsInv(x, CancelLaunch(key));
    NoStartAfterCancel(ExecStep(x, CancelLaunch(key)), after, key);
  }

  /** Once closed and every doomed process terminated, nothing runs, in that state and all later ones. */
  lemma {:induction false} ClosedStaysEmpty(x: Exec, es: seq<ExecEvent>)
    requires ExecInv(x) && x.closed && x.alive !! x.doomed
    ensures ExecRun(x, es).alive == {}
    decreases |es|
  {
    AliveIsOwned(x);
    if es != [] {
      ExecStepKeepsInv(x, es[0]);
      ClosedStaysEmpty(ExecStep(x, es[0]), es[1..]);
    }
  }

  // ---------------------------------------------------------------- what an event achieves

  /**
   When a process starts. In every run, where a call is about to launch under an entry, a new process
   is alive for that key afterwards, and for no other, if and only if the executor is open and the
   entry is not cancelled; otherwise nothing runs that did not run before.
   */
  lemma LaunchStarts(es: seq<ExecEvent>, key: Key)
    requires var x := ExecRun(NEW_EXECUTOR, es); key in x.entries && key !in x.frames
    ensures var x := ExecRun(NEW_EXECUTOR, es);
            var t := ExecStep(x, Launch(key));
            && (!x.closed && !x.entries[key].cancelled <==>
                  key in t.frames && t.frames[key].Some? && t.frames[key].value in t.alive)
            && (if t.frames[key].Some?
                then t.frames[key].value !in x.alive && t.alive == x.alive + {t.frames[key].value}
                     && t.entries == x.entries[key := Entry(t.frames[key], false)]
                else t.alive == x.alive && t.entries == x.entries)
            && t.frames - {key} == x.frames && t.doomed == x.doomed && t.closed == x.closed
  {
    ExecRunKeepsInv(NEW_EXECUTOR, es);
    AliveIsOwned(ExecRun(NEW_EXECUTOR, es));
    hide ExecRun;
  }

  /** How one execution goes that nobody disturbs. */
  function WholeExecution(key: Key, process: nat): seq<ExecEvent> {
    [Reserve(key), Launch(key), ProcessExit(process), Finish(key)]
  }

  /** A new process runs for key, beside everything else. */
  function RunningBeside(x: Exec, key: Key): Exec {
    var p := x.nextProcess;
    x.(entries := x.entries[key := Entry(Some(p), false)], frames := x.frames[key := Some(p)],
       alive := x.alive + {p}, nextProcess := p + 1)
  }

  lemma ReserveAndLaunch(x: Exec, key: Key)
    requires !x.closed && key !in x.entries && key !in x.frames
    ensures ExecRun(x, [Reserve(key), Launch(key)]) == RunningBeside(x, key)
  {
    TwoEvents(x, Reserve(key), Launch(key));
    hide ExecRun;
    assert ExecStep(x, Reserve(key)) == x.(entries := x.entries[key := Entry(None, false)]);
  }

  lemma ExitAndFinish(x: Exec, key: Key)
    requires key !in x.entries && key !in x.frames && x.nextProcess !in x.alive
    ensures ExecRun(RunningBeside(x, key), [ProcessExit(x.nextProcess), Finish(key)])
            == x.(nextProcess := x.nextProcess + 1)
  {
    TwoEvents(RunningBeside(x, key), ProcessExit(x.nextProcess), Finish(key));
    hide ExecRun;
    assert ExecStep(RunningBeside(x, key), ProcessExit(x.nextProcess)) == RunningBeside(x, key).(alive := x.alive);
  }

  /**
   One whole execution. From every reachable open executor that has neither entry nor call for a
   key: reserving and launching get a process of its own running beside all others, and once that
   has ended and its call has left, everything is as it was before.
   */
  lemma ExecutionComesAndGoes(es: seq<ExecEvent>, key: Key)
    requires var x := ExecRun(NEW_EXECUTOR, es); !x.closed && key !in x.entries && key !in x.frames
    ensures var x := ExecRun(NEW_EXECUTOR, es);
            var p, whole := x.nextProcess, WholeExecution(key, x.nextProcess);
            && p !in x.alive
            && ExecRun(x, whole[..2]) == x.(entries := x.entries[key := Entry(Some(p), false)],
                                            frames := x.frames[key := Some(p)], alive := x.alive + {p},
                                            nextProcess := p + 1)
            && ExecRun(x, whole) == x.(nextProcess := p + 1)
  {
    var x := ExecRun(NEW_EXECUTOR, es);
    var whole := WholeExecution(key, x.nextProcess);
    ExecRunKeepsInv(NEW_EXECUTOR, es);
    AliveIsOwned(x);
    ReserveAndLaunch(x, key);
    ExitAndFinish(x, key);
    assert whole[..2] == [whole[0], whole[1]] && whole == whole[..2] + [whole[2], whole[3]];
    ExecRunConcat(x, whole[..2], [whole[2], whole[3]]);
    hide ExecRun;
  }

  lemma TwoEvents(x: Exec, a: ExecEvent, b: ExecEvent)
    ensures ExecRun(x, [a, b]) == ExecStep(ExecStep(x, a), b)
  {
    assert [a, b][1..] == [b] && [b][1..] == [];
    assert ExecRun(x, [a, b]) == ExecRun(ExecStep(x, a), [b]) == ExecRun(ExecStep(ExecStep(x, a), b), []);
  }

  lemma {:induction false} ExecRunConcat(x: Exec, a: seq<ExecEvent>, b: seq<ExecEvent>)
    ensures ExecRun(x, a + b) == ExecRun(ExecRun(x, a), b)
    decreases |a|
  {
    if a == [] {
      assert a + b == b;
    } else {
      assert (a + b)[1..] == a[1..] + b;
      ExecRunConcat(ExecStep(x, a[0]), a[1..], b);
    }
  }

  /** A reservation that is discarded before any launch leaves nothing behind. */
  lemma DiscardUndoesReserve(x: Exec, key: Key)
    requires !x.closed && key !in x.entries
    ensures key in ExecStep(x, Reserve(key)).entries
    ensures ExecStep(ExecStep(x, Reserve(key)), DiscardReservation(key)) == x
  {
    assert x.entries[key := Entry(None, false)] - {key} == x.entries;
  }

  /**
   What cancelling and closing bring about. From every reachable state: a cancelled key's process,
   or on closing every process, can be terminated at once, and then it no longer runs.
   */
  lemma CancelledCanBeTerminated(es: seq<ExecEvent>, key: Key)
    requires var x := ExecRun(NEW_EXECUTOR, es); key in x.frames && x.frames[key].Some?
    ensures var x := ExecRun(NEW_EXECUTOR, es);
            var p := x.frames[key].value;
            && p !in ExecStep(ExecStep(x, CancelLaunch(key)), Terminate(p)).alive
            && (!x.closed ==> p !in ExecStep(ExecStep(x, Close), Terminate(p)).alive)
  {
    ExecRunKeepsInv(NEW_EXECUTOR, es);
    var x := ExecRun(NEW_EXECUTOR, es);
    assert x.entries[key].process == x.frames[key];
    assert x.frames[key].value in ProcessesOf(x.entries);
  }

  // ---------------------------------------------------------------- the mutable executor

  datatype LaunchOutcome = Started(process: nat) | Suppressed | NoEntry

  /** `_entries` and `_closed`; each method is one region run under the executor's lock. */
  class AnalysisProcessExecutor {
    var entries: map<Key, Entry>
    var closed: bool
    ghost var frames: map<Key, Option<nat>>
    ghost var alive: set<nat>
    ghost var doomed: set<nat>
    var nextProcess: nat

    ghost function View(): Exec
      reads this
    {
      Exec(entries, closed, frames, alive, doomed, nextProcess)
    }

    constructor ()
      ensures View() == NEW_EXECUTOR
    {
      entries, closed, frames, alive, doomed, nextProcess := map[], false, map[], {}, {}, 0;
    }

    method ReserveEntry(key: Key) returns (ok: bool)
      modifies this
      ensures View() == ExecStep(old(View()), Reserve(key))
      ensures ok <==> !old(closed) && key !in old(entries)
      ensures entries == if ok then old(entries)[key := Entry(None, false)] else old(entries)
    {
      ok := !closed && key !in entries;
      if ok {
        entries := entries[key := Entry(None, false)];
      }
    }

    method DiscardEntry(key: Key)
      modifies this
      ensures View() == ExecStep(old(View()), DiscardReservation(key))
      ensures entries == if key in old(entries) && old(entries)[key].process.None? then old(entries) - {key}
                         else old(entries)
    {
      if key in entries && entries[key].process == None {
        entries := entries - {key};
      }
    }

    method TryLaunch(key: Key) returns (outcome: LaunchOutcome)
      requires ExecInv(View()) && key !in frames
      modifies this
      ensures View() == ExecStep(old(View()), Launch(key)) && ExecInv(View())
      ensures outcome.Started? <==> key in old(entries) && !old(entries)[key].cancelled && !old(closed)
      ensures outcome.Started? ==>
                && entries == old(entries)[key := Entry(Some(outcome.process), false)]
                && frames == old(frames)[key := Some(outcome.process)]
      ensures outcome.Started? ==> outcome.process !in old(alive) && outcome.process in alive
      ensures outcome == NoEntry <==> key !in old(entries)
    {
      ExecStepKeepsInv(View(), Launch(key));
      AliveIsOwned(View());
      if key !in entries {
        frames := frames[key := None];
        return NoEntry;
      }
      if closed || entries[key].cancelled {
        frames := frames[key := None];
        return Suppressed;
      }
      var process := nextProcess;
      nextProcess := nextProcess + 1;
      alive := alive + {process};
      entries := entries[key := entries[key].(process := Some(process))];
      frames := frames[key := Some(process)];
      return Started(process);
    }

    /** Flags the entry; the caller terminates the process that comes back. */
    method CancelEntry(key: Key) returns (toTerminate: Option<nat>)
      requires ExecInv(View())
      modifies this
      ensures View() == ExecStep(old(View()), CancelLaunch(key)) && ExecInv(View())
      ensures toTerminate.Some? <==> key in frames && frames[key].Some?
      ensures toTerminate.Some? ==> toTerminate == frames[key] && toTerminate.value in doomed
      ensures key in old(entries) ==> key in entries && entries[key].cancelled
    {
      ExecStepKeepsInv(View(), CancelLaunch(key));
      if key !in entries {
        return None;
      }
      entries := entries[key := entries[key].(cancelled := true)];
      toTerminate := entries[key].process;
      doomed := doomed + if toTerminate.Some? then {toTerminate.value} else {};
    }

    method CloseAll() returns (toTerminate: set<nat>)
      requires ExecInv(View())
      modifies this
      ensures View() == ExecStep(old(View()), Close) && ExecInv(View())
      ensures old(closed) ==> toTerminate == {}
      ensures !old(closed) ==> alive <= toTerminate <= doomed
      ensures closed && entries.Keys == old(entries).Keys
      ensures forall k :: k in entries ==> entries[k].cancelled && entries[k].process == old(entries)[k].process
    {
      ExecStepKeepsInv(View(), Close);
      AliveIsOwned(View());
      if closed {
        return {};
      }
      closed := true;
      toTerminate := ProcessesOf(entries);
      entries := map k | k in entries :: entries[k].(cancelled := true);
      doomed := doomed + toTerminate;
    }

    /** The executing call leaves, after its process has ended. */
    method Leave(key: Key)
      requires key in frames && (frames[key].Some? ==> frames[key].value !in alive)
      modifies this
      ensures View() == ExecStep(old(View()), Finish(key))
      ensures entries == old(entries) - {key} && frames == old(frames) - {key}
    {
      entries := entries - {key};
      frames := frames - {key};
    }
  }
}
