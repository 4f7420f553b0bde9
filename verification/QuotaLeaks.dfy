/** What stays in the reservation ledger: given back, and rechecked late; or booked, and never handed over. */
module QuotaLeaks {
  import opened Common
  import opened Quota

  /** Given back, and yet it holds bytes. */
  predicate Leaks(s: State, r: nat) {
    r < |s.issued| && GivenBack(s.issued[r]) && s.issued[r].bytes > 0
  }

  /** A recheck of r that is about to be accepted. */
  predicate Accepts(s: State, user: nat, r: nat) {
    user in s.ops && s.ops[user].RecheckScanned?
    && var op := s.ops[user];
       op.r == r && op.growth > 0 && op.used + op.other + op.growth <= op.limit
  }

  /** The phase of reservation r after a step. */
  function PhaseAfter(s: State, step: Step, r: nat): Phase
    requires r < |s.issued|
  {
    var phase := s.issued[r].phase;
    if step == HandOver(r) then InHand
    else if step == DropHandle(r) then Dropped
    else if step == Close(r) then Closed
    else if step == Empty(r) then if phase.Closed? then Closed else Emptied
    else phase
  }

  /** Steps of the gated operations. */
  predicate IsGated(step: Step) {
    step.StartReserve? || step.StartRecheck? || step.Scan? || step.Commit?
  }

  /** What a step does to one reservation: to its phase, to what was written, and to what it holds. */
  ghost predicate Moves(s: State, step: Step, t: State, r: nat)
    requires r < |s.issued|
  {
    && |t.issued| >= |s.issued| && t.issued[r].user == s.issued[r].user
    && t.issued[r].phase == PhaseAfter(s, step, r)
    && (!step.Write? ==> t.issued[r].written == s.issued[r].written)
    && if step.Commit? && Accepts(s, step.user, r) then t.issued[r].bytes == s.ops[step.user].growth
       else if step == Empty(r) then t.issued[r].bytes == 0
       else t.issued[r].bytes == s.issued[r].bytes || (t.issued[r].bytes == 0 && (Busy(s, r) || r in s.asked))
  }

  lemma CommitMoves(s: State, u: nat, r: nat)
    requires Enabled(s, Commit(u)) && r < |s.issued| && OpOk(s, u)
    ensures Moves(s, Commit(u), Committed(s, u), r)
  {
    hide SetReserved;
  }

  lemma GateMoves(s: State, step: Step, r: nat)
    requires Enabled(s, step) && r < |s.issued| && IsGated(step) && !step.Commit?
    ensures Moves(s, step, Next(s, step), r)
  {
    hide SetReserved, ReservationBytes, Busy, Accepts;
  }

  predicate ChangesPhase(step: Step) {
    step.HandOver? || step.DropHandle? || step.Close?
  }

  lemma PhaseMoves(s: State, step: Step, r: nat)
    requires Enabled(s, step) && r < |s.issued| && ChangesPhase(step)
    ensures Moves(s, step, Next(s, step), r)
  {
    hide Busy, Accepts;
  }

  lemma IdleMoves(s: State, step: Step, r: nat)
    requires Enabled(s, step) && r < |s.issued| && IsIdle(step) && !ChangesPhase(step)
    ensures Moves(s, step, Next(s, step), r)
  {
    assert Next(s, step).issued == s.issued;
    hide Busy, Accepts, Next, Enabled;
  }

  lemma WriteMoves(s: State, step: Step, r: nat)
    requires Enabled(s, step) && r < |s.issued| && (step.Write? || step.Empty?)
    ensures Moves(s, step, Next(s, step), r)
  {
    hide Busy, Accepts, SetReserved;
  }

  lemma StepMoves(s: State, step: Step, r: nat)
    requires Enabled(s, step) && r < |s.issued| && (step.Commit? ==> OpOk(s, step.user))
    ensures Moves(s, step, Next(s, step), r)
  {
    hide Moves, OpOk, Committed, Written, GaveBack, BeginReserve, BeginRecheck, Scanned;
    if step.Commit? {
      CommitMoves(s, step.user, r);
    } else if IsGated(step) {
      GateMoves(s, step, r);
    } else if ChangesPhase(step) {
      PhaseMoves(s, step, r);
    } else if IsIdle(step) {
      IdleMoves(s, step, r);
    } else {
      WriteMoves(s, step, r);
    }
  }

  /** A recheck of r gets under way only when it was asked for, and it is asked for only by its holder. */
  ghost predicate Asks(s: State, step: Step, t: State, r: nat) {
    && (Busy(t, r) ==> Busy(s, r) || (r in s.asked && step.StartRecheck? && step.r == r))
    && (r in t.asked ==> r in s.asked || step == AskRecheck(r))
    && (r in t.releasing ==> r in s.releasing || step == BeginRelease(r))
  }

  lemma GateAsks(s: State, step: Step, r: nat)
    requires Enabled(s, step) && IsGated(step)
    ensures Asks(s, step, Next(s, step), r)
  {
    hide SetReserved, ReservationBytes;
  }

  lemma OtherAsks(s: State, step: Step, r: nat)
    requires Enabled(s, step) && !IsGated(step)
    ensures Asks(s, step, Next(s, step), r)
  {
    hide SetReserved;
  }

  lemma StepAsks(s: State, step: Step, r: nat)
    requires Enabled(s, step)
    ensures Asks(s, step, Next(s, step), r)
  {
    hide Asks, Next, Enabled;
    if IsGated(step) {
      GateAsks(s, step, r);
    } else {
      OtherAsks(s, step, r);
    }
  }

  /** A new reservation has just been booked. */
  lemma NewIsBooked(s: State, step: Step, r: nat)
    requires Enabled(s, step) && |s.issued| <= r < |Next(s, step).issued|
    ensures Next(s, step).issued[r].phase.Booked? && Next(s, step).issued[r].written == 0
    ensures step.StartReserve? || step.Commit?
  {
    hide SetReserved, ReservationBytes;
  }

  /** The step accepts a recheck of a reservation that has already been given back. */
  predicate AcceptsLate(s: State, step: Step, r: nat) {
    step.Commit? && Accepts(s, step.user, r) && r < |s.issued| && GivenBack(s.issued[r])
  }

  lemma StepLeaks(s: State, step: Step, r: nat)
    requires Enabled(s, step) && Inv(s) && !Leaks(s, r)
    ensures Leaks(Next(s, step), r) <==> AcceptsLate(s, step, r)
  {
    hide Next, Enabled, Inv, OpOk, Busy;
    if step.Commit? {
      InvOps(s, step.user);
    }
    if r < |s.issued| {
      if step.Commit? && Accepts(s, step.user, r) {
        AcceptedGrows(s, step.user, r);
      }
      GivenBackStays(s, step, r);
      StepMoves(s, step, r);
    } else if r < |Next(s, step).issued| {
      NewIsBooked(s, step, r);
    }
    hide Accepts, PhaseAfter;
  }

  lemma AcceptedGrows(s: State, user: nat, r: nat)
    requires Accepts(s, user, r)
    ensures s.ops[user].growth > 0
  {
  }

  lemma GivenBackStays(s: State, step: Step, r: nat)
    requires Enabled(s, step) && r < |s.issued|
    ensures GivenBack(s.issued[r]) ==> PhaseAfter(s, step, r).Emptied? || PhaseAfter(s, step, r).Closed?
    ensures step != Empty(r) && !GivenBack(s.issued[r]) ==>
              !PhaseAfter(s, step, r).Emptied? && !PhaseAfter(s, step, r).Closed?
  {
  }

  lemma LateLeaks(s: State, step: Step, r: nat)
    requires Enabled(s, step) && Inv(s) && AcceptsLate(s, step, r)
    ensures Leaks(Next(s, step), r)
  {
    InvOps(s, step.user);
    StepMoves(s, step, r);
    hide Next, Enabled, Inv, OpOk, Busy;
  }

  /** The n-th step of the run happens, and accepts a late recheck of r. */
  predicate LateAt(usage: map<nat, nat>, steps: seq<Step>, n: nat, r: nat) {
    && n < |steps|
    && Enabled(Run(usage, steps[..n]), steps[n]) && AcceptsLate(Run(usage, steps[..n]), steps[n], r)
  }

  predicate LeaksAt(usage: map<nat, nat>, steps: seq<Step>, n: nat, r: nat) {
    n <= |steps| && Leaks(Run(usage, steps[..n]), r)
  }

  lemma RunStep(usage: map<nat, nat>, steps: seq<Step>, n: nat)
    requires n < |steps|
    ensures var s := Run(usage, steps[..n]);
            Run(usage, steps[..n + 1]) == if Enabled(s, steps[n]) then Next(s, steps[n]) else s
  {
    assert steps[..n + 1][..n] == steps[..n];
  }

  /** Whoever leaks has been rechecked late. */
  lemma {:induction false} LeakedByLate(usage: map<nat, nat>, steps: seq<Step>, n: nat, r: nat)
    requires LeaksAt(usage, steps, n, r)
    ensures exists k :: LateAt(usage, steps, k, r)
  {
    assert n > 0 by {
      assert steps[..0] == [];
    }
    var before := Run(usage, steps[..n - 1]);
    RunStep(usage, steps, n - 1);
    RunKeepsInv(usage, steps[..n - 1]);
    hide Run;
    if Leaks(before, r) {
      LeakedByLate(usage, steps, n - 1, r);
    } else {
      StepLeaks(before, steps[n - 1], r);
      assert LateAt(usage, steps, n - 1, r);
    }
  }

  /**
   A reservation that was given back comes to hold bytes, somewhere in a run, exactly if the run
   accepts a recheck of it after it was given back.
   */
  lemma LeaksExactlyByLateRecheck(usage: map<nat, nat>, steps: seq<Step>, r: nat)
    ensures (exists n: nat :: LeaksAt(usage, steps, n, r)) <==> (exists n: nat :: LateAt(usage, steps, n, r))
  {
    forall n: nat | LeaksAt(usage, steps, n, r) ensures exists k :: LateAt(usage, steps, k, r) {
      LeakedByLate(usage, steps, n, r);
    }
    forall n: nat | LateAt(usage, steps, n, r) ensures LeaksAt(usage, steps, n + 1, r) {
      RunStep(usage, steps, n);
      RunKeepsInv(usage, steps[..n]);
      LateLeaks(Run(usage, steps[..n]), steps[n], r);
    }
    hide LeaksAt, LateAt;
  }

  function Held(s: State, r: nat): nat {
    if r < |s.issued| then s.issued[r].bytes else 0
  }

  /** Whether a recheck of r is under way, or waits for the gate. */
  predicate Pending(s: State, r: nat) {
    Busy(s, r) || r in s.asked
  }

  /** Nobody can give these bytes back: no caller may ask any more, and nothing that was asked is left to do. */
  predicate Abandoned(s: State, r: nat) {
    && r < |s.issued| && (s.issued[r].phase.Closed? || s.issued[r].phase.Dropped?)
    && !Pending(s, r) && r !in s.releasing
  }

  lemma StepKeepsAbandoned(s: State, step: Step, r: nat)
    requires Enabled(s, step) && Inv(s) && Abandoned(s, r)
    ensures Abandoned(Next(s, step), r) && Held(Next(s, step), r) == Held(s, r)
  {
    if step.Commit? {
      InvOps(s, step.user);
      assert !Accepts(s, step.user, r);
    }
    assert step == Empty(r) ==> r in s.releasing;
    StepMoves(s, step, r);
    StepAsks(s, step, r);
    HandleSteps(s, step, r);
    hide Next, Enabled, Inv, OpOk, Accepts, Busy;
  }

  /** Who can take these steps for r. */
  lemma HandleSteps(s: State, step: Step, r: nat)
    requires Enabled(s, step) && r < |s.issued|
    ensures step == AskRecheck(r) || step == BeginRelease(r) ==> Open(s.issued[r])
    ensures step == HandOver(r) || step == DropHandle(r) ==> s.issued[r].phase.Booked?
    ensures step == Close(r) ==> s.issued[r].phase.Emptied?
    ensures step == Empty(r) ==> r in s.releasing
    ensures step.StartRecheck? && step.r == r ==> r in s.asked
  {
  }

  lemma RunMore(usage: map<nat, nat>, steps: seq<Step>, step: Step)
    ensures Run(usage, steps + [step])
            == if Enabled(Run(usage, steps), step) then Next(Run(usage, steps), step) else Run(usage, steps)
  {
    assert (steps + [step])[..|steps|] == steps;
  }

  lemma {:induction false} AbandonedForGood(usage: map<nat, nat>, steps: seq<Step>, more: seq<Step>, r: nat)
    requires Abandoned(Run(usage, steps), r)
    ensures Abandoned(Run(usage, steps + more), r)
    ensures Held(Run(usage, steps + more), r) == Held(Run(usage, steps), r)
    decreases |more|
  {
    hide Run, Inv, Next, Enabled, Abandoned;
    if more == [] {
      assert steps + more == steps;
    } else {
      var front, step := more[..|more| - 1], more[|more| - 1];
      AbandonedForGood(usage, steps, front, r);
      assert steps + more == (steps + front) + [step];
      RunMore(usage, steps + front, step);
      RunKeepsInv(usage, steps + front);
      if Enabled(Run(usage, steps + front), step) {
        StepKeepsAbandoned(Run(usage, steps + front), step, r);
      }
    }
  }

  const LATE_START: seq<Step> :=
    [] + [StartReserve(0, 0, 0, 1, Some(10))] + [HandOver(0)] + [AskRecheck(0)] + [StartRecheck(0, 5, Some(10))]

  const LATE: seq<Step> := LATE_START + [Scan(0)] + [BeginRelease(0)] + [Empty(0)] + [Close(0)] + [Commit(0)]

  lemma LateBegins(s: State)
    requires s == State(map[], [Res(0, 0, 0, InHand)], map[], map[0 := Rechecking(0, 5, 10, 0)], multiset{}, multiset{})
    ensures Run(map[], LATE_START) == s
  {
    assert Run(map[], []) == Init(map[]);
    hide Run;
    RunMore(map[], [], StartReserve(0, 0, 0, 1, Some(10)));
    RunMore(map[], [] + [StartReserve(0, 0, 0, 1, Some(10))], HandOver(0));
    RunMore(map[], [] + [StartReserve(0, 0, 0, 1, Some(10))] + [HandOver(0)], AskRecheck(0));
    RunMore(map[], [] + [StartReserve(0, 0, 0, 1, Some(10))] + [HandOver(0)] + [AskRecheck(0)],
            StartRecheck(0, 5, Some(10)));
  }

  /** A release while a recheck has scanned. */
  lemma LateReleases(steps: seq<Step>)
    requires Run(map[], steps)
             == State(map[], [Res(0, 0, 0, InHand)], map[], map[0 := Rechecking(0, 5, 10, 0)], multiset{}, multiset{})
    ensures Run(map[], steps + [Scan(0)] + [BeginRelease(0)] + [Empty(0)])
            == State(map[], [Res(0, 0, 0, Emptied)], map[], map[0 := RecheckScanned(0, 5, 10, 0, 0)],
                     multiset{}, multiset{})
  {
    hide Run;
    RunMore(map[], steps, Scan(0));
    RunMore(map[], steps + [Scan(0)], BeginRelease(0));
    RunMore(map[], steps + [Scan(0)] + [BeginRelease(0)], Empty(0));
  }

  /** The recheck is accepted after that. */
  lemma LateEnds(steps: seq<Step>)
    requires Run(map[], steps)
             == State(map[], [Res(0, 0, 0, Emptied)], map[], map[0 := RecheckScanned(0, 5, 10, 0, 0)],
                      multiset{}, multiset{})
    ensures Run(map[], steps + [Close(0)] + [Commit(0)])
            == State(map[0 := 5], [Res(0, 5, 0, Closed)], map[], map[], multiset{}, multiset{})
  {
    hide Run;
    RunMore(map[], steps, Close(0));
    RunMore(map[], steps + [Close(0)], Commit(0));
  }

  /** This does happen: an empty reservation that is released during its recheck holds five bytes for good. */
  lemma LateRecheckLeaks(more: seq<Step>)
    ensures var s := Run(map[], LATE + more); Abandoned(s, 0) && Held(s, 0) == 5
  {
    hide Run;
    LateBegins(State(map[], [Res(0, 0, 0, InHand)], map[], map[0 := Rechecking(0, 5, 10, 0)], multiset{}, multiset{}));
    LateReleases(LATE_START);
    LateEnds(LATE_START + [Scan(0)] + [BeginRelease(0)] + [Empty(0)]);
    AbandonedForGood(map[], LATE, more, 0);
  }

  /** Who has no handle has asked for nothing. */
  predicate HandleOk(s: State, r: nat) {
    && (r in s.asked || r in s.releasing ==> r < |s.issued|)
    && (r < |s.issued| && (s.issued[r].phase.Booked? || s.issued[r].phase.Dropped?) ==>
          !Pending(s, r) && r !in s.releasing)
  }

  lemma StepKeepsHandle(s: State, step: Step, r: nat)
    requires Enabled(s, step) && Inv(s) && HandleOk(s, r)
    ensures HandleOk(Next(s, step), r)
  {
    if step.Commit? {
      InvOps(s, step.user);
    }
    StepAsks(s, step, r);
    if r < |s.issued| {
      StepMoves(s, step, r);
      HandleSteps(s, step, r);
    } else {
      assert step != AskRecheck(r) && step != BeginRelease(r) && !Busy(s, r);
      if r < |Next(s, step).issued| {
        NewIsBooked(s, step, r);
      }
    }
    hide Next, Enabled, Inv, OpOk, Accepts, Busy;
  }

  lemma {:induction false} RunKeepsHandle(usage: map<nat, nat>, steps: seq<Step>, r: nat)
    ensures HandleOk(Run(usage, steps), r)
  {
    if steps != [] {
      var s, step := Run(usage, steps[..|steps| - 1]), steps[|steps| - 1];
      RunKeepsHandle(usage, steps[..|steps| - 1], r);
      RunKeepsInv(usage, steps[..|steps| - 1]);
      if Enabled(s, step) {
        StepKeepsHandle(s, step, r);
      }
    }
  }

  /**
   A caller that is cancelled between the booking and its return never gets its reservation: what
   was booked stays in the ledger in every continuation, and nobody can give it back.
   */
  lemma DroppedStaysBooked(usage: map<nat, nat>, steps: seq<Step>, r: nat, more: seq<Step>)
    requires Enabled(Run(usage, steps), DropHandle(r))
    ensures var s := Run(usage, steps + [DropHandle(r)] + more);
            Abandoned(s, r) && Held(s, r) == Held(Run(usage, steps), r)
  {
    RunKeepsHandle(usage, steps, r);
    RunMore(usage, steps, DropHandle(r));
    hide Run;
    assert Abandoned(Run(usage, steps + [DropHandle(r)]), r);
    AbandonedForGood(usage, steps + [DropHandle(r)], more, r);
  }

  function Booking(user: nat, bytes: nat, limit: nat): seq<Step> {
    [] + [StartReserve(user, bytes, 0, 1, Some(limit))] + [Scan(user)] + [Commit(user)]
  }

  lemma BookingStarts(s: State, user: nat, bytes: nat, limit: nat)
    requires bytes > 0 && user !in s.ops
    ensures Enabled(s, StartReserve(user, bytes, 0, 1, Some(limit)))
    ensures Next(s, StartReserve(user, bytes, 0, 1, Some(limit))) == s.(ops := s.ops[user := Reserving(bytes, limit)])
  {
    assert ReservationBytes(bytes, 0, 1) == bytes;
  }

  lemma BookingEnds(s: State, user: nat, bytes: nat, limit: nat, used: nat)
    requires user in s.ops && s.ops[user] == ReserveScanned(bytes, limit, used)
    requires used + At(s.totals, user) + bytes <= limit
    ensures Enabled(s, Commit(user))
    ensures Next(s, Commit(user)).issued == s.issued + [Res(user, bytes, 0, Booked)]
  {
  }

  lemma RunThree(usage: map<nat, nat>, a: Step, b: Step, c: Step, one: State, two: State)
    requires Enabled(Init(usage), a) && one == Next(Init(usage), a)
    requires Enabled(one, b) && two == Next(one, b) && Enabled(two, c)
    ensures Run(usage, [] + [a] + [b] + [c]) == Next(two, c)
  {
    hide Enabled, Next;
    assert Run(usage, []) == Init(usage);
    RunMore(usage, [], a);
    RunMore(usage, [] + [a], b);
    RunMore(usage, [] + [a] + [b], c);
  }

  /** And any number of bytes within the limit can be at stake. */
  lemma BookingCanBeDropped(usage: map<nat, nat>, user: nat, bytes: nat, limit: nat)
    requires bytes > 0 && At(usage, user) + bytes <= limit
    ensures var s := Run(usage, Booking(user, bytes, limit));
            Enabled(s, DropHandle(0)) && Held(s, 0) == bytes
  {
    hide Run;
    var s := Init(usage);
    BookingStarts(s, user, bytes, limit);
    var asked := s.(ops := s.ops[user := Reserving(bytes, limit)]);
    var scanned := Next(asked, Scan(user));
    BookingEnds(scanned, user, bytes, limit, At(usage, user));
    hide Next;
    RunThree(usage, StartReserve(user, bytes, 0, 1, Some(limit)), Scan(user), Commit(user), asked, scanned);
  }

  /** The run gives no reservation back while a recheck of it is pending, and none is asked for after that. */
  predicate NeverLate(usage: map<nat, nat>, steps: seq<Step>) {
    steps == []
    || (NeverLate(usage, steps[..|steps| - 1])
        && InTime(Run(usage, steps[..|steps| - 1]), steps[|steps| - 1]))
  }

  predicate InTime(s: State, step: Step) {
    && (step.Empty? ==> !Pending(s, step.r))
    && (step.AskRecheck? ==> step.r < |s.issued| && !GivenBack(s.issued[step.r]))
  }

  /** What was given back holds no bytes, and is not about to be rechecked. */
  predicate Clean(s: State, r: nat) {
    r < |s.issued| && GivenBack(s.issued[r]) ==> s.issued[r].bytes == 0 && !Pending(s, r)
  }

  ghost predicate NoneLeaks(s: State) {
    forall r: nat :: Clean(s, r)
  }

  lemma StepKeepsClean(s: State, step: Step, r: nat)
    requires Enabled(s, step) && Inv(s) && Clean(s, r) && InTime(s, step)
    ensures Clean(Next(s, step), r)
  {
    if step.Commit? {
      InvOps(s, step.user);
      assert r < |s.issued| && Accepts(s, step.user, r) ==> Busy(s, r);
    }
    StepAsks(s, step, r);
    if r < |s.issued| {
      StepMoves(s, step, r);
      HandleSteps(s, step, r);
    } else if r < |Next(s, step).issued| {
      NewIsBooked(s, step, r);
    }
    hide Next, Enabled, Inv, OpOk, Accepts, Busy;
  }

  lemma StepKeepsNoneLeaks(s: State, step: Step)
    requires Enabled(s, step) && Inv(s) && NoneLeaks(s) && InTime(s, step)
    ensures NoneLeaks(Next(s, step))
  {
    hide Next, Enabled, Inv, Clean, InTime;
    forall r: nat ensures Clean(Next(s, step), r) {
      assert Clean(s, r);
      StepKeepsClean(s, step, r);
    }
  }

  /** Otherwise a reservation that was given back holds nothing, in every run. */
  lemma {:induction false} ReleasedHoldNothing(usage: map<nat, nat>, steps: seq<Step>)
    requires NeverLate(usage, steps)
    ensures NoneLeaks(Run(usage, steps))
  {
    if steps != [] {
      var s, step := Run(usage, steps[..|steps| - 1]), steps[|steps| - 1];
      ReleasedHoldNothing(usage, steps[..|steps| - 1]);
      RunKeepsInv(usage, steps[..|steps| - 1]);
      if Enabled(s, step) {
        StepKeepsNoneLeaks(s, step);
      }
    }
  }
}
