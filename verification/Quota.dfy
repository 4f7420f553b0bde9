/**
 Per-user storage quota: the reservation estimate, the reservation ledger, and the end-to-end bound
 on real usage when gated operations, file scans and writers interleave.
 */
module Quota {
  import opened Arithmetic
  import opened Common
  import opened Sums

  // ---------------------------------------------------------------- the estimate

  function RoundedUp(bytes: nat, unit: nat): nat
    requires unit >= 1
  {
    (bytes + unit - 1) / unit * unit
  }

  function ReservationBytes(requested: nat, entries: nat, unit: nat): nat
    requires unit >= 1
  {
    (if requested > 0 then RoundedUp(requested, unit) else 0) + entries * unit
  }

  /** What one file of the given size occupies: whole blocks, and at least one. */
  function Allocated(size: nat, unit: nat): nat
    requires unit >= 1
  {
    Max(RoundedUp(size, unit), unit)
  }

  function TotalAllocated(sizes: seq<nat>, unit: nat): nat
    requires unit >= 1
  {
    if sizes == [] then 0 else Allocated(sizes[0], unit) + TotalAllocated(sizes[1..], unit)
  }

  function TotalSize(sizes: seq<nat>): nat {
    if sizes == [] then 0 else sizes[0] + TotalSize(sizes[1..])
  }

  /** The whole blocks within a size. */
  function FullBlocks(size: nat, unit: nat): nat
    requires unit >= 1
  {
    size / unit * unit
  }

  /** A file never takes more than its full blocks and one block besides. */
  lemma AllocatedAtMost(size: nat, unit: nat)
    requires unit >= 1
    ensures Allocated(size, unit) <= FullBlocks(size, unit) + unit
  {
    var up, down := (size + unit - 1) / unit, size / unit;
    DivisionBounds(size + unit - 1, unit);
    DivisionBounds(size, unit);
    Scaled(down + 1, up, unit);
    Scaled(up, down + 1, unit);
    Scaled(0, down, unit);
    assert (down + 1) * unit == down * unit + unit;
  }

  lemma FullBlocksAdd(a: nat, b: nat, unit: nat)
    requires unit >= 1
    ensures FullBlocks(a, unit) + FullBlocks(b, unit) <= FullBlocks(a + b, unit)
  {
    var i, j, k := a / unit, b / unit, (a + b) / unit;
    DivisionBounds(a, unit);
    DivisionBounds(b, unit);
    DivisionBounds(a + b, unit);
    assert (i + j) * unit == i * unit + j * unit;
    Scaled(k, i + j, unit);
    Scaled(i + j, k, unit);
  }

  function Blocks(n: nat, unit: nat): nat {
    n * unit
  }

  lemma {:induction false} TotalAtMost(sizes: seq<nat>, unit: nat)
    requires unit >= 1
    ensures TotalAllocated(sizes, unit) <= FullBlocks(TotalSize(sizes), unit) + Blocks(|sizes|, unit)
  {
    if sizes != [] {
      hide FullBlocks, Allocated, Blocks;
      TotalAtMost(sizes[1..], unit);
      AllocatedAtMost(sizes[0], unit);
      FullBlocksAdd(sizes[0], TotalSize(sizes[1..]), unit);
      BlocksNext(|sizes[1..]|, unit);
    }
  }

  lemma BlocksNext(n: nat, unit: nat)
    ensures Blocks(n + 1, unit) == Blocks(n, unit) + unit
  {
  }

  lemma FullBlocksMonotone(a: nat, b: nat, unit: nat)
    requires unit >= 1 && a <= b
    ensures FullBlocks(a, unit) <= if b > 0 then RoundedUp(b, unit) else 0
  {
    DivisionBounds(a, unit);
    DivisionBounds(b + unit - 1, unit);
    Scaled((b + unit - 1) / unit, a / unit, unit);
    Scaled(a / unit, (b + unit - 1) / unit, unit);
    if b == 0 {
      assert a / unit == 0;
    }
  }

  /**
   The estimate covers every collection of at most entries files whose sizes add up to at most
   requested, each taking whole blocks and at least one.
   */
  lemma EstimateCovers(sizes: seq<nat>, requested: nat, entries: nat, unit: nat)
    requires unit >= 1 && |sizes| <= entries && TotalSize(sizes) <= requested
    ensures TotalAllocated(sizes, unit) <= ReservationBytes(requested, entries, unit)
  {
    TotalAtMost(sizes, unit);
    FullBlocksMonotone(TotalSize(sizes), requested, unit);
    Scaled(|sizes|, entries, unit);
  }

  lemma EstimateIsPositive(requested: nat, entries: nat, unit: nat)
    requires unit >= 1
    ensures ReservationBytes(requested, entries, unit) == 0 <==> requested == 0 && entries == 0
    ensures ReservationBytes(requested, entries, unit) >= requested
  {
    DivisionBounds(requested + unit - 1, unit);
    Scaled(0, entries, unit);
  }

  /** number is the fewest blocks that hold the bytes. */
  predicate FewestBlocks(number: nat, bytes: nat, unit: nat) {
    bytes <= number * unit && (number > 0 ==> (number - 1) * unit < bytes)
  }

  lemma RoundingIsFewest(bytes: nat, unit: nat)
    requires unit >= 1
    ensures exists number: nat :: FewestBlocks(number, bytes, unit) && RoundedUp(bytes, unit) == number * unit
  {
    var number := (bytes + unit - 1) / unit;
    DivisionBounds(bytes + unit - 1, unit);
    assert (number - 1) * unit == number * unit - unit;
    assert FewestBlocks(number, bytes, unit);
  }

  /** The estimate is no larger than it has to be: the fewest blocks for the bytes, and one more for each entry. */
  lemma EstimateIsExact(requested: nat, entries: nat, unit: nat)
    requires unit >= 1
    ensures exists number: nat ::
              FewestBlocks(number, requested, unit)
              && ReservationBytes(requested, entries, unit) == number * unit + entries * unit
  {
    if requested > 0 {
      RoundingIsFewest(requested, unit);
    } else {
      assert FewestBlocks(0, requested, unit);
    }
  }

  /** A file takes the fewest blocks that hold it, and one if it is empty. */
  lemma AllocatedIsExact(size: nat, unit: nat)
    requires unit >= 1
    ensures exists number: nat :: FewestBlocks(number, Max(size, 1), unit) && Allocated(size, unit) == number * unit
  {
    RoundingIsFewest(size, unit);
    var number: nat :| FewestBlocks(number, size, unit) && RoundedUp(size, unit) == number * unit;
    hide RoundedUp;
    if number == 0 {
      assert number * unit == 0 && 0 * unit == 0 && 1 * unit == unit;
      assert FewestBlocks(1, Max(size, 1), unit);
    } else {
      Scaled(1, number, unit);
      Scaled(0, number - 1, unit);
      assert 0 * unit == 0 && 1 * unit == unit;
      assert Max(size, 1) == size;
      assert FewestBlocks(number, Max(size, 1), unit);
    }
  }

  // ---------------------------------------------------------------- the service

  /**
   How far a reservation has come: booked in the ledger; in the hands of its caller, or dropped when
   the caller was cancelled on the way out; emptied by a release; and closed, which is the flag that
   a release sets last.
   */
  datatype Phase = Booked | InHand | Dropped | Emptied | Closed

  /** One reservation, and how much its writer has written under it. */
  datatype Res = Res(user: nat, bytes: nat, written: nat, phase: Phase)

  /** The caller has it, and no release has closed it yet. */
  predicate Open(r: Res) {
    r.phase.InHand? || r.phase.Emptied?
  }

  predicate GivenBack(r: Res) {
    r.phase.Emptied? || r.phase.Closed?
  }

  /** The gated operation of a user, by how far it has come. */
  datatype Op =
    | Reserving(requested: nat, limit: nat)
    | ReserveScanned(requested: nat, limit: nat, used: nat)
    | Rechecking(r: nat, growth: nat, limit: nat, other: nat)
    | RecheckScanned(r: nat, growth: nat, limit: nat, other: nat, used: nat)

  /**
   totals is the reservation ledger, without zero entries; usage is what the files of each user
   really occupy; a user in ops holds that user's gate. asked lists the rechecks, and releasing the
   releases, that have found their reservation not closed and wait for the gate.
   */
  datatype State = State(
    totals: map<nat, nat>, issued: seq<Res>, usage: map<nat, nat>, ops: map<nat, Op>,
    asked: multiset<nat>, releasing: multiset<nat>)

  /** A policy is None for unlimited storage. */
  datatype Step =
    | StartReserve(user: nat, bytes: nat, entries: nat, unit: nat, policy: Option<nat>)
    | AskRecheck(r: nat)
    | DropRecheck(r: nat)
    | StartRecheck(r: nat, growth: nat, policy: Option<nat>)
    | Scan(user: nat)
    | Commit(user: nat)
    | Abort(user: nat)
    | Write(r: nat, bytes: nat)
    | Delete(user: nat, bytes: nat)
    | HandOver(r: nat)
    | DropHandle(r: nat)
    | BeginRelease(r: nat)
    | Empty(r: nat)
    | Close(r: nat)

  function At(m: map<nat, nat>, user: nat): nat {
    if user in m then m[user] else 0
  }

  /** Writes a ledger entry; zero entries are dropped. */
  function SetReserved(totals: map<nat, nat>, user: nat, value: nat): map<nat, nat> {
    if value > 0 then totals[user := value] else totals - {user}
  }

  predicate Busy(s: State, r: nat) {
    r < |s.issued| && s.issued[r].user in s.ops
    && match s.ops[s.issued[r].user]
       case Rechecking(x, _, _, _) => x == r
       case RecheckScanned(x, _, _, _, _) => x == r
       case _ => false
  }

  /** What a recheck of r in progress will at most leave to its writer. */
  predicate GrowthAllows(s: State, r: nat, written: nat) {
    r < |s.issued| && s.issued[r].user in s.ops ==>
      match s.ops[s.issued[r].user]
      case Rechecking(x, growth, _, _) => x == r ==> written <= growth
      case RecheckScanned(x, growth, _, _, _) => x == r ==> written <= growth
      case _ => true
  }

  /**
   When a step can happen: the gate lets in one operation of a user at a time. Only the release of a
   reservation that holds nothing does not wait for the gate, and the flag is set outside it.
   */
  predicate Enabled(s: State, step: Step) {
    match step
    case StartReserve(user, _, _, unit, _) => unit >= 1 && user !in s.ops
    case AskRecheck(r) => r < |s.issued| && Open(s.issued[r])
    case DropRecheck(r) => r in s.asked
    case StartRecheck(r, _, _) => r in s.asked && r < |s.issued| && s.issued[r].user !in s.ops
    case Scan(user) => user in s.ops && (s.ops[user].Reserving? || s.ops[user].Rechecking?)
    case Commit(user) => user in s.ops && (s.ops[user].ReserveScanned? || s.ops[user].RecheckScanned?)
    case Abort(user) => user in s.ops
    case Write(r, _) => r < |s.issued| && Open(s.issued[r])
    case Delete(user, n) => n <= At(s.usage, user)
    case HandOver(r) => r < |s.issued| && s.issued[r].phase.Booked?
    case DropHandle(r) => r < |s.issued| && s.issued[r].phase.Booked?
    case BeginRelease(r) => r < |s.issued| && Open(s.issued[r])
    case Empty(r) =>
      r in s.releasing && r < |s.issued| && (s.issued[r].bytes > 0 ==> s.issued[r].user !in s.ops)
    case Close(r) => r < |s.issued| && s.issued[r].phase.Emptied?
  }

  function WithBytes(s: State, r: nat, bytes: nat): seq<Res>
    requires r < |s.issued|
  {
    s.issued[r := s.issued[r].(bytes := bytes)]
  }

  function BeginReserve(s: State, user: nat, bytes: nat, entries: nat, unit: nat, policy: Option<nat>): State
    requires unit >= 1
  {
    if policy.None? || (bytes == 0 && entries == 0) then s.(issued := s.issued + [Res(user, 0, 0, Booked)])
    else s.(ops := s.ops[user := Reserving(ReservationBytes(bytes, entries, unit), policy.value)])
  }

  function BeginRecheck(s: State, r: nat, growth: nat, policy: Option<nat>): State
    requires r < |s.issued|
  {
    var user, current := s.issued[r].user, s.issued[r].bytes;
    var total := At(s.totals, user);
    var other := Max(0, total - current);
    if policy.None? || growth == 0 then
      s.(totals := SetReserved(s.totals, user, other), issued := WithBytes(s, r, 0))
    else s.(ops := s.ops[user := Rechecking(r, growth, policy.value, other)])
  }

  function Scanned(s: State, user: nat): State
    requires Enabled(s, Scan(user))
  {
    var op, used := s.ops[user], At(s.usage, user);
    s.(ops := s.ops[user := match op
                            case Reserving(requested, limit) => ReserveScanned(requested, limit, used)
                            case Rechecking(r, growth, limit, other) => RecheckScanned(r, growth, limit, other, used)
                            case _ => op])
  }

  /** The decision; a refusal leaves ledger and reservations as they are. */
  function Committed(s: State, user: nat): State
    requires Enabled(s, Commit(user))
  {
    var done := s.(ops := s.ops - {user});
    match s.ops[user]
    case ReserveScanned(requested, limit, used) =>
      var reserved := At(s.totals, user);
      if used + reserved + requested > limit then done
      else done.(totals := s.totals[user := reserved + requested],
                 issued := s.issued + [Res(user, requested, 0, Booked)])
    case RecheckScanned(r, growth, limit, other, used) =>
      if used + other + growth > limit || r >= |s.issued| then done
      else done.(totals := SetReserved(s.totals, user, other + growth), issued := WithBytes(s, r, growth))
    case _ => done
  }

  function Written(s: State, r: nat, n: nat): State
    requires r < |s.issued|
  {
    var res := s.issued[r];
    s.(issued := s.issued[r := res.(written := res.written + n)],
       usage := s.usage[res.user := At(s.usage, res.user) + n])
  }

  function InPhase(s: State, r: nat, phase: Phase): State
    requires r < |s.issued|
  {
    s.(issued := s.issued[r := s.issued[r].(phase := phase)])
  }

  /** Gives back what the reservation holds; one that is closed already stays closed. */
  function GaveBack(s: State, r: nat): State
    requires r < |s.issued|
  {
    var res := s.issued[r];
    var phase := if res.phase.Closed? then Closed else Emptied;
    if res.bytes == 0 then InPhase(s, r, phase)
    else s.(totals := SetReserved(s.totals, res.user, Max(0, At(s.totals, res.user) - res.bytes)),
            issued := s.issued[r := res.(bytes := 0, phase := phase)])
  }

  /** A release from start to end. */
  function Released(s: State, r: nat): State
    requires r < |s.issued|
  {
    if s.issued[r].phase.Closed? then s else InPhase(GaveBack(s, r), r, Closed)
  }

  function Next(s: State, step: Step): State
    requires Enabled(s, step)
  {
    match step
    case StartReserve(user, bytes, entries, unit, policy) => BeginReserve(s, user, bytes, entries, unit, policy)
    case AskRecheck(r) => s.(asked := s.asked + multiset{r})
    case DropRecheck(r) => s.(asked := s.asked - multiset{r})
    case StartRecheck(r, growth, policy) => BeginRecheck(s.(asked := s.asked - multiset{r}), r, growth, policy)
    case Scan(user) => Scanned(s, user)
    case Commit(user) => Committed(s, user)
    case Abort(user) => s.(ops := s.ops - {user})
    case Write(r, n) => Written(s, r, n)
    case Delete(user, n) => s.(usage := s.usage[user := At(s.usage, user) - n])
    case HandOver(r) => InPhase(s, r, InHand)
    case DropHandle(r) => InPhase(s, r, Dropped)
    case BeginRelease(r) => s.(releasing := s.releasing + multiset{r})
    case Empty(r) => GaveBack(s.(releasing := s.releasing - multiset{r}), r)
    case Close(r) => InPhase(s, r, Closed)
  }

  function Init(usage: map<nat, nat>): State {
    State(map[], [], usage, map[], multiset{}, multiset{})
  }

  /** Any interleaving; a step that cannot happen is skipped. */
  function Run(usage: map<nat, nat>, steps: seq<Step>): State {
    if steps == [] then Init(usage)
    else
      var s, step := Run(usage, steps[..|steps| - 1]), steps[|steps| - 1];
      if Enabled(s, step) then Next(s, step) else s
  }

  // ---------------------------------------------------------------- sums over reservations

  function BytesOf(user: nat): Res -> int {
    (r: Res) => if r.user == user then r.bytes else 0
  }

  /** What a user's writers may still write. */
  function LeftOf(user: nat): Res -> int {
    (r: Res) => if r.user == user && !GivenBack(r) then r.bytes - r.written else 0
  }

  lemma SetReservedAt(totals: map<nat, nat>, u: nat, value: nat, user: nat)
    ensures At(SetReserved(totals, u, value), user) == if user == u then value else At(totals, user)
    ensures user in SetReserved(totals, u, value) <==> if user == u then value > 0 else user in totals
  {
  }

  // ---------------------------------------------------------------- the ledger is conserved

  ghost predicate TotalIsSum(s: State, user: nat) {
    At(s.totals, user) == SumOf(s.issued, BytesOf(user)) && (user in s.totals ==> s.totals[user] > 0)
  }

  /** What the operation holding a user's gate relies on. */
  ghost predicate OpOk(s: State, user: nat) {
    user in s.ops ==>
      match s.ops[user]
      case Rechecking(r, _, _, other) => HoldsOther(s, user, r, other)
      case RecheckScanned(r, _, _, other, _) => HoldsOther(s, user, r, other)
      case Reserving(requested, _) => requested > 0
      case ReserveScanned(requested, _, _) => requested > 0
  }

  ghost predicate HoldsOther(s: State, user: nat, r: nat, other: nat) {
    && r < |s.issued| && s.issued[r].user == user
    && other == At(s.totals, user) - s.issued[r].bytes
  }

  ghost predicate Inv(s: State) {
    && (forall user :: TotalIsSum(s, user))
    && (forall user :: OpOk(s, user))
  }

  lemma InvTotal(s: State, user: nat)
    requires Inv(s)
    ensures TotalIsSum(s, user)
  {
  }

  lemma InvOps(s: State, user: nat)
    requires Inv(s)
    ensures OpOk(s, user)
  {
  }

  /** Giving up what reservation r holds. */
  lemma DropKeepsTotals(s: State, r: nat, user: nat)
    requires Inv(s) && r < |s.issued|
    ensures var u := s.issued[r].user;
            var other := At(s.totals, u) - s.issued[r].bytes;
            && other >= 0
            && TotalIsSum(s.(totals := SetReserved(s.totals, u, other), issued := WithBytes(s, r, 0)), user)
  {
    assert TotalIsSum(s, user) && TotalIsSum(s, s.issued[r].user);
    hide SumOf, Inv, SetReserved;
    PartOfSum(s.issued, r, BytesOf(s.issued[r].user));
    SumUpdate(s.issued, r, s.issued[r].(bytes := 0), BytesOf(user));
    SetReservedAt(s.totals, s.issued[r].user, At(s.totals, s.issued[r].user) - s.issued[r].bytes, user);
  }

  lemma PhaseKeepsTotals(s: State, r: nat, phase: Phase, user: nat)
    requires r < |s.issued| && TotalIsSum(s, user)
    ensures TotalIsSum(InPhase(s, r, phase), user)
  {
    hide SumOf;
    SumUpdate(s.issued, r, s.issued[r].(phase := phase), BytesOf(user));
  }

  lemma GivingBackKeepsTotals(s: State, r: nat, user: nat)
    requires r < |s.issued| && Inv(s)
    ensures TotalIsSum(GaveBack(s, r), user)
  {
    InvTotal(s, user);
    DropKeepsTotals(s, r, user);
    hide TotalIsSum, Inv, SetReserved;
    var u, phase := s.issued[r].user, if s.issued[r].phase.Closed? then Closed else Emptied;
    var dropped := s.(totals := SetReserved(s.totals, u, At(s.totals, u) - s.issued[r].bytes), issued := WithBytes(s, r, 0));
    if s.issued[r].bytes == 0 {
      PhaseKeepsTotals(s, r, phase, user);
    } else {
      PhaseKeepsTotals(dropped, r, phase, user);
      assert GaveBack(s, r) == InPhase(dropped, r, phase);
    }
  }

  lemma WriteKeepsTotals(s: State, r: nat, n: nat, user: nat)
    requires Enabled(s, Write(r, n)) && Inv(s)
    ensures TotalIsSum(Written(s, r, n), user)
  {
    assert TotalIsSum(s, user);
    SumUpdate(s.issued, r, s.issued[r].(written := s.issued[r].written + n), BytesOf(user));
  }

  lemma ReserveKeepsTotals(s: State, step: Step, user: nat)
    requires Enabled(s, step) && TotalIsSum(s, user) && step.StartReserve?
    ensures TotalIsSum(Next(s, step), user)
  {
    hide SumOf, ReservationBytes;
    SumAppend(s.issued, Res(step.user, 0, 0, Booked), BytesOf(user));
  }

  lemma RecheckKeepsTotals(s: State, step: Step, user: nat)
    requires Enabled(s, step) && Inv(s) && step.StartRecheck?
    ensures TotalIsSum(Next(s, step), user)
  {
    InvTotal(s, user);
    DropKeepsTotals(s, step.r, user);
    hide SumOf, SetReserved, Inv;
  }

  lemma EmptyKeepsTotals(s: State, r: nat, user: nat)
    requires Enabled(s, Empty(r)) && Inv(s)
    ensures TotalIsSum(Next(s, Empty(r)), user)
  {
    GivingBackKeepsTotals(s, r, user);
    hide SetReserved, SumOf, Inv;
  }

  /** The other steps leave the ledger and the reservations alone. */
  lemma OtherKeepsTotals(s: State, step: Step, user: nat)
    requires Enabled(s, step) && TotalIsSum(s, user)
    requires step.Scan? || step.Abort? || step.Delete? || step.AskRecheck? || step.DropRecheck? || step.BeginRelease?
    ensures TotalIsSum(Next(s, step), user)
  {
    assert Next(s, step).totals == s.totals && Next(s, step).issued == s.issued;
    hide SumOf, Next;
  }

  lemma StepKeepsTotals(s: State, step: Step, user: nat)
    requires Enabled(s, step) && Inv(s)
    ensures TotalIsSum(Next(s, step), user)
  {
    InvTotal(s, user);
    hide Inv, TotalIsSum, InPhase, GaveBack, Written, BeginReserve, BeginRecheck, Scanned, Committed;
    match step
    case StartReserve(_, _, _, _, _) => ReserveKeepsTotals(s, step, user);
    case StartRecheck(_, _, _) => RecheckKeepsTotals(s, step, user);
    case Commit(u) => CommitKeepsTotals(s, u, user);
    case Write(r, n) => WriteKeepsTotals(s, r, n, user);
    case HandOver(r) => PhaseKeepsTotals(s, r, InHand, user);
    case DropHandle(r) => PhaseKeepsTotals(s, r, Dropped, user);
    case Empty(r) => EmptyKeepsTotals(s, r, user);
    case Close(r) => PhaseKeepsTotals(s, r, Closed, user);
    case _ => OtherKeepsTotals(s, step, user);
  }

  lemma CommitKeepsTotals(s: State, u: nat, user: nat)
    requires Enabled(s, Commit(u)) && Inv(s)
    ensures TotalIsSum(Committed(s, u), user)
  {
    var f := BytesOf(user);
    assert TotalIsSum(s, user) && TotalIsSum(s, u) && OpOk(s, u);
    hide SumOf, Inv, SetReserved;
    match s.ops[u]
    case ReserveScanned(requested, limit, used) => SumAppend(s.issued, Res(u, requested, 0, Booked), f);
    case RecheckScanned(r, growth, limit, other, used) =>
      SumUpdate(s.issued, r, s.issued[r].(bytes := growth), f);
      SetReservedAt(s.totals, u, other + growth, user);
    case _ =>
  }

  /** What an operation in progress relies on survives steps that leave its user's ledger alone. */
  lemma OpUndisturbed(s: State, t: State, user: nat)
    requires OpOk(s, user)
    requires user in t.ops ==>
               user in s.ops && t.ops[user] == s.ops[user] && At(t.totals, user) == At(s.totals, user)
    requires |s.issued| <= |t.issued|
    requires forall r: nat :: r < |s.issued| && s.issued[r].user == user && Busy(s, r) ==>
               t.issued[r].user == s.issued[r].user && t.issued[r].bytes == s.issued[r].bytes
    ensures OpOk(t, user)
  {
    if user in t.ops {
      match s.ops[user]
      case Rechecking(r, _, _, _) => assert Busy(s, r);
      case RecheckScanned(r, _, _, _, _) => assert Busy(s, r);
      case _ =>
    }
  }

  lemma RecheckKeepsOps(s: State, step: Step, user: nat)
    requires Enabled(s, step) && Inv(s) && step.StartRecheck?
    ensures OpOk(Next(s, step), user)
  {
    InvOps(s, user);
    InvTotal(s, user);
    hide Inv, SetReserved, SumOf;
    if s.issued[step.r].user != user {
      SetReservedAt(s.totals, s.issued[step.r].user,
                    Max(0, At(s.totals, s.issued[step.r].user) - s.issued[step.r].bytes), user);
      OpUndisturbed(s, Next(s, step), user);
    } else {
      PartOfSum(s.issued, step.r, BytesOf(user));
    }
  }

  lemma BeginKeepsOps(s: State, step: Step, user: nat)
    requires Enabled(s, step) && Inv(s) && (step.StartReserve? || step.StartRecheck? || step.Scan?)
    ensures OpOk(Next(s, step), user)
  {
    assert OpOk(s, user) && TotalIsSum(s, user);
    match step
    case StartReserve(u, bytes, entries, unit, policy) =>
      hide ReservationBytes, SetReserved;
      EstimateIsPositive(bytes, entries, unit);
      if u != user {
        OpUndisturbed(s, Next(s, step), user);
      }
    case StartRecheck(r, growth, policy) => RecheckKeepsOps(s, step, user);
    case Scan(u) =>
      if u != user {
        OpUndisturbed(s, Next(s, step), user);
      }
  }

  lemma CommitKeepsOps(s: State, u: nat, user: nat)
    requires Enabled(s, Commit(u)) && Inv(s)
    ensures OpOk(Committed(s, u), user)
  {
    assert OpOk(s, user) && OpOk(s, u);
    if u != user {
      OpUndisturbed(s, Committed(s, u), user);
    }
  }

  lemma EmptyKeepsOps(s: State, r: nat, user: nat)
    requires Enabled(s, Empty(r)) && Inv(s)
    ensures OpOk(Next(s, Empty(r)), user)
  {
    InvOps(s, user);
    hide Inv;
    OpUndisturbed(s, Next(s, Empty(r)), user);
  }

  lemma WriteKeepsOps(s: State, r: nat, n: nat, user: nat)
    requires Enabled(s, Write(r, n)) && Inv(s)
    ensures OpOk(Written(s, r, n), user)
  {
    assert OpOk(s, user);
    OpUndisturbed(s, Written(s, r, n), user);
  }

  lemma StepKeepsOps(s: State, step: Step, user: nat)
    requires Enabled(s, step) && Inv(s)
    ensures OpOk(Next(s, step), user)
  {
    hide SetReserved, ReservationBytes, OpOk, Inv;
    match step
    case Commit(u) => CommitKeepsOps(s, u, user);
    case Empty(r) => EmptyKeepsOps(s, r, user);
    case Write(r, n) => WriteKeepsOps(s, r, n, user);
    case StartReserve(_, _, _, _, _) => BeginKeepsOps(s, step, user);
    case StartRecheck(_, _, _) => BeginKeepsOps(s, step, user);
    case Scan(_) => BeginKeepsOps(s, step, user);
    case _ => IdleKeepsOps(s, step, user);
  }

  /** Steps that change neither what is reserved nor what is being decided. */
  predicate IsIdle(step: Step) {
    || step.Abort? || step.Delete? || step.AskRecheck? || step.DropRecheck?
    || step.HandOver? || step.DropHandle? || step.BeginRelease? || step.Close?
  }

  lemma IdleKeepsOps(s: State, step: Step, user: nat)
    requires Enabled(s, step) && Inv(s) && IsIdle(step)
    ensures OpOk(Next(s, step), user)
  {
    assert OpOk(s, user);
    OpUndisturbed(s, Next(s, step), user);
  }

  lemma StepKeepsInv(s: State, step: Step)
    requires Enabled(s, step) && Inv(s)
    ensures Inv(Next(s, step))
  {
    forall user ensures TotalIsSum(Next(s, step), user) && OpOk(Next(s, step), user) {
      StepKeepsTotals(s, step, user);
      StepKeepsOps(s, step, user);
    }
  }

  lemma {:induction false} RunKeepsInv(usage: map<nat, nat>, steps: seq<Step>)
    ensures Inv(Run(usage, steps))
  {
    if steps != [] {
      RunKeepsInv(usage, steps[..|steps| - 1]);
      var s, step := Run(usage, steps[..|steps| - 1]), steps[|steps| - 1];
      if Enabled(s, step) {
        StepKeepsInv(s, step);
      }
    }
  }

  /** In every run each user's ledger entry is the sum of that user's live reservations. */
  lemma LedgerIsConserved(usage: map<nat, nat>, steps: seq<Step>, user: nat)
    ensures var s := Run(usage, steps);
            At(s.totals, user) == SumOf(s.issued, BytesOf(user))
            && (user in s.totals <==> SumOf(s.issued, BytesOf(user)) > 0)
  {
    RunKeepsInv(usage, steps);
    assert TotalIsSum(Run(usage, steps), user);
  }

  // ---------------------------------------------------------------- real usage stays within the quota

  ghost predicate WrittenWithin(s: State, user: nat) {
    forall r :: r in s.issued && r.user == user && !GivenBack(r) ==> r.written <= r.bytes
  }

  function Left(s: State, user: nat): int {
    SumOf(s.issued, LeftOf(user))
  }

  /** What an operation in progress may still decide on, given what was written since its scan. */
  ghost predicate OpBounded(s: State, user: nat, bound: int) {
    user in s.ops ==>
      match s.ops[user]
      case Reserving(_, limit) => limit <= bound
      case Rechecking(r, growth, limit, _) =>
        limit <= bound && r < |s.issued| && s.issued[r].written <= growth
      case ReserveScanned(_, limit, used) =>
        limit <= bound && At(s.usage, user) + Left(s, user) <= used + At(s.totals, user)
      case RecheckScanned(r, growth, limit, other, used) =>
        && limit <= bound && r < |s.issued| && s.issued[r].written <= growth
        && At(s.usage, user) + Left(s, user) - s.issued[r].bytes <= used + other
  }

  /** Used and still to be written, together, fit the bound. */
  ghost predicate Bounded(s: State, user: nat, bound: int) {
    && At(s.usage, user) + Left(s, user) <= bound
    && WrittenWithin(s, user)
    && OpBounded(s, user, bound)
  }

  /**
   The writers' discipline and the policy, for one user: every policy read is finite and within the
   bound, a writer writes at most what it holds and nothing after giving it back, and no recheck goes
   below what was written.
   */
  predicate Disciplined(s: State, step: Step, user: nat, bound: int) {
    match step
    case StartReserve(u, _, _, _, policy) => u == user ==> policy.Some? && policy.value <= bound
    case StartRecheck(r, growth, policy) =>
      r < |s.issued| && s.issued[r].user == user ==>
        policy.Some? && policy.value <= bound && s.issued[r].written <= growth
    case Write(r, n) =>
      r < |s.issued| && s.issued[r].user == user ==>
        && !GivenBack(s.issued[r])
        && s.issued[r].written + n <= s.issued[r].bytes && GrowthAllows(s, r, s.issued[r].written + n)
    case _ => true
  }

  lemma LeftIsNotNegative(s: State, user: nat)
    requires WrittenWithin(s, user)
    ensures Left(s, user) >= 0
  {
    SumNothing(s.issued);
    SumAtMost(s.issued, Nothing(), LeftOf(user));
  }

  lemma LeftAtMostTotal(s: State, user: nat)
    requires Inv(s)
    ensures Left(s, user) <= At(s.totals, user)
  {
    assert TotalIsSum(s, user);
    SumAtMost(s.issued, LeftOf(user), BytesOf(user));
  }

  lemma ScanKeepsBound(s: State, u: nat, user: nat, bound: int)
    requires Enabled(s, Scan(u)) && Inv(s) && Bounded(s, user, bound)
    ensures Bounded(Scanned(s, u), user, bound)
  {
    assert OpOk(s, u);
    LeftAtMostTotal(s, user);
  }

  lemma BeginReserveKeepsBound(s: State, step: Step, user: nat, bound: int)
    requires Enabled(s, step) && Bounded(s, user, bound) && Disciplined(s, step, user, bound)
    requires step.StartReserve?
    ensures Bounded(Next(s, step), user, bound)
  {
    hide SumOf, ReservationBytes;
    SumAppend(s.issued, Res(step.user, 0, 0, Booked), LeftOf(user));
  }

  lemma BeginOwnRecheckKeepsBound(s: State, step: Step, user: nat, bound: int)
    requires Enabled(s, step) && Bounded(s, user, bound) && Disciplined(s, step, user, bound)
    requires step.StartRecheck? && s.issued[step.r].user == user
    ensures Bounded(Next(s, step), user, bound)
  {
    var r := step.r;
    assert s.issued[r] in s.issued;
    hide SumOf, SetReserved;
    SumUpdate(s.issued, r, s.issued[r].(bytes := 0), LeftOf(user));
  }

  lemma BeginOtherRecheckKeepsBound(s: State, step: Step, user: nat, bound: int)
    requires Enabled(s, step) && OpOk(s, user) && Bounded(s, user, bound)
    requires step.StartRecheck? && s.issued[step.r].user != user
    ensures Bounded(Next(s, step), user, bound)
  {
    var r, t := step.r, Next(s, step);
    var u := s.issued[r].user;
    assert Left(t, user) == Left(s, user) && At(t.totals, user) == At(s.totals, user) by {
      hide SumOf, SetReserved, OpOk, Bounded;
      SumUpdate(s.issued, r, s.issued[r].(bytes := 0), LeftOf(user));
      SetReservedAt(s.totals, u, Max(0, At(s.totals, u) - s.issued[r].bytes), user);
    }
    hide SumOf, SetReserved, Left;
  }

  lemma CommitReserveKeepsBound(s: State, u: nat, user: nat, bound: int)
    requires Enabled(s, Commit(u)) && s.ops[u].ReserveScanned? && Inv(s) && Bounded(s, user, bound)
    ensures Bounded(Committed(s, u), user, bound)
  {
    assert OpOk(s, user);
    hide SumOf, Inv;
    SumAppend(s.issued, Res(u, s.ops[u].requested, 0, Booked), LeftOf(user));
  }

  lemma CommitOwnRecheckKeepsBound(s: State, user: nat, bound: int)
    requires Enabled(s, Commit(user)) && s.ops[user].RecheckScanned? && OpOk(s, user) && Bounded(s, user, bound)
    ensures Bounded(Committed(s, user), user, bound)
  {
    var op := s.ops[user];
    hide SumOf, SetReserved;
    SumUpdate(s.issued, op.r, s.issued[op.r].(bytes := op.growth), LeftOf(user));
  }

  lemma CommitOtherRecheckKeepsBound(s: State, u: nat, user: nat, bound: int)
    requires Enabled(s, Commit(u)) && s.ops[u].RecheckScanned? && OpOk(s, u) && OpOk(s, user)
    requires Bounded(s, user, bound) && u != user
    ensures Bounded(Committed(s, u), user, bound)
  {
    var op, t := s.ops[u], Committed(s, u);
    assert Left(t, user) == Left(s, user) && At(t.totals, user) == At(s.totals, user) by {
      hide SumOf, SetReserved, Bounded;
      SumUpdate(s.issued, op.r, s.issued[op.r].(bytes := op.growth), LeftOf(user));
      SetReservedAt(s.totals, u, op.other + op.growth, user);
    }
    hide SumOf, SetReserved, Left;
  }

  lemma CommitKeepsBound(s: State, u: nat, user: nat, bound: int)
    requires Enabled(s, Commit(u)) && Inv(s) && Bounded(s, user, bound)
    ensures Bounded(Committed(s, u), user, bound)
  {
    hide Inv, Bounded;
    if s.ops[u].ReserveScanned? {
      CommitReserveKeepsBound(s, u, user, bound);
    } else {
      assert OpOk(s, u) && OpOk(s, user) by {
        InvOps(s, u);
        InvOps(s, user);
      }
      if u == user {
        CommitOwnRecheckKeepsBound(s, user, bound);
      } else {
        CommitOtherRecheckKeepsBound(s, u, user, bound);
      }
    }
  }

  lemma WriteKeepsBound(s: State, r: nat, n: nat, user: nat, bound: int)
    requires Enabled(s, Write(r, n)) && OpOk(s, user) && Bounded(s, user, bound)
    requires Disciplined(s, Write(r, n), user, bound)
    ensures Bounded(Written(s, r, n), user, bound)
  {
    hide SumOf;
    SumUpdate(s.issued, r, s.issued[r].(written := s.issued[r].written + n), LeftOf(user));
    if s.issued[r].user != user {
      assert Left(Written(s, r, n), user) == Left(s, user);
    } else {
      assert Left(Written(s, r, n), user) == Left(s, user) - n;
    }
  }

  lemma EmptyOtherKeepsBound(s: State, r: nat, user: nat, bound: int)
    requires Enabled(s, Empty(r)) && OpOk(s, user) && Bounded(s, user, bound) && s.issued[r].user != user
    ensures Bounded(Next(s, Empty(r)), user, bound)
  {
    var u, t := s.issued[r].user, Next(s, Empty(r));
    assert Left(t, user) == Left(s, user) && At(t.totals, user) == At(s.totals, user) by {
      hide SumOf, SetReserved, OpOk, Bounded;
      SetReservedAt(s.totals, u, Max(0, At(s.totals, u) - s.issued[r].bytes), user);
      SumUpdate(s.issued, r, t.issued[r], LeftOf(user));
    }
    hide SumOf, SetReserved, Left;
  }

  lemma EmptyOwnKeepsBound(s: State, r: nat, user: nat, bound: int)
    requires Enabled(s, Empty(r)) && Bounded(s, user, bound) && s.issued[r].user == user
    ensures Bounded(Next(s, Empty(r)), user, bound)
  {
    var t := Next(s, Empty(r));
    assert s.issued[r] in s.issued;
    assert Left(t, user) == Left(s, user) - LeftOf(user)(s.issued[r]) by {
      hide SumOf, SetReserved, Bounded;
      SumUpdate(s.issued, r, t.issued[r], LeftOf(user));
    }
    hide SumOf, SetReserved, Left;
  }

  lemma EmptyKeepsBound(s: State, r: nat, user: nat, bound: int)
    requires Enabled(s, Empty(r)) && OpOk(s, user) && Bounded(s, user, bound)
    ensures Bounded(Next(s, Empty(r)), user, bound)
  {
    if s.issued[r].user == user {
      EmptyOwnKeepsBound(s, r, user, bound);
    } else {
      EmptyOtherKeepsBound(s, r, user, bound);
    }
    hide Bounded, Next;
  }

  /** What is left to write does not change with a phase that still, or still not, may write. */
  lemma PhaseKeepsBound(s: State, r: nat, phase: Phase, user: nat, bound: int)
    requires r < |s.issued| && Bounded(s, user, bound)
    requires GivenBack(s.issued[r]) == GivenBack(s.issued[r].(phase := phase))
    ensures Bounded(InPhase(s, r, phase), user, bound)
  {
    assert s.issued[r] in s.issued;
    hide SumOf;
    SumUpdate(s.issued, r, s.issued[r].(phase := phase), LeftOf(user));
    assert Left(InPhase(s, r, phase), user) == Left(s, user);
  }

  lemma StepKeepsBound(s: State, step: Step, user: nat, bound: int)
    requires Enabled(s, step) && Inv(s) && Bounded(s, user, bound) && Disciplined(s, step, user, bound)
    ensures Bounded(Next(s, step), user, bound)
  {
    match step
    case Scan(u) => ScanKeepsBound(s, u, user, bound);
    case Commit(u) => CommitKeepsBound(s, u, user, bound);
    case Write(r, n) =>
      InvOps(s, user);
      WriteKeepsBound(s, r, n, user, bound);
    case Empty(r) =>
      InvOps(s, user);
      EmptyKeepsBound(s, r, user, bound);
    case HandOver(r) => PhaseKeepsBound(s, r, InHand, user, bound);
    case DropHandle(r) => PhaseKeepsBound(s, r, Dropped, user, bound);
    case Close(r) => PhaseKeepsBound(s, r, Closed, user, bound);
    case StartReserve(_, _, _, _, _) => BeginReserveKeepsBound(s, step, user, bound);
    case StartRecheck(r, _, _) =>
      InvOps(s, user);
      if s.issued[r].user == user {
        BeginOwnRecheckKeepsBound(s, step, user, bound);
      } else {
        BeginOtherRecheckKeepsBound(s, step, user, bound);
      }
    case _ =>
  }

  /** A run that keeps the discipline at every step. */
  predicate RunDisciplined(usage: map<nat, nat>, steps: seq<Step>, user: nat, bound: int) {
    steps == []
    || (RunDisciplined(usage, steps[..|steps| - 1], user, bound)
        && Disciplined(Run(usage, steps[..|steps| - 1]), steps[|steps| - 1], user, bound))
  }

  lemma {:induction false} RunKeepsBound(usage: map<nat, nat>, steps: seq<Step>, user: nat, bound: int)
    requires RunDisciplined(usage, steps, user, bound) && At(usage, user) <= bound
    ensures Bounded(Run(usage, steps), user, bound)
  {
    if steps != [] {
      var s, step := Run(usage, steps[..|steps| - 1]), steps[|steps| - 1];
      RunKeepsBound(usage, steps[..|steps| - 1], user, bound);
      RunKeepsInv(usage, steps[..|steps| - 1]);
      if Enabled(s, step) {
        StepKeepsBound(s, step, user, bound);
      }
    }
  }

  lemma {:induction false} LargerBound(usage: map<nat, nat>, steps: seq<Step>, user: nat, low: int, high: int)
    requires RunDisciplined(usage, steps, user, low) && low <= high
    ensures RunDisciplined(usage, steps, user, high)
  {
    if steps != [] {
      LargerBound(usage, steps[..|steps| - 1], user, low, high);
    }
  }

  /**
   Quota end to end. Whatever interleaves, the real usage of a user whose writers keep the
   discipline never exceeds the limit, or what it was at the start if that was more.
   */
  lemma UsageStaysWithinQuota(usage: map<nat, nat>, steps: seq<Step>, user: nat, limit: nat)
    requires RunDisciplined(usage, steps, user, limit)
    ensures At(Run(usage, steps).usage, user) <= Max(limit, At(usage, user))
  {
    var bound := Max(limit, At(usage, user));
    LargerBound(usage, steps, user, limit, bound);
    RunKeepsBound(usage, steps, user, bound);
    LeftIsNotNegative(Run(usage, steps), user);
  }
}
