/**
 Storage admission and response snapshots: two ledgers and a slot semaphore, held by requests that
 can fail, be cancelled or be released at any point. A request records what it holds of each, so
 conservation says that the ledgers are the sums over the requests.
 */
module StorageLedger {
  import opened Common
  import opened Sums
  import Quota
  import QuotaAdmission

  datatype Phase = Admitting | Live | Undoing | Closing | Done

  /**
   One request and everything it holds. user is None for transient output; wanted is what it asks
   of the shared disk, written what its writer has used of it.
   */
  datatype Request = Request(
    phase: Phase, user: Option<nat>, quota: nat, physical: nat, slot: bool, wanted: nat, written: nat)

  /** Who holds the physical lock, with the free space it has seen. */
  datatype Lock = Lock(request: nat, seen: int)

  datatype State = State(
    quota: map<nat, nat>, physical: nat, slots: nat, requests: seq<Request>, free: int, lock: Option<Lock>)

  datatype Config = Config(minFree: nat, maxSlots: nat)

  datatype Step =
    | BeginDurable(user: nat, requested: nat, granted: nat)
    | BeginTransient(requested: nat)
    | BeginSnapshot(requested: nat)
    | ScanFree(i: nat)
    | Admit(i: nat)
    | Resize(i: nat, granted: nat)
    | Fail(i: nat)
    | Close(i: nat)
    | GiveBackQuota(i: nat)
    | GiveBackPhysical(i: nat)
    | GiveBackSlot(i: nat)
    | Finish(i: nat)
    | Write(i: nat, bytes: nat)
    | FreeUp(bytes: nat)

  predicate Locked(s: State, i: nat) {
    s.lock.Some? && s.lock.value.request == i
  }

  predicate Leaving(s: State, i: nat) {
    i < |s.requests| && (s.requests[i].phase.Undoing? || s.requests[i].phase.Closing?)
  }

  /**
   When a step can happen: one request at a time is under the physical lock, a live one can have its
   quota part rechecked, and what a request holds is given back in the order quota, physical bytes,
   slot.
   */
  predicate Enabled(s: State, step: Step) {
    match step
    case BeginDurable(_, _, _) => true
    case BeginTransient(_) => true
    case BeginSnapshot(_) => s.slots > 0
    case ScanFree(i) => i < |s.requests| && s.requests[i].phase.Admitting? && s.lock.None?
    case Admit(i) => i < |s.requests| && s.requests[i].phase.Admitting? && Locked(s, i)
    case Resize(i, _) => i < |s.requests| && s.requests[i].phase.Live? && s.requests[i].user.Some?
    case Fail(i) => i < |s.requests| && (s.requests[i].phase.Admitting? || s.requests[i].phase.Live?)
    case Close(i) => i < |s.requests| && s.requests[i].phase.Live?
    case GiveBackQuota(i) => Leaving(s, i) && s.requests[i].user.Some?
    case GiveBackPhysical(i) => Leaving(s, i) && s.requests[i].quota == 0 && s.lock.None?
    case GiveBackSlot(i) =>
      Leaving(s, i) && s.requests[i].quota == 0 && s.requests[i].physical == 0 && s.requests[i].slot
    case Finish(i) =>
      Leaving(s, i) && s.requests[i].quota == 0 && s.requests[i].physical == 0 && !s.requests[i].slot
    case Write(i, _) => i < |s.requests| && s.requests[i].phase.Live?
    case FreeUp(_) => true
  }

  function Put(s: State, i: nat, r: Request): State
    requires i < |s.requests|
  {
    s.(requests := s.requests[i := r])
  }

  function Begun(s: State, r: Request): State {
    s.(requests := s.requests + [r])
  }

  /** Exchanges what a request holds of its user's quota. */
  function Requota(s: State, i: nat, bytes: nat): State
    requires i < |s.requests| && s.requests[i].user.Some?
  {
    var r := s.requests[i];
    var u := r.user.value;
    Put(s, i, r.(quota := bytes))
    .(quota := Quota.SetReserved(s.quota, u, Max(0, Quota.At(s.quota, u) - r.quota) + bytes))
  }

  /** The lock goes with the request that held it. */
  function Unlocked(s: State, i: nat): State {
    if Locked(s, i) then s.(lock := None) else s
  }

  function Next(c: Config, s: State, step: Step): State
    requires Enabled(s, step)
  {
    match step
    case BeginDurable(user, requested, granted) =>
      Begun(s, Request(Admitting, Some(user), granted, 0, false, Max(requested, granted), 0))
      .(quota := Quota.SetReserved(s.quota, user, Quota.At(s.quota, user) + granted))
    case BeginTransient(requested) => Begun(s, Request(Admitting, None, 0, 0, false, requested, 0))
    case BeginSnapshot(requested) =>
      Begun(s, Request(Admitting, None, 0, 0, true, requested, 0)).(slots := s.slots - 1)
    case ScanFree(i) => s.(lock := Some(Lock(i, s.free)))
    case Admit(i) =>
      var r := s.requests[i];
      if s.lock.value.seen - s.physical - r.wanted < c.minFree
      then Put(s, i, r.(phase := Undoing)).(lock := None)
      else Put(s, i, r.(phase := Live, physical := r.wanted)).(lock := None, physical := s.physical + r.wanted)
    case Resize(i, granted) => Requota(s, i, granted)
    case Fail(i) => Unlocked(Put(s, i, s.requests[i].(phase := Undoing)), i)
    case Close(i) => Put(s, i, s.requests[i].(phase := Closing))
    case GiveBackQuota(i) => Requota(s, i, 0)
    case GiveBackPhysical(i) =>
      var r := s.requests[i];
      Put(s, i, r.(physical := 0)).(physical := Max(0, s.physical - r.physical))
    case GiveBackSlot(i) => Put(s, i, s.requests[i].(slot := false)).(slots := s.slots + 1)
    case Finish(i) => Put(s, i, s.requests[i].(phase := Done))
    case Write(i, n) => Put(s, i, s.requests[i].(written := s.requests[i].written + n)).(free := s.free - n)
    case FreeUp(n) => s.(free := s.free + n)
  }

  function Init(c: Config, free: int): State {
    State(map[], 0, c.maxSlots, [], free, None)
  }

  /** Any interleaving of requests; a step that cannot happen is skipped. */
  function Run(c: Config, free: int, steps: seq<Step>): State {
    if steps == [] then Init(c, free)
    else
      var s, step := Run(c, free, steps[..|steps| - 1]), steps[|steps| - 1];
      if Enabled(s, step) then Next(c, s, step) else s
  }

  // ---------------------------------------------------------------- what the requests hold together

  function QuotaOf(user: nat): Request -> int {
    (r: Request) => if r.user == Some(user) then r.quota else 0
  }

  function PhysicalOf(): Request -> int {
    (r: Request) => r.physical
  }

  function SlotOf(): Request -> int {
    (r: Request) => if r.slot then 1 else 0
  }

  /** What an admitted writer may still take from the disk. */
  function ClaimOf(): Request -> int {
    (r: Request) => if r.physical > 0 then r.physical - r.written else 0
  }

  // ---------------------------------------------------------------- every run

  ghost predicate QuotaIsSum(s: State, user: nat) {
    Quota.At(s.quota, user) == SumOf(s.requests, QuotaOf(user)) && (user in s.quota ==> s.quota[user] > 0)
  }

  predicate RequestOk(r: Request) {
    && (r.phase.Admitting? ==> r.physical == 0)
    && (r.phase.Done? ==> r.quota == 0 && r.physical == 0 && !r.slot)
    && (r.user.None? ==> r.quota == 0)
  }

  ghost predicate LockOk(s: State) {
    s.lock.Some? ==>
      s.lock.value.request < |s.requests| && s.requests[s.lock.value.request].phase.Admitting?
  }

  ghost predicate Conserved(c: Config, s: State) {
    && s.physical == SumOf(s.requests, PhysicalOf())
    && s.slots + SumOf(s.requests, SlotOf()) == c.maxSlots
  }

  ghost predicate Inv(c: Config, s: State) {
    && (forall user :: QuotaIsSum(s, user))
    && Conserved(c, s)
    && (forall r :: r in s.requests ==> RequestOk(r))
    && LockOk(s)
  }

  /** Replacing one request moves the sums by exactly what that request holds more or less. */
  lemma PutMoves(s: State, i: nat, r: Request, user: nat)
    requires i < |s.requests|
    ensures var t := Put(s, i, r).requests;
            && SumOf(t, QuotaOf(user)) == SumOf(s.requests, QuotaOf(user)) - QuotaOf(user)(s.requests[i]) + QuotaOf(user)(r)
            && SumOf(t, PhysicalOf()) == SumOf(s.requests, PhysicalOf()) - s.requests[i].physical + r.physical
            && SumOf(t, SlotOf()) == SumOf(s.requests, SlotOf()) - SlotOf()(s.requests[i]) + SlotOf()(r)
  {
    SumUpdate(s.requests, i, r, QuotaOf(user));
    SumUpdate(s.requests, i, r, PhysicalOf());
    SumUpdate(s.requests, i, r, SlotOf());
  }

  lemma BeginMoves(s: State, r: Request, user: nat)
    ensures var t := Begun(s, r).requests;
            && SumOf(t, QuotaOf(user)) == SumOf(s.requests, QuotaOf(user)) + QuotaOf(user)(r)
            && SumOf(t, PhysicalOf()) == SumOf(s.requests, PhysicalOf()) + r.physical
            && SumOf(t, SlotOf()) == SumOf(s.requests, SlotOf()) + SlotOf()(r)
  {
    SumAppend(s.requests, r, QuotaOf(user));
    SumAppend(s.requests, r, PhysicalOf());
    SumAppend(s.requests, r, SlotOf());
  }

  /** The request a step replaces, and what by. */
  function Target(step: Step): Option<nat> {
    match step
    case Admit(i) => Some(i)
    case Resize(i, _) => Some(i)
    case Fail(i) => Some(i)
    case Close(i) => Some(i)
    case GiveBackQuota(i) => Some(i)
    case GiveBackPhysical(i) => Some(i)
    case GiveBackSlot(i) => Some(i)
    case Finish(i) => Some(i)
    case Write(i, _) => Some(i)
    case _ => None
  }

  lemma StepKeepsSums(c: Config, s: State, step: Step)
    requires Enabled(s, step) && Inv(c, s)
    ensures Conserved(c, Next(c, s, step))
  {
    hide SumOf, Quota.SetReserved;
    var t := Next(c, s, step);
    match step
    case BeginDurable(user, requested, granted) =>
      BeginMoves(s, Request(Admitting, Some(user), granted, 0, false, Max(requested, granted), 0), 0);
    case BeginTransient(requested) => BeginMoves(s, Request(Admitting, None, 0, 0, false, requested, 0), 0);
    case BeginSnapshot(requested) => BeginMoves(s, Request(Admitting, None, 0, 0, true, requested, 0), 0);
    case ScanFree(i) =>
    case FreeUp(n) =>
    case _ =>
      var i := Target(step).value;
      assert s.requests[i] in s.requests;
      PartOfSum(s.requests, i, PhysicalOf());
      PutMoves(s, i, t.requests[i], 0);
  }

  lemma RequotaKeepsQuota(s: State, i: nat, bytes: nat, user: nat)
    requires i < |s.requests| && s.requests[i].user.Some?
    requires QuotaIsSum(s, user) && QuotaIsSum(s, s.requests[i].user.value)
    ensures QuotaIsSum(Requota(s, i, bytes), user)
  {
    hide SumOf, Quota.SetReserved;
    var r := s.requests[i];
    var u := r.user.value;
    PartOfSum(s.requests, i, QuotaOf(u));
    PutMoves(s, i, r.(quota := bytes), user);
    Quota.SetReservedAt(s.quota, u, Quota.At(s.quota, u) - r.quota + bytes, user);
  }

  lemma StepKeepsQuota(c: Config, s: State, step: Step, user: nat)
    requires Enabled(s, step) && Inv(c, s)
    ensures QuotaIsSum(Next(c, s, step), user)
  {
    hide SumOf, Quota.SetReserved, Conserved, RequestOk, LockOk, Requota;
    var t := Next(c, s, step);
    assert QuotaIsSum(s, user);
    match step
    case BeginDurable(u, requested, granted) =>
      BeginMoves(s, Request(Admitting, Some(u), granted, 0, false, Max(requested, granted), 0), user);
      Quota.SetReservedAt(s.quota, u, Quota.At(s.quota, u) + granted, user);
    case BeginTransient(requested) => BeginMoves(s, Request(Admitting, None, 0, 0, false, requested, 0), user);
    case BeginSnapshot(requested) => BeginMoves(s, Request(Admitting, None, 0, 0, true, requested, 0), user);
    case ScanFree(i) =>
    case FreeUp(n) =>
    case Resize(i, granted) => RequotaKeepsQuota(s, i, granted, user);
    case GiveBackQuota(i) => RequotaKeepsQuota(s, i, 0, user);
    case _ => PutMoves(s, Target(step).value, t.requests[Target(step).value], user);
  }

  lemma StepKeepsRequests(c: Config, s: State, step: Step)
    requires Enabled(s, step) && Inv(c, s)
    ensures forall r :: r in Next(c, s, step).requests ==> RequestOk(r)
    ensures LockOk(Next(c, s, step))
  {
    hide SumOf, Quota.SetReserved, Conserved, QuotaIsSum;
    if Target(step).Some? {
      assert s.requests[Target(step).value] in s.requests;
    }
  }

  lemma StepKeepsInv(c: Config, s: State, step: Step)
    requires Enabled(s, step) && Inv(c, s)
    ensures Inv(c, Next(c, s, step))
  {
    hide SumOf, Next, RequestOk, Conserved, LockOk;
    StepKeepsSums(c, s, step);
    StepKeepsRequests(c, s, step);
    forall user ensures QuotaIsSum(Next(c, s, step), user) {
      StepKeepsQuota(c, s, step, user);
    }
  }

  lemma {:induction false} RunKeepsInv(c: Config, free: int, steps: seq<Step>)
    ensures Inv(c, Run(c, free, steps))
  {
    if steps != [] {
      var s, step := Run(c, free, steps[..|steps| - 1]), steps[|steps| - 1];
      RunKeepsInv(c, free, steps[..|steps| - 1]);
      if Enabled(s, step) {
        StepKeepsInv(c, s, step);
      }
    }
  }

  /**
   Ledger conservation. In every run each user's quota entry, the physical total and the free slots
   are exactly what the requests still hold, and a request that is done holds nothing: however it
   ended, it left none of the three changed.
   */
  lemma LedgersAreConserved(c: Config, free: int, steps: seq<Step>, user: nat)
    ensures var s := Run(c, free, steps);
            && Quota.At(s.quota, user) == SumOf(s.requests, QuotaOf(user))
            && (user in s.quota ==> s.quota[user] > 0)
            && s.physical == SumOf(s.requests, PhysicalOf())
            && s.slots + SumOf(s.requests, SlotOf()) == c.maxSlots
            && forall r :: r in s.requests && r.phase.Done? ==> r.quota == 0 && r.physical == 0 && !r.slot
  {
    RunKeepsInv(c, free, steps);
    assert QuotaIsSum(Run(c, free, steps), user);
    forall r | r in Run(c, free, steps).requests ensures RequestOk(r) {
    }
  }

  // ---------------------------------------------------------------- whole requests

  /** One step after another, each of which can happen. */
  ghost predicate Leads(c: Config, s: State, steps: seq<Step>, t: State)
    decreases |steps|
  {
    if steps == [] then s == t else Enabled(s, steps[0]) && Leads(c, Next(c, s, steps[0]), steps[1..], t)
  }

  /** The state once the newest request has been admitted for the disk. */
  function Admitted(s: State, r: Request): State {
    s.(requests := s.requests + [r.(phase := Live, physical := r.wanted)], physical := s.physical + r.wanted)
  }

  /** The state once the newest request has left; nothing but its entry is new. */
  function Left(s: State, r: Request): State {
    s.(requests := s.requests + [r.(phase := Done, quota := 0, physical := 0, slot := false)])
  }

  /**
   Admission is exact: a request that scans and then decides is live afterwards if and only if the
   disk keeps its reserve after everything promised and this request, and takes that much headroom.
   */
  lemma AdmitsExactly(c: Config, s: State, i: nat)
    requires i < |s.requests| && s.requests[i].phase.Admitting? && s.lock.None?
    ensures Enabled(s, ScanFree(i)) && Enabled(Next(c, s, ScanFree(i)), Admit(i))
    ensures var t := Next(c, Next(c, s, ScanFree(i)), Admit(i));
            && (t.requests[i].phase.Live? <==> s.free - s.physical - s.requests[i].wanted >= c.minFree)
            && t.physical == s.physical + (if t.requests[i].phase.Live? then s.requests[i].wanted else 0)
            && (t.requests[i].phase.Live? ==> t.requests[i].physical == s.requests[i].wanted)
            && t.quota == s.quota && t.slots == s.slots && t.lock.None? && t.free == s.free
  {
  }

  /** A scan of the free space stays valid until its own request decides or fails; no other request can discard it. */
  lemma ScanIsItsOwn(c: Config, s: State, step: Step)
    requires Enabled(s, step) && s.lock.Some?
    ensures var i := s.lock.value.request;
            Next(c, s, step).lock == if step == Admit(i) || step == Fail(i) then None else s.lock
  {
  }

  lemma {:induction false} LeadsOn(c: Config, s: State, a: seq<Step>, t: State, b: seq<Step>, u: State)
    requires Leads(c, s, a, t) && Leads(c, t, b, u)
    ensures Leads(c, s, a + b, u)
    decreases |a|
  {
    if a == [] {
      assert a + b == b;
    } else {
      assert (a + b)[0] == a[0] && (a + b)[1..] == a[1..] + b;
      LeadsOn(c, Next(c, s, a[0]), a[1..], t, b, u);
    }
  }

  lemma OneLeads(c: Config, s: State, step: Step)
    requires Enabled(s, step)
    ensures Leads(c, s, [step], Next(c, s, step))
  {
    assert [step][1..] == [];
    assert Leads(c, Next(c, s, step), [], Next(c, s, step));
  }

  lemma TwoLead(c: Config, s: State, a: Step, b: Step)
    requires Enabled(s, a) && Enabled(Next(c, s, a), b)
    ensures Leads(c, s, [a, b], Next(c, Next(c, s, a), b))
  {
    OneLeads(c, s, a);
    OneLeads(c, Next(c, s, a), b);
    LeadsOn(c, s, [a], Next(c, s, a), [b], Next(c, Next(c, s, a), b));
    assert [a] + [b] == [a, b];
  }

  lemma NewestIsAdmitted(c: Config, s: State, r: Request)
    requires s.lock.None? && r.phase.Admitting? && s.free - s.physical - r.wanted >= c.minFree
    ensures Leads(c, Begun(s, r), [ScanFree(|s.requests|), Admit(|s.requests|)], Admitted(s, r))
  {
    var i, begun := |s.requests|, Begun(s, r);
    var scanned := Next(c, begun, ScanFree(i));
    assert Next(c, scanned, Admit(i)) == Admitted(s, r);
    TwoLead(c, begun, ScanFree(i), Admit(i));
  }

  /**
   A snapshot from its slot to its end. With a free slot and headroom it is admitted, and when it has
   given everything back, ledgers and slots are exactly as they were.
   */
  lemma SnapshotComesAndGoes(c: Config, s: State, n: nat)
    requires s.slots > 0 && s.lock.None? && s.free - s.physical - n >= c.minFree
    ensures var i, r := |s.requests|, Request(Admitting, None, 0, 0, true, n, 0);
            Leads(c, s, [BeginSnapshot(n)] + [ScanFree(i), Admit(i)] + [Close(i), GiveBackPhysical(i)]
                        + [GiveBackSlot(i), Finish(i)], Left(s, r))
  {
    var i, r := |s.requests|, Request(Admitting, None, 0, 0, true, n, 0);
    var taken := s.(slots := s.slots - 1);
    var live := Admitted(taken, r);
    OneLeads(c, s, BeginSnapshot(n));
    assert Next(c, s, BeginSnapshot(n)) == Begun(taken, r);
    NewestIsAdmitted(c, taken, r);
    var closed := Next(c, live, Close(i));
    TwoLead(c, live, Close(i), GiveBackPhysical(i));
    var returned := Next(c, closed, GiveBackPhysical(i));
    assert returned == taken.(requests := s.requests + [r.(phase := Closing)]);
    TwoLead(c, returned, GiveBackSlot(i), Finish(i));
    assert Next(c, Next(c, returned, GiveBackSlot(i)), Finish(i)) == Left(s, r);
    hide Leads, Next, Enabled;
    LeadsOn(c, s, [BeginSnapshot(n)], Begun(taken, r), [ScanFree(i), Admit(i)], live);
    LeadsOn(c, s, [BeginSnapshot(n)] + [ScanFree(i), Admit(i)], live, [Close(i), GiveBackPhysical(i)], returned);
    LeadsOn(c, s, [BeginSnapshot(n)] + [ScanFree(i), Admit(i)] + [Close(i), GiveBackPhysical(i)], returned,
            [GiveBackSlot(i), Finish(i)], Left(s, r));
  }

  /**
   A durable request from its quota to its end: it is admitted for the larger of what it asked and
   what the quota granted, and leaves both ledgers exactly as they were.
   */
  lemma DurableComesAndGoes(c: Config, s: State, user: nat, requested: nat, granted: nat)
    requires s.lock.None? && s.free - s.physical - Max(requested, granted) >= c.minFree
    requires user in s.quota ==> s.quota[user] > 0
    ensures var i, r := |s.requests|, Request(Admitting, Some(user), granted, 0, false, Max(requested, granted), 0);
            Leads(c, s, [BeginDurable(user, requested, granted)] + [ScanFree(i), Admit(i)] + [Close(i), GiveBackQuota(i)]
                        + [GiveBackPhysical(i), Finish(i)], Left(s, r))
  {
    var i, r := |s.requests|, Request(Admitting, Some(user), granted, 0, false, Max(requested, granted), 0);
    var taken := s.(quota := Quota.SetReserved(s.quota, user, Quota.At(s.quota, user) + granted));
    var live := Admitted(taken, r);
    OneLeads(c, s, BeginDurable(user, requested, granted));
    assert Next(c, s, BeginDurable(user, requested, granted)) == Begun(taken, r);
    NewestIsAdmitted(c, taken, r);
    TwoLead(c, live, Close(i), GiveBackQuota(i));
    var returned := Next(c, Next(c, live, Close(i)), GiveBackQuota(i));
    assert returned.quota == s.quota;
    assert returned == live.(quota := s.quota, requests := s.requests + [r.(phase := Closing, quota := 0, physical := r.wanted)]);
    TwoLead(c, returned, GiveBackPhysical(i), Finish(i));
    assert Next(c, Next(c, returned, GiveBackPhysical(i)), Finish(i)) == Left(s, r);
    hide Leads, Next, Enabled;
    var start := [BeginDurable(user, requested, granted)];
    LeadsOn(c, s, start, Begun(taken, r), [ScanFree(i), Admit(i)], live);
    LeadsOn(c, s, start + [ScanFree(i), Admit(i)], live, [Close(i), GiveBackQuota(i)], returned);
    LeadsOn(c, s, start + [ScanFree(i), Admit(i)] + [Close(i), GiveBackQuota(i)], returned,
            [GiveBackPhysical(i), Finish(i)], Left(s, r));
  }

  // ---------------------------------------------------------------- physical headroom

  /** Writers write at most what they were admitted for. */
  predicate Disciplined(s: State, step: Step) {
    match step
    case Write(i, n) => i < |s.requests| ==> s.requests[i].written + n <= s.requests[i].physical
    case _ => true
  }

  ghost predicate RunDisciplined(c: Config, free: int, steps: seq<Step>) {
    steps == []
    || (RunDisciplined(c, free, steps[..|steps| - 1])
        && Disciplined(Run(c, free, steps[..|steps| - 1]), steps[|steps| - 1]))
  }

  function Claims(s: State): int {
    SumOf(s.requests, ClaimOf())
  }

  /** After every outstanding claim the disk keeps its reserve, also counting the scan in progress. */
  ghost predicate Headroom(c: Config, s: State, floor: int) {
    && s.free - Claims(s) >= floor
    && (forall r :: r in s.requests ==> (r.phase.Admitting? ==> r.written == 0) && (r.physical > 0 ==> r.written <= r.physical))
    && (s.lock.Some? ==> s.free - Claims(s) >= s.lock.value.seen - s.physical)
  }

  lemma ClaimsWithinPhysical(c: Config, s: State, floor: int)
    requires Inv(c, s) && Headroom(c, s, floor)
    ensures 0 <= Claims(s) <= s.physical
  {
    SumAtMost(s.requests, ClaimOf(), PhysicalOf());
    SumNothing(s.requests);
    SumAtMost(s.requests, Nothing(), ClaimOf());
  }

  /** A new request claims nothing yet. */
  lemma NewcomerKeepsHeadroom(c: Config, s: State, r: Request, quota: map<nat, nat>, slots: nat, floor: int)
    requires Headroom(c, s, floor) && r.phase.Admitting? && r.physical == 0 && r.written == 0
    ensures Headroom(c, Begun(s, r).(quota := quota, slots := slots), floor)
  {
    hide SumOf;
    SumAppend(s.requests, r, ClaimOf());
    forall x | x in s.requests + [r] ensures x in s.requests || x == r {
    }
  }

  lemma BeginKeepsHeadroom(c: Config, s: State, step: Step, floor: int)
    requires Enabled(s, step) && Inv(c, s) && Headroom(c, s, floor) && Target(step).None?
    ensures Headroom(c, Next(c, s, step), floor)
  {
    ClaimsWithinPhysical(c, s, floor);
    hide Claims, Quota.SetReserved, Inv;
    var t := Next(c, s, step);
    match step
    case BeginDurable(user, requested, granted) =>
      var r := Request(Admitting, Some(user), granted, 0, false, Max(requested, granted), 0);
      NewcomerKeepsHeadroom(c, s, r, t.quota, t.slots, floor);
    case BeginTransient(requested) =>
      NewcomerKeepsHeadroom(c, s, Request(Admitting, None, 0, 0, false, requested, 0), t.quota, t.slots, floor);
    case BeginSnapshot(requested) =>
      NewcomerKeepsHeadroom(c, s, Request(Admitting, None, 0, 0, true, requested, 0), t.quota, t.slots, floor);
    case ScanFree(i) => SameClaims(s, t);
    case FreeUp(n) => SameClaims(s, t);
  }

  lemma SameClaims(s: State, t: State)
    ensures s.requests == t.requests ==> Claims(s) == Claims(t)
  {
  }

  /** How the claims move when one request is replaced. */
  lemma ClaimsMove(c: Config, s: State, step: Step)
    requires Enabled(s, step) && Target(step).Some?
    ensures var i := Target(step).value;
            Claims(Next(c, s, step))
            == Claims(s) - ClaimOf()(s.requests[i]) + ClaimOf()(Next(c, s, step).requests[i])
  {
    hide SumOf, Quota.SetReserved;
    SumUpdate(s.requests, Target(step).value, Next(c, s, step).requests[Target(step).value], ClaimOf());
  }

  lemma StepKeepsHeadroom(c: Config, s: State, step: Step, floor: int)
    requires Enabled(s, step) && Inv(c, s) && Headroom(c, s, floor) && Disciplined(s, step) && floor <= c.minFree
    ensures Headroom(c, Next(c, s, step), floor)
  {
    if Target(step).None? {
      BeginKeepsHeadroom(c, s, step, floor);
    } else {
      var i := Target(step).value;
      ClaimsWithinPhysical(c, s, floor);
      assert s.requests[i] in s.requests;
      assert RequestOk(s.requests[i]) && LockOk(s);
      ClaimsMove(c, s, step);
      hide Claims, Quota.SetReserved, Inv, SumOf;
    }
  }

  lemma {:induction false} RunKeepsHeadroom(c: Config, free: int, steps: seq<Step>)
    requires RunDisciplined(c, free, steps)
    ensures Headroom(c, Run(c, free, steps), Min(free, c.minFree))
  {
    if steps != [] {
      var s, step := Run(c, free, steps[..|steps| - 1]), steps[|steps| - 1];
      RunKeepsHeadroom(c, free, steps[..|steps| - 1]);
      RunKeepsInv(c, free, steps[..|steps| - 1]);
      if Enabled(s, step) {
        StepKeepsHeadroom(c, s, step, Min(free, c.minFree));
      }
    }
  }

  /** Admitted writers never take the disk below its reserve, or below what was free to begin with. */
  lemma DiskReserveIsKept(c: Config, free: int, steps: seq<Step>)
    requires RunDisciplined(c, free, steps)
    ensures Run(c, free, steps).free >= Min(free, c.minFree)
  {
    RunKeepsHeadroom(c, free, steps);
    RunKeepsInv(c, free, steps);
    ClaimsWithinPhysical(c, Run(c, free, steps), Min(free, c.minFree));
  }

  // ---------------------------------------------------------------- the objects

  datatype Refusal = OverQuota(why: QuotaAdmission.Exceeded) | OverCapacity

  class StorageReservation {
    const quota: QuotaAdmission.QuotaReservation?
    var physicalBytes: nat
    var released: bool

    constructor (quota: QuotaAdmission.QuotaReservation?, physical: nat)
      ensures this.quota == quota && physicalBytes == physical && !released
    {
      this.quota, physicalBytes, released := quota, physical, false;
    }
  }

  function Itself(): nat -> int {
    (n: nat) => n
  }

  class StorageAdmissionService {
    const quotaService: QuotaAdmission.QuotaService
    const minFree: nat
    var reservedTotal: nat
    /** Every reservation ever handed out; a released one holds nothing. */
    ghost var issued: seq<StorageReservation>

    ghost function Held(): seq<nat>
      reads this, issued
    {
      seq(|issued|, i requires 0 <= i < |issued| reads this, issued => issued[i].physicalBytes)
    }

    ghost predicate Valid()
      reads this, issued, quotaService, quotaService.issued
    {
      && quotaService.Valid()
      && (forall i, j :: 0 <= i < j < |issued| ==> issued[i] != issued[j])
      && reservedTotal == SumOf(Held(), Itself())
    }

    constructor (quotaService: QuotaAdmission.QuotaService, minFree: nat)
      requires quotaService.Valid()
      ensures Valid() && issued == [] && this.quotaService == quotaService && this.minFree == minFree
    {
      this.quotaService, this.minFree := quotaService, minFree;
      reservedTotal, issued := 0, [];
    }

    /** Takes shared headroom if the reserve stays free after everything outstanding. */
    method ReservePhysical(requested: nat, free: int) returns (ok: bool)
      modifies this`reservedTotal
      ensures ok <==> free - old(reservedTotal) - requested >= minFree
      ensures reservedTotal == old(reservedTotal) + if ok then requested else 0
    {
      ok := !(free - reservedTotal - requested < minFree);
      if ok {
        reservedTotal := reservedTotal + requested;
      }
    }

    method Issue(quota: QuotaAdmission.QuotaReservation?, physical: nat) returns (r: StorageReservation)
      requires forall i, j :: 0 <= i < j < |issued| ==> issued[i] != issued[j]
      requires reservedTotal == SumOf(Held(), Itself()) + physical
      modifies this`issued
      ensures fresh(r) && r.quota == quota && r.physicalBytes == physical && !r.released
      ensures issued == old(issued) + [r]
      ensures forall i, j :: 0 <= i < j < |issued| ==> issued[i] != issued[j]
      ensures reservedTotal == SumOf(Held(), Itself())
    {
      ghost var before := Held();
      r := new StorageReservation(quota, physical);
      issued := issued + [r];
      assert Held() == before + [physical];
      SumAppend(before, physical, Itself());
    }

    /** Quota first, then the disk; if the disk refuses, the quota is given back. */
    method Acquire(user: nat, requestedBytes: nat, requestedEntries: nat, policy: Option<nat>, used: nat, free: int)
      returns (r: Result<StorageReservation, Refusal>)
      requires Valid() && used == Quota.At(quotaService.usage, user)
      modifies this, quotaService
      ensures Valid()
      ensures r.Err? ==> reservedTotal == old(reservedTotal) && issued == old(issued)
      ensures r.Err? ==> quotaService.reservedByUser == old(quotaService.reservedByUser)
      ensures r.Ok? <==>
                var estimate := if policy.None? then 0
                                else Quota.ReservationBytes(requestedBytes, requestedEntries, quotaService.unit);
                && (policy.None? || (requestedBytes == 0 && requestedEntries == 0)
                    || used + SumOf(old(quotaService.View()).issued, Quota.BytesOf(user)) + estimate <= policy.value)
                && free - old(reservedTotal) - Max(requestedBytes, estimate) >= minFree
      ensures r.Err? ==>
                (r.error.OverCapacity? <==>
                   || policy.None? || (requestedBytes == 0 && requestedEntries == 0)
                   || used + SumOf(old(quotaService.View()).issued, Quota.BytesOf(user))
                      + Quota.ReservationBytes(requestedBytes, requestedEntries, quotaService.unit) <= policy.value)
      ensures r.Ok? ==>
                && fresh(r.value) && issued == old(issued) + [r.value] && !r.value.released
                && quotaService.View()
                   == QuotaAdmission.WholeReserve(old(quotaService.View()), user, requestedBytes, requestedEntries,
                                         quotaService.unit, policy)
                && r.value.quota != null && r.value.physicalBytes == Max(requestedBytes, r.value.quota.reservedBytes)
                && reservedTotal == old(reservedTotal) + r.value.physicalBytes
                && free - reservedTotal >= minFree
    {
      hide Quota.Inv, SumOf, QuotaAdmission.WholeReserve, Quota.Released, Quota.ReservationBytes;
      ghost var view := quotaService.View();
      ghost var held := Held();
      var admitted := quotaService.Reserve(user, requestedBytes, requestedEntries, policy, used);
      if admitted.Err? {
        return Err(OverQuota(admitted.error));
      }
      var quota := admitted.value;
      ghost var i := |quotaService.issued| - 1;
      var physical := Max(requestedBytes, quota.reservedBytes);
      var ok := ReservePhysical(physical, free);
      if !ok {
        ReserveThenRelease(view, user, requestedBytes, requestedEntries, quotaService.unit, policy);
        quotaService.Release(quota, i);
        return Err(OverCapacity);
      }
      assert Held() == held;
      var reservation := Issue(quota, physical);
      return Ok(reservation);
    }

    /** Headroom for output that belongs to no user. */
    method AcquireTransient(requestedBytes: nat, free: int) returns (r: Result<StorageReservation, Refusal>)
      requires Valid()
      modifies this
      ensures Valid()
      ensures r.Err? <==> free - old(reservedTotal) - requestedBytes < minFree
      ensures r.Err? ==> r.error == OverCapacity && reservedTotal == old(reservedTotal) && issued == old(issued)
      ensures r.Ok? ==>
                && fresh(r.value) && issued == old(issued) + [r.value]
                && r.value.quota == null && !r.value.released && r.value.physicalBytes == requestedBytes
                && reservedTotal == old(reservedTotal) + requestedBytes
    {
      ghost var held := Held();
      var ok := ReservePhysical(requestedBytes, free);
      if !ok {
        assert Held() == held;
        return Err(OverCapacity);
      }
      assert Held() == held;
      var reservation := Issue(null, requestedBytes);
      return Ok(reservation);
    }

    /** Gives everything back, quota first; a second release changes nothing. */
    method Release(r: StorageReservation, ghost i: nat, ghost q: nat)
      requires Valid() && i < |issued| && issued[i] == r
      requires r.quota != null ==> q < |quotaService.issued| && quotaService.issued[q] == r.quota
      modifies this`reservedTotal, quotaService`reservedByUser, r, if r.quota == null then {} else {r.quota}
      ensures Valid() && r.released
      ensures reservedTotal == old(reservedTotal) - if old(r.released) then 0 else old(r.physicalBytes)
      ensures r.physicalBytes == if old(r.released) then old(r.physicalBytes) else 0
      ensures quotaService.View()
              == if old(r.released) || r.quota == null then old(quotaService.View())
                 else Quota.Released(old(quotaService.View()), q)
    {
      if r.released {
        return;
      }
      ghost var held := Held();
      if r.quota != null {
        quotaService.Release(r.quota, q);
      }
      PartOfSum(held, i, Itself());
      SumUpdate(held, i, 0, Itself());
      reservedTotal := Max(0, reservedTotal - r.physicalBytes);
      r.physicalBytes, r.released := 0, true;
      assert Held() == held[i := 0];
    }
  }

  // ---------------------------------------------------------------- response snapshots

  /** Why no snapshot was made; without a free slot the caller waits. */
  datatype SnapshotError = TooLarge | NoSlot | Refused(why: Refusal) | ProducerFailed

  class ResponseSnapshot {
    const reservation: StorageReservation
    var closed: bool

    constructor (reservation: StorageReservation)
      ensures this.reservation == reservation && !closed
    {
      this.reservation, closed := reservation, false;
    }
  }

  class ResponseSnapshotService {
    const admission: StorageAdmissionService
    const maxBytes: nat
    const maxSnapshots: nat
    var slots: nat
    /** Snapshots whose response has not ended. */
    ghost var open: set<ResponseSnapshot>

    ghost predicate Valid()
      reads this, open, admission, admission.issued, admission.quotaService, admission.quotaService.issued
    {
      && admission.Valid()
      && slots + |open| == maxSnapshots
      && forall s :: s in open ==> !s.closed
    }

    constructor (admission: StorageAdmissionService, maxBytes: nat, maxSnapshots: nat)
      requires admission.Valid() && maxBytes >= 1 && maxSnapshots >= 1
      ensures Valid() && open == {} && slots == maxSnapshots
    {
      this.admission, this.maxBytes, this.maxSnapshots := admission, maxBytes, maxSnapshots;
      slots, open := maxSnapshots, {};
    }

    /**
     Takes a slot, then headroom for the whole file, then copies it; copied says whether the copy
     succeeded. Whatever fails, slot and headroom are as they were.
     */
    method Create(size: nat, free: int, copied: bool) returns (r: Result<ResponseSnapshot, SnapshotError>)
      requires Valid()
      modifies this, admission, admission.quotaService`reservedByUser
      ensures Valid() && admission.quotaService.reservedByUser == old(admission.quotaService.reservedByUser)
      ensures r.Err? ==>
                slots == old(slots) && open == old(open) && admission.reservedTotal == old(admission.reservedTotal)
      ensures r.Ok? <==>
                && size <= maxBytes && old(slots) > 0 && copied
                && free - old(admission.reservedTotal) - size >= admission.minFree
      ensures r.Ok? ==>
                && fresh(r.value) && open == old(open) + {r.value} && slots == old(slots) - 1
                && r.value.reservation.physicalBytes == size
                && admission.reservedTotal == old(admission.reservedTotal) + size
    {
      if size > maxBytes {
        return Err(TooLarge);
      }
      r := Produce(size, free, copied);
    }

    /** Takes a slot and headroom, and runs the producer. */
    method Produce(size: nat, free: int, produced: bool) returns (r: Result<ResponseSnapshot, SnapshotError>)
      requires Valid()
      modifies this, admission, admission.quotaService`reservedByUser
      ensures Valid() && admission.quotaService.reservedByUser == old(admission.quotaService.reservedByUser)
      ensures r.Err? ==>
                slots == old(slots) && open == old(open) && admission.reservedTotal == old(admission.reservedTotal)
      ensures r.Ok? <==>
                old(slots) > 0 && produced && free - old(admission.reservedTotal) - size >= admission.minFree
      ensures r.Ok? ==>
                && fresh(r.value) && open == old(open) + {r.value} && slots == old(slots) - 1
                && r.value.reservation.physicalBytes == size
                && admission.reservedTotal == old(admission.reservedTotal) + size
    {
      hide Quota.Inv, SumOf;
      if slots == 0 {
        return Err(NoSlot);
      }
      slots := slots - 1;
      var admitted := admission.AcquireTransient(size, free);
      if admitted.Err? {
        slots := slots + 1;
        return Err(Refused(admitted.error));
      }
      var reservation := admitted.value;
      if !produced {
        admission.Release(reservation, |admission.issued| - 1, 0);
        slots := slots + 1;
        return Err(ProducerFailed);
      }
      var snapshot := new ResponseSnapshot(reservation);
      open := open + {snapshot};
      return Ok(snapshot);
    }

    /** After the response: releases headroom and slot once. */
    method Cleanup(snapshot: ResponseSnapshot, ghost i: nat)
      requires Valid() && (snapshot in open <==> !snapshot.closed)
      requires i < |admission.issued| && admission.issued[i] == snapshot.reservation
      requires snapshot.reservation.quota == null
      modifies this, snapshot, admission`reservedTotal, admission.quotaService`reservedByUser, snapshot.reservation
      ensures Valid() && snapshot.closed && open == old(open) - {snapshot}
      ensures slots == old(slots) + if old(snapshot.closed) then 0 else 1
      ensures admission.reservedTotal
              == old(admission.reservedTotal)
                 - if old(snapshot.closed) || old(snapshot.reservation.released) then 0
                   else old(snapshot.reservation.physicalBytes)
    {
      hide Quota.Inv, SumOf;
      if snapshot.closed {
        return;
      }
      snapshot.closed := true;
      open := open - {snapshot};
      admission.Release(snapshot.reservation, i, 0);
      slots := slots + 1;
    }
  }

  /** Giving back what was just reserved restores the quota ledger exactly. */
  lemma ReserveThenRelease(
      s: Quota.State, user: nat, bytes: nat, entries: nat, unit: nat, policy: Option<nat>)
    requires Quota.Inv(s) && unit >= 1 && user !in s.ops
    ensures var t := QuotaAdmission.WholeReserve(s, user, bytes, entries, unit, policy);
            t != s ==> |t.issued| == |s.issued| + 1 && Quota.Released(t, |s.issued|).totals == s.totals
  {
    QuotaAdmission.ReserveOutcome(s, user, bytes, entries, unit, policy);
    assert Quota.TotalIsSum(s, user);
  }
}
