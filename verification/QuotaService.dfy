/** The quota service: whole operations under the gate, and the object that performs them. */
module QuotaAdmission {
  import opened Common
  import opened Sums
  import opened Quota
  import opened QuotaLeaks

  // ---------------------------------------------------------------- whole operations

  /** The booking of a reserve, under the gate from start to end. */
  function WholeBooking(s: State, user: nat, bytes: nat, entries: nat, unit: nat, policy: Option<nat>): State
    requires unit >= 1 && user !in s.ops
  {
    var t := BeginReserve(s, user, bytes, entries, unit, policy);
    if user in t.ops then Committed(Scanned(t, user), user) else t
  }

  /** A reserve from start to end: what was booked is handed over to the caller. */
  function WholeReserve(s: State, user: nat, bytes: nat, entries: nat, unit: nat, policy: Option<nat>): State
    requires unit >= 1 && user !in s.ops
  {
    var t := WholeBooking(s, user, bytes, entries, unit, policy);
    if |t.issued| > |s.issued| then InPhase(t, |s.issued|, InHand) else t
  }

  function WholeRecheck(s: State, r: nat, growth: nat, policy: Option<nat>): State
    requires r < |s.issued| && s.issued[r].user !in s.ops
  {
    var t, user := BeginRecheck(s, r, growth, policy), s.issued[r].user;
    if user in t.ops then Committed(Scanned(t, user), user) else t
  }

  /** The size of a new reservation; an unlimited user needs none. */
  function Estimate(bytes: nat, entries: nat, unit: nat, policy: Option<nat>): nat
    requires unit >= 1
  {
    if policy.None? then 0 else ReservationBytes(bytes, entries, unit)
  }

  /** Whether an additional growth fits a finite policy next to what is used and reserved. */
  predicate Fits(s: State, user: nat, others: int, growth: nat, policy: Option<nat>) {
    policy.None? || growth == 0 || At(s.usage, user) + others + growth <= policy.value
  }

  lemma BookingOutcome(s: State, user: nat, bytes: nat, entries: nat, unit: nat, policy: Option<nat>)
    requires Inv(s) && unit >= 1 && user !in s.ops
    ensures var t := WholeBooking(s, user, bytes, entries, unit, policy);
            var estimate := Estimate(bytes, entries, unit, policy);
            if Fits(s, user, SumOf(s.issued, BytesOf(user)), estimate, policy)
            then t == s.(totals := SetReserved(s.totals, user, At(s.totals, user) + estimate),
                         issued := s.issued + [Res(user, estimate, 0, Booked)])
            else t == s
  {
    InvTotal(s, user);
    EstimateIsPositive(bytes, entries, unit);
    hide ReservationBytes, SumOf, Inv;
    assert SetReserved(s.totals, user, At(s.totals, user)) == s.totals;
    var t := BeginReserve(s, user, bytes, entries, unit, policy);
    if user in t.ops {
      assert t.ops - {user} == s.ops;
      assert Scanned(t, user).ops - {user} == s.ops;
    }
  }

  /** A reserve either adds exactly one reservation of the estimated size, or changes nothing. */
  lemma ReserveOutcome(s: State, user: nat, bytes: nat, entries: nat, unit: nat, policy: Option<nat>)
    requires Inv(s) && unit >= 1 && user !in s.ops
    ensures var t := WholeReserve(s, user, bytes, entries, unit, policy);
            var estimate := if policy.None? then 0 else ReservationBytes(bytes, entries, unit);
            if policy.None? || (bytes == 0 && entries == 0)
               || At(s.usage, user) + SumOf(s.issued, BytesOf(user)) + estimate <= policy.value
            then t == s.(totals := SetReserved(s.totals, user, At(s.totals, user) + estimate),
                         issued := s.issued + [Res(user, estimate, 0, InHand)])
            else t == s
  {
    BookingOutcome(s, user, bytes, entries, unit, policy);
    EstimateIsPositive(bytes, entries, unit);
    hide WholeBooking, SumOf, Inv, SetReserved, ReservationBytes;
  }

  /** A recheck either resizes exactly this reservation, or changes nothing. */
  lemma RecheckOutcome(s: State, r: nat, growth: nat, policy: Option<nat>)
    requires Inv(s) && r < |s.issued| && s.issued[r].user !in s.ops
    ensures var t, user := WholeRecheck(s, r, growth, policy), s.issued[r].user;
            var others := SumOf(s.issued, BytesOf(user)) - s.issued[r].bytes;
            var size := if policy.None? then 0 else growth;
            if policy.None? || growth == 0 || At(s.usage, user) + others + growth <= policy.value
            then others >= 0 && t == s.(totals := SetReserved(s.totals, user, others + size), issued := WithBytes(s, r, size))
            else t == s
  {
    hide SumOf, SetReserved, Inv;
    var user := s.issued[r].user;
    InvTotal(s, user);
    PartOfSum(s.issued, r, BytesOf(user));
    var t := BeginRecheck(s, r, growth, policy);
    SetReservedAt(s.totals, user, At(s.totals, user) - s.issued[r].bytes, user);
    SetReservedAt(s.totals, user, At(s.totals, user) - s.issued[r].bytes + growth, user);
    if user in t.ops {
      assert t.ops - {user} == s.ops;
      assert Scanned(t, user).ops - {user} == s.ops;
    }
  }

  // ---------------------------------------------------------------- the objects

  /** Finite storage: the limit, what is used and reserved, and what is available. */
  datatype Status = Unlimited | Finite(limit: nat, used: nat, reserved: nat, available: nat)

  /** A refusal, with the figures it was based on. */
  datatype Exceeded = Exceeded(limit: nat, used: nat, reserved: nat, requested: nat)

  class QuotaReservation {
    const user: nat
    var reservedBytes: nat
    var released: bool
    /** What the holder has written so far. */
    ghost var written: nat

    constructor (user: nat, bytes: nat)
      ensures View() == Res(user, bytes, 0, InHand)
    {
      this.user, reservedBytes, released := user, bytes, false;
      written := 0;
    }

    ghost function View(): Res
      reads this
    {
      Res(user, reservedBytes, written, if released then Closed else InHand)
    }
  }

  class QuotaService {
    var reservedByUser: map<nat, nat>
    /** The file system's allocation unit, probed once. */
    const unit: nat
    ghost var issued: seq<QuotaReservation>
    ghost var usage: map<nat, nat>

    ghost predicate Distinct()
      reads this
    {
      unit >= 1 && forall i, j :: 0 <= i < j < |issued| ==> issued[i] != issued[j]
    }

    ghost function View(): State
      reads this, issued
    {
      State(reservedByUser,
            seq(|issued|, i requires 0 <= i < |issued| reads this, issued => issued[i].View()),
            usage, map[], multiset{}, multiset{})
    }

    ghost predicate Valid()
      reads this, issued
    {
      Distinct() && Inv(View()) && NoneLeaks(View())
    }

    constructor (unit: nat, ghost usage: map<nat, nat>)
      requires unit >= 1
      ensures Valid() && View() == Init(usage) && this.unit == unit && issued == []
    {
      this.unit, reservedByUser := unit, map[];
      this.issued, this.usage := [], usage;
    }

    method PutReserved(user: nat, value: nat)
      modifies this`reservedByUser
      ensures reservedByUser == SetReserved(old(reservedByUser), user, value)
      ensures user in reservedByUser <==> value > 0
      ensures value > 0 ==> reservedByUser[user] == value
      ensures reservedByUser - {user} == old(reservedByUser) - {user}
    {
      if value > 0 {
        reservedByUser := reservedByUser[user := value];
      } else {
        reservedByUser := reservedByUser - {user};
      }
    }

    function Reserved(user: nat): nat
      reads this
    {
      if user in reservedByUser then reservedByUser[user] else 0
    }

    /** One point-in-time view; used is the scan. What is available is never negative. */
    method GetStatus(user: nat, policy: Option<nat>, used: nat) returns (status: Status)
      requires Valid()
      ensures status.Unlimited? <==> policy.None?
      ensures status.Finite? ==>
                && status.limit == policy.value && status.used == used
                && status.reserved == SumOf(View().issued, BytesOf(user))
                && (status.available > 0 ==> used + status.reserved + status.available == policy.value)
                && (status.available == 0 ==> used + status.reserved >= policy.value)
    {
      assert TotalIsSum(View(), user);
      if policy.None? {
        return Unlimited;
      }
      var reserved := Reserved(user);
      return Finite(policy.value, used, reserved, Max(0, policy.value - used - reserved));
    }

    method Issue(user: nat, bytes: nat) returns (r: QuotaReservation)
      requires Distinct()
      modifies this`issued
      ensures Distinct() && fresh(r) && r.View() == Res(user, bytes, 0, InHand) && issued == old(issued) + [r]
      ensures View() == old(View()).(issued := old(View()).issued + [Res(user, bytes, 0, InHand)])
    {
      ghost var before := View();
      r := new QuotaReservation(user, bytes);
      issued := issued + [r];
      assert View().issued == before.issued + [r.View()];
    }

    /** Books bytes and hands a reservation of that size out. */
    method Book(user: nat, total: nat, bytes: nat) returns (r: QuotaReservation)
      requires Distinct()
      modifies this`reservedByUser, this`issued
      ensures Distinct() && fresh(r) && r.View() == Res(user, bytes, 0, InHand) && issued == old(issued) + [r]
      ensures View() == old(View()).(totals := old(reservedByUser)[user := total],
                                     issued := old(View()).issued + [Res(user, bytes, 0, InHand)])
    {
      reservedByUser := reservedByUser[user := total];
      r := Issue(user, bytes);
    }

    method Reserve(user: nat, requestedBytes: nat, requestedEntries: nat, policy: Option<nat>, used: nat)
      returns (r: Result<QuotaReservation, Exceeded>)
      requires Valid() && used == At(usage, user)
      modifies this`reservedByUser, this`issued
      ensures Valid()
      ensures View() == WholeReserve(old(View()), user, requestedBytes, requestedEntries, unit, policy)
      ensures r.Err? ==> View() == old(View()) && issued == old(issued)
      ensures r.Ok? <==>
                || policy.None? || (requestedBytes == 0 && requestedEntries == 0)
                || used + SumOf(old(View()).issued, BytesOf(user))
                   + ReservationBytes(requestedBytes, requestedEntries, unit) <= policy.value
      ensures r.Ok? ==>
                && fresh(r.value) && issued == old(issued) + [r.value]
                && r.value.user == user && !r.value.released
                && r.value.reservedBytes
                   == if policy.None? then 0 else ReservationBytes(requestedBytes, requestedEntries, unit)
      ensures r.Err? ==>
                r.error == Exceeded(policy.value, used, At(old(reservedByUser), user),
                                    ReservationBytes(requestedBytes, requestedEntries, unit))
    {
      ghost var before := View();
      WholeReserveKeeps(before, user, requestedBytes, requestedEntries, unit, policy);
      ReserveOutcome(before, user, requestedBytes, requestedEntries, unit, policy);
      EstimateIsPositive(requestedBytes, requestedEntries, unit);
      assert TotalIsSum(before, user);
      hide Inv, NoneLeaks, TotalIsSum, SumOf, ReservationBytes, WholeReserve;
      if policy.None? || (requestedBytes == 0 && requestedEntries == 0) {
        var free := Issue(user, 0);
        return Ok(free);
      }
      var requested := ReservationBytes(requestedBytes, requestedEntries, unit);
      var reserved := Reserved(user);
      if used + reserved + requested > policy.value {
        return Err(Exceeded(policy.value, used, reserved, requested));
      }
      var held := Book(user, reserved + requested, requested);
      return Ok(held);
    }

    /** Sets one reservation, and its user's ledger entry. */
    method Resize(reservation: QuotaReservation, total: nat, bytes: nat, ghost i: nat)
      requires Distinct() && i < |issued| && issued[i] == reservation
      modifies this`reservedByUser, reservation
      ensures View() == old(View()).(totals := SetReserved(old(reservedByUser), reservation.user, total),
                                     issued := WithBytes(old(View()), i, bytes))
      ensures reservation.reservedBytes == bytes && reservation.released == old(reservation.released)
    {
      ghost var before := View();
      PutReserved(reservation.user, total);
      reservation.reservedBytes := bytes;
      assert View().issued == before.issued[i := reservation.View()];
    }

    /** Resizes one reservation under the latest policy, just before its content is published. */
    method Recheck(reservation: QuotaReservation, growth: nat, policy: Option<nat>, used: nat, ghost i: nat)
      returns (r: Recheck)
      requires Valid() && i < |issued| && issued[i] == reservation
      requires used == At(usage, reservation.user)
      modifies this`reservedByUser, reservation
      ensures Valid() && issued == old(issued) && reservation.released == old(reservation.released)
      ensures r == AlreadyReleased <==> old(reservation.released)
      ensures r == Resized ==> View() == WholeRecheck(old(View()), i, growth, policy)
      ensures r != Resized ==> View() == old(View())
      ensures !old(reservation.released) ==>
                (r == Resized <==>
                   || policy.None? || growth == 0
                   || used + SumOf(old(View()).issued, BytesOf(reservation.user)) - old(reservation.reservedBytes)
                      + growth <= policy.value)
      ensures r == Resized ==> reservation.reservedBytes == if policy.None? then 0 else growth
    {
      if reservation.released {
        return AlreadyReleased;
      }
      ghost var before := View();
      WholeRecheckKeeps(before, i, growth, policy);
      RecheckFromTotals(before, i, growth, policy);
      hide Inv, NoneLeaks, SumOf, WholeRecheck, SetReserved, WithBytes;
      var user := reservation.user;
      var total: int, current: int := Reserved(user), reservation.reservedBytes;
      var other := Max(0, total - current);
      if policy.Some? && growth > 0 && used + other + growth > policy.value {
        return TooLarge(Exceeded(policy.value, used, total, Max(0, growth - current)));
      }
      var size := if policy.None? then 0 else growth;
      Resize(reservation, other + size, size, i);
      return Resized;
    }

    /** Gives the held bytes back; a second release changes nothing. */
    method Release(reservation: QuotaReservation, ghost i: nat)
      requires Valid() && i < |issued| && issued[i] == reservation
      modifies this`reservedByUser, reservation
      ensures Valid() && issued == old(issued)
      ensures View() == Released(old(View()), i)
      ensures reservation.released && reservation.reservedBytes == 0
      ensures At(reservedByUser, reservation.user)
              == At(old(reservedByUser), reservation.user) - old(reservation.reservedBytes)
    {
      ghost var before := View();
      ReleaseFitsTotal(before, i);
      WholeReleaseKeeps(before, i);
      hide Inv, NoneLeaks, SetReserved;
      if reservation.released {
        assert View() == Released(before, i);
        return;
      }
      if reservation.reservedBytes > 0 {
        var total := Reserved(reservation.user);
        PutReserved(reservation.user, Max(0, total - reservation.reservedBytes));
        reservation.reservedBytes := 0;
      }
      reservation.released := true;
      assert View().issued == before.issued[i := reservation.View()];
      assert View() == Released(before, i);
    }
  }

  datatype Recheck = Resized | TooLarge(why: Exceeded) | AlreadyReleased

  lemma StepKeeps(s: State, step: Step)
    requires Enabled(s, step) && Inv(s) && (NoneLeaks(s) ==> InTime(s, step))
    ensures Inv(Next(s, step)) && (NoneLeaks(s) ==> NoneLeaks(Next(s, step)))
  {
    StepKeepsInv(s, step);
    if NoneLeaks(s) {
      StepKeepsNoneLeaks(s, step);
    }
  }

  lemma ReleaseFitsTotal(s: State, r: nat)
    requires Inv(s) && r < |s.issued|
    ensures s.issued[r].bytes <= At(s.totals, s.issued[r].user)
  {
    InvTotal(s, s.issued[r].user);
    PartOfSum(s.issued, r, BytesOf(s.issued[r].user));
  }

  lemma WholeReleaseKeeps(s: State, r: nat)
    requires Inv(s) && NoneLeaks(s) && r < |s.issued| && !Pending(s, r) && s.issued[r].user !in s.ops
    requires s.issued[r].phase.InHand? || s.issued[r].phase.Closed?
    ensures Inv(Released(s, r)) && NoneLeaks(Released(s, r))
    ensures s.issued[r].phase.Closed? ==> s.issued[r].bytes == 0
  {
    assert Clean(s, r);
    if s.issued[r].phase.InHand? {
      var t := Next(s, BeginRelease(r));
      assert t.(releasing := t.releasing - multiset{r}) == s;
      StepKeeps(s, BeginRelease(r));
      StepKeeps(t, Empty(r));
      StepKeeps(Next(t, Empty(r)), Close(r));
      hide Inv, NoneLeaks, SetReserved;
    }
  }

  lemma WholeRecheckKeeps(s: State, r: nat, growth: nat, policy: Option<nat>)
    requires Inv(s) && r < |s.issued| && s.issued[r].user !in s.ops && s.issued[r].phase.InHand?
    ensures Inv(WholeRecheck(s, r, growth, policy))
    ensures NoneLeaks(s) ==> NoneLeaks(WholeRecheck(s, r, growth, policy))
  {
    hide Inv, NoneLeaks;
    var t, user := BeginRecheck(s, r, growth, policy), s.issued[r].user;
    var asking := Next(s, AskRecheck(r));
    StepKeeps(s, AskRecheck(r));
    assert asking.asked - multiset{r} == s.asked;
    StepKeeps(asking, StartRecheck(r, growth, policy));
    if user in t.ops {
      StepKeeps(t, Scan(user));
      StepKeeps(Scanned(t, user), Commit(user));
    }
  }

  /** The outcome of a recheck in terms of the ledger. */
  lemma RecheckFromTotals(s: State, r: nat, growth: nat, policy: Option<nat>)
    requires Inv(s) && r < |s.issued| && s.issued[r].user !in s.ops
    ensures var t, user := WholeRecheck(s, r, growth, policy), s.issued[r].user;
            var others := At(s.totals, user) - s.issued[r].bytes;
            var size := if policy.None? then 0 else growth;
            && others >= 0 && others == SumOf(s.issued, BytesOf(user)) - s.issued[r].bytes
            && if Fits(s, user, others, growth, policy)
               then t == s.(totals := SetReserved(s.totals, user, others + size), issued := WithBytes(s, r, size))
               else t == s
  {
    RecheckOutcome(s, r, growth, policy);
    InvTotal(s, s.issued[r].user);
    PartOfSum(s.issued, r, BytesOf(s.issued[r].user));
    hide Inv, SumOf, WholeRecheck, SetReserved, WithBytes;
  }

  lemma WholeReserveKeeps(s: State, user: nat, bytes: nat, entries: nat, unit: nat, policy: Option<nat>)
    requires Inv(s) && unit >= 1 && user !in s.ops
    ensures Inv(WholeReserve(s, user, bytes, entries, unit, policy))
    ensures NoneLeaks(s) ==> NoneLeaks(WholeReserve(s, user, bytes, entries, unit, policy))
  {
    hide Inv, NoneLeaks, ReservationBytes;
    var begin := StartReserve(user, bytes, entries, unit, policy);
    var t := BeginReserve(s, user, bytes, entries, unit, policy);
    StepKeeps(s, begin);
    if user in t.ops {
      StepKeeps(t, Scan(user));
      StepKeeps(Scanned(t, user), Commit(user));
    }
    var booked := WholeBooking(s, user, bytes, entries, unit, policy);
    if |booked.issued| > |s.issued| {
      StepKeeps(booked, HandOver(|s.issued|));
    }
  }
}
