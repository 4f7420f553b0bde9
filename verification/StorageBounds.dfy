/** Quota and disk in one run: every durable write counts against its user's quota and the shared disk at once. */
module StorageBounds {
  import opened Common
  import Quota
  import QuotaLeaks
  import Ledger = StorageLedger

  /** links says which request of the disk ledger a reservation of the quota ledger belongs to. */
  datatype Joint = Joint(quota: Quota.State, ledger: Ledger.State, links: map<nat, nat>)

  /**
   Booking is a step of the quota service alone and Disk one of the disk ledger alone. Acquire hands
   a booked reservation over to a new durable request, GiveBack empties it again, and what is written
   and deleted shows in the usage and on the disk.
   */
  datatype Move =
    | Booking(step: Quota.Step)
    | Disk(event: Ledger.Step)
    | Acquire(r: nat, requested: nat)
    | GiveBack(r: nat)
    | Write(r: nat, bytes: nat)
    | Delete(user: nat, bytes: nat)

  predicate QuotaAlone(step: Quota.Step) {
    !step.HandOver? && !step.Empty? && !step.Write? && !step.Delete?
  }

  predicate DiskAlone(j: Joint, step: Ledger.Step) {
    match step
    case BeginDurable(_, _, _) => false
    case GiveBackQuota(_) => false
    case Resize(_, _) => false
    case Write(i, _) => i !in j.links.Values
    case _ => true
  }

  predicate LiveRequest(j: Joint, r: nat) {
    r in j.links && j.links[r] < |j.ledger.requests| && j.ledger.requests[j.links[r]].phase.Live?
  }

  function QuotaPart(m: Move): Option<Quota.Step> {
    match m
    case Booking(step) => Some(step)
    case Disk(_) => None
    case Acquire(r, _) => Some(Quota.Step.HandOver(r))
    case GiveBack(r) => Some(Quota.Step.Empty(r))
    case Write(r, n) => Some(Quota.Step.Write(r, n))
    case Delete(user, n) => Some(Quota.Step.Delete(user, n))
  }

  function LedgerPart(j: Joint, m: Move): Option<Ledger.Step> {
    match m
    case Booking(_) => None
    case Disk(step) => Some(step)
    case Acquire(r, requested) =>
      if r < |j.quota.issued|
      then Some(Ledger.Step.BeginDurable(j.quota.issued[r].user, requested, j.quota.issued[r].bytes)) else None
    case GiveBack(r) => if r in j.links then Some(Ledger.Step.GiveBackQuota(j.links[r])) else None
    case Write(r, n) => if r in j.links then Some(Ledger.Step.Write(j.links[r], n)) else None
    case Delete(_, n) => Some(Ledger.Step.FreeUp(n))
  }

  /** A recheck is asked for by the holder of a live request only. */
  predicate Enabled(j: Joint, m: Move) {
    && (QuotaPart(m).Some? ==> Quota.Enabled(j.quota, QuotaPart(m).value))
    && (LedgerPart(j, m).Some? ==> Ledger.Enabled(j.ledger, LedgerPart(j, m).value))
    && match m
       case Booking(step) => QuotaAlone(step) && (step.AskRecheck? ==> LiveRequest(j, step.r))
       case Disk(step) => DiskAlone(j, step)
       case Acquire(r, _) => r !in j.links
       case GiveBack(r) => r in j.links
       case Write(r, _) => r in j.links
       case Delete(_, _) => true
  }

  function Next(c: Ledger.Config, j: Joint, m: Move): Joint
    requires Enabled(j, m)
  {
    Joint(if QuotaPart(m).Some? then Quota.Next(j.quota, QuotaPart(m).value) else j.quota,
          if LedgerPart(j, m).Some? then Ledger.Next(c, j.ledger, LedgerPart(j, m).value) else j.ledger,
          if m.Acquire? then j.links[m.r := |j.ledger.requests|] else j.links)
  }

  /** Any interleaving; a move that cannot happen is skipped. */
  function Run(c: Ledger.Config, usage: map<nat, nat>, free: int, moves: seq<Move>): Joint {
    if moves == [] then Joint(Quota.Init(usage), Ledger.Init(c, free), map[])
    else
      var j, m := Run(c, usage, free, moves[..|moves| - 1]), moves[|moves| - 1];
      if Enabled(j, m) then Next(c, j, m) else j
  }

  // ---------------------------------------------------------------- both projections are runs

  function QuotaSteps(c: Ledger.Config, usage: map<nat, nat>, free: int, moves: seq<Move>): seq<Quota.Step> {
    if moves == [] then []
    else
      var front, m := moves[..|moves| - 1], moves[|moves| - 1];
      QuotaSteps(c, usage, free, front)
      + if Enabled(Run(c, usage, free, front), m) && QuotaPart(m).Some? then [QuotaPart(m).value] else []
  }

  function LedgerSteps(c: Ledger.Config, usage: map<nat, nat>, free: int, moves: seq<Move>): seq<Ledger.Step> {
    if moves == [] then []
    else
      var front, m := moves[..|moves| - 1], moves[|moves| - 1];
      var j := Run(c, usage, free, front);
      LedgerSteps(c, usage, free, front)
      + if Enabled(j, m) && LedgerPart(j, m).Some? then [LedgerPart(j, m).value] else []
  }

  lemma QuotaMore(usage: map<nat, nat>, steps: seq<Quota.Step>, more: seq<Quota.Step>)
    requires |more| <= 1
    ensures var s := Quota.Run(usage, steps);
            Quota.Run(usage, steps + more)
            == if more != [] && Quota.Enabled(s, more[0]) then Quota.Next(s, more[0]) else s
  {
    if more == [] {
      assert steps + more == steps;
    } else {
      assert (steps + more)[..|steps|] == steps;
    }
  }

  lemma LedgerMore(c: Ledger.Config, free: int, steps: seq<Ledger.Step>, more: seq<Ledger.Step>)
    requires |more| <= 1
    ensures var s := Ledger.Run(c, free, steps);
            Ledger.Run(c, free, steps + more)
            == if more != [] && Ledger.Enabled(s, more[0]) then Ledger.Next(c, s, more[0]) else s
  {
    if more == [] {
      assert steps + more == steps;
    } else {
      assert (steps + more)[..|steps|] == steps;
    }
  }

  lemma {:induction false} RunProjects(c: Ledger.Config, usage: map<nat, nat>, free: int, moves: seq<Move>)
    ensures Run(c, usage, free, moves).quota == Quota.Run(usage, QuotaSteps(c, usage, free, moves))
    ensures Run(c, usage, free, moves).ledger == Ledger.Run(c, free, LedgerSteps(c, usage, free, moves))
  {
    if moves != [] {
      var front, m := moves[..|moves| - 1], moves[|moves| - 1];
      var j := Run(c, usage, free, front);
      RunProjects(c, usage, free, front);
      var q := if Enabled(j, m) && QuotaPart(m).Some? then [QuotaPart(m).value] else [];
      var l := if Enabled(j, m) && LedgerPart(j, m).Some? then [LedgerPart(j, m).value] else [];
      QuotaMore(usage, QuotaSteps(c, usage, free, front), q);
      LedgerMore(c, free, LedgerSteps(c, usage, free, front), l);
      hide Quota.Run, Ledger.Run, Quota.Next, Ledger.Next, Quota.Enabled, Ledger.Enabled, LedgerPart;
    }
  }

  // ---------------------------------------------------------------- one discipline for both

  /** What a recheck of r in progress would leave it with. */
  predicate GrowthWithin(s: Quota.State, r: nat, bound: nat) {
    r < |s.issued| && s.issued[r].user in s.ops ==>
      match s.ops[s.issued[r].user]
      case Rechecking(x, growth, _, _) => x == r ==> growth <= bound
      case RecheckScanned(x, growth, _, _, _) => x == r ==> growth <= bound
      case _ => true
  }

  /**
   One discipline: a durable writer writes at most what its reservation holds, no recheck grows
   beyond what was admitted on the disk, and transient output keeps to what it was admitted for.
   One user's policies and rechecks are moreover those of the quota's own bound.
   */
  predicate Disciplined(j: Joint, m: Move, user: nat, limit: int) {
    && (QuotaPart(m).Some? ==> Quota.Disciplined(j.quota, QuotaPart(m).value, user, limit))
    && match m
       case Booking(step) =>
         step.StartRecheck? && LiveRequest(j, step.r) ==> step.growth <= j.ledger.requests[j.links[step.r]].physical
       case Disk(step) => Ledger.Disciplined(j.ledger, step)
       case Write(r, n) =>
         r < |j.quota.issued| ==>
           && !Quota.GivenBack(j.quota.issued[r])
           && j.quota.issued[r].written + n <= j.quota.issued[r].bytes
       case _ => true
  }

  predicate RunDisciplined(
      c: Ledger.Config, usage: map<nat, nat>, free: int, moves: seq<Move>, user: nat, limit: int)
  {
    moves == []
    || (RunDisciplined(c, usage, free, moves[..|moves| - 1], user, limit)
        && Disciplined(Run(c, usage, free, moves[..|moves| - 1]), moves[|moves| - 1], user, limit))
  }

  /** A reservation never holds more than its request was, or is to be, admitted for on the disk. */
  predicate Covered(j: Joint, r: nat) {
    && (r < |j.quota.issued| && j.quota.issued[r].phase.Booked? ==> r !in j.links && j.quota.issued[r].written == 0)
    && (r in j.links ==>
          && r < |j.quota.issued| && j.links[r] < |j.ledger.requests|
          && CoveredBy(j.quota, r, j.ledger.requests[j.links[r]]))
  }

  predicate CoveredBy(s: Quota.State, r: nat, q: Ledger.Request)
    requires r < |s.issued|
  {
    && q.written == s.issued[r].written
    && (q.phase.Admitting? ==> s.issued[r].bytes <= q.wanted && !QuotaLeaks.Pending(s, r))
    && (q.phase.Live? ==> s.issued[r].bytes <= q.physical && GrowthWithin(s, r, q.physical))
  }

  ghost predicate Coupled(j: Joint) {
    && Quota.Inv(j.quota)
    && (forall r: nat :: QuotaLeaks.HandleOk(j.quota, r))
    && (forall r: nat :: Covered(j, r))
    && (forall r, x :: r in j.links && x in j.links && j.links[r] == j.links[x] ==> r == x)
  }

  lemma RecheckStays(s: Quota.State, x: nat, growth: nat, policy: Option<nat>, r: nat, bound: nat)
    requires Quota.Enabled(s, Quota.Step.StartRecheck(x, growth, policy)) && r < |s.issued| && GrowthWithin(s, r, bound)
    requires x == r ==> growth <= bound
    ensures GrowthWithin(Quota.BeginRecheck(s.(asked := s.asked - multiset{x}), x, growth, policy), r, bound)
  {
    hide Quota.SetReserved;
  }

  lemma ScanStays(s: Quota.State, user: nat, r: nat, bound: nat)
    requires Quota.Enabled(s, Quota.Step.Scan(user)) && r < |s.issued| && GrowthWithin(s, r, bound)
    ensures GrowthWithin(Quota.Scanned(s, user), r, bound)
  {
  }

  lemma CommitStays(s: Quota.State, user: nat, r: nat, bound: nat)
    requires Quota.Enabled(s, Quota.Step.Commit(user)) && r < |s.issued| && GrowthWithin(s, r, bound)
    ensures GrowthWithin(Quota.Committed(s, user), r, bound)
  {
    hide Quota.SetReserved;
  }

  lemma EmptyStays(s: Quota.State, x: nat, r: nat, bound: nat)
    requires Quota.Enabled(s, Quota.Step.Empty(x)) && r < |s.issued| && GrowthWithin(s, r, bound)
    ensures GrowthWithin(Quota.GaveBack(s.(releasing := s.releasing - multiset{x}), x), r, bound)
  {
    hide Quota.SetReserved;
  }

  /** Only the start of a recheck sets its growth. */
  lemma GrowthStays(s: Quota.State, step: Quota.Step, r: nat, bound: nat)
    requires Quota.Enabled(s, step) && r < |s.issued| && GrowthWithin(s, r, bound)
    requires step.StartRecheck? && step.r == r ==> step.growth <= bound
    ensures GrowthWithin(Quota.Next(s, step), r, bound)
  {
    hide Quota.SetReserved, Quota.ReservationBytes, Quota.BeginRecheck, Quota.Scanned, Quota.Committed, Quota.GaveBack;
    match step
    case StartRecheck(x, growth, policy) => RecheckStays(s, x, growth, policy, r, bound);
    case Scan(user) => ScanStays(s, user, r, bound);
    case Commit(user) => CommitStays(s, user, r, bound);
    case Empty(x) => EmptyStays(s, x, r, bound);
    case _ =>
  }

  /** What the quota service does keeps a reservation covered, unless it is a write. */
  lemma QuotaKeepsCover(s: Quota.State, step: Quota.Step, r: nat, q: Ledger.Request)
    requires Quota.Enabled(s, step) && Quota.Inv(s) && !step.Write? && r < |s.issued| && CoveredBy(s, r, q)
    requires step.AskRecheck? && step.r == r ==> q.phase.Live?
    requires step.StartRecheck? && step.r == r && q.phase.Live? ==> step.growth <= q.physical
    ensures |Quota.Next(s, step).issued| >= |s.issued| && CoveredBy(Quota.Next(s, step), r, q)
  {
    if step.Commit? {
      Quota.InvOps(s, step.user);
    }
    QuotaLeaks.StepMoves(s, step, r);
    QuotaLeaks.StepAsks(s, step, r);
    QuotaLeaks.HandleSteps(s, step, r);
    if q.phase.Live? {
      GrowthStays(s, step, r, q.physical);
      assert step.Commit? && QuotaLeaks.Accepts(s, step.user, r) ==> s.ops[step.user].growth <= q.physical;
    }
    assert step.Commit? && QuotaLeaks.Accepts(s, step.user, r) ==> Quota.Busy(s, r);
    hide Quota.Next, Quota.Enabled, Quota.Inv, Quota.OpOk, Quota.Busy, QuotaLeaks.Accepts, GrowthWithin;
  }

  /** A reservation still booked, or new, has no request and nothing written. */
  lemma BookedIsBare(s: Quota.State, step: Quota.Step, r: nat)
    requires Quota.Enabled(s, step) && Quota.Inv(s) && !step.Write?
    requires r < |Quota.Next(s, step).issued| && Quota.Next(s, step).issued[r].phase.Booked?
    ensures r < |s.issued| ==>
              s.issued[r].phase.Booked? && Quota.Next(s, step).issued[r].written == s.issued[r].written
    ensures r >= |s.issued| ==> Quota.Next(s, step).issued[r].written == 0
  {
    hide Quota.Next, Quota.Enabled, Quota.Inv, Quota.OpOk, Quota.Busy, QuotaLeaks.Accepts;
    if step.Commit? {
      Quota.InvOps(s, step.user);
    }
    if r < |s.issued| {
        QuotaLeaks.StepMoves(s, step, r);
    } else {
      QuotaLeaks.NewIsBooked(s, step, r);
    }
  }

  /** What the disk ledger does to one request keeps its reservation covered. */
  lemma DiskKeepsCover(c: Ledger.Config, l: Ledger.State, event: Ledger.Step, i: nat, s: Quota.State, r: nat)
    requires Ledger.Enabled(l, event) && !event.Resize? && (event.Write? ==> event.i != i)
    requires i < |l.requests| && r < |s.issued| && CoveredBy(s, r, l.requests[i])
    ensures |Ledger.Next(c, l, event).requests| >= |l.requests|
    ensures CoveredBy(s, r, Ledger.Next(c, l, event).requests[i])
  {
    hide Quota.SetReserved;
  }

  lemma AloneAgrees(c: Ledger.Config, j: Joint, m: Move, user: nat, limit: int, r: nat)
    requires Coupled(j) && Enabled(j, m) && Disciplined(j, m, user, limit) && (m.Booking? || m.Disk? || m.Delete?)
    ensures Covered(Next(c, j, m), r)
  {
    assert Covered(j, r);
    if QuotaPart(m).Some? {
      var step := QuotaPart(m).value;
      if r < |Quota.Next(j.quota, step).issued| && Quota.Next(j.quota, step).issued[r].phase.Booked? {
        BookedIsBare(j.quota, step, r);
      }
      if r in j.links {
        QuotaKeepsCover(j.quota, step, r, j.ledger.requests[j.links[r]]);
      }
    } else if r in j.links {
      DiskKeepsCover(c, j.ledger, LedgerPart(j, m).value, j.links[r], j.quota, r);
    }
    hide Coupled, CoveredBy, Quota.Next, Quota.Enabled, Quota.Disciplined, Quota.Inv, Ledger.Disciplined;
  }

  lemma AcquireAgrees(c: Ledger.Config, j: Joint, m: Move, r: nat)
    requires Coupled(j) && Enabled(j, m) && m.Acquire?
    ensures Covered(Next(c, j, m), r)
  {
    assert Covered(j, r) && Covered(j, m.r) && QuotaLeaks.HandleOk(j.quota, r);
    var step := Quota.Step.HandOver(m.r);
    if r < |Quota.Next(j.quota, step).issued| && Quota.Next(j.quota, step).issued[r].phase.Booked? {
      BookedIsBare(j.quota, step, r);
    }
    if r in j.links {
      QuotaKeepsCover(j.quota, step, r, j.ledger.requests[j.links[r]]);
    }
    hide Coupled, Quota.Inv, Quota.SetReserved;
  }

  lemma GiveBackAgrees(c: Ledger.Config, j: Joint, m: Move, r: nat)
    requires Coupled(j) && Enabled(j, m) && m.GiveBack?
    ensures Covered(Next(c, j, m), r)
  {
    assert Covered(j, r) && Covered(j, m.r);
    var step := Quota.Step.Empty(m.r);
    if r < |Quota.Next(j.quota, step).issued| && Quota.Next(j.quota, step).issued[r].phase.Booked? {
      BookedIsBare(j.quota, step, r);
    }
    if r in j.links {
      DiskKeepsCover(c, j.ledger, LedgerPart(j, m).value, j.links[r], j.quota, r);
      QuotaKeepsCover(j.quota, step, r, Ledger.Next(c, j.ledger, LedgerPart(j, m).value).requests[j.links[r]]);
    }
    hide Coupled, CoveredBy, Quota.Next, Quota.Enabled, Quota.Inv, Ledger.Next, Ledger.Enabled;
  }

  lemma WriteAgrees(c: Ledger.Config, j: Joint, m: Move, r: nat)
    requires Coupled(j) && Enabled(j, m) && m.Write?
    ensures Covered(Next(c, j, m), r)
  {
    assert Covered(j, r) && Covered(j, m.r);
    assert r in j.links && m.r in j.links && j.links[r] == j.links[m.r] ==> r == m.r;
    hide Coupled, Quota.Inv;
  }

  lemma LinksStayApart(c: Ledger.Config, j: Joint, m: Move)
    requires Coupled(j) && Enabled(j, m)
    ensures var links := Next(c, j, m).links;
            forall r, x :: r in links && x in links && links[r] == links[x] ==> r == x
  {
    forall r: nat | r in j.links ensures j.links[r] < |j.ledger.requests| {
      assert Covered(j, r);
    }
    hide Quota.Next, Ledger.Next, Quota.Inv, CoveredBy;
  }

  lemma NextKeepsCoupled(c: Ledger.Config, j: Joint, m: Move, user: nat, limit: int)
    requires Coupled(j) && Enabled(j, m) && Disciplined(j, m, user, limit)
    ensures Coupled(Next(c, j, m))
  {
    if QuotaPart(m).Some? {
      Quota.StepKeepsInv(j.quota, QuotaPart(m).value);
      forall r: nat ensures QuotaLeaks.HandleOk(Next(c, j, m).quota, r) {
        assert QuotaLeaks.HandleOk(j.quota, r);
        QuotaLeaks.StepKeepsHandle(j.quota, QuotaPart(m).value, r);
      }
    }
    LinksStayApart(c, j, m);
    forall r: nat ensures Covered(Next(c, j, m), r) {
      match m
      case Acquire(_, _) => AcquireAgrees(c, j, m, r);
      case GiveBack(_) => GiveBackAgrees(c, j, m, r);
      case Write(_, _) => WriteAgrees(c, j, m, r);
      case _ => AloneAgrees(c, j, m, user, limit, r);
    }
    hide Covered, Quota.Inv, QuotaLeaks.HandleOk, Quota.Next, Ledger.Next, Enabled, Disciplined, LedgerPart;
  }

  lemma {:induction false} RunKeepsCoupled(
      c: Ledger.Config, usage: map<nat, nat>, free: int, moves: seq<Move>, user: nat, limit: int)
    requires RunDisciplined(c, usage, free, moves, user, limit)
    ensures Coupled(Run(c, usage, free, moves))
  {
    if moves != [] {
      var j, m := Run(c, usage, free, moves[..|moves| - 1]), moves[|moves| - 1];
      RunKeepsCoupled(c, usage, free, moves[..|moves| - 1], user, limit);
      if Enabled(j, m) {
        NextKeepsCoupled(c, j, m, user, limit);
      }
      hide Coupled, Next, Disciplined;
    }
  }

  // ---------------------------------------------------------------- both bounds

  /** The one discipline is the disk's as well: what a reservation holds was admitted on the disk. */
  lemma WritersFitDisk(j: Joint, m: Move, user: nat, limit: int)
    requires Coupled(j) && Enabled(j, m) && Disciplined(j, m, user, limit) && LedgerPart(j, m).Some?
    ensures Ledger.Disciplined(j.ledger, LedgerPart(j, m).value)
  {
    if m.Write? {
      assert Covered(j, m.r);
    }
    hide Coupled, Quota.Disciplined, GrowthWithin;
  }

  lemma {:induction false} QuotaStepsDisciplined(
      c: Ledger.Config, usage: map<nat, nat>, free: int, moves: seq<Move>, user: nat, limit: int)
    requires RunDisciplined(c, usage, free, moves, user, limit)
    ensures Quota.RunDisciplined(usage, QuotaSteps(c, usage, free, moves), user, limit)
  {
    if moves != [] {
      var front, m := moves[..|moves| - 1], moves[|moves| - 1];
      var j := Run(c, usage, free, front);
      QuotaStepsDisciplined(c, usage, free, front, user, limit);
      RunProjects(c, usage, free, front);
      if Enabled(j, m) && QuotaPart(m).Some? {
        var steps := QuotaSteps(c, usage, free, front);
        assert (steps + [QuotaPart(m).value])[..|steps|] == steps;
        assert QuotaSteps(c, usage, free, moves) == steps + [QuotaPart(m).value];
      } else {
        assert QuotaSteps(c, usage, free, moves) == QuotaSteps(c, usage, free, front);
      }
      hide Quota.Disciplined, Enabled, Run, Quota.Run;
    }
  }

  lemma {:induction false} LedgerStepsDisciplined(
      c: Ledger.Config, usage: map<nat, nat>, free: int, moves: seq<Move>, user: nat, limit: int)
    requires RunDisciplined(c, usage, free, moves, user, limit)
    ensures Ledger.RunDisciplined(c, free, LedgerSteps(c, usage, free, moves))
  {
    if moves != [] {
      var front, m := moves[..|moves| - 1], moves[|moves| - 1];
      var j := Run(c, usage, free, front);
      LedgerStepsDisciplined(c, usage, free, front, user, limit);
      RunProjects(c, usage, free, front);
      RunKeepsCoupled(c, usage, free, front, user, limit);
      var steps := LedgerSteps(c, usage, free, front);
      if Enabled(j, m) && LedgerPart(j, m).Some? {
        WritersFitDisk(j, m, user, limit);
        assert (steps + [LedgerPart(j, m).value])[..|steps|] == steps;
        assert LedgerSteps(c, usage, free, moves) == steps + [LedgerPart(j, m).value];
      } else {
        assert LedgerSteps(c, usage, free, moves) == steps;
      }
      hide Coupled, Disciplined, Ledger.Disciplined, Enabled, Run, Ledger.Run, LedgerPart;
    }
  }

  /**
   Both bounds of one run. Whatever interleaves, under the one discipline a user's real usage never
   exceeds the limit, or what it was at the start, and the disk never falls below its reserve, or
   below what was free at the start.
   */
  lemma QuotaAndDiskHold(
      c: Ledger.Config, usage: map<nat, nat>, free: int, moves: seq<Move>, user: nat, limit: nat)
    requires RunDisciplined(c, usage, free, moves, user, limit)
    ensures var j := Run(c, usage, free, moves);
            && Quota.At(j.quota.usage, user) <= Max(limit, Quota.At(usage, user))
            && j.ledger.free >= Min(free, c.minFree)
  {
    RunProjects(c, usage, free, moves);
    QuotaStepsDisciplined(c, usage, free, moves, user, limit);
    LedgerStepsDisciplined(c, usage, free, moves, user, limit);
    Quota.UsageStaysWithinQuota(usage, QuotaSteps(c, usage, free, moves), user, limit);
    Ledger.DiskReserveIsKept(c, free, LedgerSteps(c, usage, free, moves));
    hide Run, Quota.Run, Ledger.Run;
  }
}
