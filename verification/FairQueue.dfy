/** The per-user queue with user rotation that both dispatchers share. */
module FairQueue {
  import opened Common
  import opened StableSorting

  /*
   `Queue` is the abstract value; the class `FairUserQueue` updates its fields in place and is
   tied, method by method, to the functions on `Queue`. Fairness is proved about those functions,
   over every run of additions, selections and removals.
   */

  /** items holds no empty list; order lists exactly the users of items, once each. */
  datatype Queue<T> = Queue(items: map<string, seq<T>>, order: seq<string>, last: Option<string>)

  function Empty<T>(): Queue<T> {
    Queue(map[], [], None)
  }

  function ItemsFor<T>(q: Queue<T>, user: string): seq<T> {
    if user in q.items then q.items[user] else []
  }

  ghost predicate WellFormed<T(!new)>(q: Queue<T>) {
    && NoDup(q.order)
    && (forall u :: u in q.order <==> u in q.items)
    && (forall u :: u in q.items ==> q.items[u] != [])
  }

  // ---------------------------------------------------------------- operations

  function Add<T>(q: Queue<T>, user: string, item: T, leq: (T, T) -> bool): Queue<T> {
    Queue(
      q.items[user := StableSort(leq, ItemsFor(q, user) + [item])],
      if user in q.order then q.order else q.order + [user],
      q.last)
  }

  /** The order after the last-served user, if first while others wait, has moved to the back. */
  function Rotated<T>(q: Queue<T>): (r: seq<string>)
    ensures |r| == |q.order|
    ensures forall u :: u in r <==> u in q.order
  {
    if |q.order| > 1 && q.last == Some(q.order[0]) then
      assert q.order == [q.order[0]] + q.order[1..];
      q.order[1..] + [q.order[0]]
    else q.order
  }

  function NextUser<T>(q: Queue<T>): (u: string)
    requires q.order != []
    ensures u in q.order
  {
    Rotated(q)[0]
  }

  function NextItem<T>(q: Queue<T>): T
    requires q.order != [] && NextUser(q) in q.items && q.items[NextUser(q)] != []
  {
    q.items[NextUser(q)][0]
  }

  function Pop<T>(q: Queue<T>): Queue<T>
    requires q.order != [] && NextUser(q) in q.items && q.items[NextUser(q)] != []
  {
    var user, rest := NextUser(q), Rotated(q)[1..];
    var left := q.items[user][1..];
    if left != [] then Queue(q.items[user := left], rest + [user], Some(user))
    else Queue(q.items - {user}, rest, Some(user))
  }

  function Other(user: string): string -> bool {
    u => u != user
  }

  function Not<T>(drop: T -> bool): T -> bool {
    x => !drop(x)
  }

  function Remove<T(!new)>(q: Queue<T>, user: string, drop: T -> bool): Queue<T> {
    var kept := Filter(ItemsFor(q, user), Not(drop));
    if user !in q.items || Filter(q.items[user], drop) == [] then q
    else if kept != [] then q.(items := q.items[user := kept])
    else q.(items := q.items - {user}, order := Filter(q.order, Other(user)))
  }

  function Clear<T>(q: Queue<T>): Queue<T> {
    Queue(map[], [], q.last)
  }

  lemma RotatedNoDup<T(!new)>(q: Queue<T>)
    requires WellFormed(q)
    ensures NoDup(Rotated(q))
  {
  }

  lemma AddWellFormed<T(!new)>(q: Queue<T>, user: string, item: T, leq: (T, T) -> bool)
    requires WellFormed(q)
    ensures WellFormed(Add(q, user, item, leq))
  {
  }

  lemma PopWellFormed<T(!new)>(q: Queue<T>)
    requires WellFormed(q) && q.order != []
    ensures WellFormed(Pop(q))
  {
    var r := Rotated(q);
    RotatedNoDup(q);
    assert r == [r[0]] + r[1..];
    assert r[0] !in r[1..];
    assert forall u :: u in r[1..] <==> u in q.order && u != r[0];
    hide Rotated;
  }

  lemma RemoveWellFormed<T(!new)>(q: Queue<T>, user: string, drop: T -> bool)
    requires WellFormed(q)
    ensures WellFormed(Remove(q, user, drop))
  {
    FilterNoDup(q.order, Other(user));
  }

  lemma ClearWellFormed<T(!new)>(q: Queue<T>)
    ensures WellFormed(Clear(q))
  {
  }

  // ---------------------------------------------------------------- runs

  datatype Op<!T> =
    | OpAdd(user: string, item: T)
    | OpPop
    | OpRemove(user: string, drop: T -> bool)
    | OpClear

  /** One operation; selecting from an empty queue does not happen, so it changes nothing. */
  ghost function QueueStep<T(!new)>(q: Queue<T>, op: Op<T>, leq: (T, T) -> bool): (r: Queue<T>)
    requires WellFormed(q)
    ensures WellFormed(r)
  {
    match op
    case OpAdd(user, item) => AddWellFormed(q, user, item, leq); Add(q, user, item, leq)
    case OpPop => if q.order == [] then q else PopWellFormed(q); Pop(q)
    case OpRemove(user, drop) => RemoveWellFormed(q, user, drop); Remove(q, user, drop)
    case OpClear => Clear(q)
  }

  ghost function QueueRun<T(!new)>(q: Queue<T>, ops: seq<Op<T>>, leq: (T, T) -> bool): (r: Queue<T>)
    requires WellFormed(q)
    ensures WellFormed(r)
    decreases |ops|
  {
    if ops == [] then q else QueueRun(QueueStep(q, ops[0], leq), ops[1..], leq)
  }

  /** user has queued work in every state of the run and is never selected by it. */
  ghost predicate KeptWaiting<T(!new)>(q: Queue<T>, ops: seq<Op<T>>, leq: (T, T) -> bool, user: string)
    requires WellFormed(q)
    decreases |ops|
  {
    && user in q.order
    && (ops != [] ==>
          && (ops[0].OpPop? ==> NextUser(q) != user)
          && KeptWaiting(QueueStep(q, ops[0], leq), ops[1..], leq, user))
  }

  /** 1 if the operation selects user, else 0. */
  ghost function PickedBy<T(!new)>(q: Queue<T>, op: Op<T>, user: string): nat
    requires WellFormed(q)
  {
    if op.OpPop? && q.order != [] && NextUser(q) == user then 1 else 0
  }

  /** How often the run selects user. */
  ghost function Picks<T(!new)>(q: Queue<T>, ops: seq<Op<T>>, leq: (T, T) -> bool, user: string): nat
    requires WellFormed(q)
    decreases |ops|
  {
    if ops == [] then 0
    else PickedBy(q, ops[0], user) + Picks(QueueStep(q, ops[0], leq), ops[1..], leq, user)
  }

  /** How often the run selects anyone. */
  ghost function Pops<T(!new)>(q: Queue<T>, ops: seq<Op<T>>, leq: (T, T) -> bool): nat
    requires WellFormed(q)
    decreases |ops|
  {
    if ops == [] then 0
    else
      (if ops[0].OpPop? && q.order != [] then 1 else 0)
      + Pops(QueueStep(q, ops[0], leq), ops[1..], leq)
  }

  // ---------------------------------------------------------------- who is ahead

  /** The users in front of user. */
  function Ahead(order: seq<string>, user: string): (r: seq<string>)
    ensures |r| <= |order|
    ensures user in order ==> |r| < |order|
    ensures forall v :: v in r ==> v in order && v != user
  {
    if order == [] || order[0] == user then [] else [order[0]] + Ahead(order[1..], user)
  }

  lemma {:induction false} AheadAppend(s: seq<string>, t: seq<string>, user: string)
    requires user in s
    ensures Ahead(s + t, user) == Ahead(s, user)
  {
    assert (s + t)[0] == s[0] && (s + t)[1..] == s[1..] + t;
    if s[0] != user {
      AheadAppend(s[1..], t, user);
    }
  }

  lemma {:induction false} AheadFilter(s: seq<string>, user: string, gone: string)
    requires user in s && user != gone
    ensures Ahead(Filter(s, Other(gone)), user) == Filter(Ahead(s, user), Other(gone))
  {
    if s[0] != user {
      AheadFilter(s[1..], user, gone);
      assert Ahead(s, user)[1..] == Ahead(s[1..], user);
    }
  }

  /**
   A selection that passes over a user who was not the last one served brings that user strictly
   forward, and nobody who was behind gets in front.
   */
  lemma PopMovesForward<T(!new)>(q: Queue<T>, user: string)
    requires WellFormed(q) && user in q.order && NextUser(q) != user && q.last != Some(user)
    ensures WellFormed(Pop(q)) && user in Pop(q).order
    ensures |Ahead(Pop(q).order, user)| < |Ahead(q.order, user)|
    ensures forall v :: v in Ahead(Pop(q).order, user) ==> v in Ahead(q.order, user) && v != NextUser(q)
    ensures Pop(q).last != Some(user)
  {
    PopWellFormed(q);
    var r := Rotated(q);
    RotatedNoDup(q);
    assert user in r[1..];
    AheadAppend(r[1..], [r[0]], user);
    assert Ahead(Pop(q).order, user) == Ahead(r[1..], user);
    if r != q.order {
      assert user in q.order[1..] && user in q.order[1..][1..];
      AheadAppend(q.order[1..], [q.order[0]], user);
      assert Ahead(r, user) == Ahead(q.order[1..], user);
    }
    assert r[0] !in r[1..];
    assert r[0] !in Ahead(r[1..], user);
  }

  lemma RemoveStaysBehind<T(!new)>(q: Queue<T>, gone: string, drop: T -> bool, user: string)
    requires WellFormed(q) && user in q.order && user in Remove(q, gone, drop).order
    ensures |Ahead(Remove(q, gone, drop).order, user)| <= |Ahead(q.order, user)|
    ensures forall v :: v in Ahead(Remove(q, gone, drop).order, user) ==> v in Ahead(q.order, user)
  {
    var order := Remove(q, gone, drop).order;
    if order != q.order {
      assert order == Filter(q.order, Other(gone)) && user != gone;
      AheadFilter(q.order, user, gone);
    }
  }

  /** Additions and removals never put anyone in front of a user who stays queued. */
  lemma OthersStayBehind<T(!new)>(q: Queue<T>, op: Op<T>, leq: (T, T) -> bool, user: string)
    requires WellFormed(q) && !op.OpPop?
    requires user in q.order && user in QueueStep(q, op, leq).order
    ensures |Ahead(QueueStep(q, op, leq).order, user)| <= |Ahead(q.order, user)|
    ensures forall v :: v in Ahead(QueueStep(q, op, leq).order, user) ==> v in Ahead(q.order, user)
    ensures QueueStep(q, op, leq).last == q.last
  {
    match op
    case OpAdd(u, _) => AheadAppend(q.order, [u], user);
    case OpRemove(u, drop) => RemoveStaysBehind(q, u, drop, user);
    case OpClear =>
  }

  /** A user who is not ahead of a waiting, not last-served user is not selected before them. */
  lemma {:induction false} BehindNeverPicked<T(!new)>(
      q: Queue<T>, ops: seq<Op<T>>, leq: (T, T) -> bool, user: string, other: string)
    requires WellFormed(q) && KeptWaiting(q, ops, leq, user)
    requires q.last != Some(user) && other != user && other !in Ahead(q.order, user)
    ensures Picks(q, ops, leq, other) == 0
    decreases |ops|
  {
    if ops != [] {
      if ops[0].OpPop? {
        NextIsAhead(q, user);
        PopMovesForward(q, user);
      } else {
        OthersStayBehind(q, ops[0], leq, user);
      }
      BehindNeverPicked(QueueStep(q, ops[0], leq), ops[1..], leq, user, other);
    }
  }

  lemma NextIsAhead<T(!new)>(q: Queue<T>, user: string)
    requires WellFormed(q) && user in q.order && NextUser(q) != user && q.last != Some(user)
    ensures NextUser(q) in Ahead(q.order, user)
  {
    assert Ahead(q.order, user)[0] == q.order[0];
    if Rotated(q) != q.order {
      assert user != q.order[1];
      assert Ahead(q.order[1..], user)[0] == q.order[1];
    }
  }

  /** After any selection of somebody else, the one selected is behind the waiting user. */
  lemma PickedGoesBehind<T(!new)>(q: Queue<T>, user: string)
    requires WellFormed(q) && user in q.order && NextUser(q) != user
    ensures WellFormed(Pop(q)) && Pop(q).last == Some(NextUser(q))
    ensures NextUser(q) !in Ahead(Pop(q).order, user)
  {
    PopWellFormed(q);
    var r := Rotated(q);
    RotatedNoDup(q);
    assert user in r[1..] && r[0] !in r[1..];
    AheadAppend(r[1..], [r[0]], user);
  }

  /**
   Bounded bypass. In every run during which a user always has work queued and is not selected,
   each other user is selected at most once, whatever is added, removed or cleared in between.
   */
  lemma {:induction false} BypassedAtMostOnce<T(!new)>(
      q: Queue<T>, ops: seq<Op<T>>, leq: (T, T) -> bool, user: string, other: string)
    requires WellFormed(q) && KeptWaiting(q, ops, leq, user) && other != user
    ensures Picks(q, ops, leq, other) <= 1
    decreases |ops|
  {
    if ops != [] {
      if ops[0].OpPop? && NextUser(q) == other {
        PickedGoesBehind(q, user);
        BehindNeverPicked(QueueStep(q, ops[0], leq), ops[1..], leq, user, other);
      } else {
        BypassedAtMostOnce(QueueStep(q, ops[0], leq), ops[1..], leq, user, other);
      }
    }
  }

  /** A waiting user who was not served last is passed over at most as often as users are ahead. */
  lemma {:induction false} ServedWithinPosition<T(!new)>(
      q: Queue<T>, ops: seq<Op<T>>, leq: (T, T) -> bool, user: string)
    requires WellFormed(q) && KeptWaiting(q, ops, leq, user) && q.last != Some(user)
    ensures Pops(q, ops, leq) <= |Ahead(q.order, user)|
    decreases |ops|
  {
    if ops != [] {
      if ops[0].OpPop? {
        PopMovesForward(q, user);
      } else {
        OthersStayBehind(q, ops[0], leq, user);
      }
      ServedWithinPosition(QueueStep(q, ops[0], leq), ops[1..], leq, user);
    }
  }

  /** The user served by the latest selection a run makes, if it makes one. */
  ghost function LastPicked<T(!new)>(q: Queue<T>, ops: seq<Op<T>>, leq: (T, T) -> bool): Option<string>
    requires WellFormed(q)
    decreases |ops|
  {
    if ops == [] then None
    else
      var later := LastPicked(QueueStep(q, ops[0], leq), ops[1..], leq);
      if later.Some? then later
      else if ops[0].OpPop? && q.order != [] then Some(NextUser(q))
      else None
  }

  lemma StepMovesLast<T(!new)>(q: Queue<T>, op: Op<T>, leq: (T, T) -> bool)
    requires WellFormed(q)
    ensures QueueStep(q, op, leq).last == if op.OpPop? && q.order != [] then Some(NextUser(q)) else q.last
  {
    hide StableSort, Filter, Rotated;
  }

  lemma {:induction false} LastIsLastPicked<T(!new)>(q: Queue<T>, ops: seq<Op<T>>, leq: (T, T) -> bool)
    requires WellFormed(q)
    ensures var latest := LastPicked(q, ops, leq);
            QueueRun(q, ops, leq).last == if latest.Some? then latest else q.last
    decreases |ops|
  {
    if ops != [] {
      StepMovesLast(q, ops[0], leq);
      LastIsLastPicked(QueueStep(q, ops[0], leq), ops[1..], leq);
      hide QueueStep, NextUser, WellFormed;
    }
  }

  /** Whoever a run served last is not served again while another user waits. */
  lemma NeverTwiceInARow<T(!new)>(q: Queue<T>, ops: seq<Op<T>>, leq: (T, T) -> bool)
    requires WellFormed(q)
    requires |QueueRun(q, ops, leq).order| > 1 && LastPicked(q, ops, leq).Some?
    ensures NextUser(QueueRun(q, ops, leq)) != LastPicked(q, ops, leq).value
  {
    LastIsLastPicked(q, ops, leq);
    var order := QueueRun(q, ops, leq).order;
    assert order[0] != order[1];
  }

  // ---------------------------------------------------------------- conservation

  /** Items of one user put in, taken out by selection and taken out by removal, over a run. */
  datatype Flow<T> = Flow(added: multiset<T>, popped: multiset<T>, removed: multiset<T>)

  ghost function StepFlow<T(!new)>(q: Queue<T>, op: Op<T>, user: string): Flow<T>
    requires WellFormed(q)
  {
    match op
    case OpAdd(u, x) => Flow(if u == user then multiset{x} else multiset{}, multiset{}, multiset{})
    case OpPop =>
      Flow(multiset{},
           if q.order != [] && NextUser(q) == user then multiset{NextItem(q)} else multiset{},
           multiset{})
    case OpRemove(u, drop) =>
      Flow(multiset{}, multiset{}, if u == user then multiset(Filter(ItemsFor(q, u), drop)) else multiset{})
    case OpClear => Flow(multiset{}, multiset{}, multiset(ItemsFor(q, user)))
  }

  ghost function FlowOf<T(!new)>(q: Queue<T>, ops: seq<Op<T>>, leq: (T, T) -> bool, user: string): Flow<T>
    requires WellFormed(q)
    decreases |ops|
  {
    if ops == [] then Flow(multiset{}, multiset{}, multiset{})
    else
      var now, later := StepFlow(q, ops[0], user), FlowOf(QueueStep(q, ops[0], leq), ops[1..], leq, user);
      Flow(now.added + later.added, now.popped + later.popped, now.removed + later.removed)
  }

  lemma {:induction false} FilterSplits<T(!new)>(s: seq<T>, drop: T -> bool)
    ensures multiset(s) == multiset(Filter(s, drop)) + multiset(Filter(s, Not(drop)))
  {
    if s != [] {
      assert s == [s[0]] + s[1..];
      FilterSplits(s[1..], drop);
    }
  }

  lemma RemoveConserves<T(!new)>(q: Queue<T>, gone: string, drop: T -> bool, user: string)
    requires WellFormed(q)
    ensures multiset(ItemsFor(q, user))
            == multiset(ItemsFor(Remove(q, gone, drop), user))
               + if gone == user then multiset(Filter(ItemsFor(q, user), drop)) else multiset{}
  {
    FilterSplits(ItemsFor(q, gone), drop);
  }

  lemma PopConserves<T(!new)>(q: Queue<T>, user: string)
    requires WellFormed(q) && q.order != []
    ensures multiset(ItemsFor(q, user))
            == multiset(ItemsFor(Pop(q), user))
               + if NextUser(q) == user then multiset{NextItem(q)} else multiset{}
  {
    var mine := q.items[NextUser(q)];
    assert mine == [mine[0]] + mine[1..];
  }

  lemma StepConserves<T(!new)>(q: Queue<T>, op: Op<T>, leq: (T, T) -> bool, user: string)
    requires WellFormed(q)
    ensures var flow := StepFlow(q, op, user);
            multiset(ItemsFor(q, user)) + flow.added
            == multiset(ItemsFor(QueueStep(q, op, leq), user)) + flow.popped + flow.removed
  {
    hide Pop, Remove;
    match op
    case OpAdd(_, _) =>
    case OpPop => if q.order != [] { PopConserves(q, user); }
    case OpRemove(u, drop) => RemoveConserves(q, u, drop, user);
    case OpClear =>
  }

  lemma Telescope<T>(before: multiset<T>, between: multiset<T>, after: multiset<T>, now: Flow<T>, later: Flow<T>)
    requires before + now.added == between + now.popped + now.removed
    requires between + later.added == after + later.popped + later.removed
    ensures before + (now.added + later.added)
            == after + (now.popped + later.popped) + (now.removed + later.removed)
  {
    assert before + (now.added + later.added) == (before + now.added) + later.added;
    assert (between + now.popped + now.removed) + later.added
        == (between + later.added) + now.popped + now.removed;
  }

  /** Nothing queued is ever lost or duplicated, for any user and over every run. */
  lemma {:induction false} WorkIsConserved<T(!new)>(
      q: Queue<T>, ops: seq<Op<T>>, leq: (T, T) -> bool, user: string)
    requires WellFormed(q)
    ensures var flow := FlowOf(q, ops, leq, user);
            multiset(ItemsFor(q, user)) + flow.added
            == multiset(ItemsFor(QueueRun(q, ops, leq), user)) + flow.popped + flow.removed
    decreases |ops|
  {
    if ops != [] {
      var q', rest := QueueStep(q, ops[0], leq), ops[1..];
      StepConserves(q, ops[0], leq, user);
      WorkIsConserved(q', rest, leq, user);
      Telescope(multiset(ItemsFor(q, user)), multiset(ItemsFor(q', user)),
                multiset(ItemsFor(QueueRun(q', rest, leq), user)),
                StepFlow(q, ops[0], user), FlowOf(q', rest, leq, user));
    }
  }

  // ---------------------------------------------------------------- which item comes next

  /** What one operation makes of one user's items. */
  lemma ItemsMove<T(!new)>(q: Queue<T>, op: Op<T>, leq: (T, T) -> bool, u: string)
    requires WellFormed(q)
    ensures var before, after := ItemsFor(q, u), ItemsFor(QueueStep(q, op, leq), u);
            match op
            case OpAdd(user, x) => after == if u == user then StableSort(leq, before + [x]) else before
            case OpPop => after == before || (before != [] && after == before[1..])
            case OpRemove(_, drop) => after == before || after == Filter(before, Not(drop))
            case OpClear => after == []
  {
    hide StableSort, Filter;
  }

  lemma {:induction false} FilterSorted<T(!new)>(leq: (T, T) -> bool, s: seq<T>, keep: T -> bool)
    requires Sorted(leq, s)
    ensures Sorted(leq, Filter(s, keep))
  {
    if s != [] {
      FilterSorted(leq, s[1..], keep);
      var rest := Filter(s[1..], keep);
      forall j | 0 <= j < |rest| ensures leq(s[0], rest[j]) {
        assert rest[j] in s[1..];
      }
    }
  }

  lemma {:induction false} RunKeepsSorted<T(!new)>(q: Queue<T>, ops: seq<Op<T>>, leq: (T, T) -> bool, u: string)
    requires WellFormed(q) && TotalPreorder(leq) && Sorted(leq, ItemsFor(q, u))
    ensures Sorted(leq, ItemsFor(QueueRun(q, ops, leq), u))
    decreases |ops|
  {
    if ops != [] {
      ItemsMove(q, ops[0], leq, u);
      match ops[0] {
        case OpAdd(_, x) => StableSortSorted(leq, ItemsFor(q, u) + [x]);
        case OpRemove(_, drop) => FilterSorted(leq, ItemsFor(q, u), Not(drop));
        case _ =>
      }
      hide QueueStep, StableSort, Filter;
      RunKeepsSorted(QueueStep(q, ops[0], leq), ops[1..], leq, u);
    }
  }

  /** Over every run: the item that is selected next is no larger than any that its user has queued. */
  lemma SmallestIsNext<T(!new)>(ops: seq<Op<T>>, leq: (T, T) -> bool, x: T)
    requires TotalPreorder(leq)
    requires var q := QueueRun(Empty(), ops, leq); q.order != [] && x in ItemsFor(q, NextUser(q))
    ensures leq(NextItem(QueueRun(Empty(), ops, leq)), x)
  {
    var q := QueueRun(Empty(), ops, leq);
    RunKeepsSorted(Empty(), ops, leq, NextUser(q));
  }

  /** The items arrive in the order of their stamps. */
  ghost predicate Rising<T(!new)>(ops: seq<Op<T>>, stamp: T -> nat) {
    forall i, j :: 0 <= i < j < |ops| && ops[i].OpAdd? && ops[j].OpAdd? ==> stamp(ops[i].item) < stamp(ops[j].item)
  }

  /** In order, and equals as they arrived. */
  ghost predicate InOrder<T(!new)>(leq: (T, T) -> bool, stamp: T -> nat, s: seq<T>) {
    forall i, j :: 0 <= i < j < |s| ==> leq(s[i], s[j]) && (leq(s[j], s[i]) ==> stamp(s[i]) < stamp(s[j]))
  }

  /** These items arrived before what the run still adds. */
  ghost predicate Before<T(!new)>(s: seq<T>, ops: seq<Op<T>>, stamp: T -> nat) {
    forall x | x in s :: forall j | 0 <= j < |ops| && ops[j].OpAdd? :: stamp(x) < stamp(ops[j].item)
  }

  lemma BeforeTheRest<T(!new)>(s: seq<T>, t: seq<T>, ops: seq<Op<T>>, stamp: T -> nat)
    requires ops != [] && Before(s, ops, stamp) && Rising(ops, stamp)
    requires forall y | y in t :: y in s || (ops[0].OpAdd? && y == ops[0].item)
    ensures Before(t, ops[1..], stamp) && Rising(ops[1..], stamp)
  {
    forall y | y in t ensures forall j | 0 <= j < |ops[1..]| && ops[1..][j].OpAdd? :: stamp(y) < stamp(ops[1..][j].item)
    {
      forall j | 0 <= j < |ops[1..]| && ops[1..][j].OpAdd? ensures stamp(y) < stamp(ops[1..][j].item) {
        assert ops[1..][j] == ops[j + 1];
      }
    }
  }

  lemma SortedFront<T(!new)>(leq: (T, T) -> bool, init: seq<T>, x: T)
    requires Sorted(leq, init + [x])
    ensures Sorted(leq, init) && Insert(leq, init, x) == init + [x]
  {
    var s := init + [x];
    forall i, j | 0 <= i < j < |init| ensures leq(init[i], init[j]) {
      assert leq(s[i], s[j]);
    }
    if init != [] {
      assert leq(s[|init| - 1], s[|init|]);
    }
  }

  lemma {:induction false} SortingSorted<T(!new)>(leq: (T, T) -> bool, s: seq<T>)
    requires Sorted(leq, s)
    ensures StableSort(leq, s) == s
  {
    hide Sorted, Insert;
    if s != [] {
      var init, x := s[..|s| - 1], s[|s| - 1];
      assert s == init + [x];
      SortedFront(leq, init, x);
      SortingSorted(leq, init);
    }
  }

  /** What is put back behind a rearrangement of earlier items. */
  lemma TopInOrder<T(!new)>(leq: (T, T) -> bool, stamp: T -> nat, init: seq<T>, top: T, x: T, r: seq<T>)
    requires TotalPreorder(leq) && InOrder(leq, stamp, init + [top]) && !leq(top, x)
    requires InOrder(leq, stamp, r) && multiset(r) == multiset(init) + multiset{x}
    ensures InOrder(leq, stamp, r + [top])
  {
    var s := init + [top];
    forall i | 0 <= i < |r| ensures leq(r[i], top) && (leq(top, r[i]) ==> stamp(r[i]) < stamp(top)) {
      assert r[i] in multiset(r);
      if r[i] != x {
        assert r[i] in multiset(init);
        var k :| 0 <= k < |init| && init[k] == r[i];
        assert s[k] == r[i] && s[|init|] == top;
      }
    }
  }

  lemma InOrderFront<T(!new)>(leq: (T, T) -> bool, stamp: T -> nat, init: seq<T>, top: T)
    requires InOrder(leq, stamp, init + [top])
    ensures InOrder(leq, stamp, init)
  {
    var s := init + [top];
    forall i, j | 0 <= i < j < |init|
      ensures leq(init[i], init[j]) && (leq(init[j], init[i]) ==> stamp(init[i]) < stamp(init[j]))
    {
      assert s[i] == init[i] && s[j] == init[j];
    }
  }

  lemma InOrderBehind<T(!new)>(leq: (T, T) -> bool, stamp: T -> nat, s: seq<T>, x: T)
    requires TotalPreorder(leq) && InOrder(leq, stamp, s) && (forall y :: y in s ==> stamp(y) < stamp(x))
    requires s == [] || leq(s[|s| - 1], x)
    ensures InOrder(leq, stamp, s + [x])
  {
    forall i | 0 <= i < |s| ensures leq(s[i], x) {
      assert i < |s| - 1 ==> leq(s[i], s[|s| - 1]);
    }
  }

  /** The newest item goes behind its equals. */
  lemma {:induction false} InsertInOrder<T(!new)>(leq: (T, T) -> bool, stamp: T -> nat, s: seq<T>, x: T)
    requires TotalPreorder(leq) && InOrder(leq, stamp, s) && forall y :: y in s ==> stamp(y) < stamp(x)
    ensures InOrder(leq, stamp, Insert(leq, s, x))
  {
    hide InOrder, TotalPreorder;
    if s == [] || leq(s[|s| - 1], x) {
      InOrderBehind(leq, stamp, s, x);
    } else {
      var init, top := s[..|s| - 1], s[|s| - 1];
      assert s == init + [top];
      InOrderFront(leq, stamp, init, top);
      InsertInOrder(leq, stamp, init, x);
      TopInOrder(leq, stamp, init, top, x, Insert(leq, init, x));
    }
  }

  lemma {:induction false} FilterInOrder<T(!new)>(leq: (T, T) -> bool, stamp: T -> nat, s: seq<T>, keep: T -> bool)
    requires InOrder(leq, stamp, s)
    ensures InOrder(leq, stamp, Filter(s, keep))
  {
    if s != [] {
      FilterInOrder(leq, stamp, s[1..], keep);
      var rest := Filter(s[1..], keep);
      forall j | 0 <= j < |rest|
        ensures leq(s[0], rest[j]) && (leq(rest[j], s[0]) ==> stamp(s[0]) < stamp(rest[j]))
      {
        assert rest[j] in s[1..];
      }
    }
  }

  /** Sorting in the newest item. */
  lemma AddInOrder<T(!new)>(leq: (T, T) -> bool, stamp: T -> nat, s: seq<T>, x: T)
    requires TotalPreorder(leq) && InOrder(leq, stamp, s) && forall y :: y in s ==> stamp(y) < stamp(x)
    ensures InOrder(leq, stamp, StableSort(leq, s + [x]))
    ensures forall y :: y in StableSort(leq, s + [x]) ==> y in s || y == x
  {
    SortingSorted(leq, s);
    InsertInOrder(leq, stamp, s, x);
    assert (s + [x])[..|s|] == s;
    forall y | y in StableSort(leq, s + [x]) ensures y in s || y == x {
      assert y in multiset(s + [x]);
    }
  }

  lemma RestInOrder<T(!new)>(leq: (T, T) -> bool, stamp: T -> nat, s: seq<T>)
    requires InOrder(leq, stamp, s)
    ensures s != [] ==> InOrder(leq, stamp, s[1..])
  {
  }

  lemma NothingInOrder<T(!new)>(leq: (T, T) -> bool, stamp: T -> nat)
    ensures InOrder(leq, stamp, [])
  {
  }

  lemma StepKeepsOrder<T(!new)>(q: Queue<T>, op: Op<T>, leq: (T, T) -> bool, stamp: T -> nat, u: string)
    requires WellFormed(q) && TotalPreorder(leq) && InOrder(leq, stamp, ItemsFor(q, u))
    requires op.OpAdd? ==> forall y :: y in ItemsFor(q, u) ==> stamp(y) < stamp(op.item)
    ensures var after := ItemsFor(QueueStep(q, op, leq), u);
            && InOrder(leq, stamp, after)
            && forall y | y in after :: y in ItemsFor(q, u) || (op.OpAdd? && y == op.item)
  {
    hide InOrder, TotalPreorder, QueueStep, StableSort, ItemsFor;
    ItemsMove(q, op, leq, u);
    match op
    case OpAdd(_, x) => AddInOrder(leq, stamp, ItemsFor(q, u), x);
    case OpPop => RestInOrder(leq, stamp, ItemsFor(q, u));
    case OpRemove(_, drop) => FilterInOrder(leq, stamp, ItemsFor(q, u), Not(drop));
    case OpClear => NothingInOrder(leq, stamp);
  }

  lemma {:induction false} RunKeepsOrder<T(!new)>(
      q: Queue<T>, ops: seq<Op<T>>, leq: (T, T) -> bool, stamp: T -> nat, u: string)
    requires WellFormed(q) && TotalPreorder(leq) && Rising(ops, stamp)
    requires InOrder(leq, stamp, ItemsFor(q, u)) && Before(ItemsFor(q, u), ops, stamp)
    ensures InOrder(leq, stamp, ItemsFor(QueueRun(q, ops, leq), u))
    decreases |ops|
  {
    if ops != [] {
      StepKeepsOrder(q, ops[0], leq, stamp, u);
      BeforeTheRest(ItemsFor(q, u), ItemsFor(QueueStep(q, ops[0], leq), u), ops, stamp);
      RunKeepsOrder(QueueStep(q, ops[0], leq), ops[1..], leq, stamp, u);
    }
  }

  /**
   Over every run: among the items of its user that are equal to it, the one selected next is the
   earliest to arrive.
   */
  lemma EarliestOfEquals<T(!new)>(ops: seq<Op<T>>, leq: (T, T) -> bool, stamp: T -> nat, k: nat)
    requires TotalPreorder(leq) && Rising(ops, stamp)
    requires var q := QueueRun(Empty(), ops, leq); q.order != [] && k < |ItemsFor(q, NextUser(q))|
    ensures var q := QueueRun(Empty(), ops, leq);
            var x := ItemsFor(q, NextUser(q))[k];
            NextItem(q) == x || (leq(x, NextItem(q)) ==> stamp(NextItem(q)) < stamp(x))
  {
    var q := QueueRun(Empty(), ops, leq);
    RunKeepsOrder(Empty(), ops, leq, stamp, NextUser(q));
  }

  // ---------------------------------------------------------------- the mutable queue

  /** users lists each user of the set once. */
  ghost predicate Lists(users: seq<string>, all: set<string>) {
    NoDup(users) && forall u :: u in users <==> u in all
  }

  /** Everything the users have queued, one user after the other. */
  function Gather<T>(items: map<string, seq<T>>, users: seq<string>): seq<T>
    requires forall u :: u in users ==> u in items
  {
    if users == [] then []
    else Gather(items, users[..|users| - 1]) + items[users[|users| - 1]]
  }

  /** `_items`, `_user_order` and `_last_user`, changed in place. */
  class FairUserQueue<T(!new)> {
    var items: map<string, seq<T>>
    var userOrder: seq<string>
    var lastUser: Option<string>

    ghost function View(): Queue<T>
      reads this
    {
      Queue(items, userOrder, lastUser)
    }

    constructor ()
      ensures View() == Empty<T>()
    {
      items, userOrder, lastUser := map[], [], None;
    }

    /** The truth value of the queue: is anything waiting? */
    method IsWaiting() returns (waiting: bool)
      ensures waiting <==> View().order != []
    {
      waiting := userOrder != [];
    }

    method Enqueue(user: string, item: T, leq: (T, T) -> bool)
      modifies this
      ensures View() == Add(old(View()), user, item, leq)
    {
      var mine := if user in items then items[user] else [];
      mine := mine + [item];
      mine := StableSort(leq, mine);
      items := items[user := mine];
      if user !in userOrder {
        userOrder := userOrder + [user];
      }
    }

    method Select() returns (selected: T)
      requires WellFormed(View()) && userOrder != []
      modifies this
      ensures View() == Pop(old(View()))
      ensures selected == NextItem(old(View()))
    {
      if |userOrder| > 1 && lastUser == Some(userOrder[0]) {
        userOrder := userOrder[1..] + [userOrder[0]];
      }
      var user := userOrder[0];
      userOrder := userOrder[1..];
      var mine := items[user];
      selected := mine[0];
      mine := mine[1..];
      if mine != [] {
        items := items[user := mine];
        userOrder := userOrder + [user];
      } else {
        items := items - {user};
      }
      lastUser := Some(user);
    }

    method Discard(user: string, drop: T -> bool) returns (removed: seq<T>)
      modifies this
      ensures View() == Remove(old(View()), user, drop)
      ensures removed == Filter(ItemsFor(old(View()), user), drop)
    {
      if user !in items {
        return [];
      }
      removed := Filter(items[user], drop);
      if removed == [] {
        return;
      }
      var retained := Filter(items[user], Not(drop));
      if retained != [] {
        items := items[user := retained];
      } else {
        items := items - {user};
        userOrder := Filter(userOrder, Other(user));
      }
    }

    /** Empties the queue; the items come back user by user, in no particular order of users. */
    method Drain() returns (all: seq<T>)
      modifies this
      ensures View() == Clear(old(View()))
      ensures exists users :: Lists(users, old(items).Keys) && all == Gather(old(items), users)
    {
      all := [];
      var todo := items.Keys;
      ghost var users := [];
      while todo != {}
        invariant todo <= items.Keys && unchanged(this)
        invariant Lists(users, items.Keys - todo)
        invariant all == Gather(items, users)
        decreases |todo|
      {
        var u :| u in todo;
        all := all + items[u];
        todo := todo - {u};
        assert (users + [u])[..|users|] == users;
        users := users + [u];
      }
      items, userOrder := map[], [];
    }
  }
}
