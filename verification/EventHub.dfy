/**
 Bounded ordered delivery of refresh events: a complete history, or an explicit resync.

 A subscription is followed from its registration: what its reader has taken and what its queue
 still holds, together, are stream_ready and then the updates of its user in order, until it ends.
 Its end is one last element that replaces all that was still queued: resync_required if the
 queue was full, and otherwise the end of the stream. So a reader never takes a gap for the whole.
 */
module EventDelivery {
  import opened Common

  /** An event; what an update is about is reduced to a number. */
  datatype Event =
    | StreamReady(sequence: nat)
    | Update(sequence: nat, user: nat, about: nat)
    | ResyncRequired(sequence: nat)

  /** A queue element; None closes the stream. */
  type Item = Option<Event>

  /** One subscription, with what its reader has taken so far and where it registered. */
  datatype Sub = Sub(
    user: nat, session: nat, queue: seq<Item>, closed: bool,
    received: seq<Item>, ready: nat, start: nat)

  /**
   The hub. Subscriptions are numbered in order of creation; order lists the registered ones in
   order of registration, and log is every update published so far.
   */
  datatype Hub = Hub(
    bound: nat, subs: seq<Sub>, order: seq<nat>, sequence: nat, closed: bool, log: seq<Event>)

  datatype Step =
    | Subscribe(user: nat, session: nat)
    | Publish(user: nat, about: nat)
    | Unsubscribe(sub: nat)
    | CloseSession(session: nat)
    | CloseHub
    | Receive(sub: nat)

  // ---------------------------------------------------------------- the steps

  function Other(i: nat): nat -> bool {
    (x: nat) => x != i
  }

  function Without(order: seq<nat>, i: nat): seq<nat> {
    Filter(order, Other(i))
  }

  function NewSub(h: Hub, user: nat, session: nat): Sub {
    Sub(user, session, [Some(StreamReady(h.sequence + 1))], false, [], h.sequence + 1, |h.log|)
  }

  /** Registers first, then queues stream_ready; a closed hub refuses. */
  function DoSubscribe(h: Hub, user: nat, session: nat): Hub {
    if h.closed then h
    else h.(subs := h.subs + [NewSub(h, user, session)],
            order := h.order + [|h.subs|],
            sequence := h.sequence + 1)
  }

  /** A full queue is emptied, gets one resync_required, and its subscription ends. */
  function Offer(h: Hub, i: nat, user: nat, e: Event): Hub {
    if i >= |h.subs| || h.subs[i].user != user then h
    else
      var sub := h.subs[i];
      if |sub.queue| < h.bound then h.(subs := h.subs[i := sub.(queue := sub.queue + [Some(e)])])
      else h.(subs := h.subs[i := sub.(queue := [Some(ResyncRequired(h.sequence + 1))], closed := true)],
              order := Without(h.order, i),
              sequence := h.sequence + 1)
  }

  /** Offers an update to the given subscriptions, one after the other. */
  function OfferAll(h: Hub, ids: seq<nat>, user: nat, e: Event): (r: Hub)
    ensures |r.subs| == |h.subs|
  {
    if ids == [] then h
    else Offer(OfferAll(h, ids[..|ids| - 1], user, e), ids[|ids| - 1], user, e)
  }

  function Logged(h: Hub, user: nat, about: nat): Hub {
    h.(sequence := h.sequence + 1, log := h.log + [Update(h.sequence + 1, user, about)])
  }

  function DoPublish(h: Hub, user: nat, about: nat): Hub {
    OfferAll(Logged(h, user, about), h.order, user, Update(h.sequence + 1, user, about))
  }

  /** Closing empties the queue and leaves only the sentinel; it happens once. */
  function ClosedSub(sub: Sub): Sub {
    if sub.closed then sub else sub.(closed := true, queue := [None])
  }

  function Detach(h: Hub, i: nat): Hub {
    if i >= |h.subs| then h
    else h.(order := Without(h.order, i), subs := h.subs[i := ClosedSub(h.subs[i])])
  }

  function DetachAll(h: Hub, ids: seq<nat>): (r: Hub)
    ensures |r.subs| == |h.subs|
  {
    if ids == [] then h else Detach(DetachAll(h, ids[..|ids| - 1]), ids[|ids| - 1])
  }

  function InSession(h: Hub, session: nat): nat -> bool {
    (i: nat) => i < |h.subs| && h.subs[i].session == session
  }

  function DoCloseHub(h: Hub): Hub {
    if h.closed then h else DetachAll(h, h.order).(closed := true)
  }

  /** The reader takes the first element; an empty queue yields nothing new. */
  function DoReceive(h: Hub, i: nat): Hub {
    if i >= |h.subs| || h.subs[i].queue == [] then h
    else
      var sub := h.subs[i];
      h.(subs := h.subs[i := sub.(queue := sub.queue[1..], received := sub.received + [sub.queue[0]])])
  }

  function Apply(h: Hub, step: Step): Hub {
    match step
    case Subscribe(user, session) => DoSubscribe(h, user, session)
    case Publish(user, about) => DoPublish(h, user, about)
    case Unsubscribe(i) => Detach(h, i)
    case CloseSession(session) => DetachAll(h, Filter(h.order, InSession(h, session)))
    case CloseHub => DoCloseHub(h)
    case Receive(i) => DoReceive(h, i)
  }

  function Init(bound: nat): Hub {
    Hub(bound, [], [], 0, false, [])
  }

  /** Any finite run of steps. */
  function Run(bound: nat, steps: seq<Step>): Hub {
    if steps == [] then Init(bound)
    else Apply(Run(bound, steps[..|steps| - 1]), steps[|steps| - 1])
  }

  // ---------------------------------------------------------------- what a subscription must see

  function OfUser(user: nat): Event -> bool {
    (e: Event) => e.Update? && e.user == user
  }

  /** stream_ready, then exactly this user's updates published since registration. */
  function History(sub: Sub, log: seq<Event>): seq<Event>
    requires sub.start <= |log|
  {
    [StreamReady(sub.ready)] + Filter(log[sub.start..], OfUser(sub.user))
  }

  function Items(events: seq<Event>): seq<Item> {
    seq(|events|, i requires 0 <= i < |events| => Some(events[i]))
  }

  function Seen(sub: Sub): seq<Item> {
    sub.received + sub.queue
  }

  ghost predicate Increasing(items: seq<Item>) {
    forall i, j :: 0 <= i < j < |items| && items[i].Some? && items[j].Some? ==>
      items[i].value.sequence < items[j].value.sequence
  }

  /** A prefix of the history, then a last element: a close sentinel, or a resync after an overflow. */
  ghost predicate Ended(sub: Sub, log: seq<Event>, bound: nat)
    requires sub.start <= |log|
  {
    var seen, all := Seen(sub), Items(History(sub, log));
    && seen != []
    && seen[..|seen| - 1] <= all
    && match seen[|seen| - 1]
       case None => true
       case Some(e) => e.ResyncRequired? && |all| >= |seen| + bound
  }

  ghost predicate SubOk(sub: Sub, log: seq<Event>, bound: nat, sequence: nat) {
    && sub.start <= |log| && 0 < sub.ready
    && |sub.queue| <= bound
    && (if sub.closed then Ended(sub, log, bound) else Seen(sub) == Items(History(sub, log)))
    && Increasing(Seen(sub))
    && (forall k :: 0 <= k < |Seen(sub)| && Seen(sub)[k].Some? ==> Seen(sub)[k].value.sequence <= sequence)
  }

  ghost predicate Inv(h: Hub) {
    && h.bound >= 1
    && NoDup(h.order)
    && (forall i: nat :: i in h.order <==> i < |h.subs| && !h.subs[i].closed)
    && (h.closed ==> h.order == [])
    && (forall i :: 0 <= i < |h.subs| ==> SubOk(h.subs[i], h.log, h.bound, h.sequence))
  }

  // ---------------------------------------------------------------- one subscription at a time

  lemma HistoryGrows(sub: Sub, log: seq<Event>, e: Event)
    requires sub.start <= |log|
    ensures History(sub, log + [e]) == History(sub, log) + if OfUser(sub.user)(e) then [e] else []
  {
    assert (log + [e])[sub.start..] == log[sub.start..] + [e];
    FilterConcat(log[sub.start..], [e], OfUser(sub.user));
    assert Filter([e], OfUser(sub.user)) == if OfUser(sub.user)(e) then [e] else [];
  }

  lemma ItemsGrow(events: seq<Event>, more: seq<Event>)
    ensures Items(events + more) == Items(events) + Items(more)
  {
  }

  /** An update of another user, or one that comes after the end, changes nothing. */
  lemma Unaffected(sub: Sub, log: seq<Event>, bound: nat, n: nat, e: Event, m: nat)
    requires SubOk(sub, log, bound, n) && n <= m && e.Update?
    requires sub.closed || sub.user != e.user
    ensures SubOk(sub, log + [e], bound, m)
  {
    HistoryGrows(sub, log, e);
    ItemsGrow(History(sub, log), if OfUser(sub.user)(e) then [e] else []);
  }

  lemma Queued(sub: Sub, log: seq<Event>, bound: nat, n: nat, e: Event, m: nat)
    requires SubOk(sub, log, bound, n) && !sub.closed && |sub.queue| < bound
    requires e.Update? && e.user == sub.user && n < e.sequence <= m
    ensures SubOk(sub.(queue := sub.queue + [Some(e)]), log + [e], bound, m)
  {
    HistoryGrows(sub, log, e);
    ItemsGrow(History(sub, log), [e]);
    var after := sub.(queue := sub.queue + [Some(e)]);
    assert Seen(after) == Seen(sub) + [Some(e)];
    assert Items([e]) == [Some(e)];
  }

  lemma Overflows(sub: Sub, log: seq<Event>, bound: nat, n: nat, e: Event, resync: nat, m: nat)
    requires SubOk(sub, log, bound, n) && !sub.closed && |sub.queue| == bound >= 1
    requires e.Update? && e.user == sub.user && n < e.sequence < resync <= m
    ensures SubOk(sub.(queue := [Some(ResyncRequired(resync))], closed := true), log + [e], bound, m)
  {
    HistoryGrows(sub, log, e);
    ItemsGrow(History(sub, log), [e]);
    var after := sub.(queue := [Some(ResyncRequired(resync))], closed := true);
    assert Seen(after)[..|Seen(after)| - 1] == sub.received;
    assert sub.received <= Seen(sub);
    assert forall k :: 0 <= k < |sub.received| ==> Seen(after)[k] == Seen(sub)[k];
  }

  lemma ClosingEnds(sub: Sub, log: seq<Event>, bound: nat, n: nat)
    requires SubOk(sub, log, bound, n) && bound >= 1
    ensures SubOk(ClosedSub(sub), log, bound, n)
  {
    if !sub.closed {
      var after := ClosedSub(sub);
      assert Seen(after)[..|Seen(after)| - 1] == sub.received;
      assert forall k :: 0 <= k < |sub.received| ==> Seen(after)[k] == Seen(sub)[k];
    }
  }

  lemma NothingLeft(order: seq<nat>)
    ensures (forall i: nat :: i !in order) ==> order == []
  {
    if order != [] {
      assert order[0] in order;
    }
  }

  lemma WithoutSpec(order: seq<nat>, i: nat)
    requires NoDup(order)
    ensures NoDup(Without(order, i)) && forall j: nat :: j in Without(order, i) <==> j in order && j != i
  {
    FilterNoDup(order, Other(i));
  }

  // ---------------------------------------------------------------- all subscriptions together

  ghost predicate Takes(sub: Sub, user: nat, bound: nat) {
    sub.user == user && |sub.queue| < bound
  }

  ghost predicate Spills(sub: Sub, user: nat, bound: nat) {
    sub.user == user && |sub.queue| >= bound
  }

  ghost predicate Resynced(before: Sub, after: Sub, low: nat, high: nat) {
    exists n: nat :: low < n <= high && after == before.(queue := [Some(ResyncRequired(n))], closed := true)
  }

  /** What offering an update does to subscription i. */
  ghost predicate Offered(h: Hub, ids: seq<nat>, user: nat, e: Event, r: Hub, i: nat)
    requires i < |h.subs| == |r.subs|
  {
    var sub := h.subs[i];
    if i in ids && Takes(sub, user, h.bound) then r.subs[i] == sub.(queue := sub.queue + [Some(e)])
    else if i in ids && Spills(sub, user, h.bound) then Resynced(sub, r.subs[i], h.sequence, r.sequence)
    else r.subs[i] == sub
  }

  ghost predicate StillOrdered(h: Hub, ids: seq<nat>, user: nat, r: Hub) {
    && NoDup(r.order)
    && forall i: nat :: i in r.order
                        <==> i in h.order && !(i in ids && i < |h.subs| && Spills(h.subs[i], user, h.bound))
  }

  lemma OrderIsUnique(h: Hub)
    requires Inv(h)
    ensures NoDup(h.order) && forall i: nat :: i in h.order ==> i < |h.subs|
  {
  }

  lemma NoneInSession(h: Hub, session: nat)
    ensures Filter<nat>([], InSession(h, session)) == []
  {
  }

  lemma InSessionNext(h: Hub, order: seq<nat>, id: nat, session: nat)
    ensures Filter(order + [id], InSession(h, session))
            == Filter(order, InSession(h, session))
               + if id < |h.subs| && h.subs[id].session == session then [id] else []
  {
    FilterConcat(order, [id], InSession(h, session));
  }

  lemma WithoutTwice(order: seq<nat>, i: nat)
    ensures Without(Without(order, i), i) == Without(order, i)
    ensures i !in order ==> Without(order, i) == order
  {
    FilterTwice(order, Other(i), Other(i), Other(i));
    if i !in order {
      FilterAll(order, Other(i));
    }
  }

  lemma OfferNone(h: Hub, user: nat, e: Event)
    ensures OfferAll(h, [], user, e) == h && DetachAll(h, []) == h
  {
  }

  lemma OfferNext(h: Hub, ids: seq<nat>, k: nat, user: nat, e: Event)
    requires k < |ids|
    ensures OfferAll(h, ids[..k + 1], user, e) == Offer(OfferAll(h, ids[..k], user, e), ids[k], user, e)
    ensures OfferAll(h, ids[..0], user, e) == h
  {
    assert ids[..k + 1][..k] == ids[..k];
  }

  lemma DetachNext(h: Hub, ids: seq<nat>, k: nat)
    requires k < |ids|
    ensures DetachAll(h, ids[..k + 1]) == Detach(DetachAll(h, ids[..k]), ids[k])
    ensures DetachAll(h, ids[..0]) == h
  {
    assert ids[..k + 1][..k] == ids[..k];
  }

  lemma {:induction false} OfferAllEffect(h: Hub, ids: seq<nat>, user: nat, e: Event)
    requires NoDup(ids) && NoDup(h.order)
    ensures var r := OfferAll(h, ids, user, e);
            && r.bound == h.bound && r.log == h.log && r.closed == h.closed && r.sequence >= h.sequence
            && StillOrdered(h, ids, user, r)
            && forall i: nat :: i < |h.subs| ==> Offered(h, ids, user, e, r, i)
  {
    if ids != [] {
      var front, last := ids[..|ids| - 1], ids[|ids| - 1];
      OfferAllEffect(h, front, user, e);
      assert ids == front + [last] && last !in front;
      var mid := OfferAll(h, front, user, e);
      WithoutSpec(mid.order, last);
      OfferEffect(h, front, last, user, e);
      assert last < |h.subs| ==> Offered(h, front, user, e, mid, last);
    }
  }

  lemma OfferEffect(h: Hub, front: seq<nat>, last: nat, user: nat, e: Event)
    requires last !in front
    requires var mid := OfferAll(h, front, user, e);
             mid.bound == h.bound && mid.sequence >= h.sequence
             && forall i: nat :: i < |h.subs| ==> Offered(h, front, user, e, mid, i)
    ensures var r := Offer(OfferAll(h, front, user, e), last, user, e);
            forall i: nat :: i < |h.subs| ==> Offered(h, front + [last], user, e, r, i)
  {
    var mid := OfferAll(h, front, user, e);
    var r := Offer(mid, last, user, e);
    forall i: nat | i < |h.subs| ensures Offered(h, front + [last], user, e, r, i) {
      assert Offered(h, front, user, e, mid, i);
      assert i in front + [last] <==> i in front || i == last;
      if i == last && Spills(h.subs[i], user, h.bound) {
        assert r.subs[i] == h.subs[i].(queue := [Some(ResyncRequired(r.sequence))], closed := true);
      }
    }
  }

  lemma {:induction false} DetachAllEffect(h: Hub, ids: seq<nat>)
    requires NoDup(h.order)
    requires forall i: nat :: i in ids ==> i < |h.subs|
    ensures var r := DetachAll(h, ids);
            && r.bound == h.bound && r.log == h.log && r.closed == h.closed && r.sequence == h.sequence
            && NoDup(r.order) && (forall i: nat :: i in r.order <==> i in h.order && i !in ids)
            && forall i: nat :: i < |h.subs| ==>
                 r.subs[i] == if i in ids then ClosedSub(h.subs[i]) else h.subs[i]
  {
    if ids != [] {
      var front, last := ids[..|ids| - 1], ids[|ids| - 1];
      assert ids == front + [last];
      assert forall i: nat :: i in ids <==> i in front || i == last;
      DetachAllEffect(h, front);
      WithoutSpec(DetachAll(h, front).order, last);
    }
  }

  // ---------------------------------------------------------------- every run

  lemma PublishKeeps(h: Hub, user: nat, about: nat)
    requires Inv(h)
    ensures Inv(DoPublish(h, user, about))
  {
    var e := Update(h.sequence + 1, user, about);
    var base, r := Logged(h, user, about), DoPublish(h, user, about);
    OfferAllEffect(base, h.order, user, e);
    forall i: nat | i < |h.subs|
      ensures SubOk(r.subs[i], r.log, r.bound, r.sequence)
      ensures r.subs[i].closed <==> h.subs[i].closed || (i in h.order && Spills(h.subs[i], user, h.bound))
    {
      assert Offered(base, h.order, user, e, r, i);
      assert SubOk(h.subs[i], h.log, h.bound, h.sequence);
      var sub := h.subs[i];
      if i in h.order && Takes(sub, user, h.bound) {
        Queued(sub, h.log, h.bound, h.sequence, e, r.sequence);
      } else if i in h.order && Spills(sub, user, h.bound) {
        var n: nat :| base.sequence < n <= r.sequence
                      && r.subs[i] == sub.(queue := [Some(ResyncRequired(n))], closed := true);
        Overflows(sub, h.log, h.bound, h.sequence, e, n, r.sequence);
      } else {
        Unaffected(sub, h.log, h.bound, h.sequence, e, r.sequence);
      }
    }
  }

  lemma DetachKeeps(h: Hub, ids: seq<nat>)
    requires Inv(h) && forall i: nat :: i in ids ==> i < |h.subs|
    ensures Inv(DetachAll(h, ids))
  {
    DetachAllEffect(h, ids);
    var r := DetachAll(h, ids);
    forall i: nat | i < |h.subs| ensures SubOk(r.subs[i], r.log, r.bound, r.sequence) {
      ClosingEnds(h.subs[i], h.log, h.bound, h.sequence);
    }
    NothingLeft(r.order);
  }

  lemma SubscribeKeeps(h: Hub, user: nat, session: nat)
    requires Inv(h)
    ensures Inv(DoSubscribe(h, user, session))
  {
    if !h.closed {
      var sub, r := NewSub(h, user, session), DoSubscribe(h, user, session);
      assert |h.subs| !in h.order;
      assert History(sub, h.log) == [StreamReady(h.sequence + 1)] by {
        assert h.log[|h.log|..] == [];
      }
      assert SubOk(sub, h.log, h.bound, h.sequence + 1);
      forall i: nat | i < |r.subs| ensures SubOk(r.subs[i], r.log, r.bound, r.sequence) {
        if i < |h.subs| {
          assert SubOk(h.subs[i], h.log, h.bound, h.sequence);
        }
      }
    }
  }

  lemma ReceiveKeeps(h: Hub, i: nat)
    requires Inv(h)
    ensures Inv(DoReceive(h, i))
  {
    if i < |h.subs| && h.subs[i].queue != [] {
      var r := DoReceive(h, i);
      assert Seen(r.subs[i]) == Seen(h.subs[i]);
      forall k: nat | k < |r.subs| ensures SubOk(r.subs[k], r.log, r.bound, r.sequence) {
        assert SubOk(h.subs[k], h.log, h.bound, h.sequence);
      }
    }
  }

  lemma StepKeepsInv(h: Hub, step: Step)
    requires Inv(h)
    ensures Inv(Apply(h, step))
  {
    match step
    case Subscribe(user, session) => SubscribeKeeps(h, user, session);
    case Publish(user, about) => PublishKeeps(h, user, about);
    case Unsubscribe(i) =>
      if i < |h.subs| {
        assert DetachAll(h, [i]) == Detach(h, i) by {
          assert [i][..0] == [];
        }
        DetachKeeps(h, [i]);
      }
    case CloseSession(session) => DetachKeeps(h, Filter(h.order, InSession(h, session)));
    case CloseHub =>
      if !h.closed {
        DetachKeeps(h, h.order);
        DetachAllEffect(h, h.order);
        var r := DetachAll(h, h.order);
        NothingLeft(r.order);
      }
    case Receive(i) => ReceiveKeeps(h, i);
  }

  lemma {:induction false} RunKeepsInv(bound: nat, steps: seq<Step>)
    requires bound >= 1
    ensures Inv(Run(bound, steps)) && Run(bound, steps).bound == bound
  {
    if steps != [] {
      var h, step := Run(bound, steps[..|steps| - 1]), steps[|steps| - 1];
      RunKeepsInv(bound, steps[..|steps| - 1]);
      StepKeepsInv(h, step);
      BoundStays(h, step);
    }
  }

  lemma BoundStays(h: Hub, step: Step)
    requires Inv(h)
    ensures Apply(h, step).bound == h.bound
  {
    match step
    case Publish(user, about) =>
      OfferAllEffect(Logged(h, user, about), h.order, user, Update(h.sequence + 1, user, about));
    case CloseSession(session) => DetachAllEffect(h, Filter(h.order, InSession(h, session)));
    case CloseHub => DetachAllEffect(h, h.order);
    case _ =>
  }

  /**
   Gap-free or resync. In every run, what an open subscription has received and still has queued is
   stream_ready followed by exactly its user's updates since it registered, within the bound. What
   an ended one sees is a prefix of that history and then one last element: a close sentinel, or a
   resync_required, which only comes when more updates than the bound holds were not delivered.
   */
  lemma GapFreeOrResync(bound: nat, steps: seq<Step>, i: nat)
    requires bound >= 1 && i < |Run(bound, steps).subs|
    ensures var h := Run(bound, steps);
            var sub := h.subs[i];
            && sub.start <= |h.log| && |sub.queue| <= bound
            && (if sub.closed then i !in h.order && Ended(sub, h.log, bound)
                else i in h.order && Seen(sub) == Items(History(sub, h.log)))
            && Increasing(Seen(sub))
  {
    RunKeepsInv(bound, steps);
    assert SubOk(Run(bound, steps).subs[i], Run(bound, steps).log, bound, Run(bound, steps).sequence);
  }

  lemma EndSurvivesPublish(h: Hub, user: nat, about: nat, i: nat)
    requires Inv(h) && i < |h.subs| && h.subs[i].closed
    ensures i < |DoPublish(h, user, about).subs| && DoPublish(h, user, about).subs[i] == h.subs[i]
  {
    var base, e := Logged(h, user, about), Update(h.sequence + 1, user, about);
    OfferAllEffect(base, h.order, user, e);
    assert Offered(base, h.order, user, e, DoPublish(h, user, about), i);
  }

  /** After the end nothing is added: the reader keeps what it has, and the rest stays what it was. */
  lemma EndIsFinal(h: Hub, step: Step, i: nat)
    requires Inv(h) && i < |h.subs| && h.subs[i].closed
    ensures i < |Apply(h, step).subs|
    ensures Apply(h, step).subs[i].closed && Seen(Apply(h, step).subs[i]) == Seen(h.subs[i])
  {
    hide SubOk, Filter, OfferAll, DetachAll;
    match step
    case Publish(user, about) =>
      EndSurvivesPublish(h, user, about, i);
    case CloseSession(session) => DetachAllEffect(h, Filter(h.order, InSession(h, session)));
    case CloseHub => DetachAllEffect(h, h.order);
    case Unsubscribe(k) =>
    case Subscribe(user, session) =>
    case Receive(k) =>
      if k == i && h.subs[i].queue != [] {
        var q := h.subs[i].queue;
        assert q == [q[0]] + q[1..];
      }
  }

  /** Publishing ends exactly those of the user's subscriptions whose queue was full. */
  lemma OnlyFullQueuesOverflow(h: Hub, user: nat, about: nat, i: nat)
    requires Inv(h) && i < |h.subs| && !h.subs[i].closed
    ensures i < |DoPublish(h, user, about).subs|
    ensures DoPublish(h, user, about).subs[i].closed <==> h.subs[i].user == user && |h.subs[i].queue| == h.bound
    ensures !DoPublish(h, user, about).subs[i].closed ==>
              DoPublish(h, user, about).subs[i].queue
              == h.subs[i].queue
                 + if h.subs[i].user == user then [Some(Update(h.sequence + 1, user, about))] else []
  {
    var e := Update(h.sequence + 1, user, about);
    var base := Logged(h, user, about);
    OfferAllEffect(base, h.order, user, e);
    assert Offered(base, h.order, user, e, DoPublish(h, user, about), i);
    assert SubOk(h.subs[i], h.log, h.bound, h.sequence);
  }

  /** What a step leaves in the queue of a subscription that it ends: one last element, and what it is. */
  ghost predicate EndedBy(before: Sub, after: Sub, step: Step) {
    && after.closed && after.received == before.received && |after.queue| == 1
    && if step.Publish? then after.queue[0].Some? && after.queue[0].value.ResyncRequired? else after.queue[0].None?
  }

  /**
   Who ends a subscription. In every run an open subscription is ended by an update of its user that
   finds its queue full, by its own end, by the end of its session and by the close of the hub, and
   by nothing else; and then one element is left for its reader, a resync or the end.
   */
  lemma EndsExactly(bound: nat, steps: seq<Step>, step: Step, i: nat)
    requires bound >= 1 && i < |Run(bound, steps).subs| && !Run(bound, steps).subs[i].closed
    ensures var h := Run(bound, steps);
            var t := Apply(h, step);
            && i < |t.subs|
            && (t.subs[i].closed <==>
                  match step
                  case Publish(user, _) => h.subs[i].user == user && |h.subs[i].queue| == bound
                  case Unsubscribe(k) => k == i
                  case CloseSession(session) => h.subs[i].session == session
                  case CloseHub => true
                  case _ => false)
            && (t.subs[i].closed ==> EndedBy(h.subs[i], t.subs[i], step))
  {
    var h := Run(bound, steps);
    RunKeepsInv(bound, steps);
    hide Run;
    match step
    case Publish(user, about) => PublishEnds(h, user, about, i);
    case CloseSession(session) =>
      OrderIsUnique(h);
      DetachAllEffect(h, Filter(h.order, InSession(h, session)));
      assert i in h.order;
      hide Inv;
    case CloseHub =>
      OrderIsUnique(h);
      DetachAllEffect(h, h.order);
      assert i in h.order && !h.closed;
      hide Inv;
    case _ => hide Inv;
  }

  lemma PublishEnds(h: Hub, user: nat, about: nat, i: nat)
    requires Inv(h) && i < |h.subs| && !h.subs[i].closed
    ensures var t := DoPublish(h, user, about);
            && i < |t.subs|
            && (t.subs[i].closed <==> h.subs[i].user == user && |h.subs[i].queue| == h.bound)
            && (t.subs[i].closed ==> EndedBy(h.subs[i], t.subs[i], Publish(user, about)))
  {
    OnlyFullQueuesOverflow(h, user, about, i);
    OrderIsUnique(h);
    OfferAllEffect(Logged(h, user, about), h.order, user, Update(h.sequence + 1, user, about));
    assert Offered(Logged(h, user, about), h.order, user, Update(h.sequence + 1, user, about), DoPublish(h, user, about), i);
    hide Inv;
  }

  // ---------------------------------------------------------------- the objects

  /** What one attempt to receive yields: the stream's end is sticky. */
  datatype Poll = Got(event: Event) | StreamEnded | MustWait

  class EventSubscription {
    var queue: seq<Item>
    var closed: bool
    const user: nat
    const session: nat
    ghost const ready: nat
    ghost const start: nat
    ghost var received: seq<Item>

    constructor (user: nat, session: nat, first: Event, ghost start: nat)
      ensures View() == Sub(user, session, [Some(first)], false, [], first.sequence, start)
    {
      this.user, this.session, this.ready, this.start := user, session, first.sequence, start;
      queue, closed, received := [Some(first)], false, [];
    }

    ghost function View(): Sub
      reads this
    {
      Sub(user, session, queue, closed, received, ready, start)
    }

    method Receive() returns (r: Poll)
      modifies this
      ensures r == MustWait <==> old(queue) == [] && !old(closed)
      ensures r == StreamEnded <==> if old(queue) == [] then old(closed) else old(queue)[0] == None
      ensures r.Got? ==> old(queue) != [] && old(queue)[0] == Some(r.event)
      ensures View() == if old(queue) == [] then old(View())
                        else old(View()).(queue := old(queue)[1..], received := old(received) + [old(queue)[0]])
    {
      if queue == [] {
        return if closed then StreamEnded else MustWait;
      }
      var item := queue[0];
      queue, received := queue[1..], received + [item];
      return if item.Some? then Got(item.value) else StreamEnded;
    }

    /** Empties the queue and leaves the sentinel, once. */
    method Close()
      modifies this
      ensures View() == ClosedSub(old(View()))
    {
      if closed {
        return;
      }
      closed, queue := true, [None];
    }
  }

  datatype Subscriber = Subscriber(user: nat, session: nat, subscription: EventSubscription)

  class EventHub {
    const queueSize: nat
    /** The registered subscribers; order is the dictionary's insertion order. */
    var subscribers: map<nat, Subscriber>
    var order: seq<nat>
    var sequence: nat
    var closed: bool
    /** Supplies fresh subscriber identities. */
    var created: nat
    ghost var all: seq<EventSubscription>
    ghost var log: seq<Event>

    ghost predicate Distinct()
      reads this
    {
      forall i, j :: 0 <= i < j < |all| ==> all[i] != all[j]
    }

    ghost predicate Shape()
      reads this
    {
      && created == |all| && Distinct()
      && (forall id: nat :: id in order <==> id in subscribers)
      && (forall id: nat :: id in subscribers ==>
            && id < |all| && subscribers[id].subscription == all[id]
            && subscribers[id].user == all[id].user && subscribers[id].session == all[id].session)
    }

    ghost function View(): Hub
      reads this, all
    {
      Hub(queueSize, seq(|all|, i requires 0 <= i < |all| reads this, all => all[i].View()),
          order, sequence, closed, log)
    }

    ghost predicate Valid()
      reads this, all
    {
      Shape() && Inv(View())
    }

    constructor (size: nat)
      requires size >= 1
      ensures Valid() && View() == Init(size) && all == []
    {
      queueSize := size;
      subscribers, order, sequence, closed := map[], [], 0, false;
      created, all, log := 0, [], [];
    }

    method Subscribe(user: nat, session: nat) returns (r: Option<EventSubscription>)
      requires Valid()
      modifies this
      ensures Valid() && View() == DoSubscribe(old(View()), user, session)
      ensures r.None? <==> old(closed)
      ensures r.Some? ==>
                && fresh(r.value) && all == old(all) + [r.value] && !r.value.closed
                && r.value.user == user && r.value.session == session
                && r.value.queue == [Some(StreamReady(old(sequence) + 1))] && sequence == old(sequence) + 1
      ensures r.None? ==> all == old(all)
    {
      hide Inv, SubOk, History;
      SubscribeKeeps(View(), user, session);
      if closed {
        return None;
      }
      sequence := sequence + 1;
      var subscription := new EventSubscription(user, session, StreamReady(sequence), |log|);
      order, subscribers := order + [created], subscribers[created := Subscriber(user, session, subscription)];
      created, all := created + 1, all + [subscription];
      assert View().subs == old(View().subs) + [NewSub(old(View()), user, session)];
      return Some(subscription);
    }

    method Pop(id: nat)
      modifies this`order, this`subscribers
      ensures order == Without(old(order), id) && subscribers == old(subscribers) - {id}
    {
      order, subscribers := Without(order, id), subscribers - {id};
    }

    /** Offers one update to one subscriber; a full queue becomes a resync and the subscriber leaves. */
    method OfferTo(id: nat, user: nat, event: Event)
      requires Shape() && id in subscribers
      modifies this`order, this`subscribers, this`sequence, subscribers[id].subscription
      ensures Shape() && all == old(all)
      ensures View() == Offer(old(View()), id, user, event)
      ensures forall k: nat :: k != id && k in old(subscribers) ==> k in subscribers && subscribers[k] == old(subscribers)[k]
    {
      hide Inv, Filter;
      var subscriber := subscribers[id];
      if subscriber.user != user {
        return;
      }
      var subscription := subscriber.subscription;
      ghost var before := View();
      if |subscription.queue| < queueSize {
        subscription.queue := subscription.queue + [Some(event)];
      } else {
        sequence := sequence + 1;
        subscription.queue, subscription.closed := [Some(ResyncRequired(sequence))], true;
        Pop(id);
      }
      assert View().subs == before.subs[id := all[id].View()];
    }

    method Publish(user: nat, about: nat)
      requires Valid()
      modifies this, all
      ensures Valid() && all == old(all)
      ensures View() == DoPublish(old(View()), user, about)
      ensures log == old(log) + [Update(old(sequence) + 1, user, about)]
    {
      hide Inv, OfferAll, Offer;
      ghost var before := View();
      PublishKeeps(before, user, about);
      OrderIsUnique(before);
      sequence := sequence + 1;
      var event := Update(sequence, user, about);
      log := log + [event];
      assert View() == Logged(before, user, about);
      OfferEach(order, user, event);
    }

    method OfferEach(snapshot: seq<nat>, user: nat, event: Event)
      requires Shape() && NoDup(snapshot) && forall j :: 0 <= j < |snapshot| ==> snapshot[j] in subscribers
      modifies this`order, this`subscribers, this`sequence, all
      ensures Shape()
      ensures View() == OfferAll(old(View()), snapshot, user, event)
    {
      hide Inv, OfferAll, Offer, EventHub.View;
      ghost var before := View();
      var k := 0;
      assert OfferAll(before, snapshot[..0], user, event) == before by {
        OfferNone(before, user, event);
      }
      while k < |snapshot|
        invariant 0 <= k <= |snapshot|
        invariant Shape() && all == old(all)
        invariant forall j :: k <= j < |snapshot| ==> snapshot[j] in subscribers
        invariant View() == OfferAll(before, snapshot[..k], user, event)
      {
        OfferNext(before, snapshot, k, user, event);
        OfferTo(snapshot[k], user, event);
        k := k + 1;
      }
      assert snapshot[..k] == snapshot;
    }

    /** Takes one subscriber out and closes its stream. */
    method Leave(id: nat)
      requires Shape() && id in subscribers
      modifies this`order, this`subscribers, subscribers[id].subscription
      ensures Shape() && all == old(all)
      ensures View() == Detach(old(View()), id)
      ensures forall k: nat :: k != id && k in old(subscribers) ==> k in subscribers && subscribers[k] == old(subscribers)[k]
    {
      var subscription := subscribers[id].subscription;
      ghost var before := View();
      Pop(id);
      subscription.Close();
      assert View().subs == before.subs[id := all[id].View()];
    }

    method CloseSessionStreams(session: nat)
      requires Valid()
      modifies this, all
      ensures Valid() && all == old(all)
      ensures View() == Apply(old(View()), Step.CloseSession(session))
    {
      hide Inv, Filter, DetachAll;
      ghost var before := View();
      StepKeepsInv(before, Step.CloseSession(session));
      OrderIsUnique(before);
      FilterNoDup(order, InSession(before, session));
      var matches := InSessionNow(session);
      LeaveEach(matches);
    }

    method InSessionNow(session: nat) returns (matches: seq<nat>)
      requires Shape()
      ensures matches == Filter(order, InSession(View(), session))
    {
      hide Inv, Filter;
      ghost var view := View();
      assert forall id: nat :: id in order ==> id < |view.subs| && view.subs[id].session == subscribers[id].session;
      hide EventHub.View;
      matches := [];
      var k := 0;
      NoneInSession(view, session);
      assert order[..0] == [];
      while k < |order|
        invariant 0 <= k <= |order|
        invariant matches == Filter(order[..k], InSession(view, session))
      {
        var id := order[k];
        assert id in order;
        assert order[..k + 1] == order[..k] + [id];
        InSessionNext(view, order[..k], id, session);
        if subscribers[id].session == session {
          matches := matches + [id];
        }
        k := k + 1;
      }
      assert order[..k] == order;
    }

    method LeaveEach(matches: seq<nat>)
      requires Shape() && NoDup(matches) && forall j :: 0 <= j < |matches| ==> matches[j] in subscribers
      modifies this`order, this`subscribers, all
      ensures Shape()
      ensures View() == DetachAll(old(View()), matches)
    {
      hide Inv, DetachAll, Detach, EventHub.View;
      ghost var before := View();
      var k := 0;
      assert DetachAll(before, matches[..0]) == before by {
        OfferNone(before, 0, StreamReady(0));
      }
      while k < |matches|
        invariant 0 <= k <= |matches|
        invariant Shape() && all == old(all)
        invariant forall j :: k <= j < |matches| ==> matches[j] in subscribers
        invariant View() == DetachAll(before, matches[..k])
      {
        DetachNext(before, matches, k);
        Leave(matches[k]);
        k := k + 1;
      }
      assert matches[..k] == matches;
    }

    /** A subscription is registered under its own number only. */
    lemma OnlyOwn(i: nat)
      requires Shape() && i < |all|
      ensures forall id: nat :: id in order ==> id in subscribers && (subscribers[id].subscription == all[i] <==> id == i)
      ensures i in order <==> i in subscribers
    {
    }

    /** Takes out every registration of the subscription. */
    method RemoveSubscription(subscription: EventSubscription, ghost i: nat)
      requires Shape() && i < |all| && all[i] == subscription
      modifies this`order, this`subscribers
      ensures order == Without(old(order), i) && subscribers == old(subscribers) - {i}
    {
      var snapshot, table := order, subscribers;
      hide Without, EventHub.Shape, EventHub.Distinct;
      WithoutTwice(snapshot, i);
      OnlyOwn(i);
      ghost var gone := false;
      var k := 0;
      while k < |snapshot|
        invariant 0 <= k <= |snapshot|
        invariant order == (if gone then Without(snapshot, i) else snapshot)
        invariant subscribers == (if gone then table - {i} else table)
        invariant !gone ==> forall j :: 0 <= j < k ==> snapshot[j] != i
      {
        var id := snapshot[k];
        assert id in snapshot;
        if table[id].subscription == subscription {
          Pop(id);
          gone := true;
        }
        k := k + 1;
      }
    }

    /** Ends one subscription, registered or not. */
    method Unsubscribe(subscription: EventSubscription, ghost i: nat)
      requires Valid() && i < |all| && all[i] == subscription
      modifies this, subscription
      ensures Valid() && all == old(all)
      ensures View() == Detach(old(View()), i)
    {
      hide Inv, Filter;
      ghost var before := View();
      StepKeepsInv(before, Step.Unsubscribe(i));
      RemoveSubscription(subscription, i);
      subscription.Close();
      assert View().subs == before.subs[i := all[i].View()];
    }

    ghost function Subs(): seq<Sub>
      reads this, all
    {
      View().subs
    }

    method CloseStream(subscription: EventSubscription, ghost id: nat)
      requires Distinct() && id < |all| && all[id] == subscription
      modifies subscription
      ensures Subs() == old(Subs())[id := ClosedSub(old(Subs())[id])]
    {
      ghost var was := Subs();
      subscription.Close();
      assert Subs() == was[id := all[id].View()];
    }

    method Close()
      requires Valid()
      modifies this, all
      ensures Valid() && all == old(all)
      ensures View() == DoCloseHub(old(View()))
    {
      hide Inv, DetachAll;
      ghost var before := View();
      StepKeepsInv(before, CloseHub);
      if closed {
        return;
      }
      OrderIsUnique(before);
      DetachAllEffect(before, before.order);
      NothingLeft(DetachAll(before, before.order).order);
      var subscriptions := Subscriptions();
      ghost var ids := order;
      closed, order, subscribers := true, [], map[];
      CloseEach(subscriptions, ids, before);
    }

    method Subscriptions() returns (r: seq<EventSubscription>)
      requires Shape()
      ensures |r| == |order| && forall k :: 0 <= k < |r| ==> order[k] < |all| && r[k] == all[order[k]]
    {
      r := [];
      while |r| < |order|
        invariant |r| <= |order| && forall k :: 0 <= k < |r| ==> order[k] < |all| && r[k] == all[order[k]]
      {
        assert order[|r|] in order;
        r := r + [subscribers[order[|r|]].subscription];
      }
    }

    method CloseEach(subscriptions: seq<EventSubscription>, ghost ids: seq<nat>, ghost before: Hub)
      requires Distinct() && Subs() == before.subs
      requires |subscriptions| == |ids|
      requires forall k :: 0 <= k < |ids| ==>
                 ids[k] < |all| == |before.subs| && subscriptions[k] == all[ids[k]]
      modifies all
      ensures Subs() == DetachAll(before, ids).subs
    {
      hide DetachAll, EventHub.Subs;
      OfferNone(before, 0, StreamReady(0));
      var k := 0;
      assert ids[..0] == [];
      while k < |subscriptions|
        invariant 0 <= k <= |ids|
        invariant Subs() == DetachAll(before, ids[..k]).subs
      {
        DetachNext(before, ids, k);
        CloseStream(subscriptions[k], ids[k]);
        k := k + 1;
      }
      assert ids[..k] == ids;
    }
  }
}
