/**
 Nested Concordance Results: the document filter, which works by exploding, filtering, sorting and
 regrouping rows, against the filter that works on each document by itself.
 */
module Concordance {
  import opened Common
  import opened StableSorting
  import opened Arithmetic

  /** One match; a null column is None. */
  datatype Match = Match(matched: Option<string>, start: Option<int>)

  const NULL_MATCH: Match := Match(None, None)

  /** One document row: its source row identity, text, remaining columns, and nested matches. */
  datatype Doc<B> = Doc(rowId: nat, text: Option<string>, base: B, matches: seq<Option<Match>>)

  datatype Bins = Bins(count: nat, selected: set<int>)

  /** The active filter: texts to leave out, and the position bins to keep, if restricted. */
  datatype Query = Query(excluded: set<string>, bins: Option<Bins>)

  predicate ValidQuery(q: Query) {
    q.bins.Some? ==> q.bins.value.count > 0
  }

  // ---------------------------------------------------------------- positions and bins

  function LengthOf(text: Option<string>): nat
    ensures LengthOf(text) >= 1
  {
    if text.Some? then Max(|text.value|, 1) else 1
  }

  function StartOf(m: Match): int {
    if m.start.Some? then m.start.value else 0
  }

  function Clip(i: int, top: nat): (r: nat)
    ensures r <= top
  {
    Min(top, Max(0, i))
  }

  /** The bin of a match; division by the positive length rounds down, also for negative starts. */
  function BinOf(m: Match, text: Option<string>, count: nat): nat
    requires count > 0
    ensures BinOf(m, text, count) < count
  {
    Clip(StartOf(m) * count / LengthOf(text), count - 1)
  }

  lemma PartWithin(s: int, n: nat, count: nat, q: int)
    requires n > 0 && count > 0 && q * n <= s * count < q * n + n
    ensures 0 <= s < n ==> 0 <= q < count
    ensures s < 0 ==> q < 0
    ensures s >= n ==> q >= count
  {
    Scaled(0, s, count);
    Scaled(s, 0, count);
    Scaled(s, n, count);
    Scaled(n, s, count);
    Scaled(q, -1, n);
    Scaled(0, q, n);
    Scaled(count, q, n);
    Scaled(q, count - 1, n);
    Products(n, count);
    assert (count - 1) * n == count * n - n;
  }

  lemma Products(n: int, count: int)
    ensures n * count == count * n && 0 * count == 0 && 0 * n == 0 && -1 * n == -n
  {
  }

  /**
   Which bin a match is in: a text of n characters is cut into count equal parts, and a match that
   starts in part b is in bin b. Starts before the text count for the first bin and starts behind it
   for the last; a missing start is 0, and a missing or empty text has one character.
   */
  lemma BinIsPosition(m: Match, text: Option<string>, count: nat)
    requires count > 0
    ensures var s := if m.start.Some? then m.start.value else 0;
            var n := if text.Some? && text.value != [] then |text.value| else 1;
            var b := BinOf(m, text, count);
            && (0 <= s < n ==> b * n <= s * count < (b + 1) * n)
            && (s < 0 ==> b == 0)
            && (s >= n ==> b == count - 1)
  {
    var s, n := StartOf(m), LengthOf(text);
    var q := s * count / n;
    Quotient(s * count, n, q);
    assert (q + 1) * n == q * n + n;
    PartWithin(s, n, count, q);
  }

  predicate InBins(m: Match, text: Option<string>, bins: Option<Bins>)
    requires bins.Some? ==> bins.value.count > 0
  {
    bins.None? || BinOf(m, text, bins.value.count) in bins.value.selected
  }

  // ---------------------------------------------------------------- the pipeline

  datatype Row<B> = Row(rowId: nat, order: Option<nat>, text: Option<string>, base: B, m: Match)

  /** The columns of one exploded element; a null element has only null columns. */
  function Columns(m: Option<Match>): Match {
    if m.Some? then m.value else NULL_MATCH
  }

  /** Exploding gives one row per element, and one all-null row for an empty list. */
  function ExplodeDoc<B>(d: Doc<B>): seq<Row<B>> {
    if d.matches == [] then [Row(d.rowId, None, d.text, d.base, NULL_MATCH)]
    else seq(|d.matches|, i requires 0 <= i < |d.matches| =>
               Row(d.rowId, Some(i), d.text, d.base, Columns(d.matches[i])))
  }

  function Explode<B>(docs: seq<Doc<B>>): seq<Row<B>> {
    if docs == [] then [] else ExplodeDoc(docs[0]) + Explode(docs[1..])
  }

  /** A comparison with null is null, and a null condition drops the row. */
  predicate Survives(m: Match, text: Option<string>, q: Query)
    requires ValidQuery(q)
  {
    && (q.excluded == {} || (m.matched.Some? && m.matched.value !in q.excluded))
    && InBins(m, text, q.bins)
  }

  function RowSurvives<B(!new)>(q: Query): Row<B> -> bool
    requires ValidQuery(q)
  {
    (r: Row<B>) => Survives(r.m, r.text, q)
  }

  function OrderRank(order: Option<nat>): int {
    if order.Some? then order.value else -1
  }

  /** By source row, then by position in the list; null sorts first. */
  function ByRow<B(!new)>(): (Row<B>, Row<B>) -> bool {
    (a: Row<B>, b: Row<B>) =>
      a.rowId < b.rowId || (a.rowId == b.rowId && OrderRank(a.order) <= OrderRank(b.order))
  }

  function OfRow<B(!new)>(id: nat): Row<B> -> bool {
    (r: Row<B>) => r.rowId == id
  }

  function NotOfRow<B(!new)>(id: nat): Row<B> -> bool {
    (r: Row<B>) => r.rowId != id
  }

  function MatchesOf<B>(rows: seq<Row<B>>): seq<Option<Match>> {
    seq(|rows|, i requires 0 <= i < |rows| => Some(rows[i].m))
  }

  /** Groups in order of first appearance; a group takes its columns from its first row. */
  function Group<B(!new)>(rows: seq<Row<B>>): seq<Doc<B>>
    decreases |rows|
  {
    if rows == [] then []
    else
      var first := rows[0];
      var others := Filter(rows[1..], NotOfRow(first.rowId));
      [Doc(first.rowId, first.text, first.base, MatchesOf(Filter(rows, OfRow(first.rowId))))] + Group(others)
  }

  function FilterDocuments<B(!new)>(docs: seq<Doc<B>>, q: Query): seq<Doc<B>>
    requires ValidQuery(q)
  {
    Group(StableSort(ByRow(), Filter(Explode(docs), RowSurvives(q))))
  }

  // ---------------------------------------------------------------- the simple form

  /** A real match that is in the filter: not excluded by its text, and in a selected bin. */
  predicate Passes(m: Option<Match>, text: Option<string>, q: Query)
    requires ValidQuery(q)
  {
    && m.Some?
    && (m.value.matched.Some? ==> m.value.matched.value !in q.excluded)
    && InBins(m.value, text, q.bins)
  }

  function PassesIn(text: Option<string>, q: Query): Option<Match> -> bool
    requires ValidQuery(q)
  {
    (m: Option<Match>) => Passes(m, text, q)
  }

  function ByRowId<B(!new)>(): (Doc<B>, Doc<B>) -> bool {
    (a: Doc<B>, b: Doc<B>) => a.rowId <= b.rowId
  }

  /** Each document with the given matches, leaving out documents without any. */
  function Assemble<B(!new)>(docs: seq<Doc<B>>, kept: Doc<B> -> seq<Option<Match>>): seq<Doc<B>> {
    if docs == [] then []
    else
      (if kept(docs[0]) == [] then [] else [docs[0].(matches := kept(docs[0]))])
      + Assemble(docs[1..], kept)
  }

  function Passing<B(!new)>(q: Query): Doc<B> -> seq<Option<Match>>
    requires ValidQuery(q)
  {
    (d: Doc<B>) => Filter(d.matches, PassesIn(d.text, q))
  }

  /** Documents by source row, each with its passing matches in order, empty ones dropped. */
  function SimpleFilter<B(!new)>(docs: seq<Doc<B>>, q: Query): seq<Doc<B>>
    requires ValidQuery(q)
  {
    Assemble(StableSort(ByRowId(), docs), Passing(q))
  }

  function RowIdOf<B(!new)>(): Doc<B> -> nat {
    (d: Doc<B>) => d.rowId
  }

  ghost predicate UniqueRows<B(!new)>(docs: seq<Doc<B>>) {
    DistinctKeys(RowIdOf(), docs)
  }

  // ---------------------------------------------------------------- the pipeline, document by document

  function SurvivingRows<B(!new)>(d: Doc<B>, q: Query): seq<Row<B>>
    requires ValidQuery(q)
  {
    Filter(ExplodeDoc(d), RowSurvives(q))
  }

  function Surviving<B(!new)>(q: Query): Doc<B> -> seq<Option<Match>>
    requires ValidQuery(q)
  {
    (d: Doc<B>) => MatchesOf(SurvivingRows(d, q))
  }

  function AllSurviving<B(!new)>(docs: seq<Doc<B>>, q: Query): seq<Row<B>>
    requires ValidQuery(q)
  {
    if docs == [] then [] else SurvivingRows(docs[0], q) + AllSurviving(docs[1..], q)
  }

  lemma {:induction false} FilterExplode<B(!new)>(docs: seq<Doc<B>>, q: Query)
    requires ValidQuery(q)
    ensures Filter(Explode(docs), RowSurvives(q)) == AllSurviving(docs, q)
  {
    if docs != [] {
      FilterExplode(docs[1..], q);
      FilterConcat(ExplodeDoc(docs[0]), Explode(docs[1..]), RowSurvives(q));
    }
  }

  lemma {:induction false} AllSurvivingConcat<B(!new)>(a: seq<Doc<B>>, b: seq<Doc<B>>, q: Query)
    requires ValidQuery(q)
    ensures AllSurviving(a + b, q) == AllSurviving(a, q) + AllSurviving(b, q)
  {
    hide SurvivingRows;
    if a == [] {
      assert a + b == b;
    } else {
      assert (a + b)[0] == a[0] && (a + b)[1..] == a[1..] + b;
      AllSurvivingConcat(a[1..], b, q);
    }
  }

  lemma SurvivingSplit<B(!new)>(before: seq<Doc<B>>, d: Doc<B>, after: seq<Doc<B>>, q: Query)
    requires ValidQuery(q)
    ensures multiset(AllSurviving(before + ([d] + after), q))
            == multiset(SurvivingRows(d, q)) + multiset(AllSurviving(before + after, q))
  {
    hide SurvivingRows;
    AllSurvivingConcat(before, [d] + after, q);
    AllSurvivingConcat(before, after, q);
    assert ([d] + after)[1..] == after;
  }

  /** The rows that survive do not depend on the order of the documents. */
  lemma {:induction false} SurvivingPermuted<B(!new)>(a: seq<Doc<B>>, b: seq<Doc<B>>, q: Query)
    requires ValidQuery(q) && multiset(a) == multiset(b)
    ensures multiset(AllSurviving(a, q)) == multiset(AllSurviving(b, q))
    decreases |a|
  {
    hide SurvivingRows;
    if a == [] {
      SameLength(a, b);
    } else {
      var before, after := FirstInRearranged(a, b);
      SurvivingPermuted(a[1..], before + after, q);
      SurvivingSplit(before, a[0], after, q);
    }
  }

  lemma SurvivingBelongs<B(!new)>(d: Doc<B>, q: Query)
    requires ValidQuery(q)
    ensures forall r :: r in SurvivingRows(d, q) ==> r.rowId == d.rowId && r.text == d.text && r.base == d.base
  {
  }

  lemma {:induction false} FilterStrict<T(!new)>(leq: (T, T) -> bool, s: seq<T>, keep: T -> bool)
    requires StrictlySorted(leq, s)
    ensures StrictlySorted(leq, Filter(s, keep))
  {
    if s != [] {
      FilterStrict(leq, s[1..], keep);
      forall x | x in Filter(s[1..], keep) ensures leq(s[0], x) && !leq(x, s[0]) {
        var k :| 0 <= k < |s[1..]| && s[1..][k] == x;
        assert s[k + 1] == x;
      }
    }
  }

  ghost predicate Ascending<B(!new)>(docs: seq<Doc<B>>) {
    forall i, j :: 0 <= i < j < |docs| ==> docs[i].rowId < docs[j].rowId
  }

  lemma {:induction false} SurvivingAbove<B(!new)>(docs: seq<Doc<B>>, q: Query, floor: int)
    requires ValidQuery(q) && forall d :: d in docs ==> d.rowId > floor
    ensures forall r :: r in AllSurviving(docs, q) ==> r.rowId > floor
  {
    if docs != [] {
      SurvivingBelongs(docs[0], q);
      SurvivingAbove(docs[1..], q, floor);
    }
  }

  /** Documents in ascending order yield rows that are already sorted, without ties. */
  lemma {:induction false} SurvivingStrict<B(!new)>(docs: seq<Doc<B>>, q: Query)
    requires ValidQuery(q) && Ascending(docs)
    ensures StrictlySorted(ByRow(), AllSurviving(docs, q))
  {
    if docs != [] {
      var mine, rest := SurvivingRows(docs[0], q), AllSurviving(docs[1..], q);
      assert StrictlySorted(ByRow(), ExplodeDoc(docs[0]));
      FilterStrict(ByRow(), ExplodeDoc(docs[0]), RowSurvives(q));
      SurvivingBelongs(docs[0], q);
      SurvivingStrict(docs[1..], q);
      SurvivingAbove(docs[1..], q, docs[0].rowId);
      StrictConcat(mine, rest, docs[0].rowId);
    }
  }

  lemma StrictConcat<B(!new)>(a: seq<Row<B>>, b: seq<Row<B>>, id: nat)
    requires StrictlySorted(ByRow(), a) && StrictlySorted(ByRow(), b)
    requires (forall r :: r in a ==> r.rowId == id) && (forall r :: r in b ==> r.rowId > id)
    ensures StrictlySorted(ByRow(), a + b)
  {
    forall i, j | 0 <= i < j < |a + b|
      ensures ByRow()((a + b)[i], (a + b)[j]) && !ByRow()((a + b)[j], (a + b)[i])
    {
      if i < |a| <= j {
        assert (a + b)[i] in a && (a + b)[j] in b;
      }
    }
  }

  lemma FrontIsOneGroup<B(!new)>(mine: seq<Row<B>>, rest: seq<Row<B>>, id: nat)
    requires mine != [] && (forall r :: r in mine ==> r.rowId == id) && (forall r :: r in rest ==> r.rowId > id)
    ensures Filter(mine + rest, OfRow(id)) == mine
    ensures Filter((mine + rest)[1..], NotOfRow(id)) == rest
    ensures mine[0].rowId == id
  {
    hide Filter;
    assert mine[0] in mine;
    FilterConcat(mine, rest, OfRow(id));
    FilterAll(mine, OfRow(id));
    FilterNone(rest, OfRow(id));
    assert (mine + rest)[1..] == mine[1..] + rest;
    FilterConcat(mine[1..], rest, NotOfRow(id));
    FilterNone(mine[1..], NotOfRow(id));
    FilterAll(rest, NotOfRow(id));
  }

  lemma GroupFront<B(!new)>(mine: seq<Row<B>>, rest: seq<Row<B>>, id: nat)
    requires mine != [] && (forall r :: r in mine ==> r.rowId == id) && (forall r :: r in rest ==> r.rowId > id)
    ensures Group(mine + rest) == [Doc(id, mine[0].text, mine[0].base, MatchesOf(mine))] + Group(rest)
  {
    hide Filter, MatchesOf;
    FrontIsOneGroup(mine, rest, id);
  }

  /** Grouping rows of ascending documents gives those documents back, with their surviving matches. */
  lemma {:induction false} GroupAssembles<B(!new)>(docs: seq<Doc<B>>, q: Query)
    requires ValidQuery(q) && Ascending(docs)
    ensures Group(AllSurviving(docs, q)) == Assemble(docs, Surviving(q))
  {
    if docs != [] {
      var d := docs[0];
      var mine, rest := SurvivingRows(d, q), AllSurviving(docs[1..], q);
      GroupAssembles(docs[1..], q);
      SurvivingBelongs(d, q);
      SurvivingAbove(docs[1..], q, d.rowId);
      hide Group, Filter, ExplodeDoc;
      if mine == [] {
        assert mine + rest == rest;
      } else {
        GroupFront(mine, rest, d.rowId);
        assert mine[0] in mine;
      }
    }
  }

  lemma RowPreorder<B(!new)>()
    ensures TotalPreorder<Row<B>>(ByRow()) && TotalPreorder<Doc<B>>(ByRowId())
  {
  }

  lemma SortedDocs<B(!new)>(docs: seq<Doc<B>>)
    requires UniqueRows(docs)
    ensures Ascending(StableSort(ByRowId(), docs))
  {
    RowPreorder<B>();
    var sorted := StableSort(ByRowId(), docs);
    StableSortSorted(ByRowId(), docs);
    DistinctRearranged(RowIdOf(), docs, sorted);
  }

  /** With unique source rows the pipeline works on each document by itself. */
  lemma PipelineAssembles<B(!new)>(docs: seq<Doc<B>>, q: Query)
    requires ValidQuery(q) && UniqueRows(docs)
    ensures FilterDocuments(docs, q) == Assemble(StableSort(ByRowId(), docs), Surviving(q))
  {
    var sorted := StableSort(ByRowId(), docs);
    var rows := Filter(Explode(docs), RowSurvives(q));
    RowPreorder<B>();
    SortedDocs(docs);
    FilterExplode(docs, q);
    SurvivingPermuted(docs, sorted, q);
    SurvivingStrict(sorted, q);
    StableSortSorted(ByRow(), rows);
    SortedIsUnique(ByRow(), StableSort(ByRow(), rows), AllSurviving(sorted, q));
    GroupAssembles(sorted, q);
  }

  // ---------------------------------------------------------------- exactly when the two forms agree

  /**
   Nulls do no harm in this document. Without excluded texts, the all-null row of an empty list or
   of a null element must fall outside the selected bins; with excluded texts, which drop every
   row without a text, so must every match without a text.
   */
  predicate NullSafe<B>(d: Doc<B>, q: Query)
    requires ValidQuery(q)
  {
    if q.excluded == {} then
      InBins(NULL_MATCH, d.text, q.bins) ==> d.matches != [] && None !in d.matches
    else
      forall m | m in d.matches :: m.Some? && m.value.matched.None? ==> !InBins(m.value, d.text, q.bins)
  }

  /** The surviving elements of a list of matches, with null elements spelled out. */
  function Kept(ms: seq<Option<Match>>, text: Option<string>, q: Query): seq<Option<Match>>
    requires ValidQuery(q)
  {
    if ms == [] then []
    else (if Survives(Columns(ms[0]), text, q) then [Some(Columns(ms[0]))] else []) + Kept(ms[1..], text, q)
  }

  function RowsFrom<B>(d: Doc<B>, ms: seq<Option<Match>>, n: nat): seq<Row<B>> {
    seq(|ms|, i requires 0 <= i < |ms| => Row(d.rowId, Some(n + i), d.text, d.base, Columns(ms[i])))
  }

  lemma {:induction false} RowsKept<B(!new)>(d: Doc<B>, ms: seq<Option<Match>>, n: nat, q: Query)
    requires ValidQuery(q)
    ensures MatchesOf(Filter(RowsFrom(d, ms, n), RowSurvives(q))) == Kept(ms, d.text, q)
    decreases |ms|
  {
    if ms != [] {
      RowsKept(d, ms[1..], n + 1, q);
      assert RowsFrom(d, ms, n)[1..] == RowsFrom(d, ms[1..], n + 1);
    }
  }

  /** One test is never stricter than the other, so equal results mean equal decisions. */
  lemma {:induction false} KeptAgrees(ms: seq<Option<Match>>, text: Option<string>, q: Query)
    requires ValidQuery(q)
    ensures q.excluded == {} ==> |Kept(ms, text, q)| >= |Filter(ms, PassesIn(text, q))|
    ensures q.excluded != {} ==> |Kept(ms, text, q)| <= |Filter(ms, PassesIn(text, q))|
    ensures Kept(ms, text, q) == Filter(ms, PassesIn(text, q))
            <==> forall m :: m in ms ==> Survives(Columns(m), text, q) == Passes(m, text, q)
  {
    if ms != [] {
      KeptAgrees(ms[1..], text, q);
      var kept, passing := Kept(ms[1..], text, q), Filter(ms[1..], PassesIn(text, q));
      if Survives(Columns(ms[0]), text, q) && Passes(ms[0], text, q) {
        assert Kept(ms, text, q)[1..] == kept && Filter(ms, PassesIn(text, q))[1..] == passing;
      }
    }
  }

  lemma DocumentAgrees<B(!new)>(d: Doc<B>, q: Query)
    requires ValidQuery(q)
    ensures Surviving(q)(d) == Passing(q)(d) <==> NullSafe(d, q)
  {
    if d.matches != [] {
      assert ExplodeDoc(d) == RowsFrom(d, d.matches, 0);
      RowsKept(d, d.matches, 0, q);
      KeptAgrees(d.matches, d.text, q);
      hide Filter, Kept, InBins;
      assert NullSafe(d, q) <==> forall m :: m in d.matches ==>
                                   Survives(Columns(m), d.text, q) == Passes(m, d.text, q);
    }
  }

  lemma {:induction false} AssembleAbove<B(!new)>(docs: seq<Doc<B>>, kept: Doc<B> -> seq<Option<Match>>, floor: int)
    requires forall d :: d in docs ==> d.rowId > floor
    ensures forall d :: d in Assemble(docs, kept) ==> d.rowId > floor
  {
    if docs != [] {
      AssembleAbove(docs[1..], kept, floor);
    }
  }

  lemma AssembleFirst<B(!new)>(docs: seq<Doc<B>>, f: Doc<B> -> seq<Option<Match>>, g: Doc<B> -> seq<Option<Match>>)
    requires Ascending(docs) && docs != [] && Assemble(docs, f) == Assemble(docs, g)
    ensures f(docs[0]) == g(docs[0]) && Assemble(docs[1..], f) == Assemble(docs[1..], g)
  {
    var d, rest := docs[0], docs[1..];
    AssembleAbove(rest, f, d.rowId);
    AssembleAbove(rest, g, d.rowId);
    var a, b := Assemble(docs, f), Assemble(docs, g);
    assert f(d) != [] ==> a == [d.(matches := f(d))] + Assemble(rest, f) && a[0] in a && a[1..] == Assemble(rest, f);
    assert g(d) != [] ==> b == [d.(matches := g(d))] + Assemble(rest, g) && b[0] in b && b[1..] == Assemble(rest, g);
    assert f(d) == [] ==> a == Assemble(rest, f);
    assert g(d) == [] ==> b == Assemble(rest, g);
  }

  lemma {:induction false} AssembleInjective<B(!new)>(
      docs: seq<Doc<B>>, f: Doc<B> -> seq<Option<Match>>, g: Doc<B> -> seq<Option<Match>>)
    requires Ascending(docs)
    ensures Assemble(docs, f) == Assemble(docs, g) <==> forall d :: d in docs ==> f(d) == g(d)
  {
    if docs != [] {
      AssembleInjective(docs[1..], f, g);
      if Assemble(docs, f) == Assemble(docs, g) {
        AssembleFirst(docs, f, g);
      }
    }
  }

  /**
   Query refinement. With unique source rows, exploding, filtering, sorting and regrouping gives
   the documents by source row with exactly their passing matches in order, empty documents
   dropped and other columns unchanged, if and only if nulls do no harm in any document.
   */
  lemma FilterIsSimple<B(!new)>(docs: seq<Doc<B>>, q: Query)
    requires ValidQuery(q) && UniqueRows(docs)
    ensures FilterDocuments(docs, q) == SimpleFilter(docs, q)
            <==> forall d :: d in docs ==> NullSafe(d, q)
  {
    var sorted := StableSort(ByRowId(), docs);
    PipelineAssembles(docs, q);
    SortedDocs(docs);
    AssembleInjective(sorted, Surviving(q), Passing(q));
    forall d ensures d in docs <==> d in sorted {
      assert d in multiset(docs) <==> d in multiset(sorted);
    }
    forall d | d in docs ensures Surviving(q)(d) == Passing(q)(d) <==> NullSafe(d, q) {
      DocumentAgrees(d, q);
    }
  }

  /** A document as a Concordance run writes it: at least one match, and no null elements or texts. */
  predicate WithoutNulls<B>(d: Doc<B>) {
    d.matches != [] && forall m | m in d.matches :: m.Some? && m.value.matched.Some?
  }

  /** The documents that a Concordance run writes always filter simply. */
  lemma ResultsFilterSimply<B(!new)>(docs: seq<Doc<B>>, q: Query)
    requires ValidQuery(q) && UniqueRows(docs) && forall d :: d in docs ==> WithoutNulls(d)
    ensures FilterDocuments(docs, q) == SimpleFilter(docs, q)
  {
    FilterIsSimple(docs, q);
    hide InBins, FilterDocuments, SimpleFilter;
  }

  lemma {:induction false} AssembleAll<B(!new)>(docs: seq<Doc<B>>, kept: Doc<B> -> seq<Option<Match>>)
    requires forall d :: d in docs ==> d.matches != [] && kept(d) == d.matches
    ensures Assemble(docs, kept) == docs
  {
    if docs != [] {
      AssembleAll(docs[1..], kept);
      assert docs[0].(matches := kept(docs[0])) == docs[0];
    }
  }

  /** Without excluded texts and without selected bins everything that a run wrote comes back, by source row. */
  lemma NoFilterKeepsAll<B(!new)>(docs: seq<Doc<B>>)
    requires UniqueRows(docs) && forall d :: d in docs ==> WithoutNulls(d)
    ensures FilterDocuments(docs, Query({}, None)) == StableSort(ByRowId(), docs)
  {
    var q, sorted := Query({}, None), StableSort(ByRowId(), docs);
    ResultsFilterSimply(docs, q);
    forall d | d in sorted ensures d.matches != [] && Passing(q)(d) == d.matches {
      assert d in multiset(sorted);
      assert WithoutNulls(d);
      FilterAll(d.matches, PassesIn(d.text, q));
    }
    AssembleAll(sorted, Passing(q));
  }

  /** A document without matches comes back with one all-null match when nothing is filtered. */
  lemma EmptyDocumentGrowsNullMatch()
    ensures var docs := [Doc(0, Some("text"), 0, [])];
            && FilterDocuments(docs, Query({}, None)) == [Doc(0, Some("text"), 0, [Some(NULL_MATCH)])]
            && SimpleFilter(docs, Query({}, None)) == []
  {
    var d := Doc(0, Some("text"), 0, []);
    var q := Query({}, None);
    assert StableSort(ByRowId(), [d]) == [d] by {
      assert multiset(StableSort(ByRowId(), [d])) == multiset{d};
    }
    PipelineAssembles([d], q);
    assert ExplodeDoc(d) == [Row(0, None, Some("text"), 0, NULL_MATCH)];
    assert SurvivingRows(d, q) == ExplodeDoc(d);
    assert Surviving(q)(d) == [Some(NULL_MATCH)];
    assert Passing(q)(d) == [];
  }
}
