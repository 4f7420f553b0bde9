/** The 100-bin density histogram of a Concordance Result, and its agreement with the document filter. */
module ConcordanceDensity {
  import opened Arithmetic
  import opened Common
  import opened StableSorting
  import opened Concordance

  type Test = (Option<string>, Match) -> bool

  /** The label of a match in the histogram; a null text counts under the empty label. */
  function LabelOf(m: Match): string {
    if m.matched.Some? then m.matched.value else ""
  }

  function Anything(): Test {
    (text: Option<string>, m: Match) => true
  }

  function Labelled(name: string): Test {
    (text: Option<string>, m: Match) => LabelOf(m) == name
  }

  function LabelAmong(names: seq<string>): Test {
    (text: Option<string>, m: Match) => LabelOf(m) in names
  }

  /** name's matches that fall into one of count bins. */
  function InBin(name: string, count: nat, bin: int): Test
    requires count > 0
  {
    (text: Option<string>, m: Match) => LabelOf(m) == name && BinOf(m, text, count) == bin
  }

  /** name's matches whose fine bin lies in [low, high). */
  function InRange(name: string, low: int, high: int): Test {
    (text: Option<string>, m: Match) => LabelOf(m) == name && low <= BinOf(m, text, 100) < high
  }

  /** How many non-null matches of one list pass a test. */
  function CountIn(ms: seq<Option<Match>>, text: Option<string>, p: Test): nat {
    if ms == [] then 0
    else
      var last := ms[|ms| - 1];
      CountIn(ms[..|ms| - 1], text, p) + if last.Some? && p(text, last.value) then 1 else 0
  }

  function Count<B>(docs: seq<Doc<B>>, p: Test): nat {
    if docs == [] then 0
    else
      var last := docs[|docs| - 1];
      Count(docs[..|docs| - 1], p) + CountIn(last.matches, last.text, p)
  }

  // ---------------------------------------------------------------- counting

  lemma {:induction false} CountInAdds(ms: seq<Option<Match>>, text: Option<string>, p: Test, a: Test, b: Test)
    requires forall m :: p(text, m) <==> a(text, m) || b(text, m)
    requires forall m :: !(a(text, m) && b(text, m))
    ensures CountIn(ms, text, p) == CountIn(ms, text, a) + CountIn(ms, text, b)
  {
    if ms != [] {
      CountInAdds(ms[..|ms| - 1], text, p, a, b);
    }
  }

  /** Counts of disjoint tests add up. */
  lemma {:induction false} CountAdds<B(!new)>(docs: seq<Doc<B>>, p: Test, a: Test, b: Test)
    requires forall text, m :: p(text, m) <==> a(text, m) || b(text, m)
    requires forall text, m :: !(a(text, m) && b(text, m))
    ensures Count(docs, p) == Count(docs, a) + Count(docs, b)
  {
    if docs != [] {
      var last := docs[|docs| - 1];
      CountInAdds(last.matches, last.text, p, a, b);
      CountAdds(docs[..|docs| - 1], p, a, b);
    }
  }

  lemma {:induction false} CountInNone(ms: seq<Option<Match>>, text: Option<string>, p: Test)
    requires forall m :: !p(text, m)
    ensures CountIn(ms, text, p) == 0
  {
    if ms != [] {
      CountInNone(ms[..|ms| - 1], text, p);
    }
  }

  lemma {:induction false} CountNone<B(!new)>(docs: seq<Doc<B>>, p: Test)
    requires forall text, m :: !p(text, m)
    ensures Count(docs, p) == 0
  {
    if docs != [] {
      CountInNone(docs[|docs| - 1].matches, docs[|docs| - 1].text, p);
      CountNone(docs[..|docs| - 1], p);
    }
  }

  /** Sum of the histogram cells low..high of one label. */
  function SumCells<B>(docs: seq<Doc<B>>, name: string, low: nat, high: nat): nat
    requires low <= high
    decreases high - low
  {
    if low == high then 0 else SumCells(docs, name, low, high - 1) + Count(docs, InBin(name, 100, high - 1))
  }

  lemma {:induction false} CellsCountRange<B(!new)>(docs: seq<Doc<B>>, name: string, low: nat, high: nat)
    requires low <= high
    ensures SumCells(docs, name, low, high) == Count(docs, InRange(name, low, high))
    decreases high - low
  {
    if low == high {
      CountNone(docs, InRange(name, low, high));
    } else {
      CellsCountRange(docs, name, low, high - 1);
      CountAdds(docs, InRange(name, low, high), InRange(name, low, high - 1), InBin(name, 100, high - 1));
    }
  }

  lemma {:induction false} CountSame<B(!new)>(docs: seq<Doc<B>>, p: Test, r: Test)
    requires forall text, m :: p(text, m) == r(text, m)
    ensures Count(docs, p) == Count(docs, r)
  {
    var never: Test := (text: Option<string>, m: Match) => false;
    CountAdds(docs, p, r, never);
    CountNone(docs, never);
  }

  // ---------------------------------------------------------------- bins at two resolutions

  /** Refining the unit by width and rounding twice loses nothing. */
  lemma DivideTwice(a: int, length: int, width: int)
    requires length > 0 && width > 0
    ensures a * width / length / width == a / length
  {
    var x := a * width / length;
    var y := x / width;
    Quotient(a * width, length, x);
    Quotient(x, width, y);
    Bounds(a, length, width, x, y);
    Quotient(a, length, y);
  }

  lemma Swap(y: int, width: int, length: int)
    ensures y * width * length == y * length * width
  {
  }

  lemma OneMore(y: int, d: int)
    ensures (y + 1) * d == y * d + d
  {
  }

  lemma Bounds(a: int, length: int, width: int, x: int, y: int)
    requires length > 0 && width > 0
    requires x * length <= a * width < x * length + length
    requires y * width <= x < y * width + width
    ensures y * length <= a < y * length + length
  {
    assert y * length * width <= a * width by {
      Scaled(y * width, x, length);
      Swap(y, width, length);
    }
    assert a * width < (y + 1) * length * width by {
      Scaled(x + 1, (y + 1) * width, length);
      OneMore(y, width);
      OneMore(x, length);
      Swap(y + 1, width, length);
    }
    Scaled(a, y * length, width);
    Scaled((y + 1) * length, a, width);
    OneMore(y, length);
  }

  /** A coarse bin is a block of fine bins, the clipped first and last ones included. */
  lemma CoarseBin(m: Match, text: Option<string>, count: nat, width: nat)
    requires count > 0 && count * width == 100
    ensures BinOf(m, text, count) == BinOf(m, text, 100) / width
  {
    var s, length := StartOf(m), LengthOf(text);
    assert s * 100 == s * count * width by {
      assert s * count * width == s * (count * width);
    }
    DivideTwice(s * count, length, width);
    CoarseClip(s * 100 / length, s * count / length, count, width);
  }

  lemma CoarseClip(fine: int, coarse: int, count: nat, width: nat)
    requires count > 0 && width > 0 && count * width == 100
    requires coarse == fine / width
    ensures Clip(coarse, count - 1) == Clip(fine, 99) / width
  {
    Quotient(fine, width, coarse);
    assert (count - 1) * width == 100 - width;
    assert 0 * width == 0;
    Scaled(coarse, 0, width);
    Scaled(0, coarse, width);
    Scaled(coarse, count, width);
    Scaled(count, coarse, width);
    Scaled(coarse + 1, 0, width);
    Quotient(99, width, count - 1);
    Quotient(0, width, 0);
    assert coarse >= 0 <==> fine >= 0;
    assert coarse >= count <==> fine >= 100;
  }

  lemma InBlock(fine: nat, width: nat, bin: nat)
    requires width > 0
    ensures fine / width == bin <==> bin * width <= fine < (bin + 1) * width
  {
    Quotient(fine, width, bin);
    assert (bin + 1) * width == bin * width + width;
  }

  /** Adding up a block of fine cells gives the count of the coarse bin. */
  lemma BlockIsCoarseBin<B(!new)>(docs: seq<Doc<B>>, name: string, count: nat, width: nat, bin: nat)
    requires count > 0 && count * width == 100 && bin < count
    ensures bin * width <= (bin + 1) * width <= 100
    ensures Count(docs, InBin(name, count, bin)) == SumCells(docs, name, bin * width, (bin + 1) * width)
  {
    assert (bin + 1) * width <= count * width;
    CellsCountRange(docs, name, bin * width, (bin + 1) * width);
    forall text, m
      ensures InBin(name, count, bin)(text, m) == InRange(name, bin * width, (bin + 1) * width)(text, m)
    {
      CoarseBin(m, text, count, width);
      InBlock(BinOf(m, text, 100), width, bin);
    }
    CountSame(docs, InBin(name, count, bin), InRange(name, bin * width, (bin + 1) * width));
  }

  // ---------------------------------------------------------------- building the histogram

  /** The counts so far: all of docs, and the first matches of one more document. */
  ghost predicate Tallied<B(!new)>(
      series: map<string, seq<nat>>, docs: seq<Doc<B>>, ms: seq<Option<Match>>, text: Option<string>)
  {
    forall name :: LabelTallied(series, docs, ms, text, name)
  }

  /** A label is listed if it occurs, and then every one of its 100 cells counts its matches. */
  ghost predicate LabelTallied<B>(
      series: map<string, seq<nat>>, docs: seq<Doc<B>>, ms: seq<Option<Match>>, text: Option<string>, name: string)
  {
    && (name in series <==> Count(docs, Labelled(name)) + CountIn(ms, text, Labelled(name)) > 0)
    && (name in series ==>
          && |series[name]| == 100
          && forall bin :: 0 <= bin < 100 ==>
               series[name][bin] == Count(docs, InBin(name, 100, bin)) + CountIn(ms, text, InBin(name, 100, bin)))
  }

  lemma CountInLast(ms: seq<Option<Match>>, text: Option<string>, p: Test, m: Option<Match>)
    ensures CountIn(ms + [m], text, p) == CountIn(ms, text, p) + if m.Some? && p(text, m.value) then 1 else 0
  {
    assert (ms + [m])[..|ms|] == ms;
  }

  lemma CountLast<B>(docs: seq<Doc<B>>, d: Doc<B>, p: Test)
    ensures Count(docs + [d], p) == Count(docs, p) + CountIn(d.matches, d.text, p)
  {
    assert (docs + [d])[..|docs|] == docs;
  }

  lemma {:induction false} CountInSmaller(ms: seq<Option<Match>>, text: Option<string>, a: Test, b: Test)
    requires forall m :: a(text, m) ==> b(text, m)
    ensures CountIn(ms, text, a) <= CountIn(ms, text, b)
  {
    if ms != [] {
      CountInSmaller(ms[..|ms| - 1], text, a, b);
    }
  }

  lemma {:induction false} CountSmaller<B(!new)>(docs: seq<Doc<B>>, a: Test, b: Test)
    requires forall text, m :: a(text, m) ==> b(text, m)
    ensures Count(docs, a) <= Count(docs, b)
  {
    if docs != [] {
      CountInSmaller(docs[|docs| - 1].matches, docs[|docs| - 1].text, a, b);
      CountSmaller(docs[..|docs| - 1], a, b);
    }
  }

  function Increment(series: map<string, seq<nat>>, name: string, bin: nat): map<string, seq<nat>>
    requires name in series ==> bin < |series[name]|
    requires bin < 100
  {
    var counts := if name in series then series[name] else seq(100, i => 0);
    series[name := counts[bin := counts[bin] + 1]]
  }

  /** What one more match does to a single label, and to a single cell of it. */
  lemma CellCounts<B(!new)>(
      docs: seq<Doc<B>>, ms: seq<Option<Match>>, text: Option<string>, m: Match, name: string, bin: nat)
    ensures CountIn(ms + [Some(m)], text, InBin(name, 100, bin))
            == CountIn(ms, text, InBin(name, 100, bin))
               + if LabelOf(m) == name && BinOf(m, text, 100) == bin then 1 else 0
    ensures Count(docs, InBin(name, 100, bin)) + CountIn(ms, text, InBin(name, 100, bin))
            <= Count(docs, Labelled(name)) + CountIn(ms, text, Labelled(name))
  {
    CountInLast(ms, text, InBin(name, 100, bin), Some(m));
    CountSmaller(docs, InBin(name, 100, bin), Labelled(name));
    CountInSmaller(ms, text, InBin(name, 100, bin), Labelled(name));
  }

  lemma TallyMatch<B(!new)>(
      series: map<string, seq<nat>>, docs: seq<Doc<B>>, ms: seq<Option<Match>>, text: Option<string>, m: Match)
    requires Tallied(series, docs, ms, text)
    ensures LabelOf(m) in series ==> |series[LabelOf(m)]| == 100
    ensures Tallied(Increment(series, LabelOf(m), BinOf(m, text, 100)), docs, ms + [Some(m)], text)
  {
    assert LabelTallied(series, docs, ms, text, LabelOf(m));
    var more := Increment(series, LabelOf(m), BinOf(m, text, 100));
    forall name ensures LabelTallied(more, docs, ms + [Some(m)], text, name) {
      hide Count, CountIn, BinOf, InBin, LabelOf;
      assert LabelTallied(series, docs, ms, text, name);
      CountLabelLast(ms, text, m, name);
      forall bin: nat | bin < 100
        ensures name in more ==>
                  more[name][bin] == Count(docs, InBin(name, 100, bin)) + CountIn(ms + [Some(m)], text, InBin(name, 100, bin))
      {
        CellCounts(docs, ms, text, m, name, bin);
      }
    }
  }

  lemma CountLabelLast(ms: seq<Option<Match>>, text: Option<string>, m: Match, name: string)
    ensures CountIn(ms + [Some(m)], text, Labelled(name))
            == CountIn(ms, text, Labelled(name)) + if LabelOf(m) == name then 1 else 0
  {
    CountInLast(ms, text, Labelled(name), Some(m));
  }

  lemma TallyNull<B(!new)>(
      series: map<string, seq<nat>>, docs: seq<Doc<B>>, ms: seq<Option<Match>>, text: Option<string>)
    requires Tallied(series, docs, ms, text)
    ensures Tallied(series, docs, ms + [None], text)
  {
    forall name ensures LabelTallied(series, docs, ms + [None], text, name) {
      assert LabelTallied(series, docs, ms, text, name);
      CountInLast(ms, text, Labelled(name), None);
      forall bin | 0 <= bin < 100
        ensures CountIn(ms + [None], text, InBin(name, 100, bin)) == CountIn(ms, text, InBin(name, 100, bin))
      {
        CountInLast(ms, text, InBin(name, 100, bin), None);
      }
    }
  }

  lemma TallyDocument<B(!new)>(series: map<string, seq<nat>>, docs: seq<Doc<B>>, d: Doc<B>)
    requires Tallied(series, docs, d.matches, d.text)
    ensures Tallied(series, docs + [d], [], None)
  {
    forall name ensures LabelTallied(series, docs + [d], [], None, name) {
      assert LabelTallied(series, docs, d.matches, d.text, name);
      CountLast(docs, d, Labelled(name));
      forall bin | 0 <= bin < 100
        ensures Count(docs + [d], InBin(name, 100, bin))
                == Count(docs, InBin(name, 100, bin)) + CountIn(d.matches, d.text, InBin(name, 100, bin))
      {
        CountLast(docs, d, InBin(name, 100, bin));
      }
    }
  }

  /** The document bound of an exact histogram. */
  ghost predicate IsDensity<B(!new)>(docs: seq<Doc<B>>, series: map<string, seq<nat>>) {
    forall name ::
      && (name in series <==> Count(docs, Labelled(name)) > 0)
      && (name in series ==>
            && |series[name]| == 100
            && forall bin :: 0 <= bin < 100 ==> series[name][bin] == Count(docs, InBin(name, 100, bin)))
  }

  method ConcordanceDensity<B(!new)>(docs: seq<Doc<B>>)
    returns (documentCount: nat, matchCount: nat, series: map<string, seq<nat>>)
    ensures documentCount == |docs|
    ensures matchCount == Count(docs, Anything())
    ensures IsDensity(docs, series)
  {
    hide Count, CountIn, Tallied, LabelTallied;
    documentCount, matchCount, series := |docs|, 0, map[];
    NothingTallied<B>();
    var i := 0;
    while i < |docs|
      invariant 0 <= i <= |docs|
      invariant matchCount == Count(docs[..i], Anything())
      invariant Tallied(series, docs[..i], [], None)
    {
      var d := docs[i];
      var j := 0;
      TallyStart(series, docs[..i], d.text);
      while j < |d.matches|
        invariant 0 <= j <= |d.matches|
        invariant matchCount == Count(docs[..i], Anything()) + CountIn(d.matches[..j], d.text, Anything())
        invariant Tallied(series, docs[..i], d.matches[..j], d.text)
      {
        var m := d.matches[j];
        CountInLast(d.matches[..j], d.text, Anything(), m);
        assert d.matches[..j] + [m] == d.matches[..j + 1];
        if m.Some? {
          TallyMatch(series, docs[..i], d.matches[..j], d.text, m.value);
          series := Increment(series, LabelOf(m.value), BinOf(m.value, d.text, 100));
          matchCount := matchCount + 1;
        } else {
          TallyNull(series, docs[..i], d.matches[..j], d.text);
        }
        j := j + 1;
      }
      assert d.matches[..j] == d.matches;
      CountLast(docs[..i], d, Anything());
      TallyDocument(series, docs[..i], d);
      assert docs[..i] + [d] == docs[..i + 1];
      i := i + 1;
    }
    assert docs[..i] == docs;
    TallyDone(docs, series);
  }

  lemma NothingTallied<B(!new)>()
    ensures Count<B>([], Anything()) == 0
    ensures Tallied<B>(map[], [], [], None)
  {
  }

  lemma TallyStart<B(!new)>(series: map<string, seq<nat>>, docs: seq<Doc<B>>, text: Option<string>)
    requires Tallied(series, docs, [], None)
    ensures Tallied(series, docs, [], text) && CountIn([], text, Anything()) == 0
  {
    forall name ensures LabelTallied(series, docs, [], text, name) {
      assert LabelTallied(series, docs, [], None, name);
    }
  }

  lemma TallyDone<B(!new)>(docs: seq<Doc<B>>, series: map<string, seq<nat>>)
    requires Tallied(series, docs, [], None)
    ensures IsDensity(docs, series)
  {
    forall name
      ensures name in series <==> Count(docs, Labelled(name)) > 0
      ensures name in series ==>
                && |series[name]| == 100
                && forall bin :: 0 <= bin < 100 ==> series[name][bin] == Count(docs, InBin(name, 100, bin))
    {
      assert LabelTallied(series, docs, [], None, name);
    }
  }

  // ---------------------------------------------------------------- all cells together

  function NotAmong(names: seq<string>): Test {
    (text: Option<string>, m: Match) => LabelOf(m) !in names
  }

  /** All cells of the given labels. */
  function SumAll<B>(docs: seq<Doc<B>>, names: seq<string>): nat {
    if names == [] then 0 else SumCells(docs, names[0], 0, 100) + SumAll(docs, names[1..])
  }

  lemma {:induction false} AllCellsCountLabels<B(!new)>(docs: seq<Doc<B>>, names: seq<string>)
    requires NoDup(names)
    ensures SumAll(docs, names) == Count(docs, LabelAmong(names))
  {
    if names == [] {
      CountNone(docs, LabelAmong(names));
    } else {
      AllCellsCountLabels(docs, names[1..]);
      CellsCountRange(docs, names[0], 0, 100);
      CountAdds(docs, LabelAmong(names), InRange(names[0], 0, 100), LabelAmong(names[1..]));
    }
  }

  lemma {:induction false} NoOtherIn(ms: seq<Option<Match>>, text: Option<string>, names: seq<string>)
    requires forall name :: name !in names ==> CountIn(ms, text, Labelled(name)) == 0
    ensures CountIn(ms, text, NotAmong(names)) == 0
  {
    if ms != [] {
      var rest, last := ms[..|ms| - 1], ms[|ms| - 1];
      forall name | name !in names
        ensures CountIn(rest, text, Labelled(name)) == 0
        ensures last.Some? ==> LabelOf(last.value) != name
      {
        assert CountIn(ms, text, Labelled(name)) == 0;
      }
      NoOtherIn(rest, text, names);
    }
  }

  lemma {:induction false} NoOther<B(!new)>(docs: seq<Doc<B>>, names: seq<string>)
    requires forall name :: name !in names ==> Count(docs, Labelled(name)) == 0
    ensures Count(docs, NotAmong(names)) == 0
  {
    if docs != [] {
      var rest, last := docs[..|docs| - 1], docs[|docs| - 1];
      forall name | name !in names
        ensures Count(rest, Labelled(name)) == 0 && CountIn(last.matches, last.text, Labelled(name)) == 0
      {
        assert Count(docs, Labelled(name)) == 0;
      }
      NoOtherIn(last.matches, last.text, names);
      NoOther(rest, names);
    }
  }

  /** The cells of all listed labels add up to the number of non-null matches. */
  lemma CellsSumToMatchCount<B(!new)>(docs: seq<Doc<B>>, series: map<string, seq<nat>>, names: seq<string>)
    requires IsDensity(docs, series)
    requires NoDup(names) && forall name :: name in names <==> name in series
    ensures SumAll(docs, names) == Count(docs, Anything())
  {
    AllCellsCountLabels(docs, names);
    NoOther(docs, names);
    CountAdds(docs, Anything(), LabelAmong(names), NotAmong(names));
  }

  // ---------------------------------------------------------------- the histogram and the filter

  lemma {:induction false} CountInConcat(a: seq<Option<Match>>, b: seq<Option<Match>>, text: Option<string>, p: Test)
    ensures CountIn(a + b, text, p) == CountIn(a, text, p) + CountIn(b, text, p)
  {
    if b == [] {
      assert a + b == a;
    } else {
      var front, last := b[..|b| - 1], b[|b| - 1];
      CountInConcat(a, front, text, p);
      assert a + b == (a + front) + [last] && b == front + [last];
      CountInLast(a + front, text, p, last);
      CountInLast(front, text, p, last);
    }
  }

  lemma {:induction false} CountConcat<B>(a: seq<Doc<B>>, b: seq<Doc<B>>, p: Test)
    ensures Count(a + b, p) == Count(a, p) + Count(b, p)
  {
    if b == [] {
      assert a + b == a;
    } else {
      var front, last := b[..|b| - 1], b[|b| - 1];
      CountConcat(a, front, p);
      assert a + b == (a + front) + [last] && b == front + [last];
      CountLast(a + front, last, p);
      CountLast(front, last, p);
    }
  }

  lemma CountSplit<B>(before: seq<Doc<B>>, d: Doc<B>, after: seq<Doc<B>>, p: Test)
    ensures Count(before + ([d] + after), p) == CountIn(d.matches, d.text, p) + Count(before + after, p)
  {
    CountConcat(before, [d] + after, p);
    CountConcat([d], after, p);
    CountConcat(before, after, p);
    CountLast([], d, p);
    assert [] + [d] == [d];
  }

  lemma {:induction false} CountPermuted<B(!new)>(a: seq<Doc<B>>, b: seq<Doc<B>>, p: Test)
    requires multiset(a) == multiset(b)
    ensures Count(a, p) == Count(b, p)
    decreases |a|
  {
    hide Count, CountIn;
    if a == [] {
      SameLength(a, b);
    } else {
      var before, after := FirstInRearranged(a, b);
      CountPermuted(a[1..], before + after, p);
      assert a == [] + ([a[0]] + a[1..]) && [] + a[1..] == a[1..];
      CountSplit([], a[0], a[1..], p);
      CountSplit(before, a[0], after, p);
    }
  }

  /** Whether the filter keeps the matches of one label in one bin. */
  predicate Selected(q: Query, name: string, bin: nat) {
    name !in q.excluded && q.bins.Some? && bin in q.bins.value.selected
  }

  /** The all-null rows that exploding makes of null elements and of empty lists. */
  function NullElements(ms: seq<Option<Match>>): nat {
    if ms == [] then 0 else (if ms[0].None? then 1 else 0) + NullElements(ms[1..])
  }

  function NullRowsOf<B>(d: Doc<B>): nat {
    if d.matches == [] then 1 else NullElements(d.matches)
  }

  function NullRows<B>(docs: seq<Doc<B>>): nat {
    if docs == [] then 0 else NullRowsOf(docs[0]) + NullRows(docs[1..])
  }

  /** Without excluded texts null rows survive; they count as the empty label, in the first bin. */
  predicate NullsSurvive(q: Query, name: string, bin: nat) {
    q.excluded == {} && name == "" && bin == 0
  }

  /** With excluded texts the matches without a text, which have the empty label, are dropped. */
  function Textless(q: Query, name: string, count: nat, bin: nat): Test
    requires count > 0
  {
    (text: Option<string>, m: Match) =>
      q.excluded != {} && m.matched.None? && LabelOf(m) == name && BinOf(m, text, count) == bin
  }

  /** What the filter leaves of a selected block: null rows are added, matches without a text are lost. */
  function Corrected(q: Query, name: string, bin: nat, block: int, nulls: nat, textless: nat): int {
    if !Selected(q, name, bin) then 0
    else block + (if NullsSurvive(q, name, bin) then nulls else 0) - textless
  }

  lemma CorrectedAdds(q: Query, name: string, bin: nat, a: (int, nat, nat), b: (int, nat, nat))
    ensures Corrected(q, name, bin, a.0 + b.0, a.1 + b.1, a.2 + b.2)
            == Corrected(q, name, bin, a.0, a.1, a.2) + Corrected(q, name, bin, b.0, b.1, b.2)
  {
  }

  /** The filter's decision on one element, seen through the counts. */
  lemma ElementCounts(m: Option<Match>, text: Option<string>, q: Query, name: string, bin: nat)
    requires ValidQuery(q) && q.bins.Some?
    ensures var p, t := InBin(name, q.bins.value.count, bin), Textless(q, name, q.bins.value.count, bin);
            var mine := if Survives(Columns(m), text, q) then [Some(Columns(m))] else [];
            CountIn(mine, text, p)
            == Corrected(q, name, bin, CountIn([m], text, p), NullElements([m]), CountIn([m], text, t))
  {
    var p, t := InBin(name, q.bins.value.count, bin), Textless(q, name, q.bins.value.count, bin);
    NullBin(text, q.bins.value.count);
    hide BinOf, CountIn;
    CountOne(m, text, p);
    CountOne(m, text, t);
    CountOne(Some(Columns(m)), text, p);
    assert CountIn([], text, p) == 0 by {
      NothingCounts(text, q, name, bin);
    }
  }

  lemma CountOne(m: Option<Match>, text: Option<string>, p: Test)
    ensures CountIn([m], text, p) == if m.Some? && p(text, m.value) then 1 else 0
  {
    CountInLast([], text, p, m);
    assert [] + [m] == [m];
  }

  lemma NullBin(text: Option<string>, count: nat)
    requires count > 0
    ensures BinOf(NULL_MATCH, text, count) == 0
  {
    assert 0 * count / LengthOf(text) == 0;
  }

  lemma NothingCounts(text: Option<string>, q: Query, name: string, bin: nat)
    requires q.bins.Some? && q.bins.value.count > 0
    ensures var p, t := InBin(name, q.bins.value.count, bin), Textless(q, name, q.bins.value.count, bin);
            CountIn([], text, p) == Corrected(q, name, bin, CountIn([], text, p), 0, CountIn([], text, t)) == 0
  {
  }

  lemma {:induction false} KeptCounts(ms: seq<Option<Match>>, text: Option<string>, q: Query, name: string, bin: nat)
    requires ValidQuery(q) && q.bins.Some?
    ensures var p, t := InBin(name, q.bins.value.count, bin), Textless(q, name, q.bins.value.count, bin);
            CountIn(Kept(ms, text, q), text, p)
            == Corrected(q, name, bin, CountIn(ms, text, p), NullElements(ms), CountIn(ms, text, t))
  {
    hide CountIn, Survives, InBin, Textless, Corrected, Columns;
    var p, t := InBin(name, q.bins.value.count, bin), Textless(q, name, q.bins.value.count, bin);
    if ms == [] {
      NothingCounts(text, q, name, bin);
    } else {
      var first, rest := [ms[0]], ms[1..];
      KeptCounts(rest, text, q, name, bin);
      ElementCounts(ms[0], text, q, name, bin);
      assert ms == first + rest && NullElements(ms) == NullElements(first) + NullElements(rest);
      CountInConcat(first, rest, text, p);
      CountInConcat(first, rest, text, t);
      var mine := if Survives(Columns(ms[0]), text, q) then [Some(Columns(ms[0]))] else [];
      CountInConcat(mine, Kept(rest, text, q), text, p);
      hide NullElements, Kept;
      CorrectedAdds(q, name, bin, (CountIn(first, text, p), NullElements(first), CountIn(first, text, t)),
                    (CountIn(rest, text, p), NullElements(rest), CountIn(rest, text, t)));
    }
  }

  /** In each document the filter keeps all of a label's matches in a selected bin, up to nulls, and no others. */
  lemma SurvivingCounts<B(!new)>(d: Doc<B>, q: Query, name: string, bin: nat)
    requires ValidQuery(q) && q.bins.Some?
    ensures var p, t := InBin(name, q.bins.value.count, bin), Textless(q, name, q.bins.value.count, bin);
            CountIn(Surviving(q)(d), d.text, p)
            == Corrected(q, name, bin, CountIn(d.matches, d.text, p), NullRowsOf(d), CountIn(d.matches, d.text, t))
  {
    if d.matches == [] {
      var blank: Option<Match> := None;
      ElementCounts(blank, d.text, q, name, bin);
      CountOne(blank, d.text, InBin(name, q.bins.value.count, bin));
      CountOne(blank, d.text, Textless(q, name, q.bins.value.count, bin));
    } else {
      assert ExplodeDoc(d) == RowsFrom(d, d.matches, 0);
      RowsKept(d, d.matches, 0, q);
      KeptCounts(d.matches, d.text, q, name, bin);
    }
  }

  /** The first document's share of the counts. */
  lemma AssembleFrontCounts<B(!new)>(docs: seq<Doc<B>>, kept: Doc<B> -> seq<Option<Match>>, p: Test)
    requires docs != []
    ensures Count(docs, p) == CountIn(docs[0].matches, docs[0].text, p) + Count(docs[1..], p)
    ensures Count(Assemble(docs, kept), p)
            == CountIn(kept(docs[0]), docs[0].text, p) + Count(Assemble(docs[1..], kept), p)
  {
    var d := docs[0];
    assert docs == [d] + docs[1..];
    CountConcat([d], docs[1..], p);
    CountLast([], d, p);
    assert [] + [d] == [d];
    var mine := if kept(d) == [] then [] else [d.(matches := kept(d))];
    CountConcat(mine, Assemble(docs[1..], kept), p);
    CountLast([], d.(matches := kept(d)), p);
    assert [] + [d.(matches := kept(d))] == [d.(matches := kept(d))];
  }

  lemma {:induction false} AssembleCounts<B(!new)>(docs: seq<Doc<B>>, q: Query, name: string, bin: nat)
    requires ValidQuery(q) && q.bins.Some?
    ensures var p, t := InBin(name, q.bins.value.count, bin), Textless(q, name, q.bins.value.count, bin);
            Count(Assemble(docs, Surviving(q)), p)
            == Corrected(q, name, bin, Count(docs, p), NullRows(docs), Count(docs, t))
  {
    if docs != [] {
      hide Count, CountIn, Assemble, Surviving, InBin, Textless, Corrected, NullRowsOf;
      var p, t := InBin(name, q.bins.value.count, bin), Textless(q, name, q.bins.value.count, bin);
      var d, rest := docs[0], docs[1..];
      AssembleCounts(rest, q, name, bin);
      SurvivingCounts(d, q, name, bin);
      AssembleFrontCounts(docs, Surviving(q), p);
      AssembleFrontCounts(docs, Surviving(q), t);
      CorrectedAdds(q, name, bin, (CountIn(d.matches, d.text, p), NullRowsOf(d), CountIn(d.matches, d.text, t)),
                    (Count(rest, p), NullRows(rest), Count(rest, t)));
    } else {
      assert Assemble(docs, Surviving(q)) == [];
    }
  }

  lemma {:induction false} NullRowsSplit<B>(before: seq<Doc<B>>, d: Doc<B>, after: seq<Doc<B>>)
    ensures NullRows(before + ([d] + after)) == NullRowsOf(d) + NullRows(before + after)
  {
    if before == [] {
      assert before + ([d] + after) == [d] + after && before + after == after;
    } else {
      NullRowsSplit(before[1..], d, after);
      assert (before + ([d] + after))[1..] == before[1..] + ([d] + after);
      assert (before + after)[1..] == before[1..] + after;
    }
  }

  lemma {:induction false} NullRowsPermuted<B>(a: seq<Doc<B>>, b: seq<Doc<B>>)
    requires multiset(a) == multiset(b)
    ensures NullRows(a) == NullRows(b)
    decreases |a|
  {
    if a == [] {
      SameLength(a, b);
    } else {
      var before, after := FirstInRearranged(a, b);
      NullRowsPermuted(a[1..], before + after);
      NullRowsSplit(before, a[0], after);
    }
  }

  /**
   Histogram and filter at every resolution that divides 100. For each label and each coarse bin the
   documents the filter returns hold as many matches as the block of fine cells adds up to if the
   filter selects them, and none otherwise. Only the empty label is off, by nulls: without excluded
   texts each null row shows up in the first bin, and with excluded texts the matches without a
   text are missing.
   */
  lemma FilterCountsExactly<B(!new)>(docs: seq<Doc<B>>, q: Query, name: string, bin: nat, width: nat)
    requires UniqueRows(docs) && q.bins.Some?
    requires q.bins.value.count > 0 && q.bins.value.count * width == 100 && bin < q.bins.value.count
    ensures bin * width <= (bin + 1) * width
    ensures Count(FilterDocuments(docs, q), InBin(name, q.bins.value.count, bin))
            == if !Selected(q, name, bin) then 0
               else SumCells(docs, name, bin * width, (bin + 1) * width)
                    + (if NullsSurvive(q, name, bin) then NullRows(docs) else 0)
                    - Count(docs, Textless(q, name, q.bins.value.count, bin))
  {
    var sorted := StableSort(ByRowId(), docs);
    PipelineAssembles(docs, q);
    AssembleCounts(sorted, q, name, bin);
    CountPermuted(docs, sorted, InBin(name, q.bins.value.count, bin));
    CountPermuted(docs, sorted, Textless(q, name, q.bins.value.count, bin));
    NullRowsPermuted(docs, sorted);
    BlockIsCoarseBin(docs, name, q.bins.value.count, width, bin);
  }

  /** Histogram and filter agree exactly when neither kind of null touches a selected block. */
  lemma FilterAgreesWithHistogram<B(!new)>(docs: seq<Doc<B>>, q: Query, name: string, bin: nat, width: nat)
    requires UniqueRows(docs) && q.bins.Some?
    requires q.bins.value.count > 0 && q.bins.value.count * width == 100 && bin < q.bins.value.count
    ensures bin * width <= (bin + 1) * width
    ensures Count(FilterDocuments(docs, q), InBin(name, q.bins.value.count, bin))
            == (if Selected(q, name, bin) then SumCells(docs, name, bin * width, (bin + 1) * width) else 0)
            <==> (Selected(q, name, bin) ==>
                    && (NullsSurvive(q, name, bin) ==> NullRows(docs) == 0)
                    && Count(docs, Textless(q, name, q.bins.value.count, bin)) == 0)
  {
    FilterCountsExactly(docs, q, name, bin, width);
    if q.excluded == {} {
      CountNone(docs, Textless(q, name, q.bins.value.count, bin));
    }
    hide Count, SumCells, FilterDocuments;
  }

  lemma {:induction false} NothingTextlessIn(ms: seq<Option<Match>>, text: Option<string>, q: Query, name: string,
                                             count: nat, bin: nat)
    requires count > 0 && forall m :: m in ms ==> m.Some? && m.value.matched.Some?
    ensures NullElements(ms) == 0 && CountIn(ms, text, Textless(q, name, count, bin)) == 0
  {
    if ms != [] {
      NothingTextlessIn(ms[1..], text, q, name, count, bin);
      assert ms == [ms[0]] + ms[1..];
      CountInConcat([ms[0]], ms[1..], text, Textless(q, name, count, bin));
      CountOne(ms[0], text, Textless(q, name, count, bin));
    }
  }

  lemma {:induction false} NothingTextless<B(!new)>(docs: seq<Doc<B>>, q: Query, name: string, count: nat, bin: nat)
    requires count > 0 && forall d :: d in docs ==> WithoutNulls(d)
    ensures NullRows(docs) == 0 && Count(docs, Textless(q, name, count, bin)) == 0
  {
    if docs != [] {
      assert WithoutNulls(docs[0]);
      NothingTextless(docs[1..], q, name, count, bin);
      NothingTextlessIn(docs[0].matches, docs[0].text, q, name, count, bin);
      assert docs == [docs[0]] + docs[1..] && [] + [docs[0]] == [docs[0]];
      CountConcat([docs[0]], docs[1..], Textless(q, name, count, bin));
      CountLast([], docs[0], Textless(q, name, count, bin));
    }
  }

  /** In Results without nulls, which is what a Concordance run writes, they always agree. */
  lemma ResultsAgreeWithHistogram<B(!new)>(docs: seq<Doc<B>>, q: Query, name: string, bin: nat, width: nat)
    requires UniqueRows(docs) && q.bins.Some?
    requires q.bins.value.count > 0 && q.bins.value.count * width == 100 && bin < q.bins.value.count
    requires forall d :: d in docs ==> WithoutNulls(d)
    ensures bin * width <= (bin + 1) * width
    ensures Count(FilterDocuments(docs, q), InBin(name, q.bins.value.count, bin))
            == if Selected(q, name, bin) then SumCells(docs, name, bin * width, (bin + 1) * width) else 0
  {
    FilterCountsExactly(docs, q, name, bin, width);
    NothingTextless(docs, q, name, q.bins.value.count, bin);
  }

  lemma {:induction false} PassingLabelled(ms: seq<Option<Match>>, text: Option<string>, q: Query, name: string)
    requires q.bins.None? && forall m :: m in ms ==> m.Some? && m.value.matched.Some?
    ensures CountIn(Filter(ms, PassesIn(text, q)), text, Labelled(name))
            == if name in q.excluded then 0 else CountIn(ms, text, Labelled(name))
  {
    if ms != [] {
      var p, rest := PassesIn(text, q), ms[1..];
      PassingLabelled(rest, text, q, name);
      assert ms == [ms[0]] + rest;
      CountInConcat([ms[0]], rest, text, Labelled(name));
      CountOne(ms[0], text, Labelled(name));
      if p(ms[0]) {
        CountInConcat([ms[0]], Filter(rest, p), text, Labelled(name));
      }
      hide CountIn;
    }
  }

  lemma {:induction false} AssembleLabelled<B(!new)>(docs: seq<Doc<B>>, q: Query, name: string)
    requires q.bins.None? && forall d :: d in docs ==> WithoutNulls(d)
    ensures Count(Assemble(docs, Passing(q)), Labelled(name))
            == if name in q.excluded then 0 else Count(docs, Labelled(name))
  {
    if docs != [] {
      var d := docs[0];
      assert WithoutNulls(d);
      AssembleLabelled(docs[1..], q, name);
      AssembleFrontCounts(docs, Passing(q), Labelled(name));
      PassingLabelled(d.matches, d.text, q, name);
      hide Count, CountIn, Assemble, Filter;
    } else {
      assert Assemble(docs, Passing(q)) == [];
    }
  }

  /** Excluding texts alone takes away exactly the matches with these texts, and no others. */
  lemma ExclusionIsExact<B(!new)>(docs: seq<Doc<B>>, excluded: set<string>, name: string)
    requires UniqueRows(docs) && forall d :: d in docs ==> WithoutNulls(d)
    ensures Count(FilterDocuments(docs, Query(excluded, None)), Labelled(name))
            == if name in excluded then 0 else Count(docs, Labelled(name))
  {
    var q, sorted := Query(excluded, None), StableSort(ByRowId(), docs);
    ResultsFilterSimply(docs, q);
    forall d | d in sorted ensures WithoutNulls(d) {
      assert d in multiset(sorted);
    }
    AssembleLabelled(sorted, q, name);
    CountPermuted(docs, sorted, Labelled(name));
  }
}
