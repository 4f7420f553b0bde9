/** Quotation preprocessing: a chain of replacements that remembers where every character came from. */
module OffsetMapping {
  import opened Common

  /*
   A `Cell` is one output character with its position in the original text; `kept` says that the
   character was never part of a replacement. The program carries only characters and positions.
   */

  datatype Cell = Cell(ch: char, origin: nat, kept: bool)

  function Chars(cells: seq<Cell>): (s: string)
    ensures |s| == |cells|
    ensures forall i :: 0 <= i < |s| ==> s[i] == cells[i].ch
  {
    seq(|cells|, i requires 0 <= i < |cells| => cells[i].ch)
  }

  /** One original position per cell, and the end of the original text as a sentinel. */
  function Positions(cells: seq<Cell>, end: nat): (m: seq<nat>)
    ensures |m| == |cells| + 1 && m[|cells|] == end
    ensures forall i :: 0 <= i < |cells| ==> m[i] == cells[i].origin
  {
    seq(|cells|, i requires 0 <= i < |cells| => cells[i].origin) + [end]
  }

  /** Leftmost non-overlapping replacement; an empty pattern replaces nothing. */
  function ReplaceText(s: string, pattern: string, replacement: string): string {
    if s == [] then []
    else if pattern != [] && pattern <= s then replacement + ReplaceText(s[|pattern|..], pattern, replacement)
    else [s[0]] + ReplaceText(s[1..], pattern, replacement)
  }

  function Stamped(text: string, origin: nat): seq<Cell> {
    seq(|text|, i requires 0 <= i < |text| => Cell(text[i], origin, false))
  }

  /** The same replacement on cells: new characters point at where the replaced text began. */
  function ReplaceCells(cells: seq<Cell>, pattern: string, replacement: string): seq<Cell> {
    if cells == [] then []
    else if pattern != [] && pattern <= Chars(cells) then
      Stamped(replacement, cells[0].origin) + ReplaceCells(cells[|pattern|..], pattern, replacement)
    else [cells[0]] + ReplaceCells(cells[1..], pattern, replacement)
  }

  /** The pattern stands at position i. */
  predicate StandsAt(s: string, pattern: string, i: nat) {
    i + |pattern| <= |s| && s[i..i + |pattern|] == pattern
  }

  lemma StandsAtFront(s: string, pattern: string)
    ensures StandsAt(s, pattern, 0) <==> pattern <= s
  {
  }

  lemma StandsAtRest(s: string, pattern: string, i: nat)
    requires s != []
    ensures StandsAt(s[1..], pattern, i) <==> StandsAt(s, pattern, i + 1)
  {
    if i + 1 + |pattern| <= |s| {
      assert s[1..][i..i + |pattern|] == s[i + 1..i + 1 + |pattern|];
    }
  }

  /** A text without the pattern stays as it is. */
  lemma {:induction false} NothingIsReplaced(s: string, pattern: string, replacement: string)
    requires pattern != [] && forall i: nat :: !StandsAt(s, pattern, i)
    ensures ReplaceText(s, pattern, replacement) == s
  {
    if s != [] {
      StandsAtFront(s, pattern);
      assert !StandsAt(s, pattern, 0);
      forall i: nat ensures !StandsAt(s[1..], pattern, i) {
        StandsAtRest(s, pattern, i);
      }
      NothingIsReplaced(s[1..], pattern, replacement);
    }
  }

  lemma SkipsFirst(s: string, pattern: string, replacement: string)
    requires s != [] && !StandsAt(s, pattern, 0)
    ensures ReplaceText(s, pattern, replacement) == [s[0]] + ReplaceText(s[1..], pattern, replacement)
  {
    StandsAtFront(s, pattern);
  }

  /** A text with something put in place of what follows a position. */
  function Around(s: string, first: nat, middle: string, tail: string): string
    requires first <= |s|
  {
    s[..first] + middle + tail
  }

  lemma ReplacesFirst(s: string, pattern: string, replacement: string)
    requires pattern != [] && StandsAt(s, pattern, 0)
    ensures ReplaceText(s, pattern, replacement)
            == Around(s, 0, replacement, ReplaceText(s[0 + |pattern|..], pattern, replacement))
  {
    StandsAtFront(s, pattern);
    assert s[..0] + replacement == replacement;
  }

  lemma AroundLater(s: string, first: nat, length: nat, middle: string, tail: string)
    requires 0 < first && first + length <= |s|
    ensures [s[0]] + Around(s[1..], first - 1, middle, tail) == Around(s, first, middle, tail)
    ensures s[1..][first - 1 + length..] == s[first + length..]
  {
    assert [s[0]] + s[1..][..first - 1] == s[..first];
  }

  lemma {:induction false} ReplacesAround(s: string, pattern: string, replacement: string, first: nat)
    requires pattern != [] && StandsAt(s, pattern, first) && forall i: nat | i < first :: !StandsAt(s, pattern, i)
    requires first + |pattern| <= |s|
    ensures ReplaceText(s, pattern, replacement)
            == Around(s, first, replacement, ReplaceText(s[first + |pattern|..], pattern, replacement))
    decreases first
  {
    hide StandsAt, ReplaceText, Around;
    if first == 0 {
      ReplacesFirst(s, pattern, replacement);
    } else {
      forall i: nat | i < first - 1 ensures !StandsAt(s[1..], pattern, i) {
        StandsAtRest(s, pattern, i);
      }
      StandsAtRest(s, pattern, first - 1);
      assert !StandsAt(s, pattern, 0);
      SkipsFirst(s, pattern, replacement);
      ReplacesAround(s[1..], pattern, replacement, first - 1);
      AroundLater(s, first, |pattern|, replacement, ReplaceText(s[first + |pattern|..], pattern, replacement));
    }
  }

  /** The leftmost occurrence is replaced, and then the same is done behind it. */
  lemma LeftmostIsReplaced(s: string, pattern: string, replacement: string, first: nat)
    requires pattern != [] && StandsAt(s, pattern, first) && forall i: nat | i < first :: !StandsAt(s, pattern, i)
    ensures ReplaceText(s, pattern, replacement)
            == s[..first] + replacement + ReplaceText(s[first + |pattern|..], pattern, replacement)
  {
    assert first + |pattern| <= |s|;
    hide StandsAt, ReplaceText;
    ReplacesAround(s, pattern, replacement, first);
  }

  lemma CharsConcat(a: seq<Cell>, b: seq<Cell>)
    ensures Chars(a + b) == Chars(a) + Chars(b)
  {
  }

  lemma CharsDrop(cells: seq<Cell>, n: nat)
    requires n <= |cells|
    ensures Chars(cells[n..]) == Chars(cells)[n..]
  {
  }

  /** Replacing in cells replaces in the text. */
  lemma {:induction false} CellsFollowText(cells: seq<Cell>, pattern: string, replacement: string)
    ensures Chars(ReplaceCells(cells, pattern, replacement)) == ReplaceText(Chars(cells), pattern, replacement)
  {
    if cells != [] {
      var n := if pattern != [] && pattern <= Chars(cells) then |pattern| else 1;
      CharsDrop(cells, n);
      CellsFollowText(cells[n..], pattern, replacement);
      var head := if pattern != [] && pattern <= Chars(cells) then Stamped(replacement, cells[0].origin) else [cells[0]];
      CharsConcat(head, ReplaceCells(cells[n..], pattern, replacement));
      if pattern != [] && pattern <= Chars(cells) {
        assert Chars(head) == replacement;
      } else {
        assert Chars(head) == [Chars(cells)[0]];
      }
    }
  }

  // ---------------------------------------------------------------- soundness of the positions

  function First(cells: seq<Cell>, text: string): nat {
    if cells == [] then |text| else cells[0].origin
  }

  /**
   Positions never decrease and stay inside the original text, and a kept character is the
   character at its position, directly followed by the position of whatever comes next.
   */
  ghost predicate Sound(cells: seq<Cell>, text: string) {
    cells != [] ==>
      && cells[0].origin < |text|
      && cells[0].origin <= First(cells[1..], text)
      && (cells[0].kept ==>
            text[cells[0].origin] == cells[0].ch && First(cells[1..], text) == cells[0].origin + 1)
      && Sound(cells[1..], text)
  }

  lemma {:induction false} SoundDrop(cells: seq<Cell>, text: string, n: nat)
    requires Sound(cells, text) && n <= |cells|
    ensures Sound(cells[n..], text) && First(cells, text) <= First(cells[n..], text) <= |text|
  {
    if n > 0 {
      SoundDrop(cells[1..], text, n - 1);
      assert cells[1..][n - 1..] == cells[n..];
    } else {
      assert cells[0..] == cells;
      if cells != [] { SoundDrop(cells[1..], text, 0); }
    }
  }

  lemma {:induction false} StampedSound(text: string, added: string, origin: nat, rest: seq<Cell>)
    requires Sound(rest, text) && origin < |text| && origin <= First(rest, text)
    ensures Sound(Stamped(added, origin) + rest, text)
    ensures First(Stamped(added, origin) + rest, text) == if added == [] then First(rest, text) else origin
  {
    if added == [] {
      assert Stamped(added, origin) + rest == rest;
    } else {
      StampedSound(text, added[1..], origin, rest);
      var all := Stamped(added, origin) + rest;
      assert all[1..] == Stamped(added[1..], origin) + rest;
    }
  }

  /** A replacement by non-empty text keeps the positions sound, and the first one unchanged. */
  lemma {:induction false} ReplaceSound(cells: seq<Cell>, text: string, pattern: string, replacement: string)
    requires Sound(cells, text) && replacement != []
    ensures Sound(ReplaceCells(cells, pattern, replacement), text)
    ensures First(ReplaceCells(cells, pattern, replacement), text) == First(cells, text)
  {
    if cells != [] {
      if pattern != [] && pattern <= Chars(cells) {
        SoundDrop(cells, text, |pattern|);
        ReplaceSound(cells[|pattern|..], text, pattern, replacement);
        StampedSound(text, replacement, cells[0].origin, ReplaceCells(cells[|pattern|..], pattern, replacement));
      } else {
        ReplaceSound(cells[1..], text, pattern, replacement);
        var rest := ReplaceCells(cells[1..], pattern, replacement);
        assert ([cells[0]] + rest)[1..] == rest;
      }
    }
  }

  /** The untouched text: every character kept, at its own position. */
  function Initial(text: string): seq<Cell> {
    seq(|text|, i requires 0 <= i < |text| => Cell(text[i], i, true))
  }

  lemma {:induction false} InitialSound(text: string, n: nat)
    requires n <= |text|
    ensures Sound(Initial(text)[n..], text) && First(Initial(text)[n..], text) == n
    decreases |text| - n
  {
    if n < |text| {
      InitialSound(text, n + 1);
      assert Initial(text)[n..][1..] == Initial(text)[n + 1..];
    }
  }

  type Rule = (string, string)

  function ChainText(s: string, rules: seq<Rule>): string
    decreases |rules|
  {
    if rules == [] then s else ChainText(ReplaceText(s, rules[0].0, rules[0].1), rules[1..])
  }

  function ChainCells(cells: seq<Cell>, rules: seq<Rule>): seq<Cell>
    decreases |rules|
  {
    if rules == [] then cells else ChainCells(ReplaceCells(cells, rules[0].0, rules[0].1), rules[1..])
  }

  ghost predicate NonEmptyRules(rules: seq<Rule>) {
    forall i :: 0 <= i < |rules| ==> rules[i].0 != [] && rules[i].1 != []
  }

  lemma {:induction false} ChainSound(cells: seq<Cell>, text: string, rules: seq<Rule>)
    requires Sound(cells, text) && NonEmptyRules(rules)
    ensures Sound(ChainCells(cells, rules), text)
    ensures First(ChainCells(cells, rules), text) == First(cells, text)
    ensures Chars(ChainCells(cells, rules)) == ChainText(Chars(cells), rules)
    decreases |rules|
  {
    if rules != [] {
      ReplaceSound(cells, text, rules[0].0, rules[0].1);
      CellsFollowText(cells, rules[0].0, rules[0].1);
      ChainSound(ReplaceCells(cells, rules[0].0, rules[0].1), text, rules[1..]);
    }
  }

  lemma SoundAt(cells: seq<Cell>, text: string, i: nat)
    requires Sound(cells, text) && i < |cells|
    ensures var m := Positions(cells, |text|);
            && m[i] < |text| && m[i] <= m[i + 1] <= |text|
            && (cells[i].kept ==> text[m[i]] == cells[i].ch && m[i + 1] == m[i] + 1)
  {
    SoundDrop(cells, text, i);
    SoundDrop(cells, text, i + 1);
    assert cells[i..][1..] == cells[i + 1..];
  }

  lemma {:induction false} PositionsMonotone(cells: seq<Cell>, text: string, i: nat, j: nat)
    requires Sound(cells, text) && i <= j <= |cells|
    ensures var m := Positions(cells, |text|); m[i] <= m[j] <= |text|
    decreases j - i
  {
    if i < |cells| {
      SoundAt(cells, text, i);
    }
    if i < j {
      SoundAt(cells, text, j - 1);
      PositionsMonotone(cells, text, i, j - 1);
    }
  }

  ghost predicate NonDecreasing(m: seq<nat>) {
    forall i, j :: 0 <= i <= j < |m| ==> m[i] <= m[j]
  }

  /**
   Any chain of replacements with non-empty patterns and replacements: the characters are those
   of the plain replacements, and the positions start at 0, never decrease and end at the end of
   the original text, one per character and one more; a kept character is the one at its position.
   */
  lemma OffsetsAreSound(text: string, rules: seq<Rule>)
    requires NonEmptyRules(rules)
    ensures var cells := ChainCells(Initial(text), rules);
            var m := Positions(cells, |text|);
            && Chars(cells) == ChainText(text, rules)
            && |m| == |Chars(cells)| + 1 && m[0] == 0 && m[|m| - 1] == |text| && NonDecreasing(m)
            && (forall i :: 0 <= i < |cells| && cells[i].kept ==> m[i] < |text| && text[m[i]] == cells[i].ch)
  {
    var cells := ChainCells(Initial(text), rules);
    InitialCells(text, rules);
    forall i, j | 0 <= i <= j < |cells| + 1
      ensures Positions(cells, |text|)[i] <= Positions(cells, |text|)[j]
    {
      PositionsMonotone(cells, text, i, j);
    }
    forall i | 0 <= i < |cells| && cells[i].kept
      ensures cells[i].origin < |text| && text[cells[i].origin] == cells[i].ch
    {
      SoundAt(cells, text, i);
    }
  }

  lemma InitialCells(text: string, rules: seq<Rule>)
    requires NonEmptyRules(rules)
    ensures var cells := ChainCells(Initial(text), rules);
            Sound(cells, text) && First(cells, text) == 0 && Chars(cells) == ChainText(text, rules)
  {
    InitialSound(text, 0);
    assert Initial(text)[0..] == Initial(text);
    assert Chars(Initial(text)) == text;
    ChainSound(Initial(text), text, rules);
  }

  /**
   Slicing the original text with translated offsets returns the very characters of the span,
   whenever no replacement touched the span.
   */
  lemma {:induction false} UntouchedSpansAreVerbatim(cells: seq<Cell>, text: string, start: nat, end: nat)
    requires Sound(cells, text) && start <= end <= |cells|
    requires forall i :: start <= i < end ==> cells[i].kept
    ensures var m := Positions(cells, |text|);
            m[start] <= m[end] <= |text| && text[m[start]..m[end]] == Chars(cells)[start..end]
    decreases end - start
  {
    var m := Positions(cells, |text|);
    PositionsMonotone(cells, text, start, end);
    if start < end {
      SoundAt(cells, text, end - 1);
      UntouchedSpansAreVerbatim(cells, text, start, end - 1);
      assert Chars(cells)[start..end] == Chars(cells)[start..end - 1] + [cells[end - 1].ch];
      assert text[m[start]..m[end]] == text[m[start]..m[end - 1]] + [text[m[end - 1]]];
    }
  }

  // ---------------------------------------------------------------- spans

  function Clamp(i: int, last: nat): (r: nat)
    ensures r <= last
  {
    Min(Max(i, 0), last)
  }

  function TranslateSpan(start: Option<int>, end: Option<int>, mapping: seq<nat>): (Option<int>, Option<int>)
    requires mapping != []
  {
    if start.None? || end.None? then (start, end)
    else
      var last := |mapping| - 1;
      var from, to := mapping[Clamp(start.value, last)], mapping[Clamp(end.value, last)];
      (Some(from), Some(if to < from then from else to))
  }

  /** Translated spans are ordered and inside the original text, and nested spans stay nested. */
  lemma SpansStayNested(mapping: seq<nat>, outerStart: int, outerEnd: int, start: int, end: int)
    requires mapping != [] && NonDecreasing(mapping)
    requires outerStart <= start <= end <= outerEnd
    ensures var (from, to) := TranslateSpan(Some(start), Some(end), mapping);
            var (outerFrom, outerTo) := TranslateSpan(Some(outerStart), Some(outerEnd), mapping);
            0 <= outerFrom.value <= from.value <= to.value <= outerTo.value <= mapping[|mapping| - 1]
  {
    var last := |mapping| - 1;
    assert Clamp(outerStart, last) <= Clamp(start, last) <= Clamp(end, last) <= Clamp(outerEnd, last);
  }

  /** Offsets outside the text are moved to its ends, and all others to their positions. */
  lemma SpansAreTranslated(mapping: seq<nat>, start: int, end: int)
    requires mapping != [] && NonDecreasing(mapping) && start <= end
    ensures var last := |mapping| - 1;
            TranslateSpan(Some(start), Some(end), mapping)
            == (Some(mapping[if start < 0 then 0 else if start > last then last else start]),
                Some(mapping[if end < 0 then 0 else if end > last then last else end]))
    ensures TranslateSpan(None, Some(end), mapping) == (None, Some(end))
    ensures TranslateSpan(Some(start), None, mapping) == (Some(start), None)
  {
    assert Clamp(start, |mapping| - 1) <= Clamp(end, |mapping| - 1);
  }

  // ---------------------------------------------------------------- the loops

  /** Cells that a character list and its position list describe. */
  ghost predicate Describes(chars: string, mapping: seq<nat>, cells: seq<Cell>, end: nat) {
    chars == Chars(cells) && mapping == Positions(cells, end)
  }

  /** pattern occurs in chars at position i. */
  predicate OccursAt(chars: string, pattern: string, i: nat) {
    pattern != [] && i + |pattern| <= |chars| && chars[i..i + |pattern|] == pattern
  }

  lemma ReplaceFrom(cells: seq<Cell>, pattern: string, replacement: string, i: nat)
    requires i < |cells|
    ensures ReplaceCells(cells[i..], pattern, replacement)
            == if OccursAt(Chars(cells), pattern, i)
               then Stamped(replacement, cells[i].origin) + ReplaceCells(cells[i + |pattern|..], pattern, replacement)
               else [cells[i]] + ReplaceCells(cells[i + 1..], pattern, replacement)
  {
    var chars := Chars(cells);
    CharsDrop(cells, i);
    assert cells[i..][1..] == cells[i + 1..];
    if i + |pattern| <= |chars| {
      assert chars[i..][..|pattern|] == chars[i..i + |pattern|];
      assert cells[i..][|pattern|..] == cells[i + |pattern|..];
    }
  }

  lemma NothingLeft(cells: seq<Cell>, pattern: string, replacement: string)
    requires cells == []
    ensures ReplaceCells(cells, pattern, replacement) == []
  {
  }

  lemma Regroup(a: seq<Cell>, b: seq<Cell>, c: seq<Cell>)
    ensures (a + b) + c == a + (b + c)
  {
  }

  method AppendReplacement(chars: string, mapping: seq<nat>, added: string, base: nat,
                           ghost done: seq<Cell>, ghost end: nat)
    returns (outChars: string, outMap: seq<nat>)
    requires Describes(chars, mapping + [end], done, end)
    ensures Describes(outChars, outMap + [end], done + Stamped(added, base), end)
  {
    outChars, outMap := chars, mapping;
    for k := 0 to |added|
      invariant Describes(outChars, outMap + [end], done + Stamped(added, base)[..k], end)
    {
      outChars := outChars + [added[k]];
      outMap := outMap + [base];
      assert Stamped(added, base)[..k + 1] == Stamped(added, base)[..k] + [Cell(added[k], base, false)];
    }
    assert Stamped(added, base)[..|added|] == Stamped(added, base);
  }

  method ApplyReplaceWithMapping(chars: string, mapping: seq<nat>, pattern: string, replacement: string,
                                 ghost cells: seq<Cell>, ghost end: nat)
    returns (outChars: string, outMap: seq<nat>)
    requires Describes(chars, mapping, cells, end)
    ensures Describes(outChars, outMap, ReplaceCells(cells, pattern, replacement), end)
  {
    hide ReplaceCells;
    outChars, outMap := [], [];
    ghost var done: seq<Cell>, todo := [], ReplaceCells(cells, pattern, replacement);
    var i := 0;
    assert cells[0..] == cells;
    while i < |chars|
      invariant 0 <= i <= |chars|
      invariant todo == ReplaceCells(cells[i..], pattern, replacement)
      invariant done + todo == ReplaceCells(cells, pattern, replacement)
      invariant Describes(outChars, outMap + [end], done, end)
    {
      ReplaceFrom(cells, pattern, replacement, i);
      if |pattern| > 0 && i + |pattern| <= |chars| && chars[i] == pattern[0] && chars[i..i + |pattern|] == pattern {
        ghost var added, rest := Stamped(replacement, mapping[i]), ReplaceCells(cells[i + |pattern|..], pattern, replacement);
        outChars, outMap := AppendReplacement(outChars, outMap, replacement, mapping[i], done, end);
        Regroup(done, added, rest);
        done, todo := done + added, rest;
        i := i + |pattern|;
      } else {
        ghost var rest := ReplaceCells(cells[i + 1..], pattern, replacement);
        outChars := outChars + [chars[i]];
        outMap := outMap + [mapping[i]];
        Regroup(done, [cells[i]], rest);
        done, todo := done + [cells[i]], rest;
        i := i + 1;
      }
    }
    outMap := outMap + [mapping[|chars|]];
    NothingLeft(cells[i..], pattern, replacement);
    assert done + todo == done;
  }

  // ---------------------------------------------------------------- the substitutions in place

  /** One substitution of the normalization: any of several characters, or a pair of them, becomes one character. */
  datatype Substitution = EachOf(chars: string, to: char) | Pair(first: char, second: char, to: char)

  const G: Substitution := Pair('ğ', 'ḡ', 'g')

  const CAPITAL_G: Substitution := Pair('Ğ', 'Ḡ', 'G')

  function BeforeG(): seq<Substitution> {
    [EachOf("\U{00A0}", ' '),
     EachOf("àáâãäåā", 'a'), EachOf("èéêëē", 'e'), EachOf("ìíîïıī", 'i'), EachOf("òóôõöō", 'o'),
     EachOf("ùúûüū", 'u'), EachOf("ýÿȳ", 'y'), EachOf("ç", 'c')]
  }

  function BetweenGs(): seq<Substitution> {
    [EachOf("ñ", 'n'), EachOf("ş", 's'),
     EachOf("ÀÁÂÃÄÅĀ", 'A'), EachOf("ÈÉÊËĒ", 'E'), EachOf("ÌÍÎÏİĪ", 'I'), EachOf("ÒÓÔÕÖŌ", 'O'),
     EachOf("ÙÚÛÜŪ", 'U'), EachOf("ÝŸȲ", 'Y'), EachOf("Ç", 'C')]
  }

  function AfterGs(): seq<Substitution> {
    [EachOf("Ñ", 'N'), EachOf("Ş", 'S'), EachOf("”", '"'), EachOf("“", '"'), EachOf("〝", '"'), EachOf("〞", '"')]
  }

  /** No-break spaces, accents and quotes, in the order in which they are substituted. */
  function Substitutions(): seq<Substitution> {
    BeforeG() + [G] + BetweenGs() + [CAPITAL_G] + AfterGs()
  }

  /** The characters of the two pairs. */
  predicate Paired(c: char) {
    c == 'ğ' || c == 'ḡ' || c == 'Ğ' || c == 'Ḡ'
  }

  function Fold(c: char, sub: Substitution): char {
    if sub.EachOf? && c in sub.chars then sub.to else c
  }

  function Folding(sub: Substitution): char -> char {
    c => Fold(c, sub)
  }

  function Substitute(text: string, sub: Substitution): string {
    match sub
    case EachOf(_, _) => MapChars(text, Folding(sub))
    case Pair(first, second, to) => ReplaceText(text, [first, second], [to])
  }

  function SubstituteAll(text: string, subs: seq<Substitution>): string
    decreases |subs|
  {
    if subs == [] then text else SubstituteAll(Substitute(text, subs[0]), subs[1..])
  }

  function FoldAll(c: char, subs: seq<Substitution>): char
    decreases |subs|
  {
    if subs == [] then c else FoldAll(Fold(c, subs[0]), subs[1..])
  }

  function FoldingAll(subs: seq<Substitution>): char -> char {
    c => FoldAll(c, subs)
  }

  function MapChars(text: string, f: char -> char): (r: string)
    ensures |r| == |text|
  {
    seq(|text|, i requires 0 <= i < |text| => f(text[i]))
  }

  lemma MapCharsSlice(text: string, f: char -> char, from: nat, to: nat)
    requires from <= to <= |text|
    ensures MapChars(text[from..to], f) == MapChars(text, f)[from..to]
  {
  }

  /** What the substitutions make of single characters; this keeps every character in its place. */
  function SimplifyAll(text: string): (r: string)
    ensures |r| == |text|
  {
    MapChars(text, FoldingAll(Substitutions()))
  }

  predicate NoPair(s: string, a: char, b: char) {
    forall i :: 0 <= i < |s| - 1 ==> !(s[i] == a && s[i + 1] == b)
  }

  lemma {:induction false} NothingToReplace(s: string, pattern: string, replacement: string)
    requires |pattern| >= 2 && NoPair(s, pattern[0], pattern[1])
    ensures ReplaceText(s, pattern, replacement) == s
  {
    if s != [] {
      NothingToReplace(s[1..], pattern, replacement);
      assert |s| >= 2 ==> !(s[0] == pattern[0] && s[1] == pattern[1]);
    }
  }

  lemma NoPairDrop(s: string, a: char, b: char, n: nat)
    requires n <= |s| && NoPair(s, a, b)
    ensures NoPair(s[n..], a, b)
  {
  }

  /** Replacing pairs by single characters never lengthens, and shortens exactly when there is a pair. */
  lemma {:induction false} PairsShrink(s: string, a: char, b: char, c: char)
    ensures |ReplaceText(s, [a, b], [c])| <= |s|
    ensures |ReplaceText(s, [a, b], [c])| == |s| <==> NoPair(s, a, b)
  {
    if NoPair(s, a, b) {
      NothingToReplace(s, [a, b], [c]);
    } else if [a, b] <= s {
      PairsShrink(s[2..], a, b, c);
    } else {
      PairsShrink(s[1..], a, b, c);
      assert !NoPair(s[1..], a, b) by {
        var i :| 0 <= i < |s| - 1 && s[i] == a && s[i + 1] == b;
        assert i > 0 && s[1..][i - 1] == a && s[1..][i] == b;
      }
    }
  }

  /** Single characters are kept apart from the characters of the pairs. */
  ghost predicate Apart(sub: Substitution) {
    match sub
    case EachOf(chars, to) => !Paired(to) && forall i :: 0 <= i < |chars| ==> !Paired(chars[i])
    case Pair(first, second, _) => Paired(first) && Paired(second)
  }

  ghost predicate AllApart(subs: seq<Substitution>) {
    forall k | 0 <= k < |subs| :: Apart(subs[k])
  }

  predicate HasPairOf(text: string, subs: seq<Substitution>) {
    exists k | 0 <= k < |subs| :: subs[k].Pair? && !NoPair(text, subs[k].first, subs[k].second)
  }

  /** Substituting single characters neither makes nor breaks a pair. */
  lemma FoldKeepsPairs(text: string, sub: Substitution, a: char, b: char)
    requires sub.EachOf? && Apart(sub) && Paired(a) && Paired(b)
    ensures NoPair(MapChars(text, Folding(sub)), a, b) <==> NoPair(text, a, b)
  {
    var r := MapChars(text, Folding(sub));
    assert forall i :: 0 <= i < |text| ==> (r[i] == a <==> text[i] == a) && (r[i] == b <==> text[i] == b);
  }

  lemma FoldKeepsPairsOf(text: string, sub: Substitution, subs: seq<Substitution>)
    requires sub.EachOf? && Apart(sub) && AllApart(subs)
    ensures HasPairOf(MapChars(text, Folding(sub)), subs) <==> HasPairOf(text, subs)
  {
    forall k | 0 <= k < |subs| && subs[k].Pair?
      ensures NoPair(MapChars(text, Folding(sub)), subs[k].first, subs[k].second)
              <==> NoPair(text, subs[k].first, subs[k].second)
    {
      FoldKeepsPairs(text, sub, subs[k].first, subs[k].second);
    }
    hide NoPair;
  }

  lemma HasPairOfFirst(text: string, subs: seq<Substitution>)
    requires subs != []
    ensures HasPairOf(text, subs) <==>
              (subs[0].Pair? && !NoPair(text, subs[0].first, subs[0].second)) || HasPairOf(text, subs[1..])
  {
    hide NoPair;
    if HasPairOf(text, subs[1..]) {
      var k :| 0 <= k < |subs[1..]| && subs[1..][k].Pair? && !NoPair(text, subs[1..][k].first, subs[1..][k].second);
      assert subs[k + 1] == subs[1..][k];
    }
    forall k | 0 < k < |subs| ensures subs[k] == subs[1..][k - 1] {
    }
  }

  lemma MapsCompose(text: string, sub: Substitution, subs: seq<Substitution>)
    requires subs != [] && subs[0] == sub
    ensures MapChars(MapChars(text, Folding(sub)), FoldingAll(subs[1..])) == MapChars(text, FoldingAll(subs))
  {
  }

  /**
   Substitutions one after another: they never lengthen a text, they shorten it exactly when it
   contains one of the pairs, and without a pair each character is substituted on its own.
   */
  lemma {:induction false} SubstitutionsKeepLength(text: string, subs: seq<Substitution>)
    requires AllApart(subs)
    ensures |SubstituteAll(text, subs)| <= |text|
    ensures |SubstituteAll(text, subs)| == |text| <==> !HasPairOf(text, subs)
    ensures !HasPairOf(text, subs) ==> SubstituteAll(text, subs) == MapChars(text, FoldingAll(subs))
    decreases |subs|
  {
    if subs != [] {
      var sub, rest := subs[0], subs[1..];
      SubstitutionsKeepLength(Substitute(text, sub), rest);
      HasPairOfFirst(text, subs);
      hide HasPairOf, NoPair;
      if sub.EachOf? {
        FoldKeepsPairsOf(text, sub, rest);
        MapsCompose(text, sub, subs);
      } else {
        PairsShrink(text, sub.first, sub.second, sub.to);
        if |Substitute(text, sub)| == |text| {
          NothingToReplace(text, [sub.first, sub.second], [sub.to]);
          SkipPair(text, subs);
        }
      }
    }
  }

  /** A pair leaves single characters alone. */
  lemma SkipPair(text: string, subs: seq<Substitution>)
    requires subs != [] && subs[0].Pair?
    ensures MapChars(text, FoldingAll(subs)) == MapChars(text, FoldingAll(subs[1..]))
  {
  }

  /** The two accent rules that rewrite a pair of characters to one change the length. */
  predicate HasShrinkingPair(text: string) {
    !NoPair(text, 'ğ', 'ḡ') || !NoPair(text, 'Ğ', 'Ḡ')
  }

  ghost predicate Singles(subs: seq<Substitution>) {
    forall k | 0 <= k < |subs| :: subs[k].EachOf? && Apart(subs[k])
  }

  lemma BeforeGSingles()
    ensures Singles(BeforeG())
  {
    var subs := BeforeG();
    assert Apart(subs[0]) && Apart(subs[1]) && Apart(subs[2]) && Apart(subs[3]);
    assert Apart(subs[4]) && Apart(subs[5]) && Apart(subs[6]) && Apart(subs[7]);
    hide Apart;
  }

  lemma BetweenGsSingles()
    ensures Singles(BetweenGs())
  {
    var subs := BetweenGs();
    assert Apart(subs[0]) && Apart(subs[1]) && Apart(subs[2]) && Apart(subs[3]) && Apart(subs[4]);
    assert Apart(subs[5]) && Apart(subs[6]) && Apart(subs[7]) && Apart(subs[8]);
    hide Apart;
  }

  lemma AfterGsSingles()
    ensures Singles(AfterGs())
  {
    var subs := AfterGs();
    assert Apart(subs[0]) && Apart(subs[1]) && Apart(subs[2]) && Apart(subs[3]) && Apart(subs[4]) && Apart(subs[5]);
    hide Apart;
  }

  lemma PairsOfConcat(text: string, a: seq<Substitution>, sub: Substitution, b: seq<Substitution>)
    requires Singles(a) && AllApart(b) && sub.Pair? && Apart(sub)
    ensures AllApart(a + [sub] + b)
    ensures HasPairOf(text, a + [sub] + b) <==> !NoPair(text, sub.first, sub.second) || HasPairOf(text, b)
  {
    hide NoPair, Apart;
    var all := a + [sub] + b;
    assert all[|a|] == sub;
    assert forall k | 0 <= k < |b| :: b[k] == all[|a| + 1 + k];
  }

  /** The length survives exactly when the text has neither of the two pairs. */
  lemma LengthChangesOnlyByPairs(text: string)
    ensures |SubstituteAll(text, Substitutions())| == |text| <==> !HasShrinkingPair(text)
    ensures !HasShrinkingPair(text) ==> SubstituteAll(text, Substitutions()) == SimplifyAll(text)
  {
    BeforeGSingles();
    BetweenGsSingles();
    AfterGsSingles();
    hide NoPair, SubstituteAll, BeforeG, BetweenGs, AfterGs;
    PairsOfConcat(text, BetweenGs(), CAPITAL_G, AfterGs());
    PairsOfConcat(text, BeforeG(), G, BetweenGs() + [CAPITAL_G] + AfterGs());
    assert Substitutions() == BeforeG() + [G] + (BetweenGs() + [CAPITAL_G] + AfterGs());
    SubstitutionsKeepLength(text, Substitutions());
  }

  /** Characters outside ASCII become characters of ASCII. */
  predicate Plain(sub: Substitution) {
    match sub
    case EachOf(chars, to) => to < '\U{0080}' && forall i :: 0 <= i < |chars| ==> chars[i] >= '\U{0080}'
    case Pair(_, _, _) => true
  }

  predicate AllPlain(subs: seq<Substitution>) {
    forall k | 0 <= k < |subs| :: Plain(subs[k])
  }

  lemma BeforeGPlain()
    ensures AllPlain(BeforeG())
  {
    var subs := BeforeG();
    assert Plain(subs[0]) && Plain(subs[1]) && Plain(subs[2]) && Plain(subs[3]);
    assert Plain(subs[4]) && Plain(subs[5]) && Plain(subs[6]) && Plain(subs[7]);
    hide Plain;
  }

  lemma BetweenGsPlain()
    ensures AllPlain(BetweenGs())
  {
    var subs := BetweenGs();
    assert Plain(subs[0]) && Plain(subs[1]) && Plain(subs[2]) && Plain(subs[3]) && Plain(subs[4]);
    assert Plain(subs[5]) && Plain(subs[6]) && Plain(subs[7]) && Plain(subs[8]);
    hide Plain;
  }

  lemma AfterGsPlain()
    ensures AllPlain(AfterGs())
  {
    var subs := AfterGs();
    assert Plain(subs[0]) && Plain(subs[1]) && Plain(subs[2]) && Plain(subs[3]) && Plain(subs[4]) && Plain(subs[5]);
    hide Plain;
  }

  lemma SubstitutionsArePlain()
    ensures AllPlain(Substitutions())
  {
    BeforeGPlain();
    BetweenGsPlain();
    AfterGsPlain();
    assert Plain(G) && Plain(CAPITAL_G);
    hide BeforeG, BetweenGs, AfterGs, Plain;
  }

  predicate Covers(sub: Substitution, c: char) {
    sub.EachOf? && c in sub.chars
  }

  lemma {:induction false} FoldsByFirst(c: char, subs: seq<Substitution>, k: nat)
    requires AllPlain(subs) && k <= |subs| && forall j | 0 <= j < k :: !Covers(subs[j], c)
    ensures k == |subs| ==> FoldAll(c, subs) == c
    ensures k < |subs| && Covers(subs[k], c) ==> FoldAll(c, subs) == subs[k].to
    decreases |subs|
  {
    if subs != [] {
      assert forall j | 0 <= j < |subs[1..]| :: subs[1..][j] == subs[j + 1];
      if k > 0 {
        FoldsByFirst(c, subs[1..], k - 1);
      } else if Covers(subs[0], c) {
        AsciiStays(subs[0].to, subs[1..]);
      }
    }
  }

  lemma {:induction false} AsciiStays(c: char, subs: seq<Substitution>)
    requires AllPlain(subs) && c < '\U{0080}'
    ensures FoldAll(c, subs) == c
    decreases |subs|
  {
    if subs != [] {
      assert Plain(subs[0]) && !Covers(subs[0], c);
      assert forall j | 0 <= j < |subs[1..]| :: subs[1..][j] == subs[j + 1];
      AsciiStays(c, subs[1..]);
    }
  }

  /** Each character becomes what the first substitution that covers it says, and stays itself otherwise. */
  lemma SimplifiedByTable(text: string, i: nat, k: nat)
    requires i < |text| && k <= |Substitutions()| && forall j | 0 <= j < k :: !Covers(Substitutions()[j], text[i])
    ensures k == |Substitutions()| ==> SimplifyAll(text)[i] == text[i]
    ensures k < |Substitutions()| && Covers(Substitutions()[k], text[i]) ==>
              SimplifyAll(text)[i] == Substitutions()[k].to
  {
    SubstitutionsArePlain();
    hide Substitutions, Covers, AllPlain;
    FoldsByFirst(text[i], Substitutions(), k);
  }

  // ---------------------------------------------------------------- the whole preprocessing

  const RULES: seq<Rule> := [
    ("\n", ".\n "),
    ("..\n ", ".\n "),
    (". .\n ", ".\n "),
    ("  ", " "),
    ("\\n", " "),
    ("\\n\\n", " ")]

  datatype Preprocessed = Preprocessed(chars: string, mapping: seq<nat>)

  datatype LengthChanged = LengthChanged

  /** Cells of the preprocessed text, relative to the simplified original. */
  function PreprocessCells(text: string): seq<Cell> {
    ChainCells(Initial(SimplifyAll(text)), RULES)
  }

  /** One substitution after another. */
  method Normalize(text: string) returns (r: string)
    ensures r == SubstituteAll(text, Substitutions())
  {
    hide Substitutions, Substitute;
    r := text;
    var k := 0;
    while k < |Substitutions()|
      invariant 0 <= k <= |Substitutions()|
      invariant SubstituteAll(r, Substitutions()[k..]) == SubstituteAll(text, Substitutions())
    {
      assert Substitutions()[k..][1..] == Substitutions()[k + 1..];
      r := Substitute(r, Substitutions()[k]);
      k := k + 1;
    }
  }

  /** Refuses a text whose length the substitutions change; otherwise replaces rule by rule. */
  method PreprocessWithMapping(text: string) returns (r: Result<Preprocessed, LengthChanged>)
    ensures r.Err? <==> HasShrinkingPair(text)
    ensures r.Ok? ==> r.value.chars == ChainText(SimplifyAll(text), RULES)
    ensures r.Ok? ==> Describes(r.value.chars, r.value.mapping, PreprocessCells(text), |text|)
    ensures r.Ok? ==> && |r.value.mapping| == |r.value.chars| + 1
                      && r.value.mapping[0] == 0
                      && r.value.mapping[|r.value.chars|] == |text|
                      && NonDecreasing(r.value.mapping)
  {
    hide SubstituteAll, SimplifyAll, HasShrinkingPair, Substitutions;
    LengthChangesOnlyByPairs(text);
    var simplified := Normalize(text);
    if |simplified| != |text| {
      return Err(LengthChanged);
    }
    var chars: string, mapping: seq<nat> := simplified, seq(|simplified| + 1, i => i);
    ghost var cells := Initial(simplified);
    var i := 0;
    while i < |RULES|
      invariant 0 <= i <= |RULES|
      invariant Describes(chars, mapping, cells, |text|)
      invariant ChainCells(cells, RULES[i..]) == PreprocessCells(text)
    {
      chars, mapping := ApplyReplaceWithMapping(chars, mapping, RULES[i].0, RULES[i].1, cells, |text|);
      cells := ReplaceCells(cells, RULES[i].0, RULES[i].1);
      assert RULES[i..][1..] == RULES[i + 1..];
      i := i + 1;
    }
    OffsetsAreSound(simplified, RULES);
    return Ok(Preprocessed(chars, mapping));
  }

  /** A span no rule touched: the original slice is the span, up to the in-place simplification. */
  lemma PreprocessedSpansAreVerbatim(text: string, start: nat, end: nat)
    requires start <= end <= |PreprocessCells(text)|
    requires forall i :: start <= i < end ==> PreprocessCells(text)[i].kept
    ensures var m := Positions(PreprocessCells(text), |text|);
            && m[start] <= m[end] <= |text|
            && SimplifyAll(text[m[start]..m[end]]) == Chars(PreprocessCells(text))[start..end]
  {
    hide Substitutions;
    var cells, m := PreprocessCells(text), Positions(PreprocessCells(text), |text|);
    InitialCells(SimplifyAll(text), RULES);
    UntouchedSpansAreVerbatim(cells, SimplifyAll(text), start, end);
    MapCharsSlice(text, FoldingAll(Substitutions()), m[start], m[end]);
  }

  /**
   What the caller gets: a span that no rule touched, with its ends translated, cuts the span out of
   the text that was passed in, up to the in-place simplification.
   */
  lemma TranslatedSpansAreVerbatim(text: string, start: nat, end: nat)
    requires start <= end <= |PreprocessCells(text)|
    requires forall i :: start <= i < end ==> PreprocessCells(text)[i].kept
    ensures var m := Positions(PreprocessCells(text), |text|);
            var (from, to) := TranslateSpan(Some(start), Some(end), m);
            && from.Some? && to.Some? && 0 <= from.value <= to.value <= |text|
            && SimplifyAll(text[from.value..to.value]) == Chars(PreprocessCells(text))[start..end]
  {
    hide Substitutions, PreprocessCells, SimplifyAll;
    var cells, m := PreprocessCells(text), Positions(PreprocessCells(text), |text|);
    PreprocessedSpansAreVerbatim(text, start, end);
    PreprocessedPositionsRise(text);
    SpansAreTranslated(m, start, end);
  }

  lemma PreprocessedPositionsRise(text: string)
    ensures NonDecreasing(Positions(PreprocessCells(text), |text|))
  {
    hide Substitutions;
    OffsetsAreSound(SimplifyAll(text), RULES);
  }

  // ---------------------------------------------------------------- the last rule

  lemma {:induction false} ReplacedPairIsGone(s: string, a: char, b: char, c: char)
    requires a != b && c != a && c != b
    ensures NoPair(ReplaceText(s, [a, b], [c]), a, b)
    ensures var r := ReplaceText(s, [a, b], [c]); r != [] && r[0] == b ==> s != [] && s[0] == b
  {
    if s != [] {
      if [a, b] <= s {
        ReplacedPairIsGone(s[2..], a, b, c);
      } else {
        ReplacedPairIsGone(s[1..], a, b, c);
        assert s[0] == a && |s| > 1 && s[1] == b ==> [a, b] <= s;
      }
    }
  }

  lemma {:induction false} ChainEnd(s: string, rules: seq<Rule>, n: nat)
    requires n < |rules|
    ensures ChainText(s, rules[..n + 1]) == ReplaceText(ChainText(s, rules[..n]), rules[n].0, rules[n].1)
    decreases |rules|
  {
    if n > 0 {
      assert rules[..n + 1][1..] == rules[1..][..n] && rules[..n][1..] == rules[1..][..n - 1];
      ChainEnd(ReplaceText(s, rules[0].0, rules[0].1), rules[1..], n - 1);
    } else {
      assert rules[..1][1..] == [];
    }
  }

  /** The sixth rule never finds anything: the fifth has replaced every occurrence it could match. */
  lemma LastRuleIsIdle(s: string)
    ensures ChainText(s, RULES) == ChainText(s, RULES[..5])
  {
    ChainEnd(s, RULES, 4);
    ChainEnd(s, RULES, 5);
    assert RULES[..6] == RULES;
    ReplacedPairIsGone(ChainText(s, RULES[..4]), '\\', 'n', ' ');
    NothingToReplace(ChainText(s, RULES[..5]), RULES[5].0, RULES[5].1);
  }
}
