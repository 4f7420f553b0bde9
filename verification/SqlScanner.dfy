/**
 The scan of a SQL text for calls of external reader functions, against a declarative tokenizer.

 `IsToken` says when a piece of text is a complete token, given what follows it, and `Tokenizes`
 reads a whole text as such tokens. Every text has exactly one tokenization; `Tokens` computes it.
 The scanning loops never build tokens. They move an index forward, and are proved to reach the
 answer that the tokens give: a reader's name, then blanks and comments only, then an opening
 parenthesis. Strings, quoted identifiers and comments may be left open at the end of the text.
 Because completeness looks at the next character only, a comment can always become a blank.
 */
module SqlScanner {
  import opened Common

  /** The character classes the scanner asks for; their tables are not part of this model. */
  datatype Alphabet = Alphabet(alpha: char -> bool, alnum: char -> bool, space: char -> bool)

  ghost predicate ValidAlphabet(a: Alphabet) {
    && (forall c :: a.alpha(c) ==> a.alnum(c))
    && (forall c :: a.alnum(c) ==> c !in "'\"-/(")
    && (forall c :: a.space(c) ==> !a.alnum(c) && c !in "'\"-/(_")
    && a.space(' ')
  }

  predicate WordStart(a: Alphabet, c: char) {
    a.alpha(c) || c == '_'
  }

  predicate WordChar(a: Alphabet, c: char) {
    a.alnum(c) || c == '_'
  }

  // ---------------------------------------------------------------- tokens

  /** Strings, quoted identifiers and comments may be left open at the end of the text. */
  datatype Token =
    | Space(c: char)
    | Word(name: string)
    | Quoted(quote: char, body: string, closed: bool)
    | LineComment(body: string, closed: bool)
    | BlockComment(body: string, closed: bool)
    | Other(c: char)

  function Text(t: Token): (r: string)
  {
    match t
    case Space(c) => [c]
    case Word(name) => name
    case Quoted(q, body, closed) => [q] + body + if closed then [q] else []
    case LineComment(body, closed) => "--" + body + if closed then "\n" else ""
    case BlockComment(body, closed) => "/*" + body + if closed then "*/" else ""
    case Other(c) => [c]
  }

  /** Quote characters occur in body only doubled. */
  ghost predicate Doubled(body: string, q: char)
    decreases |body|
  {
    || body == []
    || (body[0] != q && Doubled(body[1..], q))
    || (|body| >= 2 && body[0] == q && body[1] == q && Doubled(body[2..], q))
  }

  ghost predicate NoClose(body: string) {
    forall i :: 0 <= i < |body| - 1 ==> !Closes(body, i)
  }

  predicate StartsWith(s: string, c: char) {
    s != [] && s[0] == c
  }

  /** t is a complete token when the text goes on with rest. */
  ghost predicate IsToken(a: Alphabet, t: Token, rest: string) {
    match t
    case Space(c) => a.space(c)
    case Word(name) =>
      && name != [] && WordStart(a, name[0]) && (forall i :: 0 <= i < |name| ==> WordChar(a, name[i]))
      && (rest == [] || !WordChar(a, rest[0]))
    case Quoted(q, body, closed) =>
      && q in "'\"" && Doubled(body, q)
      && if closed then !StartsWith(rest, q) else rest == []
    case LineComment(body, closed) => '\n' !in body && (closed || rest == [])
    case BlockComment(body, closed) => if closed then NoClose(body + "*") else NoClose(body) && rest == []
    case Other(c) =>
      && !a.space(c) && !WordStart(a, c) && c !in "'\""
      && !(c == '-' && StartsWith(rest, '-'))
      && !(c == '/' && StartsWith(rest, '*'))
  }

  /** toks reads s from left to right, every token complete where it stands. */
  ghost predicate Tokenizes(a: Alphabet, toks: seq<Token>, s: string) {
    if toks == [] then s == []
    else
      && Text(toks[0]) <= s
      && IsToken(a, toks[0], s[|Text(toks[0])|..])
      && Tokenizes(a, toks[1..], s[|Text(toks[0])|..])
  }

  // ---------------------------------------------------------------- reader calls

  /** Whether c is the given letter in either case; the long s counts as an s. */
  predicate IsLetter(c: char, lower: char) {
    c == lower || ('a' <= lower <= 'z' && c as int == lower as int - 32) || (lower == 's' && c == '\U{017F}')
  }

  predicate NameChar(c: char) {
    'a' <= c <= 'z' || 'A' <= c <= 'Z' || '0' <= c <= '9' || c == '_'
    || c == '\U{017F}' || c == '\U{212A}' || c == '\U{0130}' || c == '\U{0131}'
  }

  predicate SpelledAs(s: string, lower: string) {
    |s| == |lower| && forall i :: 0 <= i < |s| ==> IsLetter(s[i], lower[i])
  }

  /** read_ or scan_ in any case, followed by letters, digits and underscores. */
  predicate IsReader(name: string) {
    && |name| >= 5
    && (SpelledAs(name[..5], "read_") || SpelledAs(name[..5], "scan_"))
    && forall i :: 5 <= i < |name| ==> NameChar(name[i])
  }

  predicate IsTrivia(t: Token) {
    t.Space? || t.LineComment? || t.BlockComment?
  }

  /** A reader-named identifier whose next token, trivia aside, is an opening parenthesis. */
  ghost predicate HasReaderCall(toks: seq<Token>) {
    exists i, j :: CallAt(toks, i, j)
  }

  ghost predicate CallAt(toks: seq<Token>, i: int, j: int) {
    && 0 <= i < j < |toks|
    && toks[i].Word? && IsReader(toks[i].name)
    && (forall k :: i < k < j ==> IsTrivia(toks[k]))
    && toks[j] == Other('(')
  }

  function DropTrivia(toks: seq<Token>): seq<Token> {
    if toks != [] && IsTrivia(toks[0]) then DropTrivia(toks[1..]) else toks
  }

  predicate CallsFirst(toks: seq<Token>) {
    && toks != [] && toks[0].Word? && IsReader(toks[0].name)
    && DropTrivia(toks[1..]) != [] && DropTrivia(toks[1..])[0] == Other('(')
  }

  predicate Calls(toks: seq<Token>) {
    toks != [] && (CallsFirst(toks) || Calls(toks[1..]))
  }

  // ---------------------------------------------------------------- the tokenizer

  /** The first newline at or after from, or -1. */
  function FindNewline(s: string, from: nat): (r: int)
    requires from <= |s|
    ensures r == -1 ==> forall i :: from <= i < |s| ==> s[i] != '\n'
    ensures r != -1 ==> from <= r < |s| && s[r] == '\n' && forall i :: from <= i < r ==> s[i] != '\n'
    decreases |s| - from
  {
    if from == |s| then -1 else if s[from] == '\n' then from else FindNewline(s, from + 1)
  }

  predicate Closes(s: string, i: int)
    requires 0 <= i < |s| - 1
  {
    s[i] == '*' && s[i + 1] == '/'
  }

  /** The first end of a block comment at or after from, or -1. */
  function FindClose(s: string, from: nat): (r: int)
    requires from <= |s|
    ensures r == -1 ==> forall i :: from <= i < |s| - 1 ==> !Closes(s, i)
    ensures r != -1 ==> from <= r < |s| - 1 && Closes(s, r) && forall i :: from <= i < r ==> !Closes(s, i)
    decreases |s| - from
  {
    if |s| - from < 2 then -1 else if Closes(s, from) then from else FindClose(s, from + 1)
  }

  /** The body of a quoted token after its opening quote, and whether it is closed. */
  function QuotedBody(s: string, q: char): (string, bool)
    decreases |s|
  {
    if s == [] then ([], false)
    else if s[0] != q then
      var (b, c) := QuotedBody(s[1..], q);
      ([s[0]] + b, c)
    else if |s| >= 2 && s[1] == q then
      var (b, c) := QuotedBody(s[2..], q);
      ([q, q] + b, c)
    else ([], true)
  }

  lemma {:induction false} QuotedBodyFits(s: string, q: char)
    ensures var (b, closed) := QuotedBody(s, q);
            && Doubled(b, q) && b <= s
            && if closed then |b| < |s| && s[|b|] == q && !StartsWith(s[|b| + 1..], q) else b == s
    decreases |s|
  {
    if s != [] && s[0] != q {
      QuotedBodyFits(s[1..], q);
      var (b, closed) := QuotedBody(s[1..], q);
      assert ([s[0]] + b)[1..] == b;
      assert closed ==> s[|b| + 2..] == s[1..][|b| + 1..];
    } else if |s| >= 2 && s[1] == q {
      QuotedBodyFits(s[2..], q);
      var (b, closed) := QuotedBody(s[2..], q);
      assert ([q, q] + b)[2..] == b;
      assert closed ==> s[|b| + 3..] == s[2..][|b| + 1..];
    }
  }

  function WordLength(a: Alphabet, s: string): (n: nat)
    ensures n <= |s| && (forall i :: 0 <= i < n ==> WordChar(a, s[i]))
    ensures n < |s| ==> !WordChar(a, s[n])
  {
    if s == [] || !WordChar(a, s[0]) then 0 else 1 + WordLength(a, s[1..])
  }

  function FirstToken(a: Alphabet, s: string): Token
    requires s != []
  {
    if s[0] in "'\"" then
      var (b, c) := QuotedBody(s[1..], s[0]);
      Quoted(s[0], b, c)
    else if "--" <= s then
      var n := FindNewline(s, 2);
      if n == -1 then LineComment(s[2..], false) else LineComment(s[2..n], true)
    else if "/*" <= s then
      var n := FindClose(s, 2);
      if n == -1 then BlockComment(s[2..], false) else BlockComment(s[2..n], true)
    else if WordStart(a, s[0]) then Word(s[..1 + WordLength(a, s[1..])])
    else if a.space(s[0]) then Space(s[0])
    else Other(s[0])
  }

  lemma FirstTokenFits(a: Alphabet, s: string)
    requires ValidAlphabet(a) && s != []
    ensures var t := FirstToken(a, s);
            0 < |Text(t)| <= |s| && Text(t) <= s && IsToken(a, t, s[|Text(t)|..])
  {
    if s[0] in "'\"" {
      QuotedFits(a, s);
    } else if "--" <= s {
      LineFits(a, s);
    } else if "/*" <= s {
      BlockFits(a, s);
    } else if WordStart(a, s[0]) {
      WordFits(a, s);
    }
  }

  ghost predicate Fits(a: Alphabet, t: Token, s: string) {
    0 < |Text(t)| <= |s| && Text(t) <= s && IsToken(a, t, s[|Text(t)|..])
  }

  lemma QuotedFits(a: Alphabet, s: string)
    requires s != [] && s[0] in "'\""
    ensures Fits(a, FirstToken(a, s), s)
  {
    var (b, c) := QuotedBody(s[1..], s[0]);
    QuotedBodyFits(s[1..], s[0]);
    var n := 1 + |b| + if c then 1 else 0;
    assert s[..n] == [s[0]] + b + if c then [s[0]] else [];
    assert c ==> s[n..] == s[1..][|b| + 1..];
  }

  lemma WordFits(a: Alphabet, s: string)
    requires ValidAlphabet(a) && s != [] && WordStart(a, s[0])
    ensures Fits(a, Word(s[..1 + WordLength(a, s[1..])]), s)
  {
    var n := 1 + WordLength(a, s[1..]);
    forall i | 0 <= i < n ensures WordChar(a, s[i]) {
      assert i > 0 ==> s[i] == s[1..][i - 1];
    }
    assert n < |s| ==> s[n] == s[1..][n - 1];
  }

  lemma LineFits(a: Alphabet, s: string)
    requires "--" <= s
    ensures Fits(a, FirstToken(a, s), s)
  {
    var n := FindNewline(s, 2);
    assert s[0] == '-' && s[1] == '-';
    if n == -1 {
      assert s == "--" + s[2..] + "";
    } else {
      assert s[..n + 1] == "--" + s[2..n] + "\n";
    }
  }

  lemma BlockFits(a: Alphabet, s: string)
    requires "/*" <= s
    ensures Fits(a, FirstToken(a, s), s)
  {
    var n := FindClose(s, 2);
    assert s[0] == '/' && s[1] == '*';
    if n == -1 {
      assert s == "/*" + s[2..] + "";
      forall i | 0 <= i < |s[2..]| - 1 ensures !Closes(s[2..], i) {
        assert !Closes(s, i + 2);
      }
    } else {
      assert s[..n + 2] == "/*" + s[2..n] + "*/";
      var body := s[2..n] + "*";
      forall i | 0 <= i < |body| - 1 ensures !Closes(body, i) {
        assert !Closes(s, i + 2);
      }
    }
  }

  function Tokens(a: Alphabet, s: string): seq<Token>
    requires ValidAlphabet(a)
    decreases |s|
  {
    if s == [] then []
    else
      FirstTokenFits(a, s);
      var t := FirstToken(a, s);
      [t] + Tokens(a, s[|Text(t)|..])
  }

  // ---------------------------------------------------------------- exactly one tokenization

  /** after is what follows the body: the closing quote and the rest, or nothing. */
  ghost predicate EndsQuoted(q: char, closed: bool, after: string) {
    if closed then after != [] && after[0] == q && !StartsWith(after[1..], q) else after == []
  }

  lemma QuotedBodySkips(body: string, q: char, closed: bool, after: string)
    requires body != [] && body[0] != q && QuotedBody(body[1..] + after, q) == (body[1..], closed)
    ensures QuotedBody(body + after, q) == (body, closed)
  {
    assert (body + after)[1..] == body[1..] + after;
    assert body == [body[0]] + body[1..];
  }

  lemma QuotedBodySkipsPair(body: string, q: char, closed: bool, after: string)
    requires |body| >= 2 && body[0] == q && body[1] == q
    requires QuotedBody(body[2..] + after, q) == (body[2..], closed)
    ensures QuotedBody(body + after, q) == (body, closed)
  {
    assert (body + after)[2..] == body[2..] + after;
    assert body == [q, q] + body[2..];
  }

  lemma {:induction false} QuotedBodyUnique(body: string, q: char, closed: bool, after: string)
    requires Doubled(body, q) && EndsQuoted(q, closed, after)
    ensures QuotedBody(body + after, q) == (body, closed)
    decreases |body|
  {
    if body == [] {
      assert body + after == after;
    } else {
      hide QuotedBody, EndsQuoted;
      if body[0] != q {
        QuotedBodyUnique(body[1..], q, closed, after);
        QuotedBodySkips(body, q, closed, after);
      } else {
        QuotedBodyUnique(body[2..], q, closed, after);
        QuotedBodySkipsPair(body, q, closed, after);
      }
    }
  }

  lemma {:induction false} WordLengthUnique(a: Alphabet, w: string, rest: string)
    requires (forall i :: 0 <= i < |w| ==> WordChar(a, w[i])) && (rest == [] || !WordChar(a, rest[0]))
    ensures WordLength(a, w + rest) == |w|
  {
    if w == [] {
      assert w + rest == rest;
    } else {
      assert (w + rest)[1..] == w[1..] + rest;
      WordLengthUnique(a, w[1..], rest);
    }
  }

  lemma LineUnique(a: Alphabet, body: string, closed: bool, rest: string)
    requires IsToken(a, LineComment(body, closed), rest)
    ensures FirstToken(a, Text(LineComment(body, closed)) + rest) == LineComment(body, closed)
  {
    var s := Text(LineComment(body, closed)) + rest;
    assert s[..2] == "--" && s[2..2 + |body|] == body;
    forall i | 2 <= i < 2 + |body| ensures s[i] != '\n' {
      assert s[i] == body[i - 2];
    }
    if closed {
      assert s[2 + |body|] == '\n';
    } else {
      assert s[2..] == body;
    }
  }

  lemma BlockUnique(a: Alphabet, body: string, closed: bool, rest: string)
    requires IsToken(a, BlockComment(body, closed), rest)
    ensures FirstToken(a, Text(BlockComment(body, closed)) + rest) == BlockComment(body, closed)
  {
    var s := Text(BlockComment(body, closed)) + rest;
    var inner := if closed then body + "*" else body;
    assert s[..2] == "/*" && s[2..2 + |body|] == body;
    forall i | 2 <= i < 1 + |inner| ensures !Closes(s, i) {
      assert !Closes(inner, i - 2);
    }
    if closed {
      assert Closes(s, 2 + |body|);
    } else {
      assert s[2..] == body;
    }
  }

  lemma QuotedUnique(a: Alphabet, q: char, body: string, closed: bool, rest: string)
    requires IsToken(a, Quoted(q, body, closed), rest)
    ensures FirstToken(a, Text(Quoted(q, body, closed)) + rest) == Quoted(q, body, closed)
  {
    hide Doubled, QuotedBody;
    var s := Text(Quoted(q, body, closed)) + rest;
    var after := (if closed then [q] else []) + rest;
    assert closed ==> after[1..] == rest;
    QuotedBodyUnique(body, q, closed, after);
    assert s[0] == q && s[1..] == body + after;
  }

  lemma WordUnique(a: Alphabet, name: string, rest: string)
    requires ValidAlphabet(a) && IsToken(a, Word(name), rest)
    ensures FirstToken(a, name + rest) == Word(name)
  {
    var s := name + rest;
    assert s[0] == name[0] && s[1..] == name[1..] + rest;
    WordLengthUnique(a, name[1..], rest);
    assert s[..|name|] == name;
  }

  /** A complete token is the one the tokenizer finds. */
  lemma FirstTokenUnique(a: Alphabet, t: Token, rest: string)
    requires ValidAlphabet(a) && IsToken(a, t, rest)
    ensures Text(t) + rest != [] && FirstToken(a, Text(t) + rest) == t
  {
    match t
    case Quoted(q, body, closed) => QuotedUnique(a, q, body, closed, rest);
    case LineComment(body, closed) => LineUnique(a, body, closed, rest);
    case BlockComment(body, closed) => BlockUnique(a, body, closed, rest);
    case Word(name) => WordUnique(a, name, rest);
    case Space(c) =>
    case Other(c) =>
      assert (Text(t) + rest)[1..] == rest;
  }

  /** Every text has exactly one tokenization. */
  lemma {:induction false} TokenizationIsUnique(a: Alphabet, toks: seq<Token>, s: string)
    requires ValidAlphabet(a)
    ensures Tokenizes(a, toks, s) <==> toks == Tokens(a, s)
    decreases |toks|
  {
    hide FirstToken, IsToken, Text;
    if toks != [] {
      var n := |Text(toks[0])|;
      if Text(toks[0]) <= s && IsToken(a, toks[0], s[n..]) {
        FirstTokenUnique(a, toks[0], s[n..]);
        assert s == Text(toks[0]) + s[n..];
      }
      if s != [] {
        FirstTokenFits(a, s);
        if toks[0] == FirstToken(a, s) {
          TokenizationIsUnique(a, toks[1..], s[n..]);
          assert toks == [toks[0]] + toks[1..];
        }
      }
    }
  }

  /** The recursive reading of a token list agrees with the declarative one. */
  lemma {:induction false} DropTriviaFinds(toks: seq<Token>, n: nat)
    requires n <= |toks| && (forall k :: 0 <= k < n ==> IsTrivia(toks[k]))
    requires n < |toks| ==> !IsTrivia(toks[n])
    ensures DropTrivia(toks) == toks[n..]
  {
    if n > 0 {
      DropTriviaFinds(toks[1..], n - 1);
    }
  }

  lemma {:induction false} TriviaLength(toks: seq<Token>) returns (n: nat)
    ensures n <= |toks| && (forall k :: 0 <= k < n ==> IsTrivia(toks[k]))
    ensures n < |toks| ==> !IsTrivia(toks[n])
    ensures DropTrivia(toks) == toks[n..]
  {
    n := 0;
    if toks != [] && IsTrivia(toks[0]) {
      var m := TriviaLength(toks[1..]);
      n := m + 1;
    }
  }

  lemma CallsFirstMeans(toks: seq<Token>)
    ensures CallsFirst(toks) <==> exists j :: CallAt(toks, 0, j)
  {
    if toks != [] {
      var n := TriviaLength(toks[1..]);
      assert forall k :: 0 < k <= n ==> toks[k] == toks[1..][k - 1];
      if CallsFirst(toks) {
        assert toks[1 + n] == toks[1..][n];
        assert CallAt(toks, 0, 1 + n);
      }
      if j :| CallAt(toks, 0, j) {
        assert forall k :: 0 <= k < j - 1 ==> toks[1..][k] == toks[k + 1];
        DropTriviaFinds(toks[1..], j - 1);
      }
    }
  }

  lemma {:induction false} CallsMeans(toks: seq<Token>)
    ensures Calls(toks) <==> HasReaderCall(toks)
  {
    if toks != [] {
      CallsFirstMeans(toks);
      CallsMeans(toks[1..]);
      if i, j :| CallAt(toks[1..], i, j) {
        assert forall k :: i < k < j ==> toks[k + 1] == toks[1..][k];
        assert forall k :: i + 1 < k < j + 1 ==> toks[k] == toks[1..][k - 1];
        assert CallAt(toks, i + 1, j + 1);
      }
      if i, j :| CallAt(toks, i, j) && i > 0 {
        assert forall k :: i - 1 < k < j - 1 ==> toks[1..][k] == toks[k + 1];
        assert CallAt(toks[1..], i - 1, j - 1);
      }
    }
  }

  /** Whether a text calls an external reader. */
  predicate CallsReader(a: Alphabet, s: string)
    requires ValidAlphabet(a)
  {
    Calls(Tokens(a, s))
  }

  /** The answer is about the one tokenization of the text. */
  lemma CallsReaderMeans(a: Alphabet, s: string, toks: seq<Token>)
    requires ValidAlphabet(a) && Tokenizes(a, toks, s)
    ensures CallsReader(a, s) <==> HasReaderCall(toks)
  {
    TokenizationIsUnique(a, toks, s);
    CallsMeans(toks);
  }

  // ---------------------------------------------------------------- the scanning loops

  /** How many characters a quoted token takes after its opening quote. */
  function QuotedSpan(s: string, q: char): nat {
    var (b, closed) := QuotedBody(s, q);
    |b| + if closed then 1 else 0
  }

  lemma QuotedSpanStep(s: string, q: char)
    requires s != []
    ensures s[0] != q ==> QuotedSpan(s, q) == 1 + QuotedSpan(s[1..], q)
    ensures s[0] == q && StartsWith(s[1..], q) ==> QuotedSpan(s, q) == 2 + QuotedSpan(s[2..], q)
    ensures s[0] == q && !StartsWith(s[1..], q) ==> QuotedSpan(s, q) == 1
  {
  }

  method SkipQuoted(sql: string, start: nat, quote: char) returns (end: nat)
    requires start < |sql| && sql[start] == quote
    ensures start < end <= |sql|
    ensures end == start + 1 + QuotedSpan(sql[start + 1..], quote)
  {
    hide QuotedSpan, QuotedBody;
    var index := start + 1;
    while index < |sql|
      invariant start < index <= |sql|
      invariant index + QuotedSpan(sql[index..], quote) == start + 1 + QuotedSpan(sql[start + 1..], quote)
    {
      QuotedSpanStep(sql[index..], quote);
      if sql[index] != quote {
        assert sql[index..][1..] == sql[index + 1..];
        index := index + 1;
        continue;
      }
      if index + 1 < |sql| && sql[index + 1] == quote {
        assert sql[index..][2..] == sql[index + 2..];
        index := index + 2;
        continue;
      }
      return index + 1;
    }
    NothingQuoted(quote);
    assert sql[index..] == [];
    return |sql|;
  }

  lemma NothingQuoted(q: char)
    ensures QuotedSpan([], q) == 0
  {
  }

  lemma TokensStep(a: Alphabet, s: string)
    requires ValidAlphabet(a) && s != []
    ensures var n := |Text(FirstToken(a, s))|;
            0 < n <= |s| && Tokens(a, s) == [FirstToken(a, s)] + Tokens(a, s[n..])
  {
    FirstTokenFits(a, s);
  }

  lemma {:induction false} FindNewlineShift(s: string, k: nat, from: nat)
    requires k + from <= |s|
    ensures FindNewline(s, k + from) == if FindNewline(s[k..], from) == -1 then -1 else k + FindNewline(s[k..], from)
    decreases |s| - k - from
  {
    if k + from < |s| {
      assert s[k..][from] == s[k + from];
      FindNewlineShift(s, k, from + 1);
    }
  }

  lemma {:induction false} FindCloseShift(s: string, k: nat, from: nat)
    requires k + from <= |s|
    ensures FindClose(s, k + from) == if FindClose(s[k..], from) == -1 then -1 else k + FindClose(s[k..], from)
    decreases |s| - k - from
  {
    if k + from < |s| - 1 {
      assert Closes(s[k..], from) == Closes(s, k + from);
      FindCloseShift(s, k, from + 1);
    }
  }

  /** The end of the comment that starts at index, as the scanner computes it. */
  function CommentEnd(sql: string, index: nat): nat
    requires index + 2 <= |sql|
  {
    if sql[index] == '-' then
      var newline := FindNewline(sql, index + 2);
      if newline == -1 then |sql| else newline + 1
    else
      var end := FindClose(sql, index + 2);
      if end == -1 then |sql| else end + 2
  }

  lemma CommentShift(sql: string, index: nat)
    requires index + 2 <= |sql|
    ensures CommentEnd(sql, index) == index + CommentEnd(sql[index..], 0)
  {
    FindNewlineShift(sql, index, 2);
    FindCloseShift(sql, index, 2);
    assert sql[index..][0] == sql[index];
  }

  lemma CommentEnds(a: Alphabet, sql: string, index: nat)
    requires ValidAlphabet(a) && index + 2 <= |sql|
    requires (sql[index] == '-' && sql[index + 1] == '-') || (sql[index] == '/' && sql[index + 1] == '*')
    ensures index < CommentEnd(sql, index) <= |sql|
    ensures IsTrivia(FirstToken(a, sql[index..]))
    ensures Tokens(a, sql[index..]) == [FirstToken(a, sql[index..])] + Tokens(a, sql[CommentEnd(sql, index)..])
  {
    hide Tokens, Text, FirstToken, CommentEnd, IsTrivia;
    var s := sql[index..];
    TokensStep(a, s);
    assert s[0] == sql[index] && s[1] == sql[index + 1];
    CommentShift(sql, index);
    CommentLength(a, s);
    var n := |Text(FirstToken(a, s))|;
    assert s[n..] == sql[index + n..];
  }

  lemma CommentLength(a: Alphabet, s: string)
    requires "--" <= s || "/*" <= s
    ensures IsTrivia(FirstToken(a, s)) && |Text(FirstToken(a, s))| == CommentEnd(s, 0)
  {
  }

  /** Skips blanks and comments; what is left starts with the next token that matters, if any. */
  method SkipSqlTrivia(a: Alphabet, sql: string, start: nat) returns (end: nat)
    requires ValidAlphabet(a) && start <= |sql|
    ensures start <= end <= |sql|
    ensures Tokens(a, sql[end..]) == DropTrivia(Tokens(a, sql[start..]))
  {
    hide Tokens, FirstToken, Text, CommentEnd;
    var index := start;
    while index < |sql|
      invariant start <= index <= |sql|
      invariant DropTrivia(Tokens(a, sql[index..])) == DropTrivia(Tokens(a, sql[start..]))
    {
      if a.space(sql[index]) {
        SingleToken(a, sql, index);
        index := index + 1;
        continue;
      }
      if sql[index] == '-' && index + 1 < |sql| && sql[index + 1] == '-' {
        CommentEnds(a, sql, index);
        CommentEndIs(sql, index);
        var newline := FindNewline(sql, index + 2);
        index := if newline == -1 then |sql| else newline + 1;
        continue;
      }
      if sql[index] == '/' && index + 1 < |sql| && sql[index + 1] == '*' {
        CommentEnds(a, sql, index);
        CommentEndIs(sql, index);
        var close := FindClose(sql, index + 2);
        index := if close == -1 then |sql| else close + 2;
        continue;
      }
      NotTrivia(a, sql, index);
      return index;
    }
    NoTokens(a);
    assert sql[index..] == [];
    return index;
  }

  lemma NoTokens(a: Alphabet)
    requires ValidAlphabet(a)
    ensures Tokens(a, []) == []
  {
  }

  lemma CommentEndIs(sql: string, index: nat)
    requires index + 2 <= |sql|
    ensures sql[index] == '-' ==>
              CommentEnd(sql, index)
              == if FindNewline(sql, index + 2) == -1 then |sql| else FindNewline(sql, index + 2) + 1
    ensures sql[index] == '/' ==>
              CommentEnd(sql, index)
              == if FindClose(sql, index + 2) == -1 then |sql| else FindClose(sql, index + 2) + 2
  {
  }

  /** Blanks and plain characters are tokens of their own. */
  lemma SingleToken(a: Alphabet, sql: string, index: nat)
    requires ValidAlphabet(a) && index < |sql|
    requires sql[index] !in "'\"" && !WordStart(a, sql[index])
    requires !(sql[index] == '-' && index + 1 < |sql| && sql[index + 1] == '-')
    requires !(sql[index] == '/' && index + 1 < |sql| && sql[index + 1] == '*')
    ensures var t := if a.space(sql[index]) then Space(sql[index]) else Other(sql[index]);
            Tokens(a, sql[index..]) == [t] + Tokens(a, sql[index + 1..])
  {
    var s := sql[index..];
    TokensStep(a, s);
    assert s[0] == sql[index] && (|s| > 1 ==> s[1] == sql[index + 1]);
    assert s[1..] == sql[index + 1..];
  }

  lemma NotTrivia(a: Alphabet, sql: string, index: nat)
    requires ValidAlphabet(a) && index < |sql| && !a.space(sql[index])
    requires !(sql[index] == '-' && index + 1 < |sql| && sql[index + 1] == '-')
    requires !(sql[index] == '/' && index + 1 < |sql| && sql[index + 1] == '*')
    ensures DropTrivia(Tokens(a, sql[index..])) == Tokens(a, sql[index..])
  {
    var s := sql[index..];
    TokensStep(a, s);
    assert s[0] == sql[index] && (|s| > 1 ==> s[1] == sql[index + 1]);
  }

  lemma QuotedLength(a: Alphabet, s: string)
    requires s != [] && s[0] in "'\""
    ensures FirstToken(a, s).Quoted? && |Text(FirstToken(a, s))| == 1 + QuotedSpan(s[1..], s[0])
  {
  }

  lemma QuotedToken(a: Alphabet, sql: string, index: nat)
    requires ValidAlphabet(a) && index < |sql| && sql[index] in "'\""
    ensures var end := index + 1 + QuotedSpan(sql[index + 1..], sql[index]);
            end <= |sql| && Calls(Tokens(a, sql[index..])) == Calls(Tokens(a, sql[end..]))
  {
    hide Tokens, Text, FirstToken, QuotedSpan;
    var s := sql[index..];
    TokensStep(a, s);
    QuotedLength(a, s);
    assert s[0] == sql[index] && s[1..] == sql[index + 1..];
    var n := |Text(FirstToken(a, s))|;
    assert s[n..] == sql[index + n..];
    var rest := Tokens(a, s[n..]);
    assert ([FirstToken(a, s)] + rest)[1..] == rest;
  }

  lemma WordToken(a: Alphabet, sql: string, index: nat, end: nat)
    requires ValidAlphabet(a) && index < end <= |sql| && WordStart(a, sql[index])
    requires (forall i :: index <= i < end ==> WordChar(a, sql[i])) && (end < |sql| ==> !WordChar(a, sql[end]))
    ensures Tokens(a, sql[index..]) == [Word(sql[index..end])] + Tokens(a, sql[end..])
  {
    var name, rest := sql[index..end], sql[end..];
    assert sql[index..] == name + rest;
    assert Text(Word(name)) == name;
    WordUnique(a, name, rest);
    TokensStep(a, name + rest);
    assert (name + rest)[|name|..] == rest;
  }

  lemma FollowingToken(a: Alphabet, sql: string, index: nat)
    requires ValidAlphabet(a) && index <= |sql|
    ensures Tokens(a, sql[index..]) != [] && Tokens(a, sql[index..])[0] == Other('(')
            <==> index < |sql| && sql[index] == '('
  {
    var s := sql[index..];
    if s != [] {
      TokensStep(a, s);
      assert s[0] == sql[index];
      FirstTokenFits(a, s);
    }
  }

  /** Finds external reader calls outside strings, quoted identifiers and comments. */
  method ContainsExternalReader(a: Alphabet, sql: string) returns (found: bool)
    requires ValidAlphabet(a)
    ensures found == CallsReader(a, sql)
    ensures forall toks :: Tokenizes(a, toks, sql) ==> (found <==> HasReaderCall(toks))
  {
    found := Scan(a, sql);
    forall toks | Tokenizes(a, toks, sql) ensures found <==> HasReaderCall(toks) {
      CallsReaderMeans(a, sql, toks);
    }
  }

  method Scan(a: Alphabet, sql: string) returns (found: bool)
    requires ValidAlphabet(a)
    ensures found == CallsReader(a, sql)
  {
    hide Tokens, FirstToken, Text, CommentEnd, DropTrivia, QuotedSpan, IsReader;
    var index := 0;
    var length := |sql|;
    assert sql[0..] == sql;
    while index < length
      invariant 0 <= index <= length
      invariant Calls(Tokens(a, sql[index..])) == CallsReader(a, sql)
    {
      var c := sql[index];
      if c == '\'' {
        QuotedToken(a, sql, index);
        index := SkipQuoted(sql, index, '\'');
        continue;
      }
      if c == '\"' {
        QuotedToken(a, sql, index);
        index := SkipQuoted(sql, index, '\"');
        continue;
      }
      if c == '-' && index + 1 < length && sql[index + 1] == '-' {
        CommentEnds(a, sql, index);
        CommentEndIs(sql, index);
        var newline := FindNewline(sql, index + 2);
        index := if newline == -1 then length else newline + 1;
        continue;
      }
      if c == '/' && index + 1 < length && sql[index + 1] == '*' {
        CommentEnds(a, sql, index);
        CommentEndIs(sql, index);
        var close := FindClose(sql, index + 2);
        index := if close == -1 then length else close + 2;
        continue;
      }
      if a.alpha(c) || c == '_' {
        var end := index + 1;
        while end < length && (a.alnum(sql[end]) || sql[end] == '_')
          invariant index < end <= length
          invariant forall i :: index <= i < end ==> WordChar(a, sql[i])
        {
          end := end + 1;
        }
        var identifier := sql[index..end];
        var following := SkipSqlTrivia(a, sql, end);
        WordToken(a, sql, index, end);
        FollowingToken(a, sql, following);
        if following < length && sql[following] == '(' && IsReader(identifier) {
          return true;
        }
        index := end;
        continue;
      }
      SingleToken(a, sql, index);
      index := index + 1;
    }
    NoTokens(a);
    assert sql[index..] == [];
    return false;
  }

  // ---------------------------------------------------------------- the answer, text by text

  lemma TokenAhead(a: Alphabet, t: Token, rest: string)
    requires ValidAlphabet(a) && IsToken(a, t, rest)
    ensures Tokens(a, Text(t) + rest) == [t] + Tokens(a, rest)
  {
    hide Tokens, FirstToken, IsToken;
    FirstTokenUnique(a, t, rest);
    TokensStep(a, Text(t) + rest);
    assert (Text(t) + rest)[|Text(t)|..] == rest;
  }

  /** Only a word can make a difference. */
  lemma SilentAhead(a: Alphabet, t: Token, rest: string)
    requires ValidAlphabet(a) && IsToken(a, t, rest) && !t.Word?
    ensures CallsReader(a, Text(t) + rest) == CallsReader(a, rest)
  {
    hide Tokens, IsToken, Text;
    TokenAhead(a, t, rest);
    assert ([t] + Tokens(a, rest))[1..] == Tokens(a, rest);
  }

  /** A text as it is written between quotes q: every q in it is doubled. */
  function Escaped(text: string, q: char): string {
    if text == [] then []
    else (if text[0] == q then [q, q] else [text[0]]) + Escaped(text[1..], q)
  }

  lemma {:induction false} EscapedIsDoubled(text: string, q: char)
    ensures Doubled(Escaped(text, q), q)
  {
    if text != [] {
      EscapedIsDoubled(text[1..], q);
      var rest := Escaped(text[1..], q);
      assert ([q, q] + rest)[2..] == rest && ([text[0]] + rest)[1..] == rest;
    }
  }

  /** No text between quotes calls a reader, whatever it says and whether or not the quote is closed. */
  lemma QuotedIsSilent(a: Alphabet, q: char, text: string, rest: string)
    requires ValidAlphabet(a) && (q == '\'' || q == '\"') && (rest == [] || rest[0] != q)
    ensures CallsReader(a, [q] + Escaped(text, q) + [q] + rest) == CallsReader(a, rest)
    ensures !CallsReader(a, [q] + Escaped(text, q))
  {
    hide Tokens, Escaped, Doubled;
    var body := Escaped(text, q);
    EscapedIsDoubled(text, q);
    SilentAhead(a, Quoted(q, body, true), rest);
    SilentAhead(a, Quoted(q, body, false), []);
    assert Text(Quoted(q, body, true)) + rest == [q] + body + [q] + rest;
    assert Text(Quoted(q, body, false)) + [] == [q] + body;
    NoTokens(a);
  }

  /** No text after two dashes calls a reader, up to the end of the line. */
  lemma LineCommentIsSilent(a: Alphabet, body: string, rest: string)
    requires ValidAlphabet(a) && '\n' !in body
    ensures CallsReader(a, "--" + body + "\n" + rest) == CallsReader(a, rest)
    ensures !CallsReader(a, "--" + body)
  {
    hide Tokens;
    SilentAhead(a, LineComment(body, true), rest);
    SilentAhead(a, LineComment(body, false), []);
    assert Text(LineComment(body, true)) + rest == "--" + body + "\n" + rest;
    assert Text(LineComment(body, false)) + [] == "--" + body;
    NoTokens(a);
  }

  /** No text after slash and star calls a reader, up to the first star and slash. */
  lemma BlockCommentIsSilent(a: Alphabet, body: string, rest: string)
    requires ValidAlphabet(a)
    requires forall i :: 0 <= i < |body| ==> !(body[i] == '*' && (body + "*")[i + 1] == '/')
    ensures CallsReader(a, "/*" + body + "*/" + rest) == CallsReader(a, rest)
    ensures !CallsReader(a, "/*" + body)
  {
    hide Tokens;
    forall i | 0 <= i < |body| - 1 ensures !Closes(body, i) {
      assert (body + "*")[i + 1] == body[i + 1];
    }
    SilentAhead(a, BlockComment(body, true), rest);
    SilentAhead(a, BlockComment(body, false), []);
    assert Text(BlockComment(body, true)) + rest == "/*" + body + "*/" + rest;
    assert Text(BlockComment(body, false)) + [] == "/*" + body;
    NoTokens(a);
  }

  /** No single character outside words, quotes and comments matters. */
  lemma PlainIsSilent(a: Alphabet, c: char, rest: string)
    requires ValidAlphabet(a) && !a.alpha(c) && c != '_' && c != '\'' && c != '\"'
    requires !("--" <= [c] + rest) && !("/*" <= [c] + rest)
    ensures CallsReader(a, [c] + rest) == CallsReader(a, rest)
  {
    hide Tokens;
    assert rest != [] ==> ([c] + rest)[..2] == [c, rest[0]];
    SilentAhead(a, if a.space(c) then Space(c) else Other(c), rest);
  }

  lemma {:induction false} BlanksAhead(a: Alphabet, gap: string, rest: string)
    requires ValidAlphabet(a) && forall i :: 0 <= i < |gap| ==> a.space(gap[i])
    ensures DropTrivia(Tokens(a, gap + rest)) == DropTrivia(Tokens(a, rest))
    ensures CallsReader(a, gap + rest) == CallsReader(a, rest)
  {
    hide Tokens;
    if gap == [] {
      assert gap + rest == rest;
    } else {
      BlanksAhead(a, gap[1..], rest);
      var t, more := Space(gap[0]), gap[1..] + rest;
      assert gap + rest == Text(t) + more;
      TokenAhead(a, t, more);
      assert ([t] + Tokens(a, more))[1..] == Tokens(a, more);
    }
  }

  lemma WordAhead(a: Alphabet, name: string, rest: string)
    requires ValidAlphabet(a) && IsToken(a, Word(name), rest)
    ensures CallsReader(a, name + rest)
            == (|| (IsReader(name) && DropTrivia(Tokens(a, rest)) != [] && DropTrivia(Tokens(a, rest))[0] == Other('('))
                || CallsReader(a, rest))
  {
    hide Tokens, IsToken, IsReader, DropTrivia;
    TokenAhead(a, Word(name), rest);
    assert ([Word(name)] + Tokens(a, rest))[1..] == Tokens(a, rest);
  }

  lemma ReaderIsSpelled(name: string)
    ensures IsReader(name)
            <==> && |name| >= 5 && name[4] == '_'
                 && (|| (name[0] in "rR" && name[1] in "eE" && name[2] in "aA" && name[3] in "dD")
                     || (name[0] in "sS\U{017F}" && name[1] in "cC" && name[2] in "aA" && name[3] in "nN"))
                 && forall i :: 5 <= i < |name| ==> var c := name[i];
                      'a' <= c <= 'z' || 'A' <= c <= 'Z' || '0' <= c <= '9' || c in "_\U{017F}\U{212A}\U{0130}\U{0131}"
  {
    if |name| >= 5 {
      var s := name[..5];
      assert SpelledAs(s, "read_")
             <==> IsLetter(s[0], 'r') && IsLetter(s[1], 'e') && IsLetter(s[2], 'a') && IsLetter(s[3], 'd') && IsLetter(s[4], '_');
      assert SpelledAs(s, "scan_")
             <==> IsLetter(s[0], 's') && IsLetter(s[1], 'c') && IsLetter(s[2], 'a') && IsLetter(s[3], 'n') && IsLetter(s[4], '_');
    }
  }

  /** A word, blanks, and a parenthesis: the word decides, or else what follows. */
  lemma ReaderDecides(a: Alphabet, name: string, gap: string, rest: string)
    requires ValidAlphabet(a) && name != [] && (a.alpha(name[0]) || name[0] == '_')
    requires forall i :: 0 <= i < |name| ==> a.alnum(name[i]) || name[i] == '_'
    requires forall i :: 0 <= i < |gap| ==> a.space(gap[i])
    ensures CallsReader(a, name + (gap + ("(" + rest)))
            <==> || (&& |name| >= 5 && name[4] == '_'
                     && (|| (name[0] in "rR" && name[1] in "eE" && name[2] in "aA" && name[3] in "dD")
                         || (name[0] in "sS\U{017F}" && name[1] in "cC" && name[2] in "aA" && name[3] in "nN"))
                     && forall i :: 5 <= i < |name| ==> var c := name[i];
                          'a' <= c <= 'z' || 'A' <= c <= 'Z' || '0' <= c <= '9' || c in "_\U{017F}\U{212A}\U{0130}\U{0131}")
                 || CallsReader(a, rest)
  {
    hide Tokens, IsReader;
    ReaderIsSpelled(name);
    WordAhead(a, name, gap + ("(" + rest));
    BlanksAhead(a, gap, "(" + rest);
    TokenAhead(a, Other('('), rest);
    assert ([Other('(')] + Tokens(a, rest))[1..] == Tokens(a, rest);
  }

  /** A word with another character behind it and its blanks calls nothing, whatever its name. */
  lemma UncalledIsSilent(a: Alphabet, name: string, gap: string, rest: string)
    requires ValidAlphabet(a) && name != [] && (a.alpha(name[0]) || name[0] == '_')
    requires forall i :: 0 <= i < |name| ==> a.alnum(name[i]) || name[i] == '_'
    requires forall i :: 0 <= i < |gap| ==> a.space(gap[i])
    requires rest != [] ==> (gap != [] || !(a.alnum(rest[0]) || rest[0] == '_'))
    requires rest != [] ==> !a.space(rest[0]) && rest[0] !in "(-/"
    ensures CallsReader(a, name + (gap + rest)) == CallsReader(a, rest)
  {
    hide Tokens, IsReader;
    if gap == [] {
      assert gap + rest == rest;
    }
    WordAhead(a, name, gap + rest);
    BlanksAhead(a, gap, rest);
    if rest == [] {
      NoTokens(a);
    } else {
      assert rest[0..] == rest;
      NotTrivia(a, rest, 0);
      FollowingToken(a, rest, 0);
    }
  }

  // ---------------------------------------------------------------- comments are blanks

  function Concat(toks: seq<Token>): string {
    if toks == [] then [] else Text(toks[0]) + Concat(toks[1..])
  }

  lemma {:induction false} TokenizesConcat(a: Alphabet, toks: seq<Token>, s: string)
    requires Tokenizes(a, toks, s)
    ensures s == Concat(toks)
  {
    hide Text, IsToken;
    if toks != [] {
      TokenizesConcat(a, toks[1..], s[|Text(toks[0])|..]);
    }
  }

  /** What is complete before a comment is complete before a blank. */
  lemma BlankSeparates(a: Alphabet, t: Token, rest: string, other: string)
    requires ValidAlphabet(a) && IsToken(a, t, rest)
    requires StartsWith(rest, '-') || StartsWith(rest, '/')
    requires StartsWith(other, ' ')
    ensures IsToken(a, t, other)
  {
  }

  lemma CommentStarts(comment: Token, rest: string)
    requires comment.LineComment? || comment.BlockComment?
    ensures StartsWith(Text(comment) + rest, '-') || StartsWith(Text(comment) + rest, '/')
  {
  }

  /** Completeness looks no further than the next character. */
  lemma OnlyHeadMatters(a: Alphabet, t: Token, rest: string, other: string)
    requires IsToken(a, t, rest) && rest != [] && other != [] && rest[0] == other[0]
    ensures IsToken(a, t, other)
  {
  }

  lemma ConcatNonempty(a: Alphabet, part: seq<Token>, toks: seq<Token>, s: string)
    requires Tokenizes(a, toks, s) && part != [] && toks != [] && toks[0] == part[0]
    ensures Concat(part) != []
  {
  }

  lemma FirstOfConcat(toks: seq<Token>, more: seq<Token>)
    requires toks != []
    ensures (toks + more)[0] == toks[0] && (toks + more)[1..] == toks[1..] + more
  {
  }

  lemma TokenizesFirst(a: Alphabet, t: Token, toks: seq<Token>, s: string)
    requires IsToken(a, t, s) && Tokenizes(a, toks, s)
    ensures Tokenizes(a, [t] + toks, Text(t) + s)
  {
    assert (Text(t) + s)[|Text(t)|..] == s;
    assert ([t] + toks)[1..] == toks;
  }

  lemma {:induction false} BlankTokenizes(a: Alphabet, before: seq<Token>, comment: Token, after: seq<Token>, s: string)
    requires ValidAlphabet(a) && (comment.LineComment? || comment.BlockComment?)
    requires Tokenizes(a, before + ([comment] + after), s)
    ensures Tokenizes(a, before + ([Space(' ')] + after), Concat(before) + (" " + Concat(after)))
    ensures s == Concat(before) + (Text(comment) + Concat(after))
    decreases |before|
  {
    TokenizesConcat(a, before + ([comment] + after), s);
    if before == [] {
      assert before + ([comment] + after) == [comment] + after;
      assert before + ([Space(' ')] + after) == [Space(' ')] + after;
      assert ([comment] + after)[1..] == after;
      TokenizesConcat(a, after, s[|Text(comment)|..]);
      TokenizesFirst(a, Space(' '), after, Concat(after));
      assert Concat(before) + (" " + Concat(after)) == Text(Space(' ')) + Concat(after);
    } else {
      BlankInside(a, before, comment, after, s);
    }
  }

  /** A token stays complete when a comment further on becomes a blank. */
  lemma BlankAhead(a: Alphabet, t: Token, before: seq<Token>, comment: Token, after: seq<Token>, rest: string)
    requires ValidAlphabet(a) && (comment.LineComment? || comment.BlockComment?)
    requires IsToken(a, t, rest) && Tokenizes(a, before + ([comment] + after), rest)
    requires rest == Concat(before) + (Text(comment) + Concat(after))
    ensures IsToken(a, t, Concat(before) + (" " + Concat(after)))
  {
    hide Tokenizes, Text, IsToken;
    var other := Concat(before) + (" " + Concat(after));
    if before == [] {
      assert rest == Text(comment) + Concat(after);
      CommentStarts(comment, Concat(after));
      BlankSeparates(a, t, rest, other);
    } else {
      FirstOfConcat(before, [comment] + after);
      ConcatNonempty(a, before, before + ([comment] + after), rest);
      OnlyHeadMatters(a, t, rest, other);
    }
  }

  lemma ConcatFirst(toks: seq<Token>, tail: string)
    requires toks != []
    ensures Concat(toks) + tail == Text(toks[0]) + (Concat(toks[1..]) + tail)
  {
  }

  lemma TokenizesRest(a: Alphabet, t: Token, toks: seq<Token>, s: string)
    requires Tokenizes(a, toks, s) && toks != [] && toks[0] == t
    ensures |Text(t)| <= |s| && s == Text(t) + s[|Text(t)|..]
    ensures IsToken(a, t, s[|Text(t)|..]) && Tokenizes(a, toks[1..], s[|Text(t)|..])
  {
  }

  lemma BlankInside(a: Alphabet, before: seq<Token>, comment: Token, after: seq<Token>, s: string)
    requires ValidAlphabet(a) && (comment.LineComment? || comment.BlockComment?) && before != []
    requires Tokenizes(a, before + ([comment] + after), s)
    ensures Tokenizes(a, before + ([Space(' ')] + after), Concat(before) + (" " + Concat(after)))
    ensures s == Concat(before) + (Text(comment) + Concat(after))
    decreases |before|, 0
  {
    hide Tokenizes, Text, IsToken, Concat;
    var t := before[0];
    FirstOfConcat(before, [comment] + after);
    FirstOfConcat(before, [Space(' ')] + after);
    TokenizesRest(a, t, before + ([comment] + after), s);
    var rest := s[|Text(t)|..];
    var other := Concat(before[1..]) + (" " + Concat(after));
    BlankTokenizes(a, before[1..], comment, after, rest);
    BlankAhead(a, t, before[1..], comment, after, rest);
    TokenizesFirst(a, t, before[1..] + ([Space(' ')] + after), other);
    ConcatFirst(before, " " + Concat(after));
    ConcatFirst(before, Text(comment) + Concat(after));
    assert [t] + (before[1..] + ([Space(' ')] + after)) == before + ([Space(' ')] + after);
  }

  lemma {:induction false} CallsWithBlank(before: seq<Token>, x: Token, y: Token, after: seq<Token>)
    requires IsTrivia(x) && IsTrivia(y)
    ensures DropTrivia(before + ([x] + after)) != [] <==> DropTrivia(before + ([y] + after)) != []
    ensures DropTrivia(before + ([x] + after)) != [] ==>
              DropTrivia(before + ([x] + after))[0] == DropTrivia(before + ([y] + after))[0]
    ensures Calls(before + ([x] + after)) == Calls(before + ([y] + after))
    decreases |before|
  {
    if before == [] {
      assert before + ([x] + after) == [x] + after && before + ([y] + after) == [y] + after;
      assert ([x] + after)[1..] == after && ([y] + after)[1..] == after;
    } else {
      FirstOfConcat(before, [x] + after);
      FirstOfConcat(before, [y] + after);
      CallsWithBlank(before[1..], x, y, after);
    }
  }

  /** Replacing a comment by one blank never changes the answer, wherever in the text it stands. */
  lemma CommentIsABlank(a: Alphabet, before: seq<Token>, comment: Token, after: seq<Token>, s: string)
    requires ValidAlphabet(a) && (comment.LineComment? || comment.BlockComment?)
    requires Tokenizes(a, before + ([comment] + after), s)
    ensures s == Concat(before) + (Text(comment) + Concat(after))
    ensures CallsReader(a, Concat(before) + (" " + Concat(after))) == CallsReader(a, s)
  {
    hide Tokenizes, Concat, Tokens, Calls;
    BlankTokenizes(a, before, comment, after, s);
    TokenizationIsUnique(a, before + ([comment] + after), s);
    TokenizationIsUnique(a, before + ([Space(' ')] + after), Concat(before) + (" " + Concat(after)));
    CallsWithBlank(before, comment, Space(' '), after);
  }
}
