/**
 The complete listing of a user's files: a depth-first walk in a fixed order, whatever order the
 file system hands the entries out in, under an exact budget for the serialized response.

 `Listing` is the result as a function of the tree. The walk reads each directory in an arbitrary
 order (`shuffle`), sorts what it shows, counts bytes as it appends, and stops at the first
 resource that exceeds the limit; it is proved to give the listing, and to stop exactly when the
 JSON array of the whole listing would exceed the limit.
 */
module UserFileTree {
  import opened Common
  import opened StableSorting

  /** A public resource: its name, its path, and its JSON encoding. */
  datatype Resource = Resource(name: string, path: string, encoded: string)

  /** A directory entry; links, special files and entries that vanish while listed are Unlisted. */
  datatype Node =
    | File(resource: Resource)
    | Directory(resource: Resource, children: seq<Node>)
    | Unlisted(name: string)

  datatype TooLarge = TooLarge

  // ---------------------------------------------------------------- order

  /** Strings by character codes, a prefix first. */
  predicate LexLeq(a: string, b: string) {
    a == [] || (b != [] && (a[0] < b[0] || (a[0] == b[0] && LexLeq(a[1..], b[1..]))))
  }

  lemma {:induction false} LexTotal(a: string, b: string)
    ensures LexLeq(a, b) || LexLeq(b, a)
    ensures LexLeq(a, b) && LexLeq(b, a) ==> a == b
  {
    if a != [] && b != [] {
      LexTotal(a[1..], b[1..]);
      if a[0] == b[0] {
        assert a == [a[0]] + a[1..] && b == [b[0]] + b[1..];
      }
    }
  }

  lemma {:induction false} LexTransitive(a: string, b: string, c: string)
    requires LexLeq(a, b) && LexLeq(b, c)
    ensures LexLeq(a, c)
  {
    if a != [] && b[0] == a[0] && c[0] == b[0] {
      LexTransitive(a[1..], b[1..], c[1..]);
    }
  }

  /** Directories first, then by case-folded name, then by path; fold is the case folding. */
  predicate Precedes(fold: string -> string, a: Node, b: Node) {
    if a.Unlisted? || b.Unlisted? then a.Unlisted?
    else if a.Directory? != b.Directory? then a.Directory?
    else if fold(a.resource.name) != fold(b.resource.name) then LexLeq(fold(a.resource.name), fold(b.resource.name))
    else LexLeq(a.resource.path, b.resource.path)
  }

  function Order(fold: string -> string): (Node, Node) -> bool {
    (a: Node, b: Node) => Precedes(fold, a, b)
  }

  lemma OrderIsTotal(fold: string -> string)
    ensures TotalPreorder(Order(fold))
  {
    forall a, b ensures Precedes(fold, a, b) || Precedes(fold, b, a) {
      if !a.Unlisted? && !b.Unlisted? {
        LexTotal(fold(a.resource.name), fold(b.resource.name));
        LexTotal(a.resource.path, b.resource.path);
      }
    }
    forall a, b, c | Precedes(fold, a, b) && Precedes(fold, b, c) ensures Precedes(fold, a, c) {
      PrecedesTransitive(fold, a, b, c);
    }
  }

  lemma PrecedesTransitive(fold: string -> string, a: Node, b: Node, c: Node)
    requires Precedes(fold, a, b) && Precedes(fold, b, c)
    ensures Precedes(fold, a, c)
  {
    if !a.Unlisted? && !b.Unlisted? && !c.Unlisted? {
      var x, y, z := fold(a.resource.name), fold(b.resource.name), fold(c.resource.name);
      if LexLeq(x, y) && LexLeq(y, z) {
        LexTransitive(x, y, z);
        LexTotal(x, y);
        LexTotal(y, z);
      }
      if LexLeq(a.resource.path, b.resource.path) && LexLeq(b.resource.path, c.resource.path) {
        LexTransitive(a.resource.path, b.resource.path, c.resource.path);
      }
    }
  }

  // ---------------------------------------------------------------- the listing

  /** Hidden names and entries that are neither file nor directory do not show. */
  predicate Shows(n: Node) {
    !n.Unlisted? && (n.resource.name == [] || n.resource.name[0] != '.')
  }

  function Visible(): Node -> bool {
    (n: Node) => Shows(n)
  }

  function Height(n: Node): nat {
    match n
    case Directory(_, children) => 1 + HeightOf(children)
    case _ => 0
  }

  function HeightOf(nodes: seq<Node>): (h: nat)
    ensures forall n :: n in nodes ==> Height(n) <= h
  {
    if nodes == [] then 0
    else
      var rest := HeightOf(nodes[1..]);
      assert nodes == [nodes[0]] + nodes[1..];
      Max(Height(nodes[0]), rest)
  }

  lemma {:induction false} HeightWithin(nodes: seq<Node>, all: seq<Node>)
    requires forall n :: n in nodes ==> n in all
    ensures HeightOf(nodes) <= HeightOf(all)
  {
    if nodes != [] {
      HeightWithin(nodes[1..], all);
      assert nodes[0] in all;
    }
  }

  function Arranged(fold: string -> string, children: seq<Node>): (r: seq<Node>)
    ensures forall n :: n in r ==> n in children
  {
    var shown := Filter(children, Visible());
    var sorted := StableSort(Order(fold), shown);
    assert forall n :: n in sorted ==> n in multiset(shown);
    sorted
  }

  /** Each shown entry in order, every directory directly followed by its own listing. */
  function Listing(fold: string -> string, children: seq<Node>): seq<Resource>
    decreases HeightOf(children), 1, 0
  {
    HeightWithin(Arranged(fold, children), children);
    ListAll(fold, Arranged(fold, children))
  }

  function ListAll(fold: string -> string, entries: seq<Node>): seq<Resource>
    decreases HeightOf(entries), 0, |entries|
  {
    if entries == [] || entries[0].Unlisted? then []
    else
      HeightWithin(entries[1..], entries);
      [entries[0].resource]
      + (if entries[0].Directory? then Listing(fold, entries[0].children) else [])
      + ListAll(fold, entries[1..])
  }

  // ---------------------------------------------------------------- the response

  function Joined(resources: seq<Resource>): string {
    if resources == [] then []
    else if |resources| == 1 then resources[0].encoded
    else resources[0].encoded + "," + Joined(resources[1..])
  }

  /** The JSON array that is sent. */
  function Response(resources: seq<Resource>): string {
    "[" + Joined(resources) + "]"
  }

  lemma {:induction false} JoinedLength(resources: seq<Resource>, r: Resource)
    ensures |Joined(resources + [r])| == |Joined(resources)| + |r.encoded| + if resources == [] then 0 else 1
  {
    if resources != [] {
      assert (resources + [r])[1..] == resources[1..] + [r];
      JoinedLength(resources[1..], r);
    }
  }

  lemma {:induction false} JoinedGrows(a: seq<Resource>, b: seq<Resource>)
    ensures |Joined(a + b)| >= |Joined(a)|
  {
    if b == [] {
      assert a + b == a;
    } else {
      var front, last := b[..|b| - 1], b[|b| - 1];
      JoinedGrows(a, front);
      JoinedLength(a + front, last);
      assert a + b == (a + front) + [last];
    }
  }

  // ---------------------------------------------------------------- the file system's order does not matter

  /** What tells entries of a directory apart; an unlisted one has only its name. */
  function PathOf(): Node -> string {
    (n: Node) => if n.Unlisted? then n.name else n.resource.path
  }

  /** Everywhere in the tree, the entries of one directory have distinct paths. */
  ghost predicate DistinctTree(children: seq<Node>)
    decreases HeightOf(children)
  {
    && DistinctKeys(PathOf(), Filter(children, Visible()))
    && forall n :: n in children && n.Directory? ==> DistinctTree(n.children)
  }

  /** Shown entries with distinct paths are never tied. */
  lemma NeverTied(fold: string -> string, a: Node, b: Node)
    requires !a.Unlisted? && !b.Unlisted? && PathOf()(a) != PathOf()(b)
    ensures !(Precedes(fold, a, b) && Precedes(fold, b, a))
  {
    LexTotal(a.resource.path, b.resource.path);
    LexTotal(fold(a.resource.name), fold(b.resource.name));
  }

  lemma SortedStrictly(fold: string -> string, s: seq<Node>)
    requires Sorted(Order(fold), s) && DistinctKeys(PathOf(), s) && forall n :: n in s ==> !n.Unlisted?
    ensures StrictlySorted(Order(fold), s)
  {
    hide Precedes;
    forall i, j | 0 <= i < j < |s| ensures !Order(fold)(s[j], s[i]) {
      NeverTied(fold, s[i], s[j]);
    }
  }

  /** Directory entries come in one order only, however the file system hands them out. */
  lemma OrderIndependent(fold: string -> string, children: seq<Node>, other: seq<Node>)
    requires multiset(children) == multiset(other) && DistinctKeys(PathOf(), Filter(children, Visible()))
    ensures Arranged(fold, children) == Arranged(fold, other)
  {
    hide Precedes, Filter, StableSort, DistinctKeys;
    var mine, theirs := Filter(children, Visible()), Filter(other, Visible());
    var sorted := Arranged(fold, children);
    OrderIsTotal(fold);
    FilterRearranged(children, other, Visible());
    StableSortSorted(Order(fold), mine);
    StableSortSorted(Order(fold), theirs);
    DistinctRearranged(PathOf(), mine, sorted);
    forall n | n in sorted ensures !n.Unlisted? {
      ArrangedShows(fold, children, n);
    }
    SortedStrictly(fold, sorted);
    SortedIsUnique(Order(fold), Arranged(fold, other), sorted);
  }

  // ---------------------------------------------------------------- what the listing is

  /** Up to k the strings agree, and there a ends or has the smaller character. */
  ghost predicate DecidedAt(a: string, b: string, k: nat) {
    k <= |a| && k <= |b| && a[..k] == b[..k] && (k == |a| || (k < |b| && a[k] < b[k]))
  }

  /** The order of strings is decided by the first position at which they differ. */
  lemma {:induction false} FirstDifferenceDecides(a: string, b: string)
    ensures LexLeq(a, b) <==> exists k :: DecidedAt(a, b, k)
  {
    if a == [] {
      assert DecidedAt(a, b, 0);
    } else if b == [] {
      assert forall k :: !DecidedAt(a, b, k);
    } else if a[0] != b[0] {
      assert a[0] < b[0] ==> DecidedAt(a, b, 0);
      forall k: nat | 0 < k <= |a| && k <= |b| ensures a[..k] != b[..k] {
        assert a[..k][0] != b[..k][0];
      }
    } else {
      FirstDifferenceDecides(a[1..], b[1..]);
      forall k: nat | DecidedAt(a[1..], b[1..], k) ensures DecidedAt(a, b, k + 1) {
        assert a[..k + 1] == [a[0]] + a[1..][..k] && b[..k + 1] == [b[0]] + b[1..][..k];
      }
      assert !DecidedAt(a, b, 0);
      forall k: nat | k > 0 && DecidedAt(a, b, k) ensures DecidedAt(a[1..], b[1..], k - 1) {
        assert a[1..][..k - 1] == a[..k][1..] && b[1..][..k - 1] == b[..k][1..];
      }
    }
  }

  /** Every file and directory whose name does not start with a dot appears, and nothing else does. */
  lemma ShownAppearOnce(fold: string -> string, children: seq<Node>, n: Node)
    ensures multiset(Arranged(fold, children))[n]
            == if (n.File? || n.Directory?) && !("." <= n.resource.name) then multiset(children)[n] else 0
  {
    FilterMultiset(children, Visible(), n);
  }

  /** Directories stand before files, and within either the case-folded names rise, then the paths. */
  lemma EntriesRise(fold: string -> string, children: seq<Node>, i: nat, j: nat)
    requires i < j < |Arranged(fold, children)|
    ensures var x, y := Arranged(fold, children)[i], Arranged(fold, children)[j];
            && !x.Unlisted? && !y.Unlisted?
            && (x.File? ==> y.File?)
            && (x.File? == y.File? ==>
                  && (exists k :: DecidedAt(fold(x.resource.name), fold(y.resource.name), k))
                  && (fold(x.resource.name) == fold(y.resource.name) ==>
                        exists k :: DecidedAt(x.resource.path, y.resource.path, k)))
  {
    hide StableSort, Filter, LexLeq;
    OrderIsTotal(fold);
    StableSortSorted(Order(fold), Filter(children, Visible()));
    var x, y := Arranged(fold, children)[i], Arranged(fold, children)[j];
    ArrangedShows(fold, children, x);
    ArrangedShows(fold, children, y);
    assert Precedes(fold, x, y);
    LexTotal(fold(x.resource.name), fold(y.resource.name));
    FirstDifferenceDecides(fold(x.resource.name), fold(y.resource.name));
    FirstDifferenceDecides(x.resource.path, y.resource.path);
  }

  /** Where the entries stand in what is listed: each is directly followed by what it contains. */
  ghost predicate StandAt(fold: string -> string, entries: seq<Node>, listed: seq<Resource>, starts: seq<nat>) {
    && |starts| == |entries| + 1 && starts[0] == 0 && starts[|entries|] == |listed|
    && forall i :: 0 <= i < |entries| ==> StandsAt(fold, entries[i], listed, starts[i], starts[i + 1])
  }

  ghost predicate StandsAt(fold: string -> string, entry: Node, listed: seq<Resource>, from: nat, end: nat) {
    && from < end <= |listed| && !entry.Unlisted?
    && listed[from] == entry.resource
    && listed[from + 1..end] == if entry.Directory? then Listing(fold, entry.children) else []
  }

  /** A first entry moves the others back by what it lists. */
  lemma StandsBehind(fold: string -> string, entry: Node, tail: seq<Resource>, from: nat, end: nat, front: seq<Resource>)
    requires StandsAt(fold, entry, tail, from, end)
    ensures StandsAt(fold, entry, front + tail, |front| + from, |front| + end)
  {
    hide Listing;
    assert (front + tail)[|front| + from + 1..|front| + end] == tail[from + 1..end];
  }

  lemma StandsFirst(fold: string -> string, entry: Node, tail: seq<Resource>)
    requires !entry.Unlisted?
    ensures var front := [entry.resource] + if entry.Directory? then Listing(fold, entry.children) else [];
            StandsAt(fold, entry, front + tail, 0, |front|)
  {
    hide Listing;
    var inside := if entry.Directory? then Listing(fold, entry.children) else [];
    assert ([entry.resource] + inside + tail)[1..1 + |inside|] == inside;
  }

  lemma {:induction false} EntriesStand(fold: string -> string, entries: seq<Node>) returns (starts: seq<nat>)
    requires forall n :: n in entries ==> !n.Unlisted?
    ensures StandAt(fold, entries, ListAll(fold, entries), starts)
    decreases |entries|
  {
    hide Listing, StandsAt;
    if entries == [] {
      starts := [0];
    } else {
      var front := [entries[0].resource] + if entries[0].Directory? then Listing(fold, entries[0].children) else [];
      var rest := EntriesStand(fold, entries[1..]);
      var tail := ListAll(fold, entries[1..]);
      starts := [0] + seq(|rest|, i requires 0 <= i < |rest| => |front| + rest[i]);
      StandsFirst(fold, entries[0], tail);
      forall i | 0 < i < |entries| ensures StandsAt(fold, entries[i], front + tail, starts[i], starts[i + 1]) {
        StandsBehind(fold, entries[1..][i - 1], tail, rest[i - 1], rest[i], front);
      }
    }
  }

  /** The listing is its shown entries in order, every directory directly followed by its own listing. */
  lemma ListingIsDepthFirst(fold: string -> string, children: seq<Node>) returns (starts: seq<nat>)
    ensures StandAt(fold, Arranged(fold, children), Listing(fold, children), starts)
  {
    hide Arranged, ListAll;
    forall n | n in Arranged(fold, children) ensures !n.Unlisted? {
      ArrangedShows(fold, children, n);
    }
    starts := EntriesStand(fold, Arranged(fold, children));
  }

  function EncodedLength(resources: seq<Resource>): nat {
    if resources == [] then 0 else |resources[0].encoded| + EncodedLength(resources[1..])
  }

  /** The brackets, the encodings, and a comma between any two. */
  lemma {:induction false} ResponseLength(resources: seq<Resource>)
    ensures |Response(resources)| == 2 + EncodedLength(resources) + Max(|resources| - 1, 0)
  {
    if |resources| > 1 {
      ResponseLength(resources[1..]);
    } else if |resources| == 1 {
      assert EncodedLength(resources[1..]) == 0;
    }
  }

  // ---------------------------------------------------------------- the walk

  lemma ListStep(fold: string -> string, entries: seq<Node>, k: nat)
    requires k < |entries| && !entries[k].Unlisted?
    ensures ListAll(fold, entries[k..])
            == [entries[k].resource]
               + (if entries[k].Directory? then Listing(fold, entries[k].children) else [])
               + ListAll(fold, entries[k + 1..])
  {
    assert entries[k..][1..] == entries[k + 1..];
  }

  lemma ResponseNext(resources: seq<Resource>, r: Resource)
    ensures |Response(resources + [r])| == |Response(resources)| + |r.encoded| + if resources == [] then 0 else 1
  {
    JoinedLength(resources, r);
  }

  lemma ResponseGrows(a: seq<Resource>, b: seq<Resource>)
    ensures |Response(a + b)| >= |Response(a)|
  {
    JoinedGrows(a, b);
  }

  /** The walk, one entry of a directory after the other; it stops where the budget is first exceeded. */
  method Visit(fold: string -> string, shuffle: seq<Node> -> seq<Node>, children: seq<Node>, maxBytes: nat,
               listed: seq<Resource>, size: nat)
    returns (ok: bool, resources: seq<Resource>, bytes: nat)
    requires DistinctTree(children) && forall s :: multiset(shuffle(s)) == multiset(s)
    requires size == |Response(listed)|
    ensures ok ==> resources == listed + Listing(fold, children) && bytes == |Response(resources)|
    ensures ok && Listing(fold, children) != [] ==> bytes <= maxBytes
    ensures !ok ==> Listing(fold, children) != [] && |Response(listed + Listing(fold, children))| > maxBytes
    decreases HeightOf(children)
  {
    hide Response, ListAll, HeightOf, Precedes, Filter, StableSort;
    var entries := ReadDirectory(fold, shuffle, children);
    resources, bytes := listed, size;
    ghost var all := Listing(fold, children);
    ghost var done: seq<Resource> := [];
    var k := 0;
    assert entries[0..] == entries && listed + [] == listed;
    while k < |entries|
      invariant 0 <= k <= |entries|
      invariant resources == listed + done && bytes == |Response(resources)|
      invariant done + ListAll(fold, entries[k..]) == all
      invariant done != [] ==> bytes <= maxBytes
    {
      var entry := entries[k];
      assert entry in entries;
      ListStep(fold, entries, k);
      ResponseNext(resources, entry.resource);
      ghost var inside := if entry.Directory? then Listing(fold, entry.children) else [];
      ghost var part := done + [entry.resource];
      Advance(all, done, [entry.resource], inside, ListAll(fold, entries[k + 1..]));
      Regroup(listed, done, [entry.resource]);
      Regroup(listed, part, inside);
      bytes := bytes + |entry.resource.encoded| + if resources == [] then 0 else 1;
      resources := resources + [entry.resource];
      if bytes > maxBytes {
        TooMuch(listed, part, all, maxBytes);
        return false, resources, bytes;
      }
      if entry.Directory? {
        HeightBelow(children, entry);
        assert inside == [] ==> resources + inside == resources;
        ok, resources, bytes := Visit(fold, shuffle, entry.children, maxBytes, resources, bytes);
        if !ok {
          TooMuch(listed, part + inside, all, maxBytes);
          return false, resources, bytes;
        }
      } else {
        assert part + inside == part;
      }
      done := part + inside;
      k := k + 1;
    }
    NothingListed(fold, entries[k..]);
    assert done + [] == done;
    ok := true;
  }

  lemma Regroup(a: seq<Resource>, b: seq<Resource>, c: seq<Resource>)
    ensures (a + b) + c == a + (b + c)
  {
  }

  lemma Advance(all: seq<Resource>, done: seq<Resource>, head: seq<Resource>, inside: seq<Resource>, rest: seq<Resource>)
    requires all == done + (head + inside + rest)
    ensures done + head <= all && done + head + inside <= all && all == (done + head + inside) + rest
  {
  }

  /** The entries of a directory that show, in order. */
  method ReadDirectory(fold: string -> string, shuffle: seq<Node> -> seq<Node>, children: seq<Node>)
    returns (entries: seq<Node>)
    requires DistinctTree(children) && forall s :: multiset(shuffle(s)) == multiset(s)
    ensures entries == Arranged(fold, children)
    ensures forall n :: n in entries ==> n in children && Shows(n) && (n.Directory? ==> DistinctTree(n.children))
  {
    hide Precedes, Filter, StableSort, DistinctKeys;
    var found := shuffle(children);
    OrderIndependent(fold, children, found);
    entries := [];
    var k := 0;
    assert found[..0] == [];
    FilterAll<Node>([], Visible());
    while k < |found|
      invariant 0 <= k <= |found| && entries == Filter(found[..k], Visible())
    {
      assert found[..k + 1] == found[..k] + [found[k]];
      FilterConcat(found[..k], [found[k]], Visible());
      if Shows(found[k]) {
        FilterAll([found[k]], Visible());
        entries := entries + [found[k]];
      } else {
        FilterNone([found[k]], Visible());
      }
      k := k + 1;
    }
    assert found[..k] == found;
    entries := StableSort(Order(fold), entries);
    forall n | n in entries ensures n in children && Shows(n) {
      ArrangedShows(fold, children, n);
    }
  }

  lemma NothingListed(fold: string -> string, entries: seq<Node>)
    requires entries == []
    ensures ListAll(fold, entries) == []
  {
  }

  lemma ArrangedShows(fold: string -> string, children: seq<Node>, n: Node)
    requires n in Arranged(fold, children)
    ensures Shows(n) && n in children
  {
    assert n in multiset(Filter(children, Visible()));
  }

  lemma HeightBelow(children: seq<Node>, n: Node)
    requires n in children && n.Directory?
    ensures HeightOf(n.children) < HeightOf(children)
  {
    assert Height(n) <= HeightOf(children);
  }

  /** What exceeds the budget early exceeds it in the end. */
  lemma TooMuch(listed: seq<Resource>, part: seq<Resource>, all: seq<Resource>, maxBytes: nat)
    requires part <= all && |Response(listed + part)| > maxBytes
    ensures |Response(listed + all)| > maxBytes
  {
    hide Response;
    assert listed + all == (listed + part) + all[|part|..];
    ResponseGrows(listed + part, all[|part|..]);
  }

  /**
   The whole listing of a root. It is the same for every order in which directories are read, and
   it is refused exactly when the JSON array that would be sent exceeds the limit; an empty listing
   is never refused.
   */
  method ListTree(fold: string -> string, shuffle: seq<Node> -> seq<Node>, root: seq<Node>, maxBytes: nat)
    returns (r: Result<seq<Resource>, TooLarge>)
    requires DistinctTree(root) && forall s :: multiset(shuffle(s)) == multiset(s)
    ensures r.Ok? <==> Listing(fold, root) == [] || |Response(Listing(fold, root))| <= maxBytes
    ensures r.Ok? ==> r.value == Listing(fold, root)
  {
    assert Response([]) == "[]";
    var ok, resources, bytes := Visit(fold, shuffle, root, maxBytes, [], 2);
    assert [] + Listing(fold, root) == Listing(fold, root);
    return if ok then Ok(resources) else Err(TooLarge.TooLarge);
  }
}
