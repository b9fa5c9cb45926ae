/** The JavaScript built-ins the page script relies on, over strings as
    `seq<char>`: `split`, `filter`, `join`, `lastIndexOf`, `substring`,
    `includes`, truthiness, `||` and `${}` interpolation. */
module JsText {
  import opened Wrappers

  /** Truthiness of an optional string field: `undefined`, `null` and `""`
      are falsy, every other string is truthy. */
  predicate Truthy(s: Option<string>)
  {
    s.Some? && s.value != ""
  }

  /** `a || b` on two optional string fields. */
  function Or(a: Option<string>, b: Option<string>): (r: Option<string>)
    ensures Truthy(a) ==> r == a
    ensures !Truthy(a) ==> r == b
    ensures Truthy(r) <==> Truthy(a) || Truthy(b)
  {
    if Truthy(a) then a else b
  }

  /** `${s}` in a template literal: a missing field prints as "undefined". */
  function Interp(s: Option<string>): string
  {
    match s
    case Some(t) => t
    case None => "undefined"
  }

  /** `s.indexOf(c)`: the index of the first `c`, or -1 when there is none. */
  function IndexOf(s: string, c: char): (r: int)
    ensures -1 <= r < |s|
    ensures r >= 0 ==> s[r] == c
    ensures forall j :: 0 <= j < |s| && (r < 0 || j < r) ==> s[j] != c
    decreases |s|
  {
    if |s| == 0 then -1
    else if s[0] == c then 0
    else
      var r := IndexOf(s[1..], c);
      if r < 0 then -1 else r + 1
  }

  /** The first occurrence is the only index with `c` there and no `c` before. */
  lemma IndexOfUnique(s: string, c: char, k: nat)
    requires k < |s| && s[k] == c
    requires forall j :: 0 <= j < k ==> s[j] != c
    ensures IndexOf(s, c) == k
  {
  }

  /** `s.split(sep)` for a one-character separator: the text before the
      first separator, then the split of the text after it; a string without
      the separator is one piece, so `"".split(sep)` is `[""]`. */
  function Split(s: string, sep: char): (pieces: seq<string>)
    ensures |pieces| >= 1
    decreases |s|
  {
    var i := IndexOf(s, sep);
    if i < 0 then [s] else [s[..i]] + Split(s[i + 1..], sep)
  }

  /** `pieces.join(sep)`: the partner of `Split`. */
  function Join(pieces: seq<string>, sep: char): string
    decreases |pieces|
  {
    if |pieces| == 0 then ""
    else if |pieces| == 1 then pieces[0]
    else pieces[0] + [sep] + Join(pieces[1..], sep)
  }

  /** `Join` on two or more pieces: the first, a separator, the rest joined. */
  lemma JoinCons(p: string, rest: seq<string>, sep: char)
    requires |rest| >= 1
    ensures Join([p] + rest, sep) == p + [sep] + Join(rest, sep)
  {
    assert ([p] + rest)[1..] == rest;
  }

  /** `Split` when the separator occurs: the text before it, then the rest split. */
  lemma SplitFound(s: string, sep: char)
    requires IndexOf(s, sep) >= 0
    ensures Split(s, sep) == [s[..IndexOf(s, sep)]] + Split(s[IndexOf(s, sep) + 1..], sep)
  {
  }

  /** A string is the text before index `i`, the character there, and the text after it. */
  lemma Recompose(s: string, i: nat)
    requires i < |s|
    ensures s[..i] + [s[i]] + s[i + 1..] == s
  {
  }

  /** Splitting and joining again gives the string back. */
  lemma {:induction false} SplitJoin(s: string, sep: char)
    ensures Join(Split(s, sep), sep) == s
    decreases |s|
  {
    var i := IndexOf(s, sep);
    if i >= 0 {
      var rest := s[i + 1..];
      SplitJoin(rest, sep);
      SplitFound(s, sep);
      JoinCons(s[..i], Split(rest, sep), sep);
      Recompose(s, i);
    }
  }

  /** No piece contains the separator. */
  lemma {:induction false} SplitSepFree(s: string, sep: char)
    ensures forall p :: p in Split(s, sep) ==> sep !in p
    decreases |s|
  {
    var i := IndexOf(s, sep);
    if i >= 0 {
      SplitSepFree(s[i + 1..], sep);
      SplitFound(s, sep);
      forall p | p in Split(s, sep)
        ensures sep !in p
      {
        if p != s[..i] {
          assert p in Split(s[i + 1..], sep);
        }
      }
    }
  }

  /** A separator-free string is one piece. */
  lemma SplitNoSep(s: string, sep: char)
    requires sep !in s
    ensures Split(s, sep) == [s]
  {
  }

  /** Slices of `a + [sep] + b` up to and after an index `i` of `a`, or
      after `a` itself. */
  lemma AroundSep(a: string, b: string, sep: char, i: nat)
    requires i <= |a|
    ensures (a + [sep] + b)[i] == if i == |a| then sep else a[i]
    ensures (a + [sep] + b)[..i] == a[..i]
    ensures forall j :: 0 <= j < i ==> (a + [sep] + b)[j] == a[j]
    ensures i == |a| ==> (a + [sep] + b)[i + 1..] == b
    ensures i < |a| ==> (a + [sep] + b)[i + 1..] == a[i + 1..] + [sep] + b
  {
    if i < |a| {
      assert (a + [sep] + b)[i + 1..] == a[i + 1..] + [sep] + b;
    } else {
      assert (a + [sep] + b)[i + 1..] == b;
    }
  }

  /** With no separator in `a`, the separator after it ends the first piece. */
  lemma SplitAfterPlain(a: string, b: string, sep: char)
    requires IndexOf(a, sep) < 0
    ensures Split(a + [sep] + b, sep) == [a] + Split(b, sep)
  {
    var s := a + [sep] + b;
    AroundSep(a, b, sep, |a|);
    IndexOfUnique(s, sep, |a|);
    SplitFound(s, sep);
    assert s[..|a|] == a;
  }

  /** With a separator in `a`, the first piece ends at it, as in `a` alone. */
  lemma SplitBeforeSep(a: string, b: string, sep: char)
    requires IndexOf(a, sep) >= 0
    ensures var i := IndexOf(a, sep);
      Split(a + [sep] + b, sep) == [a[..i]] + Split(a[i + 1..] + [sep] + b, sep)
  {
    var s, i := a + [sep] + b, IndexOf(a, sep);
    AroundSep(a, b, sep, i);
    IndexOfUnique(s, sep, i);
    SplitFound(s, sep);
  }

  /** Concatenation is associative. */
  lemma Assoc<T>(a: seq<T>, b: seq<T>, c: seq<T>)
    ensures a + b + c == a + (b + c)
  {
  }

  /** Splitting at an occurrence of the separator splits the two sides
      independently. */
  lemma {:induction false} SplitAppend(a: string, b: string, sep: char)
    ensures Split(a + [sep] + b, sep) == Split(a, sep) + Split(b, sep)
    decreases |a|
  {
    var i := IndexOf(a, sep);
    if i < 0 {
      SplitAfterPlain(a, b, sep);
      SplitNoSep(a, sep);
    } else {
      SplitBeforeSep(a, b, sep);
      SplitFound(a, sep);
      SplitAppend(a[i + 1..], b, sep);
      Assoc([a[..i]], Split(a[i + 1..], sep), Split(b, sep));
    }
  }

  /** Joining separator-free pieces and splitting again gives the pieces back. */
  lemma {:induction false} JoinSplit(pieces: seq<string>, sep: char)
    requires |pieces| >= 1
    requires forall p :: p in pieces ==> sep !in p
    ensures Split(Join(pieces, sep), sep) == pieces
    decreases |pieces|
  {
    SplitNoSep(pieces[0], sep);
    if |pieces| > 1 {
      JoinSplit(pieces[1..], sep);
      SplitAppend(pieces[0], Join(pieces[1..], sep), sep);
      JoinCons(pieces[0], pieces[1..], sep);
      assert [pieces[0]] + pieces[1..] == pieces;
    }
  }

  /** `pieces.filter(p => p.length > 0)`. */
  function NonEmpty(pieces: seq<string>): (r: seq<string>)
    ensures forall p :: p in r ==> p != "" && p in pieces
    ensures forall p :: p in pieces && p != "" ==> p in r
    decreases |pieces|
  {
    if |pieces| == 0 then []
    else if pieces[0] == "" then NonEmpty(pieces[1..])
    else [pieces[0]] + NonEmpty(pieces[1..])
  }

  /** The filter keeps pieces in input order: it distributes over concatenation. */
  lemma {:induction false} NonEmptyAppend(a: seq<string>, b: seq<string>)
    ensures NonEmpty(a + b) == NonEmpty(a) + NonEmpty(b)
    decreases |a|
  {
    if |a| > 0 {
      assert (a + b)[1..] == a[1..] + b;
      NonEmptyAppend(a[1..], b);
    } else {
      assert a + b == b;
    }
  }

  /** `s.lastIndexOf(c)`: the index of the last `c`, or -1 when there is none. */
  function LastIndexOf(s: string, c: char): (r: int)
    ensures -1 <= r < |s|
    ensures r >= 0 ==> s[r] == c
    ensures forall j :: r < j < |s| ==> s[j] != c
    decreases |s|
  {
    if |s| == 0 then -1
    else if s[|s| - 1] == c then |s| - 1
    else LastIndexOf(s[..|s| - 1], c)
  }

  function Clamp(n: int, len: nat): (r: nat)
    ensures r <= len
  {
    if n < 0 then 0 else if n > len then len else n
  }

  /** `s.substring(start, end)`: both bounds are clamped into `[0, |s|]` and
      swapped when `start > end`. */
  function Substring(s: string, start: int, end: int): (r: string)
    ensures 0 <= start <= end <= |s| ==> r == s[start..end]
    ensures start == 0 && end < 0 ==> r == ""
  {
    var a := Clamp(start, |s|);
    var b := Clamp(end, |s|);
    if a <= b then s[a..b] else s[b..a]
  }

  /** `s.includes(pat)`. */
  predicate Includes(s: string, pat: string)
  {
    exists i :: 0 <= i <= |s| && OccursAt(s, pat, i)
  }

  predicate OccursAt(s: string, pat: string, i: nat)
  {
    i + |pat| <= |s| && s[i..i + |pat|] == pat
  }

  lemma IncludesInfix(p: string, pat: string, q: string)
    ensures Includes(p + pat + q, pat)
  {
    var s := p + pat + q;
    assert s[|p|..|p| + |pat|] == pat;
    assert OccursAt(s, pat, |p|);
  }

  /** `xs.map(f).join('')`. */
  function MapJoin<T>(xs: seq<T>, f: T -> string): string
    decreases |xs|
  {
    if |xs| == 0 then "" else f(xs[0]) + MapJoin(xs[1..], f)
  }

  /** Mapping and joining is a homomorphism: one fragment per element, in order. */
  lemma {:induction false} MapJoinAppend<T>(xs: seq<T>, ys: seq<T>, f: T -> string)
    ensures MapJoin(xs + ys, f) == MapJoin(xs, f) + MapJoin(ys, f)
    decreases |xs|
  {
    if |xs| == 0 {
      assert xs + ys == ys;
    } else {
      assert (xs + ys)[1..] == xs[1..] + ys;
      MapJoinAppend(xs[1..], ys, f);
    }
  }

  lemma MapJoinSingle<T>(x: T, f: T -> string)
    ensures MapJoin([x], f) == f(x)
  {
  }

  /** The fragment of element `k` sits between those of the elements before
      and after it. */
  lemma MapJoinAt<T>(xs: seq<T>, k: nat, f: T -> string)
    requires k < |xs|
    ensures MapJoin(xs, f) == MapJoin(xs[..k], f) + f(xs[k]) + MapJoin(xs[k + 1..], f)
  {
    assert xs == xs[..k] + xs[k..];
    MapJoinAppend(xs[..k], xs[k..], f);
    assert xs[k..][1..] == xs[k + 1..];
  }

  /** In `p + m + q`, `p` is the prefix, `q` the suffix, and `m` what lies between. */
  lemma Frame(p: string, m: string, q: string)
    ensures |p| + |q| <= |p + m + q|
    ensures (p + m + q)[..|p|] == p
    ensures (p + m + q)[|p|..|p + m + q| - |q|] == m
    ensures (p + m + q)[|p + m + q| - |q|..] == q
  {
  }

  /** After a heading `h`, the fragment of element `k` occurs right after the
      fragments of the elements before it. */
  lemma {:induction false} MapJoinOccursAt<T>(h: string, xs: seq<T>, k: nat, f: T -> string)
    requires k < |xs|
    ensures OccursAt(h + MapJoin(xs, f), f(xs[k]), |h| + |MapJoin(xs[..k], f)|)
  {
    var a, s, b := MapJoin(xs[..k], f), f(xs[k]), MapJoin(xs[k + 1..], f);
    MapJoinAt(xs, k, f);
    assert h + MapJoin(xs, f) == (h + a) + s + b;
  }
}
