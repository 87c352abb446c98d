/**
  The behaviour of Python's `str` methods that the command gate and the
  session runner depend on: `isspace`, `strip`, `split()`, `split(sep)[-1]`,
  `lower`, the substring test `p in s`, `sep.join` and the ordering that
  `sorted` uses on strings. Strings are sequences of code points.
 */
module PyStr {

  /** The 29 code points for which Python's `str.isspace()` is true. */
  const PythonWhitespace: set<char> :=
    {'\t', '\n', '\U{0b}', '\U{0c}', '\r', '\U{1c}', '\U{1d}', '\U{1e}', '\U{1f}', ' ', '\U{85}', '\U{a0}',
     '\U{1680}', '\U{2000}', '\U{2001}', '\U{2002}', '\U{2003}', '\U{2004}', '\U{2005}', '\U{2006}',
     '\U{2007}', '\U{2008}', '\U{2009}', '\U{200a}', '\U{2028}', '\U{2029}', '\U{202f}', '\U{205f}', '\U{3000}'}

  /** `c.isspace()`: the characters Python treats as whitespace. */
  predicate IsSpace(c: char) {
    || ('\t' <= c <= '\r')
    || ('\U{1c}' <= c <= '\U{1f}')
    || c == ' '
    || c == '\U{85}'
    || c == '\U{a0}'
    || c == '\U{1680}'
    || ('\U{2000}' <= c <= '\U{200a}')
    || c == '\U{2028}'
    || c == '\U{2029}'
    || c == '\U{202f}'
    || c == '\U{205f}'
    || c == '\U{3000}'
  }

  /** The ranges IsSpace tests cover exactly Python's whitespace code points. */
  lemma SpaceIsPythonWhitespace(c: char)
    ensures IsSpace(c) <==> c in PythonWhitespace
  {
  }

  /** Every character of `s` is whitespace (the empty string included). */
  predicate IsBlank(s: string) {
    forall i | 0 <= i < |s| :: IsSpace(s[i])
  }

  /** A piece that `split()` can return: non-empty, without whitespace. */
  predicate IsToken(t: string) {
    |t| > 0 && forall i | 0 <= i < |t| :: !IsSpace(t[i])
  }

  // ---------------------------------------------------------------------
  // strip()
  // ---------------------------------------------------------------------

  /** `s.lstrip()`: the longest suffix of `s` that does not start with whitespace. */
  function StripLeading(s: string): (r: string)
    ensures |r| <= |s| && r == s[|s| - |r|..]
    ensures forall i | 0 <= i < |s| - |r| :: IsSpace(s[i])
    ensures r == [] || !IsSpace(r[0])
  {
    if |s| > 0 && IsSpace(s[0]) then StripLeading(s[1..]) else s
  }

  /** `s.rstrip()`: the longest prefix of `s` that does not end with whitespace. */
  function StripTrailing(s: string): (r: string)
    ensures |r| <= |s| && r == s[..|r|]
    ensures forall i | |r| <= i < |s| :: IsSpace(s[i])
    ensures r == [] || !IsSpace(r[|r| - 1])
  {
    if |s| > 0 && IsSpace(s[|s| - 1]) then StripTrailing(s[..|s| - 1]) else s
  }

  /**
    `s.strip()`: the slice of `s` left after dropping the whitespace at
    both ends; it neither starts nor ends with whitespace.
   */
  function Strip(s: string): (r: string)
    ensures exists i :: TrimmedAt(s, r, i)
    ensures r == [] || (!IsSpace(r[0]) && !IsSpace(r[|r| - 1]))
  {
    var l := StripLeading(s);
    var r := StripTrailing(l);
    StripFacts(s, l, r);
    r
  }

  /** What the two strips together leave. */
  lemma StripFacts(s: string, l: string, r: string)
    requires l == StripLeading(s) && r == StripTrailing(l)
    ensures exists i :: TrimmedAt(s, r, i)
    ensures r == [] || (!IsSpace(r[0]) && !IsSpace(r[|r| - 1]))
  {
    LeadingMargin(s, l);
    TrailingMargin(l, r);
    TrimmedSlice(s, l, r, |s| - |l|);
    TrimmedEnds(l, r);
  }

  /** `r` is the slice of `s` at `i`, and everything around it is whitespace. */
  predicate TrimmedAt(s: string, r: string, i: int) {
    0 <= i <= |s| - |r| && r == s[i..i + |r|] && IsBlank(s[..i]) && IsBlank(s[i + |r|..])
  }

  /** lstrip() drops a blank prefix. */
  lemma LeadingMargin(s: string, l: string)
    requires l == StripLeading(s)
    ensures IsBlank(s[..|s| - |l|])
  {
    var head := s[..|s| - |l|];
    forall k | 0 <= k < |head| ensures IsSpace(head[k]) {
      assert head[k] == s[k];
    }
  }

  /** rstrip() drops a blank suffix. */
  lemma TrailingMargin(l: string, r: string)
    requires r == StripTrailing(l)
    ensures IsBlank(l[|r|..])
  {
    var tail := l[|r|..];
    forall k | 0 <= k < |tail| ensures IsSpace(tail[k]) {
      assert tail[k] == l[|r| + k];
    }
  }

  /** A prefix of a string that does not start with whitespace does not either. */
  lemma TrimmedEnds(l: string, r: string)
    requires |r| <= |l| && r == l[..|r|]
    requires l == [] || !IsSpace(l[0])
    requires r == [] || !IsSpace(r[|r| - 1])
    ensures r == [] || (!IsSpace(r[0]) && !IsSpace(r[|r| - 1]))
  {
  }

  /** A blank prefix cut, then a blank suffix cut, leave a slice with blank margins. */
  lemma TrimmedSlice(s: string, l: string, r: string, i: int)
    requires 0 <= i <= |s| && l == s[i..] && |r| <= |l| && r == l[..|r|]
    requires IsBlank(s[..i]) && IsBlank(l[|r|..])
    ensures TrimmedAt(s, r, i)
  {
    assert s[i + |r|..] == l[|r|..];
    assert r == s[i..i + |r|];
  }

  /** `s.strip()` is empty exactly when `s` is blank. */
  lemma StripEmptyIffBlank(s: string)
    ensures Strip(s) == [] <==> IsBlank(s)
  {
    var l := StripLeading(s);
    if Strip(s) != [] {
      var r := Strip(s);
      assert r[0] == l[0] == s[|s| - |l|];
    }
  }

  // ---------------------------------------------------------------------
  // split() with no argument
  // ---------------------------------------------------------------------

  /** Length of the longest prefix of `s` that holds no whitespace. */
  function TokenLength(s: string): (n: nat)
    ensures n <= |s|
    ensures forall i | 0 <= i < n :: !IsSpace(s[i])
    ensures n == |s| || IsSpace(s[n])
  {
    if |s| == 0 || IsSpace(s[0]) then 0 else 1 + TokenLength(s[1..])
  }

  /**
    `s.split()`: the maximal runs of non-whitespace characters, in order;
    leading, trailing and repeated whitespace produce no empty pieces.
   */
  function Split(s: string): (r: seq<string>)
    ensures forall t | t in r :: IsToken(t)
    decreases |s|
  {
    if |s| == 0 then []
    else if IsSpace(s[0]) then Split(s[1..])
    else
      var n := TokenLength(s);
      [s[..n]] + Split(s[n..])
  }

  /** `sep.join(ts)`: the tokens with `sep` between each two of them. */
  function Join(ts: seq<string>, sep: string): (r: string)
    ensures r == Spaced(ts, Gaps(|ts|, sep))
  {
    if |ts| == 0 then []
    else if |ts| == 1 then
      assert ts[0] + "" + [] == ts[0];
      ts[0]
    else
      assert Gaps(|ts|, sep)[1..] == Gaps(|ts| - 1, sep);
      ts[0] + sep + Join(ts[1..], sep)
  }

  /** What follows each of `n` joined tokens: `sep`, except after the last. */
  function Gaps(n: nat, sep: string): (ws: seq<string>)
    ensures |ws| == n
  {
    if n == 0 then [] else if n == 1 then [""] else [sep] + Gaps(n - 1, sep)
  }

  lemma {:induction false} SplitBlank(s: string)
    requires IsBlank(s)
    ensures Split(s) == []
    decreases |s|
  {
    if |s| > 0 {
      SplitBlank(s[1..]);
    }
  }

  /** `s.split()` yields nothing exactly when `s` is blank. */
  lemma SplitEmptyIffBlank(s: string)
    ensures Split(s) == [] <==> IsBlank(s)
  {
    if IsBlank(s) {
      SplitBlank(s);
    } else {
      SplitNonBlank(s);
    }
  }

  lemma {:induction false} SplitNonBlank(s: string)
    requires !IsBlank(s)
    ensures Split(s) != []
    decreases |s|
  {
    if IsSpace(s[0]) {
      assert !IsBlank(s[1..]) by {
        var i :| 0 <= i < |s| && !IsSpace(s[i]);
        assert s[1..][i - 1] == s[i];
      }
      SplitNonBlank(s[1..]);
    }
  }

  /** Appending whitespace (or nothing) does not change the first token's length. */
  lemma {:induction false} TokenLengthAppend(t: string, w: string)
    requires w == [] || IsSpace(w[0])
    ensures TokenLength(t + w) == TokenLength(t)
    decreases |t|
  {
    if |t| == 0 {
      assert t + w == w;
    } else if !IsSpace(t[0]) {
      assert (t + w)[1..] == t[1..] + w;
      TokenLengthAppend(t[1..], w);
    }
  }

  lemma {:induction false} SplitAppendBlank(t: string, w: string)
    requires IsBlank(w)
    ensures Split(t + w) == Split(t)
    decreases |t|
  {
    if |t| == 0 {
      assert t + w == w;
      SplitBlank(w);
    } else if IsSpace(t[0]) {
      assert (t + w)[1..] == t[1..] + w;
      SplitAppendBlank(t[1..], w);
    } else {
      TokenLengthAppend(t, w);
      var n := TokenLength(t);
      assert (t + w)[..n] == t[..n];
      assert (t + w)[n..] == t[n..] + w;
      SplitAppendBlank(t[n..], w);
    }
  }

  lemma {:induction false} SplitStripLeading(s: string)
    ensures Split(StripLeading(s)) == Split(s)
    decreases |s|
  {
    if |s| > 0 && IsSpace(s[0]) {
      SplitStripLeading(s[1..]);
    }
  }

  /** `s.strip().split()` is `s.split()`: stripping first changes nothing. */
  lemma SplitStrip(s: string)
    ensures Split(Strip(s)) == Split(s)
  {
    SplitStripTrailing(StripLeading(s));
    SplitStripLeading(s);
  }

  lemma SplitStripTrailing(l: string)
    ensures Split(StripTrailing(l)) == Split(l)
  {
    var r := StripTrailing(l);
    TrailingMargin(l, r);
    assert l == r + l[|r|..];
    SplitAppendBlank(r, l[|r|..]);
  }

  /** Leading whitespace does not change the tokens. */
  lemma {:induction false} SplitPrependBlank(w: string, s: string)
    requires IsBlank(w)
    ensures Split(w + s) == Split(s)
    decreases |w|
  {
    if |w| > 0 {
      assert IsSpace((w + s)[0]);
      assert (w + s)[1..] == w[1..] + s;
      assert IsBlank(w[1..]) by {
        forall i | 0 <= i < |w[1..]| ensures IsSpace(w[1..][i]) {
          assert w[1..][i] == w[i + 1];
        }
      }
      SplitPrependBlank(w[1..], s);
      assert Split(w + s) == Split((w + s)[1..]);
    } else {
      assert w + s == s;
    }
  }

  /**
    `ts[0] + ws[0] + ts[1] + ws[1] + ...`: each token followed by the
    whitespace after it.
   */
  function Spaced(ts: seq<string>, ws: seq<string>): string
    requires |ws| == |ts|
  {
    if |ts| == 0 then [] else ts[0] + ws[0] + Spaced(ts[1..], ws[1..])
  }

  /** Whitespace after each token: non-empty except possibly after the last. */
  predicate Separators(ws: seq<string>) {
    forall i | 0 <= i < |ws| :: IsBlank(ws[i]) && (i < |ws| - 1 ==> ws[i] != [])
  }

  /** A token and the whitespace after it are split off as that one token. */
  lemma SplitTokenThen(t: string, w: string, rest: string)
    requires IsToken(t) && IsBlank(w) && (w == [] ==> rest == [])
    ensures Split(t + w + rest) == [t] + Split(rest)
  {
    TokenLengthAppend(t, []);
    assert t + [] == t;
    var s := t + w + rest;
    assert s == t + (w + rest);
    if w == [] {
      assert s == t;
      assert s[..|t|] == t && s[|t|..] == [];
    } else {
      TokenLengthAppend(t, w + rest);
      assert s[..|t|] == t && s[|t|..] == w + rest;
      SplitPrependBlank(w, rest);
    }
  }

  /**
    Splitting tokens separated by any runs of whitespace, with any
    whitespace before and after them, gives the tokens back.
   */
  lemma SplitSpaced(lead: string, ts: seq<string>, ws: seq<string>)
    requires IsBlank(lead) && |ws| == |ts| && Separators(ws)
    requires forall t | t in ts :: IsToken(t)
    ensures Split(lead + Spaced(ts, ws)) == ts
  {
    SplitPrependBlank(lead, Spaced(ts, ws));
    SplitTokens(ts, ws);
  }

  lemma {:induction false} SplitTokens(ts: seq<string>, ws: seq<string>)
    requires |ws| == |ts| && Separators(ws)
    requires forall t | t in ts :: IsToken(t)
    ensures Split(Spaced(ts, ws)) == ts
    decreases |ts|
  {
    if |ts| > 0 {
      var rest := Spaced(ts[1..], ws[1..]);
      assert ts[0] in ts;
      SeparatorsTail(ws);
      assert ws[0] == [] ==> ts[1..] == [] && rest == [];
      SplitTokenThen(ts[0], ws[0], rest);
      SplitTokens(ts[1..], ws[1..]);
      assert ts == [ts[0]] + ts[1..];
    }
  }

  lemma SeparatorsTail(ws: seq<string>)
    requires |ws| > 0 && Separators(ws)
    ensures Separators(ws[1..]) && IsBlank(ws[0]) && (ws[0] == [] ==> |ws| == 1)
  {
    forall i | 0 <= i < |ws[1..]| ensures IsBlank(ws[1..][i]) && (i < |ws[1..]| - 1 ==> ws[1..][i] != []) {
      assert ws[1..][i] == ws[i + 1];
    }
  }

  /** Splitting the tokens joined by one space gives the tokens back. */
  lemma SplitJoin(ts: seq<string>)
    requires forall t | t in ts :: IsToken(t)
    ensures Split(Join(ts, " ")) == ts
  {
    var ws := Gaps(|ts|, " ");
    assert Separators(ws) by {
      GapsSeparate(|ts|, " ");
    }
    SplitSpaced([], ts, ws);
    assert [] + Join(ts, " ") == Join(ts, " ");
  }

  /** A whitespace separator makes the gaps of a join separators. */
  lemma {:induction false} GapsSeparate(n: nat, sep: string)
    requires IsBlank(sep) && sep != []
    ensures Separators(Gaps(n, sep))
  {
    if n > 1 {
      GapsSeparate(n - 1, sep);
      var ws := Gaps(n, sep);
      assert forall i | 1 <= i < n :: ws[i] == Gaps(n - 1, sep)[i - 1];
    }
  }

  // ---------------------------------------------------------------------
  // split(sep)[-1]
  // ---------------------------------------------------------------------

  /**
    `s.split(sep)[-1]`: what follows the last `sep` in `s`, or all of `s`
    when `sep` does not occur.
   */
  function LastPiece(s: string, sep: char): (r: string)
    ensures sep !in r
    ensures |r| <= |s| && r == s[|s| - |r|..]
    ensures |r| == |s| || s[|s| - |r| - 1] == sep
  {
    if |s| == 0 then []
    else if s[|s| - 1] == sep then []
    else LastPiece(s[..|s| - 1], sep) + [s[|s| - 1]]
  }

  /** Without a separator, the last piece is the whole string. */
  lemma LastPieceWhole(s: string, sep: char)
    requires sep !in s
    ensures LastPiece(s, sep) == s
  {
  }

  /** Whatever precedes the last separator does not matter. */
  lemma {:induction false} LastPieceAfterSeparator(d: string, s: string, sep: char)
    requires |d| > 0 && d[|d| - 1] == sep
    ensures LastPiece(d + s, sep) == LastPiece(s, sep)
    decreases |s|
  {
    if |s| == 0 {
      assert d + s == d;
    } else if s[|s| - 1] != sep {
      assert (d + s)[|d + s| - 1] == s[|s| - 1];
      assert (d + s)[..|d + s| - 1] == d + s[..|s| - 1];
      LastPieceAfterSeparator(d, s[..|s| - 1], sep);
    }
  }

  // ---------------------------------------------------------------------
  // lower()
  // ---------------------------------------------------------------------

  /** Lower-casing of one character, on the ASCII letters. */
  function LowerChar(c: char): char {
    if 'A' <= c <= 'Z' then (c as int + 32) as char else c
  }

  /** `s.lower()`, restricted to ASCII case mapping. */
  function Lower(s: string): (r: string)
    ensures |r| == |s|
  {
    seq(|s|, i requires 0 <= i < |s| => LowerChar(s[i]))
  }

  // ---------------------------------------------------------------------
  // the substring test `p in s`
  // ---------------------------------------------------------------------

  /** `p` occurs in `s` starting at index `i`. */
  predicate OccursAt(s: string, p: string, i: int) {
    0 <= i && i + |p| <= |s| && s[i..i + |p|] == p
  }

  /**
    `p in s`, scanning `s` from the left: true exactly when `p` occurs at
    some position of `s`.
   */
  predicate Contains(s: string, p: string): (b: bool)
    ensures b <==> exists i :: OccursAt(s, p, i)
    decreases |s|
  {
    if |p| > |s| then false
    else if s[..|p|] == p then
      assert OccursAt(s, p, 0);
      true
    else
      var b := |s| > 0 && Contains(s[1..], p);
      assert b <==> exists i :: OccursAt(s, p, i) by {
        if b {
          var i :| OccursAt(s[1..], p, i);
          assert s[1..][i..i + |p|] == s[i + 1..i + 1 + |p|];
          assert OccursAt(s, p, i + 1);
        } else {
          forall i ensures !OccursAt(s, p, i) {
            if i == 0 {
              assert s[0..|p|] == s[..|p|];
            } else if 0 < i && i + |p| <= |s| {
              assert !OccursAt(s[1..], p, i - 1);
              assert s[1..][i - 1..i - 1 + |p|] == s[i..i + |p|];
            }
          }
        }
      }
      b
  }

  // ---------------------------------------------------------------------
  // the ordering that sorted() uses on strings
  // ---------------------------------------------------------------------

  /** `a < b` on Python strings: lexicographic by code point. */
  predicate Below(a: string, b: string) {
    if |a| == 0 then |b| > 0
    else if |b| == 0 then false
    else a[0] < b[0] || (a[0] == b[0] && Below(a[1..], b[1..]))
  }

  lemma {:induction false} BelowIrreflexive(a: string)
    ensures !Below(a, a)
  {
    if |a| > 0 {
      BelowIrreflexive(a[1..]);
    }
  }

  lemma {:induction false} BelowTransitive(a: string, b: string, c: string)
    requires Below(a, b) && Below(b, c)
    ensures Below(a, c)
  {
    if |a| > 0 && a[0] == b[0] == c[0] {
      BelowTransitive(a[1..], b[1..], c[1..]);
    }
  }

  lemma {:induction false} BelowTotal(a: string, b: string)
    requires a != b
    ensures Below(a, b) || Below(b, a)
  {
    if |a| > 0 && |b| > 0 && a[0] == b[0] {
      assert a == [a[0]] + a[1..] && b == [b[0]] + b[1..];
      BelowTotal(a[1..], b[1..]);
    }
  }

  // ---------------------------------------------------------------------
  // sorted() applied to a set of strings
  // ---------------------------------------------------------------------

  /** Ascending with no repeats. */
  predicate StrictlySorted(s: seq<string>) {
    forall i, j | 0 <= i < j < |s| :: Below(s[i], s[j])
  }

  /** Puts `x` into its place in `s`, unless it is there already. */
  function Insert(x: string, s: seq<string>): (r: seq<string>)
    requires StrictlySorted(s)
    ensures StrictlySorted(r)
    ensures forall y :: y in r <==> y == x || y in s
  {
    if |s| == 0 then [x]
    else if x == s[0] then s
    else if Below(x, s[0]) then
      forall j | 0 <= j < |s| ensures Below(x, s[j]) {
        if j > 0 { BelowTransitive(x, s[0], s[j]); }
      }
      [x] + s
    else
      BelowTotal(x, s[0]);
      var t := Insert(x, s[1..]);
      forall y | y in t ensures Below(s[0], y) {
        if y != x {
          var j :| 0 <= j < |s[1..]| && s[1..][j] == y;
          assert s[j + 1] == y;
        }
      }
      assert forall j | 0 < j < |[s[0]] + t| :: ([s[0]] + t)[j] in t;
      [s[0]] + t
  }

  /** `sorted(set(xs))`: the distinct elements of `xs`, ascending. */
  function SortedDistinct(xs: seq<string>): (r: seq<string>)
    ensures StrictlySorted(r)
    ensures forall y :: y in r <==> y in xs
  {
    if |xs| == 0 then []
    else Insert(xs[0], SortedDistinct(xs[1..]))
  }

  /** There is only one ascending, repeat-free listing of a set. */
  lemma {:induction false} StrictlySortedUnique(a: seq<string>, b: seq<string>)
    requires StrictlySorted(a) && StrictlySorted(b)
    requires forall y :: y in a <==> y in b
    ensures a == b
  {
    if |a| > 0 {
      assert a[0] in a;
    }
    if |b| > 0 {
      assert b[0] in b;
    }
    if |a| > 0 && |b| > 0 {
      assert a[0] in b && b[0] in a;
      if a[0] != b[0] {
        var i :| 0 <= i < |b| && b[i] == a[0];
        var j :| 0 <= j < |a| && a[j] == b[0];
        assert Below(b[0], a[0]) && Below(a[0], b[0]);
        BelowTransitive(a[0], b[0], a[0]);
        BelowIrreflexive(a[0]);
      }
      forall y ensures y in a[1..] <==> y in b[1..] {
        if y in a[1..] {
          var i :| 0 <= i < |a[1..]| && a[1..][i] == y;
          assert Below(a[0], y);
          BelowIrreflexive(y);
          assert y in b && y != b[0];
        }
        if y in b[1..] {
          var i :| 0 <= i < |b[1..]| && b[1..][i] == y;
          assert Below(b[0], y);
          BelowIrreflexive(y);
          assert y in a && y != a[0];
        }
      }
      StrictlySortedUnique(a[1..], b[1..]);
    }
  }
}
