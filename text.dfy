/**
 * String operations shared by the server and the browser client: trimming
 * against a given whitespace set, splitting on a separator, joining, and
 * substring containment.
 */
module Text {

  /** Characters for which Python's `str.isspace()` holds; `str.strip()` removes these. */
  const PyWhitespace: set<char> := {
    '\t', '\n', '\U{B}', '\U{C}', '\r', '\U{1C}', '\U{1D}', '\U{1E}', '\U{1F}', ' ',
    '\U{85}', '\U{A0}', '\U{1680}',
    '\U{2000}', '\U{2001}', '\U{2002}', '\U{2003}', '\U{2004}', '\U{2005}',
    '\U{2006}', '\U{2007}', '\U{2008}', '\U{2009}', '\U{200A}',
    '\U{2028}', '\U{2029}', '\U{202F}', '\U{205F}', '\U{3000}'
  }

  /** Characters that JavaScript's `String.prototype.trim()` removes (WhiteSpace and LineTerminator). */
  const JsWhitespace: set<char> := {
    '\t', '\n', '\U{B}', '\U{C}', '\r', ' ', '\U{A0}', '\U{1680}',
    '\U{2000}', '\U{2001}', '\U{2002}', '\U{2003}', '\U{2004}', '\U{2005}',
    '\U{2006}', '\U{2007}', '\U{2008}', '\U{2009}', '\U{200A}',
    '\U{2028}', '\U{2029}', '\U{202F}', '\U{205F}', '\U{3000}', '\U{FEFF}'
  }

  predicate AllIn(s: string, cs: set<char>) {
    forall i :: 0 <= i < |s| ==> s[i] in cs
  }

  /** Neither end of `s` is in `ws`. */
  predicate IsTrimmed(s: string, ws: set<char>) {
    |s| == 0 || (s[0] !in ws && s[|s| - 1] !in ws)
  }

  predicate StartsWith(s: string, prefix: string) {
    |prefix| <= |s| && s[..|prefix|] == prefix
  }

  predicate EndsWith(s: string, suffix: string) {
    |suffix| <= |s| && s[|s| - |suffix|..] == suffix
  }

  /** `t` occurs in `s` starting at index `k`. */
  predicate OccursAt(s: string, t: string, k: int) {
    0 <= k && k + |t| <= |s| && s[k..k + |t|] == t
  }

  predicate Contains(s: string, t: string) {
    exists k | 0 <= k <= |s| :: OccursAt(s, t, k)
  }

  /** Two occurrences of `t` in `s` that do not overlap. */
  predicate OccursTwice(s: string, t: string) {
    exists i, j | 0 <= i <= j <= |s| :: OccursAt(s, t, i) && OccursAt(s, t, j) && i + |t| <= j
  }

  /** Removes the longest prefix made of characters in `ws`. */
  function TrimStart(s: string, ws: set<char>): (r: string)
    ensures |r| <= |s| && r == s[|s| - |r|..]
    ensures forall i :: 0 <= i < |s| - |r| ==> s[i] in ws
    ensures r == [] || r[0] !in ws
    decreases |s|
  {
    if s != [] && s[0] in ws then TrimStart(s[1..], ws) else s
  }

  /** Removes the longest suffix made of characters in `ws`. */
  function TrimEnd(s: string, ws: set<char>): (r: string)
    ensures |r| <= |s| && r == s[..|r|]
    ensures forall i :: |r| <= i < |s| ==> s[i] in ws
    ensures r == [] || r[|r| - 1] !in ws
    decreases |s|
  {
    if s != [] && s[|s| - 1] in ws then TrimEnd(s[..|s| - 1], ws) else s
  }

  /** Python's `s.strip(chars)` and JavaScript's `s.trim()`, for the character set `ws`. */
  function Trim(s: string, ws: set<char>): (r: string)
    ensures IsTrimmed(r, ws)
    ensures |r| <= |s|
  {
    TrimEnd(TrimStart(s, ws), ws)
  }

  /** A string that is already trimmed is left alone. */
  lemma {:induction false} TrimOfTrimmed(s: string, ws: set<char>)
    requires IsTrimmed(s, ws)
    ensures Trim(s, ws) == s
  {
    assert TrimStart(s, ws) == s;
    assert TrimEnd(s, ws) == s;
  }

  /** A leading run of `ws` characters is removed, up to a character outside `ws`. */
  lemma {:induction false} TrimStartPadded(a: string, rest: string, ws: set<char>)
    requires AllIn(a, ws) && (rest == [] || rest[0] !in ws)
    ensures TrimStart(a + rest, ws) == rest
    decreases |a|
  {
    if a != [] {
      assert (a + rest)[0] == a[0];
      assert (a + rest)[1..] == a[1..] + rest;
      TrimStartPadded(a[1..], rest, ws);
    }
  }

  /** A trailing run of `ws` characters is removed, back to a character outside `ws`. */
  lemma {:induction false} TrimEndPadded(rest: string, b: string, ws: set<char>)
    requires AllIn(b, ws) && (rest == [] || rest[|rest| - 1] !in ws)
    ensures TrimEnd(rest + b, ws) == rest
    decreases |b|
  {
    if b != [] {
      var s := rest + b;
      assert s[|s| - 1] == b[|b| - 1];
      assert s[..|s| - 1] == rest + b[..|b| - 1];
      TrimEndPadded(rest, b[..|b| - 1], ws);
    }
  }

  /** Padding made only of `ws` around a trimmed core is removed exactly. */
  lemma {:induction false} TrimPadded(a: string, m: string, b: string, ws: set<char>)
    requires AllIn(a, ws) && AllIn(b, ws) && IsTrimmed(m, ws)
    ensures Trim(a + m + b, ws) == m
  {
    if m == [] {
      assert a + m + b == a + b;
      TrimStartPadded(a + b, [], ws);
      assert (a + b) + [] == a + b;
    } else {
      assert a + m + b == a + (m + b);
      TrimStartPadded(a, m + b, ws);
      TrimEndPadded(m, b, ws);
    }
  }

  /** `t` occurs in `a + t + b` right after `a`. */
  lemma OccursAfter(a: string, t: string, b: string)
    ensures OccursAt(a + t + b, t, |a|)
  {
    assert (a + t + b)[|a|..|a| + |t|] == t;
  }

  /** An occurrence in `p` is still one in `p + q`. */
  lemma OccursPrefix(p: string, q: string, t: string, k: int)
    requires OccursAt(p, t, k)
    ensures OccursAt(p + q, t, k)
  {
    assert (p + q)[k..k + |t|] == p[k..k + |t|];
  }

  /** An occurrence in `q` is one in `p + q`, shifted by `|p|`. */
  lemma OccursSuffix(p: string, q: string, t: string, k: int)
    requires OccursAt(q, t, k)
    ensures OccursAt(p + q, t, |p| + k)
  {
    assert (p + q)[|p| + k..|p| + k + |t|] == q[k..k + |t|];
  }

  /** Occurrence is transitive: `t` inside `m` inside `s` is inside `s`. */
  lemma OccursWithin(s: string, m: string, t: string, i: int, j: int)
    requires OccursAt(s, m, i) && OccursAt(m, t, j)
    ensures OccursAt(s, t, i + j)
  {
    forall x | 0 <= x < |t|
      ensures s[i + j + x] == t[x]
    {
      assert s[i + j + x] == s[i..i + |m|][j + x];
      assert t[x] == m[j..j + |t|][x];
    }
    assert s[i + j..i + j + |t|] == t;
  }

  lemma ContainsWithin(s: string, m: string, t: string)
    requires Contains(s, m) && Contains(m, t)
    ensures Contains(s, t)
  {
    var i :| 0 <= i <= |s| && OccursAt(s, m, i);
    var j :| 0 <= j <= |m| && OccursAt(m, t, j);
    OccursWithin(s, m, t, i, j);
  }

  /** Every piece of a join occurs in it. */
  lemma {:induction false} JoinContains(xs: seq<string>, sep: string, i: nat)
    requires i < |xs|
    ensures Contains(Join(xs, sep), xs[i])
    decreases |xs|
  {
    if |xs| == 1 {
      assert OccursAt(Join(xs, sep), xs[0], 0);
    } else if i == 0 {
      OccursPrefix(xs[0], sep + Join(xs[1..], sep), xs[0], 0);
      assert Join(xs, sep) == xs[0] + (sep + Join(xs[1..], sep));
    } else {
      JoinContains(xs[1..], sep, i - 1);
      var k :| 0 <= k <= |Join(xs[1..], sep)| && OccursAt(Join(xs[1..], sep), xs[i], k);
      OccursSuffix(xs[0] + sep, Join(xs[1..], sep), xs[i], k);
    }
  }

  function Join(xs: seq<string>, sep: string): (r: string)
    decreases |xs|
  {
    if |xs| == 0 then ""
    else if |xs| == 1 then xs[0]
    else xs[0] + sep + Join(xs[1..], sep)
  }

  /** The first character of a join is that of its first piece, when that piece is not empty. */
  lemma JoinStartsWithFirst(xs: seq<string>, sep: string)
    requires |xs| >= 1 && xs[0] != []
    ensures var j := Join(xs, sep); |j| >= 1 && j[0] == xs[0][0]
  {
    if |xs| > 1 {
      assert Join(xs, sep) == xs[0] + (sep + Join(xs[1..], sep));
    }
  }

  /** The last character of a join is that of its last piece, when that piece is not empty. */
  lemma {:induction false} JoinEndsWithLast(xs: seq<string>, sep: string)
    requires |xs| >= 1 && xs[|xs| - 1] != []
    ensures var j := Join(xs, sep); |j| >= 1 && j[|j| - 1] == xs[|xs| - 1][|xs[|xs| - 1]| - 1]
    decreases |xs|
  {
    if |xs| > 1 {
      JoinEndsWithLast(xs[1..], sep);
    }
  }

  /** A join begins with its first piece. */
  lemma JoinStartsWithPiece(xs: seq<string>, sep: string)
    requires |xs| >= 1
    ensures StartsWith(Join(xs, sep), xs[0])
  {
    if |xs| > 1 {
      assert Join(xs, sep) == xs[0] + (sep + Join(xs[1..], sep));
    }
  }

  /** A join ends with its last piece. */
  lemma {:induction false} JoinEndsWithPiece(xs: seq<string>, sep: string)
    requires |xs| >= 1
    ensures EndsWith(Join(xs, sep), xs[|xs| - 1])
    decreases |xs|
  {
    if |xs| > 1 {
      JoinEndsWithPiece(xs[1..], sep);
      assert Join(xs, sep) == (xs[0] + sep) + Join(xs[1..], sep);
    }
  }

  /** Each piece of a join is followed by the separator and the next piece. */
  lemma {:induction false} JoinAdjacent(xs: seq<string>, sep: string, i: nat)
    requires i + 1 < |xs|
    ensures Contains(Join(xs, sep), xs[i] + sep + xs[i + 1])
    decreases |xs|
  {
    var rest := Join(xs[1..], sep);
    assert Join(xs, sep) == (xs[0] + sep) + rest;
    if i == 0 {
      JoinStartsWithPiece(xs[1..], sep);
      var pair := xs[0] + sep + xs[1];
      assert rest == xs[1] + rest[|xs[1]|..];
      assert Join(xs, sep) == pair + rest[|xs[1]|..];
      assert OccursAt(pair, pair, 0);
      OccursPrefix(pair, rest[|xs[1]|..], pair, 0);
    } else {
      JoinAdjacent(xs[1..], sep, i - 1);
      var t := xs[i] + sep + xs[i + 1];
      var k :| 0 <= k <= |rest| && OccursAt(rest, t, k);
      OccursSuffix(xs[0] + sep, rest, t, k);
    }
  }

  /** Extending the last piece extends the join by the same text. */
  lemma {:induction false} JoinExtendLast(xs: seq<string>, sep: string, y: string)
    requires |xs| >= 1
    ensures Join(xs[..|xs| - 1] + [xs[|xs| - 1] + y], sep) == Join(xs, sep) + y
    decreases |xs|
  {
    var ys := xs[..|xs| - 1] + [xs[|xs| - 1] + y];
    if |xs| > 1 {
      JoinExtendLast(xs[1..], sep, y);
      assert ys[1..] == xs[1..][..|xs| - 2] + [xs[1..][|xs| - 2] + y];
    }
  }

  /** A character absent from `s` is absent from any trimming of it. */
  lemma TrimKeepsAbsent(s: string, ws: set<char>, c: char)
    requires c !in s
    ensures c !in Trim(s, ws)
  {
    var left := TrimStart(s, ws);
    var r := TrimEnd(left, ws);
    assert r == s[|s| - |left|..|s| - |left| + |r|];
  }

  /**
   * JavaScript's `s.split(sep)` for a one-character separator: the pieces
   * between separators, with empty pieces kept; joining them back gives `s`.
   */
  function Split(s: string, sep: char): (r: seq<string>)
    ensures |r| >= 1
    ensures forall i :: 0 <= i < |r| ==> sep !in r[i]
    ensures Join(r, [sep]) == s
    decreases |s|
  {
    if s == [] then [[]]
    else if s[0] == sep then
      var rest := Split(s[1..], sep);
      assert [sep] + s[1..] == s;
      [[]] + rest
    else
      var rest := Split(s[1..], sep);
      var r := [[s[0]] + rest[0]] + rest[1..];
      assert r[1..] == rest[1..];
      assert Join(r, [sep]) == [s[0]] + Join(rest, [sep]);
      r
  }

  /** Splitting a separator-free prefix onto what follows extends only the first piece. */
  lemma {:induction false} SplitPrefix(x: string, t: string, sep: char)
    requires sep !in x
    ensures Split(x + t, sep) == [x + Split(t, sep)[0]] + Split(t, sep)[1..]
    decreases |x|
  {
    if x != [] {
      assert (x + t)[0] == x[0];
      assert (x + t)[1..] == x[1..] + t;
      SplitPrefix(x[1..], t, sep);
      assert [x[0]] + (x[1..] + Split(t, sep)[0]) == x + Split(t, sep)[0];
    } else {
      var pieces := Split(t, sep);
      assert x + t == t;
      assert x + pieces[0] == pieces[0];
      assert [pieces[0]] + pieces[1..] == pieces;
    }
  }

  /** Split undoes Join for separator-free pieces. */
  lemma {:induction false} SplitJoin(xs: seq<string>, sep: char)
    requires |xs| >= 1
    requires forall i :: 0 <= i < |xs| ==> sep !in xs[i]
    ensures Split(Join(xs, [sep]), sep) == xs
    decreases |xs|
  {
    if |xs| == 1 {
      SplitPrefix(xs[0], [], sep);
      assert xs[0] + [] == xs[0];
    } else {
      var rest := Join(xs[1..], [sep]);
      SplitJoin(xs[1..], sep);
      assert Join(xs, [sep]) == xs[0] + ([sep] + rest);
      SplitPrefix(xs[0], [sep] + rest, sep);
      assert ([sep] + rest)[1..] == rest;
      assert Split([sep] + rest, sep) == [[]] + xs[1..];
      assert xs[0] + [] == xs[0];
      assert [xs[0]] + xs[1..] == xs;
    }
  }

  /** Text appended without separators extends only the last piece. */
  lemma SplitSuffix(t: string, y: string, sep: char)
    requires sep !in y
    ensures var a := Split(t, sep); Split(t + y, sep) == a[..|a| - 1] + [a[|a| - 1] + y]
  {
    var a := Split(t, sep);
    var b := a[..|a| - 1] + [a[|a| - 1] + y];
    JoinExtendLast(a, [sep], y);
    assert forall i :: 0 <= i < |b| ==> sep !in b[i] by {
      forall i | 0 <= i < |b|
        ensures sep !in b[i]
      {
        if i == |b| - 1 {
          assert b[i] == a[|a| - 1] + y;
        } else {
          assert b[i] == a[i];
        }
      }
    }
    SplitJoin(b, sep);
  }

  /** Leading characters of `ws` do not change a trimming. */
  lemma {:induction false} TrimStartSkips(w: string, x: string, ws: set<char>)
    requires AllIn(w, ws)
    ensures TrimStart(w + x, ws) == TrimStart(x, ws)
    decreases |w|
  {
    if w == [] {
      assert w + x == x;
    } else {
      assert (w + x)[0] == w[0];
      assert (w + x)[1..] == w[1..] + x;
      TrimStartSkips(w[1..], x, ws);
    }
  }

  /** Trailing characters of `ws` do not change a right trimming. */
  lemma {:induction false} TrimEndSkips(x: string, w: string, ws: set<char>)
    requires AllIn(w, ws)
    ensures TrimEnd(x + w, ws) == TrimEnd(x, ws)
    decreases |w|
  {
    if w == [] {
      assert x + w == x;
    } else {
      var s := x + w;
      assert s[|s| - 1] == w[|w| - 1];
      assert s[..|s| - 1] == x + w[..|w| - 1];
      TrimEndSkips(x, w[..|w| - 1], ws);
    }
  }

  /** Left trimming keeps a suffix it does not reach. */
  lemma {:induction false} TrimStartAppend(x: string, w: string, ws: set<char>)
    requires TrimStart(x, ws) != []
    ensures TrimStart(x + w, ws) == TrimStart(x, ws) + w
    decreases |x|
  {
    assert (x + w)[0] == x[0];
    if x[0] in ws {
      assert (x + w)[1..] == x[1..] + w;
      TrimStartAppend(x[1..], w, ws);
    }
  }

  /** Whitespace around a text does not change its trimming. */
  lemma TrimSkipsPadding(w1: string, x: string, w2: string, ws: set<char>)
    requires AllIn(w1, ws) && AllIn(w2, ws)
    ensures Trim(w1 + x + w2, ws) == Trim(x, ws)
  {
    assert w1 + x + w2 == w1 + (x + w2);
    TrimStartSkips(w1, x + w2, ws);
    if TrimStart(x, ws) == [] {
      assert AllIn(x + w2, ws) by {
        forall i | 0 <= i < |x + w2|
          ensures (x + w2)[i] in ws
        {
          if i < |x| {
            assert x[i] in ws;
          } else {
            assert (x + w2)[i] == w2[i - |x|];
          }
        }
      }
      TrimStartPadded(x + w2, [], ws);
      assert (x + w2) + [] == x + w2;
    } else {
      TrimStartAppend(x, w2, ws);
      TrimEndSkips(TrimStart(x, ws), w2, ws);
    }
  }

  /** A string is the whitespace that `TrimStart` removes followed by what it keeps. */
  lemma TrimStartDecompose(s: string, ws: set<char>) returns (w: string)
    ensures AllIn(w, ws) && s == w + TrimStart(s, ws)
  {
    var k := |s| - |TrimStart(s, ws)|;
    w := s[..k];
    forall i | 0 <= i < |w|
      ensures w[i] in ws
    {
      assert w[i] == s[i];
    }
    assert s == s[..k] + s[k..];
  }

  /** A string is what `TrimEnd` keeps followed by the whitespace it removes. */
  lemma TrimEndDecompose(s: string, ws: set<char>) returns (w: string)
    ensures AllIn(w, ws) && s == TrimEnd(s, ws) + w
  {
    var k := |TrimEnd(s, ws)|;
    w := s[k..];
    forall i | 0 <= i < |w|
      ensures w[i] in ws
    {
      assert w[i] == s[k + i];
    }
    assert s == s[..k] + s[k..];
  }

  /** A string is its trimming with whitespace on either side. */
  lemma TrimDecompose(s: string, ws: set<char>) returns (w1: string, w2: string)
    ensures AllIn(w1, ws) && AllIn(w2, ws) && s == w1 + Trim(s, ws) + w2
  {
    w1 := TrimStartDecompose(s, ws);
    w2 := TrimEndDecompose(TrimStart(s, ws), ws);
    Regroup(s, w1, TrimStart(s, ws), Trim(s, ws), w2);
  }

  lemma Regroup(s: string, w1: string, x: string, y: string, w2: string)
    requires s == w1 + x && x == y + w2
    ensures s == w1 + y + w2
  {
    assert w1 + (y + w2) == w1 + y + w2;
  }

  /** `a` with `w1` added to its first element and `w2` to its last. */
  function PadEnds(a: seq<string>, w1: string, w2: string): (c: seq<string>)
    requires |a| >= 1
    ensures |c| == |a|
    ensures forall i :: 0 < i < |a| - 1 ==> c[i] == a[i]
  {
    if |a| == 1 then [w1 + a[0] + w2]
    else [w1 + a[0]] + a[1..|a| - 1] + [a[|a| - 1] + w2]
  }

  /** Text added before and after, free of the separator, pads the end pieces. */
  lemma SplitPadded(w1: string, t: string, w2: string, sep: char)
    requires sep !in w1 && sep !in w2
    ensures Split(w1 + t + w2, sep) == PadEnds(Split(t, sep), w1, w2)
  {
    var a := Split(t, sep);
    SplitSuffix(t, w2, sep);
    var middle := a[..|a| - 1] + [a[|a| - 1] + w2];
    assert w1 + t + w2 == w1 + (t + w2);
    SplitPrefix(w1, t + w2, sep);
    assert Split(w1 + t + w2, sep) == [w1 + middle[0]] + middle[1..];
    if |a| == 1 {
      assert middle == [a[0] + w2];
      assert w1 + (a[0] + w2) == w1 + a[0] + w2;
    } else {
      assert middle[0] == a[0];
      assert middle[1..] == a[1..|a| - 1] + [a[|a| - 1] + w2];
    }
  }

  /** Padding the end pieces with characters of `ws` changes none of the trimmed pieces. */
  lemma TrimPadEnds(a: seq<string>, w1: string, w2: string, ws: set<char>)
    requires |a| >= 1 && AllIn(w1, ws) && AllIn(w2, ws)
    ensures forall i :: 0 <= i < |a| ==> Trim(PadEnds(a, w1, w2)[i], ws) == Trim(a[i], ws)
  {
    var c := PadEnds(a, w1, w2);
    forall i | 0 <= i < |a|
      ensures Trim(c[i], ws) == Trim(a[i], ws)
    {
      var p := if i == 0 then w1 else [];
      var q := if i == |a| - 1 then w2 else [];
      if |a| == 1 {
        assert c[i] == p + a[i] + q;
      } else if i == 0 {
        assert c[i] == p + a[i] + q;
      } else if i == |a| - 1 {
        assert c[i] == p + a[i] + q;
      } else {
        assert p + a[i] + q == a[i];
      }
      TrimSkipsPadding(p, a[i], q, ws);
    }
  }

  /**
   * Whitespace around a text adds only to its first and last pieces, so the
   * trimmed pieces are the same.
   */
  lemma SplitPaddedPieces(w1: string, t: string, w2: string, sep: char, ws: set<char>)
    requires AllIn(w1, ws) && AllIn(w2, ws) && sep !in ws
    ensures var a := Split(t, sep); var c := Split(w1 + t + w2, sep);
      |c| == |a| && forall i :: 0 <= i < |a| ==> Trim(c[i], ws) == Trim(a[i], ws)
  {
    assert sep !in w1 && sep !in w2;
    SplitPadded(w1, t, w2, sep);
    TrimPadEnds(Split(t, sep), w1, w2, ws);
  }

  /** Trimming a text before splitting it changes none of the trimmed pieces. */
  lemma SplitOfTrimmed(s: string, sep: char, ws: set<char>)
    requires sep !in ws
    ensures var a := Split(Trim(s, ws), sep); var c := Split(s, sep);
      |c| == |a| && forall i :: 0 <= i < |a| ==> Trim(c[i], ws) == Trim(a[i], ws)
  {
    var w1, w2 := TrimDecompose(s, ws);
    SplitPaddedPieces(w1, Trim(s, ws), w2, sep, ws);
  }

  function DigitChar(d: nat): (c: char)
    requires d < 10
    ensures '0' <= c <= '9'
  {
    "0123456789"[d]
  }

  /** Decimal rendering of a natural number, as Python's `str` and JavaScript's `String` give it. */
  function NatToString(n: nat): (r: string)
    ensures |r| >= 1
    ensures forall i :: 0 <= i < |r| ==> '0' <= r[i] <= '9'
  {
    if n < 10 then [DigitChar(n)] else NatToString(n / 10) + [DigitChar(n % 10)]
  }

  function IntToString(n: int): (r: string)
    ensures |r| >= 1
    ensures r[0] == '-' <==> n < 0
  {
    if n < 0 then "-" + NatToString(-n) else NatToString(n)
  }

  /** JavaScript's `toUpperCase` restricted to ASCII letters, the only letters it is applied to here. */
  function ToUpperAscii(s: string): (r: string)
    ensures |r| == |s|
    ensures forall i :: 0 <= i < |s| ==> (r[i] == s[i] <==> !('a' <= s[i] <= 'z'))
  {
    seq(|s|, i requires 0 <= i < |s| =>
      if 'a' <= s[i] <= 'z' then (s[i] as int - 32) as char else s[i])
  }
}
