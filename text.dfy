/**
 * The string operations the application performs through JavaScript's
 * standard library: `join`, `includes`, `indexOf`/`lastIndexOf`, `trim`,
 * `split(c)[0]` and the ordering of strings.
 */
module Text {
  import opened Wrappers

  /** `parts.join(sep)`. */
  function Join(parts: seq<string>, sep: string): string
    decreases |parts|
  {
    if parts == [] then ""
    else if |parts| == 1 then parts[0]
    else parts[0] + sep + Join(parts[1..], sep)
  }

  /** Joining two non-empty lists puts exactly one separator between them. */
  lemma {:induction false} JoinAppend(a: seq<string>, b: seq<string>, sep: string)
    requires a != [] && b != []
    ensures Join(a + b, sep) == Join(a, sep) + sep + Join(b, sep)
    decreases |a|
  {
    if |a| == 1 {
      assert (a + b)[1..] == b;
    } else {
      assert (a + b)[1..] == a[1..] + b;
      JoinAppend(a[1..], b, sep);
    }
  }

  /** `s.includes(t)`: t occurs in s as a contiguous piece. */
  predicate Contains(s: string, t: string)
  {
    exists i :: 0 <= i <= |s| - |t| && OccursAt(s, t, i)
  }

  /** t occurs in s starting at index i. */
  predicate OccursAt(s: string, t: string, i: int)
  {
    0 <= i && i + |t| <= |s| && s[i..i + |t|] == t
  }

  lemma ContainsMiddle(a: string, t: string, b: string)
    ensures Contains(a + t + b, t)
  {
    var s := a + t + b;
    assert s[|a|..|a| + |t|] == t;
    assert OccursAt(s, t, |a|);
  }

  lemma ContainsExtended(s: string, t: string, a: string, b: string)
    requires Contains(s, t)
    ensures Contains(a + s + b, t)
  {
    var i :| 0 <= i <= |s| - |t| && OccursAt(s, t, i);
    var w := a + s + b;
    assert w[|a| + i..|a| + i + |t|] == s[i..i + |t|];
    assert OccursAt(w, t, |a| + i);
  }

  /** r is obtained from s by deleting characters (r is a subsequence of s). */
  predicate Subsequence(r: string, s: string)
    decreases |s|
  {
    r == [] || (s != [] && ((r[0] == s[0] && Subsequence(r[1..], s[1..])) || Subsequence(r, s[1..])))
  }

  lemma {:induction false} SubsequenceLength(r: string, s: string)
    requires Subsequence(r, s)
    ensures |r| <= |s|
    decreases |s|
  {
    if r != [] {
      if r[0] == s[0] && Subsequence(r[1..], s[1..]) {
        SubsequenceLength(r[1..], s[1..]);
      } else {
        SubsequenceLength(r, s[1..]);
      }
    }
  }

  lemma {:induction false} SubsequenceReflexive(s: string)
    ensures Subsequence(s, s)
    decreases |s|
  {
    if s != [] {
      SubsequenceReflexive(s[1..]);
    }
  }

  lemma SubsequenceCons(c: char, r: string, s: string)
    requires Subsequence(r, s)
    ensures Subsequence([c] + r, [c] + s)
  {
    assert ([c] + r)[1..] == r;
    assert ([c] + s)[1..] == s;
  }

  lemma {:induction false} SubsequenceDropPrefix(r: string, x: string, t: string)
    requires Subsequence(r, t)
    ensures Subsequence(r, x + t)
    decreases |x|
  {
    if x == [] {
      assert x + t == t;
    } else if r != [] {
      assert (x + t)[1..] == x[1..] + t;
      SubsequenceDropPrefix(r, x[1..], t);
    }
  }

  /** `s.indexOf(c, from)`, or None where JavaScript gives -1. */
  function IndexFrom(s: string, c: char, from: nat): (r: Option<nat>)
    requires from <= |s|
    ensures r.Some? ==> from <= r.value < |s| && s[r.value] == c
    ensures r.Some? ==> forall k :: from <= k < r.value ==> s[k] != c
    ensures r.None? ==> forall k :: from <= k < |s| ==> s[k] != c
    decreases |s| - from
  {
    if from == |s| then None
    else if s[from] == c then Some(from)
    else IndexFrom(s, c, from + 1)
  }

  /** `s.lastIndexOf(c)`, or None where JavaScript gives -1. */
  function LastIndex(s: string, c: char): (r: Option<nat>)
    ensures r.Some? ==> r.value < |s| && s[r.value] == c
    ensures r.Some? ==> forall k :: r.value < k < |s| ==> s[k] != c
    ensures r.None? ==> forall k :: 0 <= k < |s| ==> s[k] != c
    decreases |s|
  {
    if s == [] then None
    else if s[|s| - 1] == c then Some(|s| - 1)
    else LastIndex(s[..|s| - 1], c)
  }

  /** `s.split(c)[0]`: the part of s before the first c, or all of s. */
  function BeforeFirst(s: string, c: char): (r: string)
    ensures |r| <= |s| && r == s[..|r|]
    ensures forall k :: 0 <= k < |r| ==> r[k] != c
    ensures |r| < |s| ==> s[|r|] == c
  {
    match IndexFrom(s, c, 0)
    case None => s
    case Some(k) => s[..k]
  }

  /** The calendar date of an ISO-8601 timestamp: `iso.split('T')[0]`. */
  function IsoDate(iso: string): string
  {
    BeforeFirst(iso, 'T')
  }

  lemma IsoDateOfTimestamp(day: string, time: string)
    requires forall k :: 0 <= k < |day| ==> day[k] != 'T'
    ensures IsoDate(day + "T" + time) == day
  {
    var s := day + "T" + time;
    var r := IsoDate(s);
    assert s[|day|] == 'T';
    assert |r| == |day|;
    assert r == s[..|day|] == day;
  }

  /**
   * Lexicographic order of strings, character by character: the order in
   * which the store compares ISO dates such as "2026-10-16".
   */
  predicate LexLe(a: string, b: string)
    decreases |a|
  {
    a == [] || (b != [] && (a[0] < b[0] || (a[0] == b[0] && LexLe(a[1..], b[1..]))))
  }

  lemma {:induction false} LexLeReflexive(a: string)
    ensures LexLe(a, a)
    decreases |a|
  {
    if a != [] {
      LexLeReflexive(a[1..]);
    }
  }

  lemma {:induction false} LexLeTotal(a: string, b: string)
    ensures LexLe(a, b) || LexLe(b, a)
    decreases |a|
  {
    if a != [] && b != [] && a[0] == b[0] {
      LexLeTotal(a[1..], b[1..]);
    }
  }

  lemma {:induction false} LexLeTransitive(a: string, b: string, c: string)
    requires LexLe(a, b) && LexLe(b, c)
    ensures LexLe(a, c)
    decreases |a|
  {
    if a != [] && a[0] == b[0] && b[0] == c[0] {
      LexLeTransitive(a[1..], b[1..], c[1..]);
    }
  }

  lemma {:induction false} LexLeAntisymmetric(a: string, b: string)
    requires LexLe(a, b) && LexLe(b, a)
    ensures a == b
    decreases |a|
  {
    if a != [] {
      LexLeAntisymmetric(a[1..], b[1..]);
      assert a == [a[0]] + a[1..];
      assert b == [b[0]] + b[1..];
    }
  }

  /** The characters `String.prototype.trim` removes: white space and line terminators. */
  predicate IsJsWhitespace(c: char)
  {
    || c == '\t' || c == '\n' || c == '\U{B}' || c == '\U{C}' || c == '\r' || c == ' '
    || c == '\U{A0}' || c == '\U{1680}' || ('\U{2000}' <= c <= '\U{200A}')
    || c == '\U{2028}' || c == '\U{2029}' || c == '\U{202F}' || c == '\U{205F}'
    || c == '\U{3000}' || c == '\U{FEFF}'
  }

  predicate HasNonWhitespace(s: string)
  {
    exists i :: 0 <= i < |s| && !IsJsWhitespace(s[i])
  }

  /** `s.trimStart()`. */
  function TrimStart(s: string): string
    decreases |s|
  {
    if s != [] && IsJsWhitespace(s[0]) then TrimStart(s[1..]) else s
  }

  /** `s.trimEnd()`. */
  function TrimEnd(s: string): string
    decreases |s|
  {
    if s != [] && IsJsWhitespace(s[|s| - 1]) then TrimEnd(s[..|s| - 1]) else s
  }

  /**
   * `trimStart` removes a prefix, all of it white space, and what remains is
   * empty or starts with a visible character.
   */
  lemma {:induction false} TrimStartSpec(s: string)
    ensures |TrimStart(s)| <= |s| && TrimStart(s) == s[|s| - |TrimStart(s)|..]
    ensures forall k :: 0 <= k < |s| - |TrimStart(s)| ==> IsJsWhitespace(s[k])
    ensures TrimStart(s) == [] || !IsJsWhitespace(TrimStart(s)[0])
    decreases |s|
  {
    if s != [] && IsJsWhitespace(s[0]) {
      TrimStartSpec(s[1..]);
      assert s[1..][|s| - 1 - |TrimStart(s)|..] == s[|s| - |TrimStart(s)|..];
      forall k | 1 <= k < |s| - |TrimStart(s)| ensures IsJsWhitespace(s[k]) {
        assert s[k] == s[1..][k - 1];
      }
    }
  }

  /**
   * `trimEnd` removes a suffix, all of it white space, and what remains is
   * empty or ends with a visible character.
   */
  lemma {:induction false} TrimEndSpec(s: string)
    ensures |TrimEnd(s)| <= |s| && TrimEnd(s) == s[..|TrimEnd(s)|]
    ensures forall k :: |TrimEnd(s)| <= k < |s| ==> IsJsWhitespace(s[k])
    ensures TrimEnd(s) == [] || !IsJsWhitespace(TrimEnd(s)[|TrimEnd(s)| - 1])
    decreases |s|
  {
    if s != [] && IsJsWhitespace(s[|s| - 1]) {
      TrimEndSpec(s[..|s| - 1]);
      assert s[..|s| - 1][..|TrimEnd(s)|] == s[..|TrimEnd(s)|];
      forall k | |TrimEnd(s)| <= k < |s| - 1 ensures IsJsWhitespace(s[k]) {
        assert s[k] == s[..|s| - 1][k];
      }
    }
  }

  /** `s.trim()`. */
  function Trim(s: string): string
  {
    TrimEnd(TrimStart(s))
  }

  lemma {:induction false} TrimStartStopsEarly(p: string, x: string)
    requires HasNonWhitespace(p)
    ensures TrimStart(p + x) == TrimStart(p) + x
    decreases |p|
  {
    assert (p + x)[0] == p[0];
    if IsJsWhitespace(p[0]) {
      assert (p + x)[1..] == p[1..] + x;
      var i :| 0 <= i < |p| && !IsJsWhitespace(p[i]);
      assert !IsJsWhitespace(p[1..][i - 1]);
      TrimStartStopsEarly(p[1..], x);
    }
  }

  lemma {:induction false} TrimEndStopsEarly(y: string, q: string)
    requires HasNonWhitespace(q)
    ensures TrimEnd(y + q) == y + TrimEnd(q)
    decreases |q|
  {
    assert (y + q)[|y + q| - 1] == q[|q| - 1];
    if IsJsWhitespace(q[|q| - 1]) {
      assert (y + q)[..|y + q| - 1] == y + q[..|q| - 1];
      var i :| 0 <= i < |q| && !IsJsWhitespace(q[i]);
      assert i < |q| - 1;
      assert !IsJsWhitespace(q[..|q| - 1][i]);
      TrimEndStopsEarly(y, q[..|q| - 1]);
    }
  }

  lemma TrimStartKeepsTail(p: string, m: string, q: string)
    requires HasNonWhitespace(p)
    ensures TrimStart(p + m + q) == TrimStart(p) + (m + q)
  {
    assert p + m + q == p + (m + q);
    TrimStartStopsEarly(p, m + q);
  }

  lemma TrimEndKeepsHead(a: string, m: string, q: string)
    requires HasNonWhitespace(q)
    ensures TrimEnd(a + (m + q)) == a + m + TrimEnd(q)
  {
    assert a + (m + q) == (a + m) + q;
    TrimEndStopsEarly(a + m, q);
  }

  /** Trimming a text that has visible characters on both sides of m leaves m as it is. */
  lemma TrimKeepsInterior(p: string, m: string, q: string)
    requires HasNonWhitespace(p) && HasNonWhitespace(q)
    ensures Trim(p + m + q) == TrimStart(p) + m + TrimEnd(q)
  {
    TrimStartKeepsTail(p, m, q);
    TrimEndKeepsHead(TrimStart(p), m, q);
  }

  /** Leading white space before a visible character is all that `trimStart` removes. */
  lemma {:induction false} TrimStartDropsWhitespace(w: string, x: string)
    requires forall k :: 0 <= k < |w| ==> IsJsWhitespace(w[k])
    requires x != [] && !IsJsWhitespace(x[0])
    ensures TrimStart(w + x) == x
    decreases |w|
  {
    if w == [] {
      assert w + x == x;
    } else {
      assert (w + x)[0] == w[0];
      assert (w + x)[1..] == w[1..] + x;
      TrimStartDropsWhitespace(w[1..], x);
    }
  }

  /** Trailing white space after a visible character is all that `trimEnd` removes. */
  lemma {:induction false} TrimEndDropsWhitespace(x: string, w: string)
    requires x != [] && !IsJsWhitespace(x[|x| - 1])
    requires forall k :: 0 <= k < |w| ==> IsJsWhitespace(w[k])
    ensures TrimEnd(x + w) == x
    decreases |w|
  {
    if w == [] {
      assert x + w == x;
    } else {
      var s := x + w;
      assert s[|s| - 1] == w[|w| - 1];
      assert s[..|s| - 1] == x + w[..|w| - 1];
      TrimEndDropsWhitespace(x, w[..|w| - 1]);
    }
  }

  /**
   * Trimming a text framed by white space removes exactly the frame, when the
   * text inside starts and ends with a visible character.
   */
  lemma TrimDropsFrame(w1: string, x: string, m: string, y: string, w2: string)
    requires forall k :: 0 <= k < |w1| ==> IsJsWhitespace(w1[k])
    requires x != [] && !IsJsWhitespace(x[0])
    requires y != [] && !IsJsWhitespace(y[|y| - 1])
    requires forall k :: 0 <= k < |w2| ==> IsJsWhitespace(w2[k])
    ensures Trim(w1 + x + m + y + w2) == x + m + y
  {
    assert !IsJsWhitespace((w1 + x)[|w1|]);
    assert !IsJsWhitespace((y + w2)[|y| - 1]);
    assert w1 + x + m + y + w2 == (w1 + x) + m + (y + w2);
    TrimKeepsInterior(w1 + x, m, y + w2);
    TrimStartDropsWhitespace(w1, x);
    TrimEndDropsWhitespace(y, w2);
  }
}
