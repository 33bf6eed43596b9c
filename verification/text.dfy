/** String operations the Python code borrows from `str`: case folding,
    substring tests (`kw in s`), `split`/`join` on one separator character
    and `strip()`. Case folding covers the ASCII letters only. */
module Text {

  /** `c.lower()` on an ASCII letter; every other character is unchanged. */
  function LowerChar(c: char): char
  {
    if 'A' <= c <= 'Z' then (c as int + 32) as char else c
  }

  /** `c.upper()` on an ASCII letter; every other character is unchanged. */
  function UpperChar(c: char): char
  {
    if 'a' <= c <= 'z' then (c as int - 32) as char else c
  }

  function Lower(s: string): (r: string)
    ensures |r| == |s|
    ensures forall i :: 0 <= i < |s| ==> r[i] == LowerChar(s[i])
  {
    seq(|s|, i requires 0 <= i < |s| => LowerChar(s[i]))
  }

  function Upper(s: string): (r: string)
    ensures |r| == |s|
    ensures forall i :: 0 <= i < |s| ==> r[i] == UpperChar(s[i])
  {
    seq(|s|, i requires 0 <= i < |s| => UpperChar(s[i]))
  }

  /** `s.replace(a, b)` for single characters. */
  function ReplaceChar(s: string, a: char, b: char): (r: string)
    ensures |r| == |s|
    ensures forall i :: 0 <= i < |s| ==> r[i] == (if s[i] == a then b else s[i])
  {
    seq(|s|, i requires 0 <= i < |s| => if s[i] == a then b else s[i])
  }

  /** Lower-casing twice is lower-casing once. */
  lemma LowerIdempotent(s: string)
    ensures Lower(Lower(s)) == Lower(s)
  {
  }

  /** Lower-casing commutes with taking a slice. */
  lemma LowerSlice(s: string, i: int, j: int)
    requires 0 <= i <= j <= |s|
    ensures Lower(s[i..j]) == Lower(s)[i..j]
  {
  }

  lemma LowerConcat(a: string, b: string)
    ensures Lower(a + b) == Lower(a) + Lower(b)
  {
  }

  /** `t` sits in `s` at offset `i`. */
  predicate OccursAt(s: string, t: string, i: int)
  {
    0 <= i && i + |t| <= |s| && s[i..i + |t|] == t
  }

  /** Python's `t in s` for strings. */
  predicate Contains(s: string, t: string)
  {
    exists i | 0 <= i <= |s| - |t| :: OccursAt(s, t, i)
  }

  /** Containment is transitive: a substring of a substring of `s` is a substring of `s`. */
  lemma ContainsTransitive(s: string, t: string, u: string)
    requires Contains(s, t) && Contains(t, u)
    ensures Contains(s, u)
  {
    var i :| 0 <= i <= |s| - |t| && OccursAt(s, t, i);
    var j :| 0 <= j <= |t| - |u| && OccursAt(t, u, j);
    assert forall k | 0 <= k < |u| :: s[i + j + k] == t[j + k] == u[k];
    assert s[i + j..i + j + |u|] == u;
    assert OccursAt(s, u, i + j);
  }

  /** Whatever occurs in a slice of `s` occurs in `s`. */
  lemma ContainsInSlice(s: string, a: int, b: int, t: string)
    requires 0 <= a <= b <= |s|
    requires Contains(s[a..b], t)
    ensures Contains(s, t)
  {
    var i :| 0 <= i <= (b - a) - |t| && OccursAt(s[a..b], t, i);
    assert forall k | 0 <= k < |t| :: s[a + i + k] == s[a..b][i + k] == t[k];
    assert s[a + i..a + i + |t|] == t;
    assert OccursAt(s, t, a + i);
  }

  /** Whatever occurs in `a` or in `b` occurs in `a + b`. */
  lemma ContainsInConcat(a: string, b: string, t: string)
    requires Contains(a, t) || Contains(b, t)
    ensures Contains(a + b, t)
  {
    var s := a + b;
    if Contains(a, t) {
      assert s[0..|a|] == a;
      ContainsInSlice(s, 0, |a|, t);
    } else {
      assert s[|a|..|s|] == b;
      ContainsInSlice(s, |a|, |s|, t);
    }
  }

  /** An occurrence of a pattern that does not hold `c` in `x + [c] + y`
      lies wholly inside `x` or wholly inside `y`. */
  lemma ContainsAcrossSeparator(x: string, c: char, y: string, t: string)
    requires c !in t
    requires Contains(x + [c] + y, t)
    ensures Contains(x, t) || Contains(y, t)
  {
    var s := x + [c] + y;
    var i :| 0 <= i <= |s| - |t| && OccursAt(s, t, i);
    if i + |t| <= |x| {
      assert x[i..i + |t|] == s[i..i + |t|];
      assert OccursAt(x, t, i);
    } else if i >= |x| + 1 {
      var k := i - |x| - 1;
      assert y[k..k + |t|] == s[i..i + |t|];
      assert OccursAt(y, t, k);
    } else {
      OccurrenceCovers(s, t, i, |x|);
      assert false;
    }
  }

  /** An occurrence of `t` at `i` covers every position of `s` it spans. */
  lemma OccurrenceCovers(s: string, t: string, i: int, p: int)
    requires OccursAt(s, t, i) && i <= p < i + |t|
    ensures s[p] in t
  {
    assert s[p] == s[i..i + |t|][p - i];
  }

  /** Index of the first `c` in `s`. */
  function IndexOf(s: string, c: char): (k: nat)
    requires c in s
    ensures k < |s| && s[k] == c && c !in s[..k]
  {
    if s[0] == c then 0 else 1 + IndexOf(s[1..], c)
  }

  /** `sep.join(parts)` for a one-character separator. */
  function Join(parts: seq<string>, sep: char): string
  {
    if |parts| == 0 then ""
    else if |parts| == 1 then parts[0]
    else parts[0] + [sep] + Join(parts[1..], sep)
  }

  /** `s.split(sep)` for a one-character separator: at least one part, no part
      holds the separator, and joining the parts gives `s` back. */
  function Split(s: string, sep: char): (parts: seq<string>)
    ensures |parts| >= 1
    ensures forall k :: 0 <= k < |parts| ==> sep !in parts[k]
    ensures Join(parts, sep) == s
    decreases |s|
  {
    if sep !in s then [s]
    else
      var i := IndexOf(s, sep);
      var rest := Split(s[i + 1..], sep);
      assert s == s[..i] + [sep] + s[i + 1..];
      [s[..i]] + rest
  }

  /** The converse round trip: splitting a join of separator-free parts gives the parts back. */
  lemma {:induction false} SplitJoin(parts: seq<string>, sep: char)
    requires |parts| >= 1
    requires forall k :: 0 <= k < |parts| ==> sep !in parts[k]
    ensures Split(Join(parts, sep), sep) == parts
    decreases |parts|
  {
    if |parts| > 1 {
      var s := Join(parts, sep);
      assert s == parts[0] + [sep] + Join(parts[1..], sep);
      assert s[|parts[0]|] == sep;
      assert s[..|parts[0]|] == parts[0];
      assert IndexOf(s, sep) == |parts[0]|;
      assert s[|parts[0]| + 1..] == Join(parts[1..], sep);
      SplitJoin(parts[1..], sep);
    }
  }

  /** Python's `str.isspace` for one character. */
  predicate IsSpace(c: char)
  {
    var n := c as int;
    || (0x09 <= n <= 0x0D) || (0x1C <= n <= 0x20)
    || n == 0x85 || n == 0xA0 || n == 0x1680
    || (0x2000 <= n <= 0x200A)
    || n == 0x2028 || n == 0x2029 || n == 0x202F || n == 0x205F || n == 0x3000
  }

  /** How many whitespace characters `s` starts with. */
  function LeadingSpace(s: string): (n: nat)
    ensures n <= |s|
    ensures forall k :: 0 <= k < n ==> IsSpace(s[k])
    ensures n < |s| ==> !IsSpace(s[n])
  {
    if |s| > 0 && IsSpace(s[0]) then 1 + LeadingSpace(s[1..]) else 0
  }

  function TrimRight(s: string): (r: string)
    ensures |r| <= |s| && r == s[..|r|]
    ensures forall k :: |r| <= k < |s| ==> IsSpace(s[k])
    ensures |r| > 0 ==> !IsSpace(r[|r| - 1])
  {
    if |s| > 0 && IsSpace(s[|s| - 1]) then TrimRight(s[..|s| - 1]) else s
  }

  /** `s.strip()`: the slice of `s` that starts after its leading whitespace
      and is followed only by whitespace, with no whitespace at either end of
      its own. These facts determine the result. */
  function Strip(s: string): (r: string)
    ensures LeadingSpace(s) + |r| <= |s|
    ensures r == s[LeadingSpace(s)..LeadingSpace(s) + |r|]
    ensures forall k :: LeadingSpace(s) + |r| <= k < |s| ==> IsSpace(s[k])
    ensures |r| > 0 ==> !IsSpace(r[0]) && !IsSpace(r[|r| - 1])
    ensures Contains(s, r)
  {
    var a := LeadingSpace(s);
    var r := TrimRight(s[a..]);
    assert r == s[a..a + |r|];
    assert OccursAt(s, r, a);
    r
  }

  /** Lowercasing keeps substrings substrings. */
  lemma ContainsLower(s: string, t: string)
    requires Contains(s, t)
    ensures Contains(Lower(s), Lower(t))
  {
    var i :| 0 <= i <= |s| - |t| && OccursAt(s, t, i);
    LowerSlice(s, i, i + |t|);
    assert OccursAt(Lower(s), Lower(t), i);
  }

  /** Every part occurs in the joined string. */
  lemma {:induction false} JoinContainsPart(parts: seq<string>, sep: char, j: int)
    requires 0 <= j < |parts|
    ensures Contains(Join(parts, sep), parts[j])
    decreases |parts|
  {
    var s := Join(parts, sep);
    if |parts| == 1 {
      assert OccursAt(s, parts[j], 0);
    } else if j == 0 {
      assert s == parts[0] + ([sep] + Join(parts[1..], sep));
      assert OccursAt(s, parts[0], 0);
    } else {
      JoinContainsPart(parts[1..], sep, j - 1);
      assert s == (parts[0] + [sep]) + Join(parts[1..], sep);
      ContainsInConcat(parts[0] + [sep], Join(parts[1..], sep), parts[j]);
    }
  }

  /** `Strip(s)` is the slice `s[a..b]` with only whitespace outside it. */
  lemma StripBounds(s: string) returns (a: int, b: int)
    ensures 0 <= a <= b <= |s| && Strip(s) == s[a..b]
    ensures forall k :: 0 <= k < a ==> IsSpace(s[k])
    ensures forall k :: b <= k < |s| ==> IsSpace(s[k])
  {
    a := LeadingSpace(s);
    b := a + |Strip(s)|;
  }

  /** Where `t` occurs in `s`, the stripped `t` occurs in the stripped `s`:
      stripping only removes whitespace that lies outside every non-space
      character. */
  lemma StripPreservesContainment(s: string, t: string, p: int)
    requires OccursAt(s, t, p)
    ensures Contains(Strip(s), Strip(t))
  {
    var a, b := StripBounds(s);
    var c, d := StripBounds(t);
    TrimmedOccurrence(s, t, p, a, b, c, d);
  }

  /** The core of `StripPreservesContainment`, stated on the slice bounds. */
  lemma TrimmedOccurrence(s: string, t: string, p: int, a: int, b: int, c: int, d: int)
    requires OccursAt(s, t, p)
    requires 0 <= a <= b <= |s| && 0 <= c <= d <= |t|
    requires forall k :: 0 <= k < a ==> IsSpace(s[k])
    requires forall k :: b <= k < |s| ==> IsSpace(s[k])
    requires c < d ==> !IsSpace(t[c]) && !IsSpace(t[d - 1])
    ensures Contains(s[a..b], t[c..d])
  {
    if c == d {
      assert OccursAt(s[a..b], t[c..d], 0);
    } else {
      assert t[c] == s[p + c] && t[d - 1] == s[p + d - 1];
      assert a <= p + c && p + d <= b;
      assert forall k | 0 <= k < |t| :: t[k] == s[p + k];
      assert t[c..d] == s[p + c..p + d];
      var u := s[a..b][p + c - a..p + d - a];
      assert forall j | 0 <= j < |u| :: u[j] == s[p + c + j] == t[c..d][j];
      assert u == t[c..d];
      assert OccursAt(s[a..b], t[c..d], p + c - a);
    }
  }

  /** Stripping a stripped string changes nothing. */
  lemma StripIdempotent(s: string)
    ensures Strip(Strip(s)) == Strip(s)
  {
  }
}
