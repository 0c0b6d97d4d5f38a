/** The pieces of Python string behaviour the application relies on:
    `str.strip()` on a reply, `str(int)` when a score is formatted into text,
    and substring occurrence, in which the properties of the prompts and
    diagnostics are stated. */
module PyText {

  /** Python's `str.isspace()` for one character: the ASCII whitespace
      (tab, line feed, vertical tab, form feed, carriage return, space), the
      separators U+001C..U+001F, U+0085, and Unicode's space, line and
      paragraph separators. */
  predicate IsSpace(c: char) {
    c == ' ' || ('\t' <= c <= '\r') || ('\U{1C}' <= c <= '\U{1F}')
    || c == '\U{85}' || c == '\U{A0}' || c == '\U{1680}'
    || ('\U{2000}' <= c <= '\U{200A}') || c == '\U{2028}' || c == '\U{2029}'
    || c == '\U{202F}' || c == '\U{205F}' || c == '\U{3000}'
  }

  predicate AllSpace(s: string) {
    forall i :: 0 <= i < |s| ==> IsSpace(s[i])
  }

  /** No whitespace at either end (which an empty string trivially has not). */
  predicate Trimmed(s: string) {
    s == [] || (!IsSpace(s[0]) && !IsSpace(s[|s| - 1]))
  }

  /** The length of the run of whitespace that `s` starts with. */
  function LeadingSpaces(s: string): (k: nat)
    ensures k <= |s|
    ensures AllSpace(s[..k])
    ensures k < |s| ==> !IsSpace(s[k])
  {
    if s == [] || !IsSpace(s[0]) then 0
    else
      var k' := LeadingSpaces(s[1..]);
      assert s[..1 + k'] == [s[0]] + s[1..][..k'];
      1 + k'
  }

  /** The length of the run of whitespace that `s` ends with. */
  function TrailingSpaces(s: string): (k: nat)
    ensures k <= |s|
    ensures AllSpace(s[|s| - k..])
    ensures k < |s| ==> !IsSpace(s[|s| - 1 - k])
  {
    if s == [] || !IsSpace(s[|s| - 1]) then 0
    else
      var init := s[..|s| - 1];
      var k' := TrailingSpaces(init);
      assert s[|s| - (1 + k')..] == init[|init| - k'..] + [s[|s| - 1]];
      1 + k'
  }

  /** `s` is `s[..a] + r + s[a + |r|..]` with whitespace on both sides of `r`. */
  predicate StripsTo(s: string, a: nat, r: string) {
    a + |r| <= |s| && s[a..a + |r|] == r && AllSpace(s[..a]) && AllSpace(s[a + |r|..])
  }

  /** Python's `s.strip()` with no argument: `s` without its leading and
      trailing whitespace. */
  function Strip(s: string): (r: string)
    ensures StripsTo(s, LeadingSpaces(s), r)
    ensures Trimmed(r)
  {
    var a := LeadingSpaces(s);
    var t := s[a..];
    var b := |t| - TrailingSpaces(t);
    assert s[a + b..] == t[b..];
    t[..b]
  }

  /** The leading whitespace run is exactly `n` long when `s[..n]` is
      whitespace and the character after it (if any) is not. */
  lemma {:induction false} LeadingSpacesExact(s: string, n: nat)
    requires n <= |s| && (forall i :: 0 <= i < n ==> IsSpace(s[i]))
    requires n < |s| ==> !IsSpace(s[n])
    ensures LeadingSpaces(s) == n
  {
    if n > 0 {
      LeadingSpacesExact(s[1..], n - 1);
    }
  }

  /** The trailing whitespace run is exactly `n` long when `s[|s| - n..]`
      is whitespace and the character before it (if any) is not. */
  lemma {:induction false} TrailingSpacesExact(s: string, n: nat)
    requires n <= |s| && (forall i :: |s| - n <= i < |s| ==> IsSpace(s[i]))
    requires n < |s| ==> !IsSpace(s[|s| - 1 - n])
    ensures TrailingSpaces(s) == n
  {
    if n > 0 {
      var init := s[..|s| - 1];
      assert forall i :: |init| - (n - 1) <= i < |init| ==> init[i] == s[i];
      TrailingSpacesExact(init, n - 1);
    }
  }

  /** Strip is determined by what it promises: whenever `s` is whitespace,
      then a trimmed `m`, then whitespace, stripping `s` gives `m`. */
  lemma StripUnique(p: string, m: string, q: string)
    requires AllSpace(p) && AllSpace(q) && Trimmed(m)
    ensures Strip(p + m + q) == m
  {
    var s := p + m + q;
    if m == [] {
      assert forall i :: 0 <= i < |s| ==> IsSpace(s[i]) by {
        forall i | 0 <= i < |s| ensures IsSpace(s[i]) {
          if i < |p| { assert s[i] == p[i]; } else { assert s[i] == q[i - |p|]; }
        }
      }
      LeadingSpacesExact(s, |s|);
      assert s[|s|..] == [];
    } else {
      assert forall i :: 0 <= i < |p| ==> IsSpace(s[i]) by {
        forall i | 0 <= i < |p| ensures IsSpace(s[i]) { assert s[i] == p[i]; }
      }
      assert s[|p|] == m[0];
      LeadingSpacesExact(s, |p|);
      var t := s[|p|..];
      assert t == m + q;
      assert forall i :: |m| <= i < |t| ==> IsSpace(t[i]) by {
        forall i | |m| <= i < |t| ensures IsSpace(t[i]) { assert t[i] == q[i - |m|]; }
      }
      assert t[|m| - 1] == m[|m| - 1];
      TrailingSpacesExact(t, |q|);
      assert t[..|m|] == m;
    }
  }

  /** Stripping twice is stripping once. */
  lemma StripIdempotent(s: string)
    ensures Strip(Strip(s)) == Strip(s)
  {
    var r := Strip(s);
    StripUnique([], r, []);
    assert [] + r + [] == r;
  }

  /** `sub` occurs in `s` starting at index `k`. */
  predicate OccursAt(s: string, k: int, sub: string) {
    0 <= k && k + |sub| <= |s| && s[k..k + |sub|] == sub
  }

  /** `sub` occurs somewhere in `s` (Python's `sub in s`). */
  predicate Contains(s: string, sub: string) {
    exists k :: 0 <= k <= |s| && OccursAt(s, k, sub)
  }

  /** A piece of a piece of `s` is a piece of `s`, at the summed offset. */
  lemma OccursWithin(s: string, k: int, whole: string, j: int, part: string)
    requires OccursAt(s, k, whole) && OccursAt(whole, j, part)
    ensures OccursAt(s, k + j, part)
  {
    forall i | 0 <= i < |part| ensures s[k + j + i] == part[i] {
      assert part[i] == whole[j..j + |part|][i] == whole[j + i];
      assert whole[j + i] == s[k..k + |whole|][j + i];
    }
  }

  /** The middle of a three-part concatenation occurs in it, just after the first part. */
  lemma OccursInMiddle(a: string, b: string, c: string)
    ensures OccursAt(a + b + c, |a|, b)
  {
    assert (a + b + c)[|a|..|a| + |b|] == b;
  }

  /** String concatenation is associative. */
  lemma Assoc(a: string, b: string, c: string)
    ensures (a + b) + c == a + (b + c)
  {
  }

  /** Appending four pieces one after another appends their concatenation. */
  lemma AppendFour(s: string, a: string, b: string, c: string, d: string)
    ensures s + a + b + c + d == s + (a + b + c + d)
  {
  }

  /** Where each part of a three-part concatenation `s` lies in it. */
  lemma Pieces3(s: string, a: string, b: string, c: string)
    requires s == a + b + c
    ensures OccursAt(s, 0, a) && OccursAt(s, |a|, b) && OccursAt(s, |a| + |b|, c)
  {
    assert s[0..|a|] == a;
    assert s[|a|..|a| + |b|] == b;
    assert s[|a| + |b|..|s|] == c;
  }

  /** Where each part of a four-part concatenation `s` lies in it. */
  lemma Pieces4(s: string, a: string, b: string, c: string, d: string)
    requires s == a + b + c + d
    ensures OccursAt(s, 0, a) && OccursAt(s, |a|, b) && OccursAt(s, |a| + |b|, c)
      && OccursAt(s, |a| + |b| + |c|, d)
  {
    assert s[0..|a|] == a;
    assert s[|a|..|a| + |b|] == b;
    assert s[|a| + |b|..|a| + |b| + |c|] == c;
    assert s[|a| + |b| + |c|..|s|] == d;
  }

  /** Each of the four parts of a piece of `s` is contained in `s`. */
  lemma ContainsParts4(s: string, k: int, whole: string, a: string, b: string, c: string, d: string)
    requires OccursAt(s, k, whole) && whole == a + b + c + d
    ensures Contains(s, a) && Contains(s, b) && Contains(s, c) && Contains(s, d)
  {
    Pieces4(whole, a, b, c, d);
    OccursWithin(s, k, whole, 0, a);
    OccursWithin(s, k, whole, |a|, b);
    OccursWithin(s, k, whole, |a| + |b|, c);
    OccursWithin(s, k, whole, |a| + |b| + |c|, d);
  }

  /** The middle part of a piece of `s` is contained in `s`. */
  lemma ContainsMiddleOf(s: string, k: int, whole: string, a: string, b: string, c: string)
    requires OccursAt(s, k, whole) && whole == a + b + c
    ensures Contains(s, b)
  {
    Pieces3(whole, a, b, c);
    OccursWithin(s, k, whole, |a|, b);
  }

  /** In `p + (x + y + z) + c`: `p` at the start, `y` after `p + x`, `c` at the end. */
  lemma Framed(p: string, x: string, y: string, z: string, c: string)
    ensures var s := p + (x + y + z) + c;
      OccursAt(s, 0, p) && OccursAt(s, |p| + |x|, y) && OccursAt(s, |s| - |c|, c)
  {
    var s := p + (x + y + z) + c;
    assert s[0..|p|] == p;
    assert s[|p| + |x|..|p| + |x| + |y|] == y;
    assert s[|s| - |c|..|s|] == c;
  }

  /** The same, for a string already known to be `p + m + c` with `m == x + y + z`. */
  lemma FramedIn(s: string, p: string, m: string, c: string, x: string, y: string, z: string, k: int)
    requires s == p + m + c && m == x + y + z && k == |p| + |x|
    ensures OccursAt(s, 0, p) && OccursAt(s, k, y)
  {
    Framed(p, x, y, z, c);
  }

  /** The middle of a three-part concatenation is contained in it. */
  lemma ContainsMiddle(a: string, b: string, c: string)
    ensures Contains(a + b + c, b)
  {
    OccursInMiddle(a, b, c);
  }

  /** Each of the three pieces filled into a four-part template is
      contained in the result. */
  lemma FillIn(t0: string, x: string, t1: string, y: string, t2: string, z: string, t3: string)
    ensures var r := t0 + x + t1 + y + t2 + z + t3;
      Contains(r, x) && Contains(r, y) && Contains(r, z)
  {
    var r := t0 + x + t1 + y + t2 + z + t3;
    assert r == t0 + x + (t1 + y + t2 + z + t3);
    ContainsMiddle(t0, x, t1 + y + t2 + z + t3);
    assert r == (t0 + x + t1) + y + (t2 + z + t3);
    ContainsMiddle(t0 + x + t1, y, t2 + z + t3);
    assert r == (t0 + x + t1 + y + t2) + z + t3;
    ContainsMiddle(t0 + x + t1 + y + t2, z, t3);
  }

  /** The strings of `ss` appended one by one, first to last. */
  function Concat(ss: seq<string>): string
    decreases |ss|
  {
    if ss == [] then [] else Concat(ss[..|ss| - 1]) + ss[|ss| - 1]
  }

  /** Appending entry i to the first i entries. */
  lemma ConcatSnoc(ss: seq<string>, i: nat)
    requires i < |ss|
    ensures Concat(ss[..i + 1]) == Concat(ss[..i]) + ss[i]
  {
    assert ss[..i + 1][..i] == ss[..i];
  }

  /** The concatenation of a concatenation is the two concatenations appended. */
  lemma {:induction false} ConcatAppend(a: seq<string>, b: seq<string>)
    ensures Concat(a + b) == Concat(a) + Concat(b)
    decreases |b|
  {
    if b == [] {
      assert a + b == a;
    } else {
      var n := |b| - 1;
      var ab := a + b;
      assert ab[..|ab| - 1] == a + b[..n];
      assert ab[|ab| - 1] == b[n];
      calc {
        Concat(ab);
        Concat(a + b[..n]) + b[n];
        { ConcatAppend(a, b[..n]); }
        (Concat(a) + Concat(b[..n])) + b[n];
        Concat(a) + (Concat(b[..n]) + b[n]);
        Concat(a) + Concat(b);
      }
    }
  }

  /** The concatenation split around entry i. */
  lemma ConcatSplit(ss: seq<string>, i: nat)
    requires i < |ss|
    ensures Concat(ss) == Concat(ss[..i]) + ss[i] + Concat(ss[i + 1..])
  {
    assert ss == ss[..i + 1] + ss[i + 1..];
    ConcatAppend(ss[..i + 1], ss[i + 1..]);
    ConcatSnoc(ss, i);
  }

  function DigitChar(d: nat): (c: char)
    requires d < 10
    ensures '0' <= c <= '9'
  {
    "0123456789"[d]
  }

  predicate IsDigits(s: string) {
    forall i :: 0 <= i < |s| ==> '0' <= s[i] <= '9'
  }

  /** Python's `str(n)` for a non-negative integer: its decimal digits,
      most significant first, without leading zeros. */
  function NatToDecimal(n: nat): (r: string)
    ensures |r| >= 1 && IsDigits(r)
    ensures r[0] == '0' ==> n == 0
  {
    if n < 10 then [DigitChar(n)] else NatToDecimal(n / 10) + [DigitChar(n % 10)]
  }

  /** Python's `str(n)` (and an f-string's `{n}`) for any integer. */
  function IntToDecimal(n: int): (r: string)
    ensures |r| >= 1
    ensures n >= 0 <==> IsDigits(r)
    ensures n >= 0 ==> r == NatToDecimal(n)
    ensures n < 0 ==> r[0] == '-' && r[1..] == NatToDecimal(-n)
  {
    if n < 0 then
      var r := "-" + NatToDecimal(-n);
      assert r[0] == '-';
      r
    else NatToDecimal(n)
  }

  /** The number a string of decimal digits denotes. */
  function DecimalValue(s: string): nat
    requires IsDigits(s)
  {
    if s == [] then 0 else 10 * DecimalValue(s[..|s| - 1]) + (s[|s| - 1] as int - '0' as int)
  }

  /** Reading back the rendered digits gives the number. */
  lemma {:induction false} DecimalRoundTrip(n: nat)
    ensures DecimalValue(NatToDecimal(n)) == n
  {
    var r := NatToDecimal(n);
    if n < 10 {
      assert r[..|r| - 1] == [];
      assert "0123456789"[n] as int - '0' as int == n;
    } else {
      DecimalRoundTrip(n / 10);
      assert r[..|r| - 1] == NatToDecimal(n / 10);
      assert "0123456789"[n % 10] as int - '0' as int == n % 10;
    }
  }
}
