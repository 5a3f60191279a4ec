/**
 * The JavaScript string operations the core relies on, over `seq<char>`:
 * `toLowerCase`, `includes`, `startsWith`, `substring(n)`, `trim` and `split(sep)[0]`.
 */
module Strings {

  /** ASCII case folding; other letters are left as they are. */
  function LowerChar(c: char): char {
    if 'A' <= c <= 'Z' then (c as int + 32) as char else c
  }

  /** `s.toLowerCase()`. */
  function Lower(s: string): (r: string)
    ensures |r| == |s|
    ensures forall i :: 0 <= i < |s| ==> r[i] == LowerChar(s[i])
  {
    seq(|s|, i requires 0 <= i < |s| => LowerChar(s[i]))
  }

  lemma LowerIdempotent(s: string)
    ensures Lower(Lower(s)) == Lower(s)
  {
  }

  lemma LowerConcat(a: string, b: string)
    ensures Lower(a + b) == Lower(a) + Lower(b)
  {
  }

  /** `t` occurs in `s` starting at index `i`. */
  predicate OccursAt(s: string, t: string, i: nat) {
    i + |t| <= |s| && s[i..i + |t|] == t
  }

  predicate IncludesFrom(s: string, t: string, i: nat)
    decreases |s| - i
  {
    if i + |t| > |s| then false else OccursAt(s, t, i) || IncludesFrom(s, t, i + 1)
  }

  /** `s.includes(t)`. */
  predicate Includes(s: string, t: string) {
    IncludesFrom(s, t, 0)
  }

  lemma {:induction false} IncludesFromWitness(s: string, t: string, i: nat)
    ensures IncludesFrom(s, t, i) <==> exists k :: i <= k && OccursAt(s, t, k)
    decreases |s| - i
  {
    if i + |t| <= |s| {
      IncludesFromWitness(s, t, i + 1);
      if exists k :: i <= k && OccursAt(s, t, k) {
        var k :| i <= k && OccursAt(s, t, k);
        assert k == i || (i + 1 <= k && OccursAt(s, t, k));
      }
    }
  }

  /** `includes` means an occurrence at some index. */
  lemma IncludesIff(s: string, t: string)
    ensures Includes(s, t) <==> exists k :: OccursAt(s, t, k)
  {
    IncludesFromWitness(s, t, 0);
  }

  lemma IncludesAt(s: string, t: string, k: nat)
    requires OccursAt(s, t, k)
    ensures Includes(s, t)
  {
    IncludesIff(s, t);
  }

  /** Every string includes the empty string. */
  lemma IncludesEmpty(s: string)
    ensures Includes(s, "")
  {
    IncludesAt(s, "", 0);
  }

  /** A string that includes `t` is at least as long as `t`. */
  lemma IncludesLength(s: string, t: string)
    requires Includes(s, t)
    ensures |t| <= |s|
  {
    IncludesIff(s, t);
  }

  /** `s.startsWith(p)`. */
  predicate StartsWith(s: string, p: string) {
    |p| <= |s| && s[..|p|] == p
  }

  /** `s.substring(n)`. */
  function Drop(s: string, n: nat): (r: string)
    ensures |r| == if |s| <= n then 0 else |s| - n
    ensures s == s[..|s| - |r|] + r
  {
    if |s| <= n then "" else s[n..]
  }

  /** The characters ECMAScript's `trim` removes: WhiteSpace and LineTerminator. */
  predicate IsWhitespace(c: char) {
    || c == '\t' || c == '\n' || c == '\U{000B}' || c == '\U{000C}' || c == '\r' || c == ' '
    || c == '\U{00A0}' || c == '\U{1680}' || ('\U{2000}' <= c <= '\U{200A}')
    || c == '\U{2028}' || c == '\U{2029}' || c == '\U{202F}' || c == '\U{205F}'
    || c == '\U{3000}' || c == '\U{FEFF}'
  }

  function TrimStart(s: string): (r: string)
    ensures |r| <= |s| && r == s[|s| - |r|..]
    ensures r == [] || !IsWhitespace(r[0])
    ensures forall i :: 0 <= i < |s| - |r| ==> IsWhitespace(s[i])
  {
    if s != [] && IsWhitespace(s[0]) then TrimStart(s[1..]) else s
  }

  function TrimEnd(s: string): (r: string)
    ensures |r| <= |s| && r == s[..|r|]
    ensures r == [] || !IsWhitespace(r[|r| - 1])
    ensures forall i :: |r| <= i < |s| ==> IsWhitespace(s[i])
  {
    if s != [] && IsWhitespace(s[|s| - 1]) then TrimEnd(s[..|s| - 1]) else s
  }

  /** `s` neither starts nor ends with whitespace. */
  predicate Trimmed(s: string) {
    s == [] || (!IsWhitespace(s[0]) && !IsWhitespace(s[|s| - 1]))
  }

  /** `s.trim()`: `s` with leading and trailing whitespace removed, and nothing else. */
  function Trim(s: string): (r: string)
    ensures |r| <= |s|
    ensures Trimmed(r)
    ensures exists a: nat ::
              && OccursAt(s, r, a)
              && (forall i :: 0 <= i < a ==> IsWhitespace(s[i]))
              && (forall i :: a + |r| <= i < |s| ==> IsWhitespace(s[i]))
  {
    var t := TrimStart(s);
    var r := TrimEnd(t);
    TrimParts(s, t, r);
    r
  }

  /**
   * The trimmed text sits between the leading whitespace `TrimStart` drops and the trailing
   * whitespace `TrimEnd` drops; the premises are the two functions' contracts.
   */
  lemma TrimParts(s: string, t: string, r: string)
    requires |t| <= |s| && t == s[|s| - |t|..] && (t == [] || !IsWhitespace(t[0]))
    requires |r| <= |t| && r == t[..|r|] && (r == [] || !IsWhitespace(r[|r| - 1]))
    requires forall i :: |r| <= i < |t| ==> IsWhitespace(t[i])
    ensures Trimmed(r)
    ensures OccursAt(s, r, |s| - |t|)
    ensures forall i :: |s| - |t| + |r| <= i < |s| ==> IsWhitespace(s[i])
  {
    if r != [] {
      assert r[0] == t[0];
    }
    var a := |s| - |t|;
    assert s[a..a + |r|] == r;
    forall i | a + |r| <= i < |s| ensures IsWhitespace(s[i]) {
      assert s[i] == t[i - a];
    }
  }

  /** Trimming twice is trimming once. */
  lemma TrimIdempotent(s: string)
    ensures Trim(Trim(s)) == Trim(s)
  {
    var r := Trim(s);
    assert TrimStart(r) == r;
    assert TrimEnd(r) == r;
  }

  /** `s.split([sep])[0]`: the text before the first `sep`, or all of `s`. */
  function BeforeFirst(s: string, sep: char): (r: string)
    ensures |r| <= |s| && r == s[..|r|]
    ensures sep !in r
    ensures |r| < |s| ==> s[|r|] == sep
  {
    if s == [] || s[0] == sep then "" else [s[0]] + BeforeFirst(s[1..], sep)
  }

  function DigitChar(d: nat): char
    requires d < 10
  {
    "0123456789"[d]
  }

  /** Decimal rendering of a natural number, as `String(n)` does. */
  function NatToString(n: nat): (r: string)
    ensures |r| > 0
    ensures forall i :: 0 <= i < |r| ==> '0' <= r[i] <= '9'
    decreases n
  {
    if n < 10 then [DigitChar(n)] else NatToString(n / 10) + [DigitChar(n % 10)]
  }

  /** Decimal rendering of an integer, with a leading minus sign when negative. */
  function IntToString(n: int): (r: string)
    ensures |r| > 0
  {
    if n < 0 then "-" + NatToString(-n) else NatToString(n)
  }

  /** `n` rendered with at least `width` digits, zero-padded on the left. */
  function PadNat(n: nat, width: nat): (r: string)
    ensures |r| >= width
    decreases width
  {
    var d := NatToString(n);
    if |d| >= width then d else "0" + PadNat(n, width - 1)
  }
}
