/**
 * The JavaScript string and number built-ins the player relies on, written out:
 * `includes`, `indexOf`, `startsWith`, `trim`, non-negative integer `toString`,
 * `padStart(2, '0')`, and the `m:ss` clock text that both the player and the
 * song list compute.
 */
module Text {
  import opened Wrappers

  // ---------------------------------------------------------------------------
  // Substring search
  // ---------------------------------------------------------------------------

  /** `t` occurs in `s` starting at index `i`. */
  predicate OccursAt(s: string, t: string, i: nat) {
    i + |t| <= |s| && s[i..i + |t|] == t
  }

  /** `t` occurs somewhere in `s`: what `s.includes(t)` is meant to answer. */
  ghost predicate Occurs(s: string, t: string) {
    exists i: nat :: OccursAt(s, t, i)
  }

  /** The first occurrence of `t` in `s` at or after index `k`. */
  function IndexFrom(s: string, t: string, k: nat): (r: Option<nat>)
    decreases |s| - k
    ensures r.Some? ==> k <= r.value && OccursAt(s, t, r.value)
    ensures forall j: nat :: k <= j && (r.None? || j < r.value) ==> !OccursAt(s, t, j)
  {
    if k + |t| > |s| then None
    else if s[k..k + |t|] == t then Some(k)
    else IndexFrom(s, t, k + 1)
  }

  /** The left-to-right search for the first occurrence of `t` that `includes` and `split` perform. */
  function IndexOf(s: string, t: string): (r: Option<nat>)
    ensures r.Some? ==> OccursAt(s, t, r.value)
    ensures r.Some? ==> forall j: nat :: j < r.value ==> !OccursAt(s, t, j)
    ensures r.None? <==> !Occurs(s, t)
  {
    IndexFrom(s, t, 0)
  }

  /** `s.includes(t)`: case-sensitive substring test. */
  predicate Includes(s: string, t: string)
    ensures Includes(s, t) <==> Occurs(s, t)
  {
    IndexOf(s, t).Some?
  }

  /** `s.startsWith(p)`. */
  predicate StartsWith(s: string, p: string) {
    |p| <= |s| && s[..|p|] == p
  }

  lemma OccursMiddle(a: string, t: string, b: string)
    ensures Occurs(a + t + b, t)
  {
    assert OccursAt(a + t + b, t, |a|);
  }

  /** A character of `t` that `s` lacks rules out every occurrence of `t` in `s`. */
  lemma NotOccursWithoutChar(s: string, t: string, k: nat, c: char)
    requires k < |t| && t[k] == c && c !in s
    ensures !Occurs(s, t)
  {
    forall i: nat
      ensures !OccursAt(s, t, i)
    {
      if i + |t| <= |s| {
        assert s[i..i + |t|][k] == s[i + k];
      }
    }
  }

  // ---------------------------------------------------------------------------
  // trim()
  // ---------------------------------------------------------------------------

  /** The characters `trim()` removes: ECMAScript white space and line terminators. */
  predicate IsSpace(c: char) {
    || c == '\t' || c == '\n' || c == '\U{000B}' || c == '\U{000C}' || c == '\r'
    || c == ' ' || c == '\U{00A0}' || c == '\U{1680}'
    || ('\U{2000}' <= c <= '\U{200A}')
    || c == '\U{2028}' || c == '\U{2029}' || c == '\U{202F}' || c == '\U{205F}'
    || c == '\U{3000}' || c == '\U{FEFF}'
  }

  /** `s` neither starts nor ends with a character `trim()` removes. */
  predicate Trimmed(s: string) {
    s == [] || (!IsSpace(s[0]) && !IsSpace(s[|s| - 1]))
  }

  /** The end of the run of white space starting at `i`. */
  function SkipSpaces(s: string, i: nat): (j: nat)
    requires i <= |s|
    decreases |s| - i
    ensures i <= j <= |s|
    ensures forall k :: i <= k < j ==> IsSpace(s[k])
    ensures j < |s| ==> !IsSpace(s[j])
  {
    if i < |s| && IsSpace(s[i]) then SkipSpaces(s, i + 1) else i
  }

  /** The start of the run of white space ending at `e`, looking no further back than `lo`. */
  function SpacesBefore(s: string, lo: nat, e: nat): (j: nat)
    requires lo <= e <= |s|
    decreases e
    ensures lo <= j <= e
    ensures forall k :: j <= k < e ==> IsSpace(s[k])
    ensures j > lo ==> !IsSpace(s[j - 1])
  {
    if e > lo && IsSpace(s[e - 1]) then SpacesBefore(s, lo, e - 1) else e
  }

  /** `s.trim()`: the text between the leading and the trailing white space. */
  function Trim(s: string): (r: string)
    ensures Trimmed(r)
  {
    var i := SkipSpaces(s, 0);
    s[i..SpacesBefore(s, i, |s|)]
  }

  /**
   * `trim()` keeps a contiguous slice of `s` and removes only white space
   * before and after it.
   */
  lemma TrimIsSlice(s: string)
    ensures var i := SkipSpaces(s, 0);
            && i + |Trim(s)| <= |s| && Trim(s) == s[i..i + |Trim(s)|]
            && (forall k :: 0 <= k < i ==> IsSpace(s[k]))
            && (forall k :: i + |Trim(s)| <= k < |s| ==> IsSpace(s[k]))
  {
  }

  /** Trimming leaves an already trimmed string alone, so it is idempotent. */
  lemma TrimmedUnchanged(s: string)
    requires Trimmed(s)
    ensures Trim(s) == s
  {
    if s != [] {
      assert SkipSpaces(s, 0) == 0;
      assert SpacesBefore(s, 0, |s|) == |s|;
    }
    assert s[0..|s|] == s;
  }

  lemma TrimIdempotent(s: string)
    ensures Trim(Trim(s)) == Trim(s)
  {
    TrimmedUnchanged(Trim(s));
  }

  // ---------------------------------------------------------------------------
  // Integer text
  // ---------------------------------------------------------------------------

  predicate IsDigit(c: char) {
    '0' <= c <= '9'
  }

  predicate AllDigits(s: string) {
    forall k :: 0 <= k < |s| ==> IsDigit(s[k])
  }

  function Digit(d: nat): (c: char)
    requires d < 10
    ensures IsDigit(c) && c as int - '0' as int == d
  {
    ('0' as int + d) as char
  }

  function DigitValue(c: char): nat
    requires IsDigit(c)
  {
    c as int - '0' as int
  }

  /** The value of a string of decimal digits (the empty string reads as 0). */
  function DecimalValue(s: string): nat
    requires AllDigits(s)
  {
    if s == [] then 0 else DecimalValue(s[..|s| - 1]) * 10 + DigitValue(s[|s| - 1])
  }

  /** `n.toString()` for a non-negative integer: decimal digits, no leading zero. */
  function NatText(n: nat): (r: string)
    ensures 1 <= |r| && AllDigits(r)
    ensures r[0] == '0' ==> n == 0
    ensures |r| == 1 <==> n < 10
  {
    if n < 10 then [Digit(n)] else NatText(n / 10) + [Digit(n % 10)]
  }

  lemma {:induction false} NatTextRoundTrip(n: nat)
    ensures DecimalValue(NatText(n)) == n
  {
    if n >= 10 {
      NatTextRoundTrip(n / 10);
      var s := NatText(n);
      assert s[..|s| - 1] == NatText(n / 10);
    }
  }

  /** `s.padStart(2, '0')`. */
  function PadStart2(s: string): (r: string)
    ensures |s| >= 2 ==> r == s
    ensures |s| < 2 ==> |r| == 2 && r[2 - |s|..] == s && forall k :: 0 <= k < 2 - |s| ==> r[k] == '0'
  {
    if |s| >= 2 then s else if |s| == 1 then ['0'] + s else "00"
  }

  /** Below 100, the padded text is exactly two digits that read back as `n`. */
  lemma TwoDigits(n: nat)
    requires n < 100
    ensures |PadStart2(NatText(n))| == 2 && AllDigits(PadStart2(NatText(n)))
    ensures DecimalValue(PadStart2(NatText(n))) == n
  {
    NatTextRoundTrip(n);
    var s := NatText(n);
    if n >= 10 {
      assert NatText(n / 10) == [Digit(n / 10)];
    } else {
      var p := PadStart2(s);
      assert p[..1] == "0";
      assert DecimalValue(p[..1]) == 0 by { assert p[..1][..0] == []; }
    }
  }

  // ---------------------------------------------------------------------------
  // Clock text: `${Math.floor(t / 60)}:${Math.floor(t % 60).toString().padStart(2, '0')}`
  // ---------------------------------------------------------------------------

  function ClockText(t: real): string
    requires t >= 0.0
  {
    var mins := (t / 60.0).Floor;
    var secs := (t - 60.0 * mins as real).Floor;
    NatText(mins) + ":" + PadStart2(NatText(secs))
  }

  /** A string of the form `<digits>:<two digits>`. */
  predicate ClockShaped(s: string) {
    && |s| >= 4 && s[|s| - 3] == ':'
    && AllDigits(s[..|s| - 3]) && AllDigits(s[|s| - 2..])
  }

  /** The number of whole seconds a clock-shaped string denotes. */
  function ClockSeconds(s: string): nat
    requires ClockShaped(s)
  {
    DecimalValue(s[..|s| - 3]) * 60 + DecimalValue(s[|s| - 2..])
  }

  /**
   * The clock text of `t` is the whole minutes of `t`, a colon and the
   * remaining whole seconds padded to exactly two digits.
   */
  lemma ClockTextFields(t: real)
    requires t >= 0.0
    ensures ClockText(t) == NatText(t.Floor / 60) + ":" + PadStart2(NatText(t.Floor % 60))
    ensures |PadStart2(NatText(t.Floor % 60))| == 2
  {
    var mins := (t / 60.0).Floor;
    var n := t.Floor;
    assert 60 * mins <= n < 60 * mins + 60;
    assert n / 60 == mins;
    assert (t - 60.0 * mins as real).Floor == n % 60;
    TwoDigits(n % 60);
  }

  lemma ClockShapedJoin(m: string, p: string)
    requires 1 <= |m| && AllDigits(m) && |p| == 2 && AllDigits(p)
    ensures ClockShaped(m + ":" + p)
    ensures ClockSeconds(m + ":" + p) == DecimalValue(m) * 60 + DecimalValue(p)
  {
    var s := m + ":" + p;
    assert s[..|s| - 3] == m;
    assert s[|s| - 2..] == p;
  }

  /** Clock text reads back as the whole seconds of `t`: no two whole seconds share a text. */
  lemma ClockTextRoundTrip(t: real)
    requires t >= 0.0
    ensures ClockShaped(ClockText(t))
    ensures ClockSeconds(ClockText(t)) == t.Floor
  {
    ClockTextFields(t);
    var n: nat := t.Floor;
    TwoDigits(n % 60);
    NatTextRoundTrip(n / 60);
    ClockShapedJoin(NatText(n / 60), PadStart2(NatText(n % 60)));
  }
}
