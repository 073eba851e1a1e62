/** Integer text, splitting and trimming, as Python's `str`, `int`, `split` and `strip` do them. */
module Text {
  import opened Wrappers

  // ---- Integers ---------------------------------------------------------------------

  predicate IsDigit(c: char) {
    '0' <= c <= '9'
  }

  predicate AllDigits(s: string) {
    forall i :: 0 <= i < |s| ==> IsDigit(s[i])
  }

  function Digit(d: nat): (c: char)
    requires d < 10
    ensures IsDigit(c) && DigitValue(c) == d
  {
    ('0' as int + d) as char
  }

  function DigitValue(c: char): nat
    requires IsDigit(c)
  {
    c as int - '0' as int
  }

  function NatText(n: nat): (s: string)
    ensures |s| > 0 && AllDigits(s)
  {
    if n < 10 then [Digit(n)] else NatText(n / 10) + [Digit(n % 10)]
  }

  function NatValue(s: string): nat
    requires AllDigits(s)
  {
    if s == [] then 0 else 10 * NatValue(s[..|s| - 1]) + DigitValue(s[|s| - 1])
  }

  lemma {:induction false} NatRoundTrip(n: nat)
    ensures NatValue(NatText(n)) == n
  {
    if n >= 10 {
      NatRoundTrip(n / 10);
      assert NatText(n)[..|NatText(n)| - 1] == NatText(n / 10);
    }
  }

  function IntText(n: int): (s: string)
    ensures |s| > 0 && forall i :: 0 <= i < |s| ==> IsDigit(s[i]) || s[i] == '-'
  {
    if n < 0 then "-" + NatText(-n) else NatText(n)
  }

  /** `int(text)` on an optional minus sign and decimal digits; None where Python raises ValueError. */
  function ParseInt(s: string): Option<int> {
    if |s| > 0 && s[0] == '-' then
      (if |s| > 1 && AllDigits(s[1..]) then Some(-(NatValue(s[1..]) as int)) else None)
    else if |s| > 0 && AllDigits(s) then Some(NatValue(s))
    else None
  }

  lemma IntRoundTrip(n: int)
    ensures ParseInt(IntText(n)) == Some(n)
  {
    if n < 0 {
      NatRoundTrip(-n);
      assert IntText(n)[1..] == NatText(-n);
    } else {
      NatRoundTrip(n);
    }
  }

  /** Exactly an optional minus sign and at least one decimal digit, and nothing else, reads as an integer. */
  lemma ReadableIff(s: string)
    ensures ParseInt(s).Some? <==>
              var from := if |s| > 0 && s[0] == '-' then 1 else 0;
              |s| > from && forall i :: from <= i < |s| ==> '0' <= s[i] <= '9'
  {
    if |s| > 0 && s[0] == '-' {
      assert forall i :: 1 <= i < |s| ==> s[1..][i - 1] == s[i];
    }
  }

  lemma IntTextInjective(m: int, n: int)
    requires IntText(m) == IntText(n)
    ensures m == n
  {
    IntRoundTrip(m);
    IntRoundTrip(n);
  }

  // ---- Splitting --------------------------------------------------------------------

  /** Position of the first `c`, or the length when there is none. */
  function IndexOf(s: string, c: char): (r: nat)
    ensures r <= |s|
    ensures forall i :: 0 <= i < r ==> s[i] != c
    ensures r < |s| ==> s[r] == c
  {
    if s == [] || s[0] == c then 0 else 1 + IndexOf(s[1..], c)
  }

  /** `s.split(c, 1)`, None when `c` does not occur. */
  function SplitOnce(s: string, c: char): Option<(string, string)> {
    var i := IndexOf(s, c);
    if i == |s| then None else Some((s[..i], s[i + 1..]))
  }

  lemma SplitAtSeparator(left: string, c: char, right: string)
    requires c !in left
    ensures SplitOnce(left + [c] + right, c) == Some((left, right))
  {
    var s := left + [c] + right;
    assert s[|left|] == c;
    var i := IndexOf(s, c);
    assert forall k :: 0 <= k < |left| ==> s[k] == left[k] && left[k] in left;
    assert s[..i] == left && s[i + 1..] == right;
  }

  /** Texts cut at the same length into equal parts are equal part by part. */
  lemma SameCut(a: string, b: string, c: string, d: string)
    requires a + b == c + d && |a| == |c|
    ensures a == c && b == d
  {
    assert (a + b)[..|a|] == a && (c + d)[..|c|] == c;
    assert (a + b)[|a|..] == b && (c + d)[|c|..] == d;
  }

  // ---- Trimming ---------------------------------------------------------------------

  predicate IsSpace(c: char) {
    c == ' ' || '\t' <= c <= '\r'
  }

  function TrimLeft(s: string): string {
    if |s| > 0 && IsSpace(s[0]) then TrimLeft(s[1..]) else s
  }

  function TrimRight(s: string): string {
    if |s| > 0 && IsSpace(s[|s| - 1]) then TrimRight(s[..|s| - 1]) else s
  }

  function Strip(s: string): string {
    TrimRight(TrimLeft(s))
  }

  predicate Blank(s: string) {
    forall i :: 0 <= i < |s| ==> s[i] in {' ', '\t', '\n', '\U{0b}', '\U{0c}', '\r'}
  }

  lemma {:induction false} TrimLeftMeaning(s: string) returns (left: string)
    ensures s == left + TrimLeft(s) && Blank(left)
    ensures TrimLeft(s) != "" ==> !Blank(TrimLeft(s)[..1])
  {
    left := "";
    if |s| > 0 && IsSpace(s[0]) {
      var rest := TrimLeftMeaning(s[1..]);
      left := [s[0]] + rest;
    }
  }

  lemma {:induction false} TrimRightMeaning(s: string) returns (right: string)
    ensures s == TrimRight(s) + right && Blank(right)
    ensures TrimRight(s) != "" ==> !Blank(TrimRight(s)[|TrimRight(s)| - 1..])
  {
    right := "";
    if |s| > 0 && IsSpace(s[|s| - 1]) {
      var rest := TrimRightMeaning(s[..|s| - 1]);
      right := rest + [s[|s| - 1]];
    }
  }

  /** Stripping removes the white space at both ends, all of it and nothing else. */
  lemma StripMeaning(s: string) returns (left: string, right: string)
    ensures s == left + Strip(s) + right && Blank(left) && Blank(right)
    ensures Strip(s) != "" ==> !Blank(Strip(s)[..1]) && !Blank(Strip(s)[|Strip(s)| - 1..])
  {
    hide TrimLeft, TrimRight, Blank;
    left := TrimLeftMeaning(s);
    right := TrimRightMeaning(TrimLeft(s));
    assert left + Strip(s) + right == left + (Strip(s) + right);
    assert Strip(s) != "" ==> TrimLeft(s)[..1] == Strip(s)[..1];
  }

  /** A text that starts with a non-space keeps its first characters under `strip`. */
  lemma {:induction false} TrimRightKeepsPrefix(s: string, prefix: string)
    requires prefix <= s
    requires |prefix| > 0 && !IsSpace(prefix[|prefix| - 1])
    ensures prefix <= TrimRight(s)
  {
    if IsSpace(s[|s| - 1]) {
      assert |s| != |prefix|;
      assert prefix <= s[..|s| - 1];
      TrimRightKeepsPrefix(s[..|s| - 1], prefix);
    }
  }
}
