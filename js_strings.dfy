/** The few JavaScript string operations the core relies on, with their
    JavaScript semantics written out. */
module JsStrings {

  function Min(a: int, b: int): int { if a <= b then a else b }

  function Clamp(i: int, len: nat): (c: nat)
    ensures c <= len
  {
    if i < 0 then 0 else if i > len then len else i
  }

  /** `s.substring(start, end)`: both bounds are clamped to [0, |s|] and
      swapped when they are out of order. */
  function Substring(s: string, start: int, end: int): (r: string)
    ensures 0 <= start <= end <= |s| ==> r == s[start..end]
    ensures 0 <= end <= start <= |s| ==> r == s[end..start]
    ensures start >= |s| && end >= |s| ==> r == ""
    ensures 0 <= start <= |s| <= end ==> r == s[start..]
    ensures |r| <= |s|
  {
    var a := Clamp(start, |s|);
    var b := Clamp(end, |s|);
    if a <= b then s[a..b] else s[b..a]
  }

  /** `s.charAt(i)`: the one-character string at `i`, or "" out of range. */
  function CharAt(s: string, i: int): (c: string)
    ensures |c| <= 1
    ensures 0 <= i < |s| ==> c == [s[i]]
    ensures c == "" <==> !(0 <= i < |s|)
  {
    if 0 <= i < |s| then [s[i]] else ""
  }

  /** `chars.includes(c)` for a needle of at most one character: the empty
      string is included in every string. */
  predicate Includes(chars: string, c: string): (b: bool)
    requires |c| <= 1
    ensures c == "" ==> b
    ensures |c| == 1 ==> (b <==> exists k :: 0 <= k < |chars| && chars[k] == c[0])
  {
    c == "" || c[0] in chars
  }

  function DigitChar(d: nat): (c: char)
    requires d < 10
    ensures '0' <= c <= '9' && DigitValue(c) == d
  {
    (48 + d) as char
  }

  /** The value of a decimal digit character. */
  function DigitValue(c: char): nat
    requires '0' <= c <= '9'
  {
    c as int - 48
  }

  predicate AllDigits(s: string) {
    forall k :: 0 <= k < |s| ==> '0' <= s[k] <= '9'
  }

  /** The number a string of decimal digits spells, most significant first. */
  function DecimalValue(s: string): nat
    requires AllDigits(s)
  {
    if s == [] then 0 else 10 * DecimalValue(s[..|s| - 1]) + DigitValue(s[|s| - 1])
  }

  /** Decimal rendering of a non-negative integer, as template literals
      print it: digits only, one digit for a number below ten and a
      leading digit that is not zero otherwise. */
  function NatToString(n: nat): (s: string)
    ensures |s| >= 1 && AllDigits(s)
    ensures n < 10 <==> |s| == 1
    ensures n >= 10 ==> s[0] != '0'
    decreases n
  {
    if n < 10 then [DigitChar(n)] else NatToString(n / 10) + [DigitChar(n % 10)]
  }

  /** Reading the rendering back as decimal digits gives the number. */
  lemma {:induction false} NatToStringRoundTrip(n: nat)
    ensures DecimalValue(NatToString(n)) == n
    decreases n
  {
    if n >= 10 {
      NatToStringRoundTrip(n / 10);
      var s := NatToString(n);
      assert s[..|s| - 1] == NatToString(n / 10);
    }
  }
}
