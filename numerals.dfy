/** Integer-to-text conversion as Java performs it in String.valueOf(int)
    (base 10) and BigInteger.toString(16): the shortest digit string, lower
    case letters for digits above nine, and a leading '-' for negatives.
    ParseInt is the reference reading of such text. */
module Numerals {
  import opened Values

  predicate ValidBase(base: nat) {
    2 <= base <= 16
  }

  function DigitChar(d: nat): (c: char)
    requires d < 16
  {
    if d < 10 then ('0' as int + d) as char else ('a' as int + d - 10) as char
  }

  function DigitValue(c: char): Option<nat> {
    if '0' <= c <= '9' then Some(c as int - '0' as int)
    else if 'a' <= c <= 'f' then Some(c as int - 'a' as int + 10)
    else None
  }

  /** The digits of n in the given base, most significant first. */
  function NatText(n: nat, base: nat): (s: string)
    requires ValidBase(base)
    ensures |s| >= 1
    decreases n
  {
    if n < base then [DigitChar(n)] else NatText(n / base, base) + [DigitChar(n % base)]
  }

  /** The text of an integer in the given base, '-' first for a negative one. */
  function IntText(i: int, base: nat): string
    requires ValidBase(base)
  {
    if i < 0 then ['-'] + NatText(-i, base) else NatText(i, base)
  }

  /** String.valueOf(int). */
  function DecimalText(i: int): string {
    IntText(i, 10)
  }

  /** Reads a non-empty digit string; None when a character is not a digit of the base. */
  function ParseNat(s: string, base: nat): Option<nat>
    requires ValidBase(base)
    decreases |s|
  {
    if |s| == 0 then None
    else
      var d := DigitValue(s[|s| - 1]);
      if d.None? || d.value >= base then None
      else if |s| == 1 then Some(d.value)
      else
        match ParseNat(s[..|s| - 1], base)
        case None => None
        case Some(p) => Some(p * base + d.value)
  }

  /** Reads optionally signed digit text. */
  function ParseInt(s: string, base: nat): Option<int>
    requires ValidBase(base)
  {
    if |s| > 0 && s[0] == '-' then
      match ParseNat(s[1..], base)
      case None => None
      case Some(n) => Some(-(n as int))
    else
      match ParseNat(s, base)
      case None => None
      case Some(n) => Some(n as int)
  }

  lemma DigitRoundTrip(d: nat)
    requires d < 16
    ensures DigitValue(DigitChar(d)) == Some(d)
  {
  }

  lemma DivModSplit(n: nat, base: nat)
    requires ValidBase(base)
    ensures n / base * base + n % base == n
    ensures n >= base ==> n / base < n
  {
  }

  /** Reading the text of n gives n back. */
  lemma {:induction false} NatTextRoundTrip(n: nat, base: nat)
    requires ValidBase(base)
    ensures ParseNat(NatText(n, base), base) == Some(n)
    decreases n
  {
    var r := n % base;
    DigitRoundTrip(r);
    if n >= base {
      var q := n / base;
      var s := NatText(n, base);
      var prefix := NatText(q, base);
      DivModSplit(n, base);
      NatTextRoundTrip(q, base);
      assert s == prefix + [DigitChar(r)];
      assert s[|s| - 1] == DigitChar(r) && |s| > 1;
      assert s[..|s| - 1] == prefix;
      assert ParseNat(s, base) == Some(q * base + r);
    }
  }

  /** Every character of NatText is a digit of the base; in particular none is
      '-' and none is an upper-case letter. */
  lemma {:induction false} NatTextDigits(n: nat, base: nat)
    requires ValidBase(base)
    ensures forall k :: 0 <= k < |NatText(n, base)| ==>
              DigitValue(NatText(n, base)[k]).Some? && DigitValue(NatText(n, base)[k]).value < base
    decreases n
  {
    DigitRoundTrip(n % base);
    if n >= base {
      DivModSplit(n, base);
      NatTextDigits(n / base, base);
    }
  }

  /** The text is the shortest one: it starts with '0' only for zero. */
  lemma {:induction false} NatTextNoLeadingZero(n: nat, base: nat)
    requires ValidBase(base)
    ensures NatText(n, base)[0] == '0' <==> n == 0
    decreases n
  {
    if n >= base {
      DivModSplit(n, base);
      NatTextNoLeadingZero(n / base, base);
      assert NatText(n, base)[0] == NatText(n / base, base)[0];
    }
  }

  /** Reading the signed text of i gives i back, for every integer. */
  lemma IntTextRoundTrip(i: int, base: nat)
    requires ValidBase(base)
    ensures ParseInt(IntText(i, base), base) == Some(i)
  {
    var m: nat := if i < 0 then -i else i;
    NatTextRoundTrip(m, base);
    NatTextDigits(m, base);
    assert DigitValue('-').None?;
    if i < 0 {
      assert IntText(i, base)[1..] == NatText(m, base);
    } else {
      assert NatText(m, base)[0] != '-';
    }
  }

  /** The text of two different integers differs. */
  lemma IntTextInjective(i: int, j: int, base: nat)
    requires ValidBase(base)
    requires IntText(i, base) == IntText(j, base)
    ensures i == j
  {
    IntTextRoundTrip(i, base);
    IntTextRoundTrip(j, base);
  }
}
