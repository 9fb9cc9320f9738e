/**
  Chain identifiers are numbers, but the network table is a JavaScript object,
  whose property keys are strings: `networks[1]` and `networks["1"]` name the
  same slot. This module fixes the conversion from a chain id to its key (the
  decimal rendering of an integer) and proves it injective by giving it an
  inverse, so that two distinct chain ids never share a table slot.
*/
module ChainKeys {
  import opened Wrappers

  predicate IsDigit(ch: char) {
    '0' <= ch <= '9'
  }

  predicate AllDigits(s: string) {
    forall i :: 0 <= i < |s| ==> IsDigit(s[i])
  }

  function DigitChar(d: nat): (ch: char)
    requires d < 10
    ensures IsDigit(ch)
  {
    ('0' as int + d) as char
  }

  function DigitValue(ch: char): (d: nat)
    requires IsDigit(ch)
    ensures d < 10 && DigitChar(d) == ch
  {
    ch as int - '0' as int
  }

  /** Decimal digits of `n`, most significant first, no leading zero. */
  function Decimal(n: nat): (s: string)
    decreases n
    ensures |s| > 0 && AllDigits(s)
    ensures (s[0] == '0') == (n == 0)
  {
    if n < 10 then [DigitChar(n)] else Decimal(n / 10) + [DigitChar(n % 10)]
  }

  /** The property key a chain id is looked up under: JavaScript's `String(c)`. */
  function KeyOf(c: int): string {
    if c < 0 then "-" + Decimal(-c) else Decimal(c)
  }

  function ParseDecimal(s: string): nat
    requires |s| > 0 && AllDigits(s)
    decreases |s|
  {
    if |s| == 1 then DigitValue(s[0])
    else 10 * ParseDecimal(s[..|s| - 1]) + DigitValue(s[|s| - 1])
  }

  /** Reads a key back as a chain id; `None` for a key that is not a number. */
  function ParseKey(s: string): Option<int> {
    if |s| > 1 && s[0] == '-' && AllDigits(s[1..]) then Some(-(ParseDecimal(s[1..]) as int))
    else if |s| > 0 && AllDigits(s) then Some(ParseDecimal(s))
    else None
  }

  lemma {:induction false} DecimalRoundTrip(n: nat)
    ensures ParseDecimal(Decimal(n)) == n
    decreases n
  {
    var s := Decimal(n);
    if n >= 10 {
      DecimalRoundTrip(n / 10);
      assert s[..|s| - 1] == Decimal(n / 10);
      assert s[|s| - 1] == DigitChar(n % 10);
    }
  }

  lemma KeyRoundTrip(c: int)
    ensures ParseKey(KeyOf(c)) == Some(c)
  {
    if c < 0 {
      DecimalRoundTrip(-c);
      assert KeyOf(c)[1..] == Decimal(-c);
    } else {
      DecimalRoundTrip(c);
    }
  }

  /** Distinct chain ids are stored under distinct keys. */
  lemma KeyInjective(a: int, b: int)
    ensures KeyOf(a) == KeyOf(b) ==> a == b
  {
    KeyRoundTrip(a);
    KeyRoundTrip(b);
  }
}
