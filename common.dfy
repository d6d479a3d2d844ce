/** Shared vocabulary: nullable values, the Java and JavaScript string conventions
    the core relies on, and in-order concatenation of string pieces. */
module Common {

  /** A Java reference that may be null, or a JavaScript value that may be absent. */
  datatype Option<+T> = None | Some(value: T)

  /** Java's `Integer`: a 32-bit two's-complement value. */
  newtype Int32 = x: int | -0x8000_0000 <= x < 0x8000_0000

  /** The largest length a Java `String` can have (`String.length()` is an `int`). */
  const MaxStringLength: nat := 0x7FFF_FFFF

  function Min(a: int, b: int): int
  {
    if a <= b then a else b
  }

  /** What Java's string concatenation writes for a possibly-null `String`:
      `"a" + null` is `"anull"`. */
  function JavaText(s: Option<string>): (t: string)
    ensures s.Some? ==> t == s.value
    ensures s.None? ==> t == "null"
  {
    if s.Some? then s.value else "null"
  }

  /** The pieces written one after the other, in index order. Defined from the
      right so that adding a piece at the end is one unfolding. */
  function Join(pieces: seq<string>): string
  {
    if pieces == [] then [] else Join(pieces[..|pieces| - 1]) + pieces[|pieces| - 1]
  }

  lemma JoinAppend(pieces: seq<string>, p: string)
    ensures Join(pieces + [p]) == Join(pieces) + p
  {
    assert (pieces + [p])[..|pieces|] == pieces;
  }

  function DigitChar(d: int): (c: char)
    requires 0 <= d < 10
    ensures '0' <= c <= '9'
    ensures c as int == '0' as int + d
  {
    "0123456789"[d]
  }

  /** Decimal digits of a natural number, most significant first, no leading zeros. */
  function NatDecimal(n: nat): (s: string)
    ensures 1 <= |s|
    ensures forall i :: 0 <= i < |s| ==> '0' <= s[i] <= '9'
    decreases n
  {
    if n < 10 then [DigitChar(n)] else NatDecimal(n / 10) + [DigitChar(n % 10)]
  }

  /** The number a string of decimal digits denotes, most significant first. */
  function DigitsValue(s: string): int
  {
    if s == [] then 0 else DigitsValue(s[..|s| - 1]) * 10 + (s[|s| - 1] as int - '0' as int)
  }

  /** Reading back the printed digits gives the number. */
  lemma {:induction false} NatDecimalRoundTrip(n: nat)
    ensures DigitsValue(NatDecimal(n)) == n
    decreases n
  {
    var s := NatDecimal(n);
    if n < 10 {
      assert s[..|s| - 1] == [];
    } else {
      assert s[..|s| - 1] == NatDecimal(n / 10);
      NatDecimalRoundTrip(n / 10);
    }
  }

  /** Different numbers print differently. */
  lemma NatDecimalInjective(a: nat, b: nat)
    requires NatDecimal(a) == NatDecimal(b)
    ensures a == b
  {
    NatDecimalRoundTrip(a);
    NatDecimalRoundTrip(b);
  }

  /** The number of decimal digits a string starts with. */
  function LeadingDigits(w: string): nat
  {
    if w != [] && '0' <= w[0] <= '9' then 1 + LeadingDigits(w[1..]) else 0
  }

  /** A run of digits followed by a non-digit starts with exactly that many digits. */
  lemma {:induction false} LeadingDigitsBeforeSeparator(a: string, b: string, sep: char)
    requires !('0' <= sep <= '9')
    requires forall i | 0 <= i < |a| :: '0' <= a[i] <= '9'
    ensures LeadingDigits(a + [sep] + b) == |a|
  {
    var w := a + [sep] + b;
    if a == [] {
      assert w[0] == sep;
    } else {
      assert w[0] == a[0];
      assert w[1..] == a[1..] + [sep] + b;
      LeadingDigitsBeforeSeparator(a[1..], b, sep);
    }
  }

  /** A run of digits followed by a separator splits only one way: the first
      separator ends the digits. */
  lemma DigitsThenSeparator(a1: string, b1: string, a2: string, b2: string, sep: char)
    requires !('0' <= sep <= '9')
    requires forall i | 0 <= i < |a1| :: '0' <= a1[i] <= '9'
    requires forall i | 0 <= i < |a2| :: '0' <= a2[i] <= '9'
    requires a1 + [sep] + b1 == a2 + [sep] + b2
    ensures a1 == a2 && b1 == b2
  {
    var w := a1 + [sep] + b1;
    LeadingDigitsBeforeSeparator(a1, b1, sep);
    LeadingDigitsBeforeSeparator(a2, b2, sep);
    assert a1 == w[..|a1|] == a2;
    assert b1 == w[|a1| + 1..] == b2;
  }

  /** How Java's `"" + long` and a JavaScript template literal print an integer. */
  function Decimal(n: int): string
  {
    if n < 0 then "-" + NatDecimal(-n) else NatDecimal(n)
  }
}
