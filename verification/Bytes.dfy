// Byte strings, as Redis and serde see them, and the decimal rendering that
// Rust's integer formatting produces (no sign, no leading zero).
module Bytes {
  type byte = b: int | 0 <= b < 256

  type Text = seq<byte>

  const U64_LIMIT: nat := 0x1_0000_0000_0000_0000

  type u64 = n: nat | n < U64_LIMIT

  predicate IsDigit(b: byte) { 48 <= b <= 57 }

  /** The bytes of an ASCII literal. */
  function Ascii(s: string): (t: Text)
    requires forall i | 0 <= i < |s| :: s[i] as int < 128
    ensures |t| == |s|
    ensures forall i | 0 <= i < |s| :: t[i] == s[i] as int
  {
    seq(|s|, i requires 0 <= i < |s| => (var b: byte := s[i] as int; b))
  }

  /** The decimal rendering of n, written in front of `rest`. */
  function EmitDecimal(n: nat, rest: Text): Text {
    if n < 10 then [48 + n] + rest else EmitDecimal(n / 10, [48 + n % 10] + rest)
  }

  function Decimal(n: nat): Text { EmitDecimal(n, []) }

  /** Read the longest run of digits at the front of s, continuing from acc. */
  function TakeDigits(s: Text, acc: nat): (r: (nat, Text))
    ensures |r.1| <= |s|
    ensures s != [] && IsDigit(s[0]) ==> |r.1| < |s|
  {
    if s != [] && IsDigit(s[0]) then TakeDigits(s[1..], acc * 10 + (s[0] - 48)) else (acc, s)
  }

  /** Reading digits undoes printing them. */
  lemma {:induction false} TakeEmitted(n: nat, rest: Text)
    ensures TakeDigits(EmitDecimal(n, rest), 0) == TakeDigits(rest, n)
  {
    if n < 10 {
      TakeOne(n, rest, 0);
    } else {
      TakeEmitted(n / 10, [48 + n % 10] + rest);
      TakeOne(n % 10, rest, n / 10);
    }
  }

  lemma TakeOne(d: nat, rest: Text, acc: nat)
    requires d < 10
    ensures TakeDigits([48 + d] + rest, acc) == TakeDigits(rest, acc * 10 + d)
  {
    var s: Text := [48 + d] + rest;
    assert s[0] == 48 + d && s[1..] == rest;
  }

  lemma {:induction false} EmitSplits(n: nat, rest: Text)
    ensures EmitDecimal(n, rest) == Decimal(n) + rest
    ensures |Decimal(n)| >= 1
  {
    if n < 10 {
      assert [48 + n] + [] + rest == [48 + n] + rest;
    } else {
      EmitSplits(n / 10, [48 + n % 10] + rest);
      EmitSplits(n / 10, [48 + n % 10] + []);
      var d: Text := [48 + n % 10];
      assert d + [] == d;
      assert Decimal(n / 10) + (d + rest) == (Decimal(n / 10) + d) + rest;
    }
  }

  /** A rendering consists of digits only, and starts with 0 only for zero itself. */
  lemma {:induction false} DecimalShape(n: nat)
    ensures |Decimal(n)| >= 1
    ensures forall b | b in Decimal(n) :: IsDigit(b)
    ensures Decimal(n)[0] == 48 <==> n == 0
  {
    if n >= 10 {
      var d: Text := [48 + n % 10];
      EmitSplits(n / 10, d + []);
      assert d + [] == d;
      DecimalShape(n / 10);
    }
  }

  /** How a rendering followed by other bytes begins. */
  lemma DecimalFront(n: nat, rest: Text)
    ensures EmitDecimal(n, rest) != []
    ensures IsDigit(EmitDecimal(n, rest)[0])
    ensures EmitDecimal(n, rest)[0] == 48 ==> EmitDecimal(n, rest) == [48] + rest
  {
    EmitSplits(n, rest);
    DecimalShape(n);
    var d := Decimal(n);
    assert d[0] in d;
  }

  /** Reading a rendering stops at the first byte that is not a digit. */
  lemma DecimalWhole(n: nat, rest: Text)
    requires rest != [] ==> !IsDigit(rest[0])
    ensures TakeDigits(EmitDecimal(n, rest), 0) == (n, rest)
  {
    TakeEmitted(n, rest);
  }

  /** Distinct numbers render differently. */
  lemma DecimalInjective(m: nat, n: nat)
    requires Decimal(m) == Decimal(n)
    ensures m == n
  {
    TakeEmitted(m, []);
    TakeEmitted(n, []);
  }
}
