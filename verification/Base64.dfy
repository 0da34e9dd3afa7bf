// Standard base64 with padding, as section 4 of RFC 4648 defines it and as the
// strict engine of the base64 crate decodes it: the alphabet only, length a
// multiple of four, canonical padding, and no stray bits in the last symbol.
module Base64 {
  import opened Wrappers
  import opened Bytes

  type sextet = x: int | 0 <= x < 64

  const PAD: byte := 61

  /** The alphabet A-Z a-z 0-9 + / . */
  function Symbol(x: sextet): byte {
    if x < 26 then 65 + x
    else if x < 52 then 97 + (x - 26)
    else if x < 62 then 48 + (x - 52)
    else if x == 62 then 43
    else 47
  }

  function FromSymbol(b: byte): (r: Option<sextet>)
    ensures r.Some? ==> b == Symbol(r.value)
  {
    if 65 <= b <= 90 then Some(b - 65)
    else if 97 <= b <= 122 then Some(b - 97 + 26)
    else if 48 <= b <= 57 then Some(b - 48 + 52)
    else if b == 43 then Some(62)
    else if b == 47 then Some(63)
    else None
  }

  const UPPER: string := "ABCDEFGHIJKLMNOPQRSTUVWXYZ"

  const LOWER: string := "abcdefghijklmnopqrstuvwxyz"

  const OTHERS: string := "0123456789+/"

  /** The alphabet of table 1 of RFC 4648. */
  const ALPHABET: string := UPPER + LOWER + OTHERS

  lemma UpperSymbols(x: nat)
    requires x < 26
    ensures UPPER[x] as int == 65 + x
  {
    assert x in {0, 1, 2, 3, 4, 5, 6, 7, 8, 9, 10, 11, 12,
                 13, 14, 15, 16, 17, 18, 19, 20, 21, 22, 23, 24, 25};
  }

  lemma LowerSymbols(x: nat)
    requires x < 26
    ensures LOWER[x] as int == 97 + x
  {
    assert x in {0, 1, 2, 3, 4, 5, 6, 7, 8, 9, 10, 11, 12,
                 13, 14, 15, 16, 17, 18, 19, 20, 21, 22, 23, 24, 25};
  }

  lemma OtherSymbols(x: nat)
    requires x < 12
    ensures OTHERS[x] as int == if x < 10 then 48 + x else if x == 10 then 43 else 47
  {
    assert x in {0, 1, 2, 3, 4, 5, 6, 7, 8, 9, 10, 11};
  }

  /** A symbol is the alphabet's character at that place, and is read back as that place. */
  lemma SymbolExactly(x: sextet)
    ensures |ALPHABET| == 64 && Symbol(x) == ALPHABET[x] as int
    ensures forall b: byte :: FromSymbol(b) == Some(x) <==> b == ALPHABET[x] as int
  {
    if x < 26 {
      UpperSymbols(x);
    } else if x < 52 {
      LowerSymbols(x - 26);
    } else {
      OtherSymbols(x - 52);
    }
    SymbolRoundTrip(x);
  }

  lemma SymbolRoundTrip(x: sextet)
    ensures FromSymbol(Symbol(x)) == Some(x)
    ensures Symbol(x) != PAD
  {}

  /** One to three bytes as two to four sextets; a short last sextet is filled with zeros. */
  function Split(g: Text): (xs: seq<sextet>)
    requires 1 <= |g| <= 3
    ensures |xs| == |g| + 1
  {
    if |g| == 1 then [g[0] / 4, g[0] % 4 * 16]
    else if |g| == 2 then [g[0] / 4, g[0] % 4 * 16 + g[1] / 16, g[1] % 16 * 4]
    else [g[0] / 4, g[0] % 4 * 16 + g[1] / 16, g[1] % 16 * 4 + g[2] / 64, g[2] % 64]
  }

  /** The bytes of two to four sextets, if the bits left over are zero. */
  function Join(xs: seq<sextet>): (r: Option<Text>)
    requires 2 <= |xs| <= 4
    ensures r.Some? ==> |r.value| == |xs| - 1
  {
    var w: int, x: int := xs[0], xs[1];
    if |xs| == 2 then
      if x % 16 == 0 then Some([w * 4 + x / 16]) else None
    else
      var y: int := xs[2];
      if |xs| == 3 then
        if y % 4 == 0 then Some([w * 4 + x / 16, x % 16 * 16 + y / 4]) else None
      else
        var z: int := xs[3];
        Some([w * 4 + x / 16, x % 16 * 16 + y / 4, y % 4 * 64 + z])
  }

  lemma JoinSplit(g: Text)
    requires 1 <= |g| <= 3
    ensures Join(Split(g)) == Some(g)
  {
    var xs := Split(g);
    Repack(g[0] / 4, g[0] % 4, 4);
    if |g| == 1 {
      assert [g[0]] == g;
    } else {
      Repack(g[0] % 4, g[1] / 16, 16);
      if |g| == 2 {
        assert [g[0], g[1]] == g;
      } else {
        Repack(g[1] % 16, g[2] / 64, 4);
        assert [g[0], g[1], g[2]] == g;
      }
    }
  }

  lemma SplitJoin(xs: seq<sextet>)
    requires 2 <= |xs| <= 4 && Join(xs).Some?
    ensures Split(Join(xs).value) == xs
  {
    Repack(xs[0], xs[1] / 16, 4);
    if |xs| == 2 {
      assert [xs[0], xs[1]] == xs;
    } else {
      Repack(xs[1] % 16, xs[2] / 4, 16);
      if |xs| == 3 {
        assert [xs[0], xs[1], xs[2]] == xs;
      } else {
        Repack(xs[2] % 4, xs[3], 64);
        assert [xs[0], xs[1], xs[2], xs[3]] == xs;
      }
    }
  }

  /** Packing two neighbouring fields into one number and taking them apart again. */
  lemma Repack(hi: nat, lo: nat, width: nat)
    requires width in {4, 16, 64} && lo < width
    ensures (hi * width + lo) / width == hi && (hi * width + lo) % width == lo
  {}

  /** One group of one to three bytes as four symbols, padded when short. */
  function EncodeGroup(g: Text): (t: Text)
    requires 1 <= |g| <= 3
    ensures |t| == 4
  {
    var xs := Split(g);
    [Symbol(xs[0]), Symbol(xs[1]),
     if |xs| > 2 then Symbol(xs[2]) else PAD,
     if |xs| > 3 then Symbol(xs[3]) else PAD]
  }

  function Encode(s: Text): Text {
    if s == [] then []
    else if |s| <= 3 then EncodeGroup(s)
    else EncodeGroup(s[..3]) + Encode(s[3..])
  }

  /** The bytes of one group of four symbols; `last` says whether padding is allowed. */
  function DecodeGroup(t: Text, last: bool): (r: Option<Text>)
    requires |t| == 4
    ensures r.Some? ==> 1 <= |r.value| <= 3 && (|r.value| < 3 ==> last)
  {
    var x :- FromSymbol(t[0]);
    var y :- FromSymbol(t[1]);
    if t[2] == PAD then
      if last && t[3] == PAD then Join([x, y]) else None
    else
      var z :- FromSymbol(t[2]);
      if t[3] == PAD then
        if last then Join([x, y, z]) else None
      else
        var w :- FromSymbol(t[3]);
        Join([x, y, z, w])
  }

  function Decode(t: Text): Option<Text> {
    if t == [] then Some([])
    else if |t| < 4 then None
    else
      var head :- DecodeGroup(t[..4], |t| == 4);
      var tail :- Decode(t[4..]);
      Some(head + tail)
  }

  lemma DecodeEncodedGroup(g: Text, last: bool)
    requires 1 <= |g| <= 3 && (|g| < 3 ==> last)
    ensures DecodeGroup(EncodeGroup(g), last) == Some(g)
  {
    var xs := Split(g);
    SymbolRoundTrip(xs[0]);
    SymbolRoundTrip(xs[1]);
    if |xs| > 2 { SymbolRoundTrip(xs[2]); }
    if |xs| > 3 { SymbolRoundTrip(xs[3]); }
    assert xs == if |xs| == 2 then [xs[0], xs[1]]
                 else if |xs| == 3 then [xs[0], xs[1], xs[2]]
                 else [xs[0], xs[1], xs[2], xs[3]];
    JoinSplit(g);
  }

  lemma EncodeDecodedGroup(t: Text, last: bool)
    requires |t| == 4 && DecodeGroup(t, last).Some?
    ensures EncodeGroup(DecodeGroup(t, last).value) == t
  {
    var x, y := FromSymbol(t[0]).value, FromSymbol(t[1]).value;
    if t[2] == PAD {
      SplitJoin([x, y]);
    } else if t[3] == PAD {
      SplitJoin([x, y, FromSymbol(t[2]).value]);
    } else {
      SplitJoin([x, y, FromSymbol(t[2]).value, FromSymbol(t[3]).value]);
    }
  }

  /** Decoding an encoding gives back the bytes, for every byte string. */
  lemma {:induction false} DecodeEncode(s: Text)
    ensures Decode(Encode(s)) == Some(s)
  {
    var t := Encode(s);
    if |s| > 3 {
      DecodeEncode(s[3..]);
      DecodeEncodedGroup(s[..3], |t| == 4);
      assert t[..4] == EncodeGroup(s[..3]) && t[4..] == Encode(s[3..]);
      assert s == s[..3] + s[3..];
    } else if s != [] {
      DecodeEncodedGroup(s, true);
      assert t[..4] == t && t[4..] == [];
      assert s + [] == s;
    }
  }

  /** The decoder accepts nothing but encodings, so no two texts decode alike. */
  lemma {:induction false} EncodeDecode(t: Text)
    requires Decode(t).Some?
    ensures Encode(Decode(t).value) == t
  {
    if t != [] {
      EncodeDecodedGroup(t[..4], |t| == 4);
      EncodeDecode(t[4..]);
      var g, tail := DecodeGroup(t[..4], |t| == 4).value, Decode(t[4..]).value;
      assert t == t[..4] + t[4..];
      if tail == [] {
        assert g + tail == g;
      } else {
        assert |t| > 4 && (g + tail)[..3] == g && (g + tail)[3..] == tail;
      }
    }
  }

  // ---- which bits each symbol carries ----

  /** Bit k of a number, counted from the least significant. */
  function NumberBit(n: nat, k: nat): (bit: nat)
    ensures bit <= 1
  {
    if k == 0 then n % 2 else NumberBit(n / 2, k - 1)
  }

  function Pow2(m: nat): (p: nat)
    ensures p >= 1
  {
    if m == 0 then 1 else 2 * Pow2(m - 1)
  }

  lemma {:induction false} ZeroBits(k: nat)
    ensures NumberBit(0, k) == 0
  {
    if k > 0 {
      ZeroBits(k - 1);
    }
  }

  /** Bit b of a byte string, counted from its front; zeros follow its end. */
  function Bit(s: Text, b: nat): nat {
    if b / 8 < |s| then NumberBit(s[b / 8], 7 - b % 8) else 0
  }

  lemma Twice(hi: nat, p: nat)
    ensures hi * (2 * p) == 2 * (hi * p)
  {}

  /** The bits of a field of m bits with another field above it. */
  lemma {:induction false} FieldBits(hi: nat, lo: nat, m: nat, k: nat)
    requires lo < Pow2(m)
    ensures NumberBit(hi * Pow2(m) + lo, k)
         == if k < m then NumberBit(lo, k) else NumberBit(hi, k - m)
  {
    if m > 0 {
      var above := hi * Pow2(m - 1);
      Twice(hi, Pow2(m - 1));
      assert hi * Pow2(m) + lo == 2 * above + lo;
      assert (2 * above + lo) / 2 == above + lo / 2;
      if k > 0 {
        FieldBits(hi, lo / 2, m - 1, k - 1);
      }
    }
  }

  lemma FieldsOfByte(x: nat, k: nat)
    ensures NumberBit(x, k) == if k < 2 then NumberBit(x % 4, k) else NumberBit(x / 4, k - 2)
    ensures NumberBit(x, k) == if k < 4 then NumberBit(x % 16, k) else NumberBit(x / 16, k - 4)
    ensures NumberBit(x, k) == if k < 6 then NumberBit(x % 64, k) else NumberBit(x / 64, k - 6)
  {
    assert Pow2(2) == 4 && Pow2(4) == 16 && Pow2(6) == 64;
    FieldBits(x / 4, x % 4, 2, k);
    FieldBits(x / 16, x % 16, 4, k);
    FieldBits(x / 64, x % 64, 6, k);
  }

  lemma SecondSextet(a: byte, b: byte, j: nat)
    requires j < 6
    ensures NumberBit(a % 4 * 16 + b / 16, 5 - j)
         == if j < 2 then NumberBit(a, 1 - j) else NumberBit(b, 9 - j)
  {
    assert Pow2(4) == 16;
    FieldBits(a % 4, b / 16, 4, 5 - j);
    if j < 2 {
      FieldsOfByte(a, 1 - j);
    } else {
      FieldsOfByte(b, 9 - j);
    }
  }

  lemma ThirdSextet(a: byte, b: byte, j: nat)
    requires j < 6
    ensures NumberBit(a % 16 * 4 + b / 64, 5 - j)
         == if j < 4 then NumberBit(a, 3 - j) else NumberBit(b, 11 - j)
  {
    assert Pow2(2) == 4;
    FieldBits(a % 16, b / 64, 2, 5 - j);
    if j < 4 {
      FieldsOfByte(a, 3 - j);
    } else {
      FieldsOfByte(b, 11 - j);
    }
  }

  lemma FirstBits(g: Text, j: nat)
    requires |g| >= 1 && j < 6
    ensures NumberBit(g[0] / 4, 5 - j) == Bit(g, j)
  {
    FieldsOfByte(g[0], 7 - j);
  }

  lemma SecondBits(g: Text, j: nat)
    requires |g| >= 1 && j < 6
    ensures NumberBit(g[0] % 4 * 16 + (if |g| > 1 then g[1] else 0) / 16, 5 - j) == Bit(g, 6 + j)
  {
    SecondSextet(g[0], if |g| > 1 then g[1] else 0, j);
    if j >= 2 { ZeroBits(9 - j); }
  }

  lemma ThirdBits(g: Text, j: nat)
    requires |g| >= 2 && j < 6
    ensures NumberBit(g[1] % 16 * 4 + (if |g| > 2 then g[2] else 0) / 64, 5 - j) == Bit(g, 12 + j)
  {
    ThirdSextet(g[1], if |g| > 2 then g[2] else 0, j);
    if j >= 4 { ZeroBits(11 - j); }
  }

  lemma FourthBits(g: Text, j: nat)
    requires |g| >= 3 && j < 6
    ensures NumberBit(g[2] % 64, 5 - j) == Bit(g, 18 + j)
  {
    FieldsOfByte(g[2], 5 - j);
  }

  /** Bit j of sextet k, counted from the front, is bit 6k + j of the group. */
  lemma SplitBits(g: Text, k: nat, j: nat)
    requires 1 <= |g| <= 3 && k <= |g| && j < 6
    ensures NumberBit(Split(g)[k], 5 - j) == Bit(g, 6 * k + j)
  {
    if k == 0 {
      FirstBits(g, j);
    } else if k == 1 {
      SecondBits(g, j);
    } else if k == 2 {
      ThirdBits(g, j);
    } else {
      FourthBits(g, j);
    }
  }

  lemma BitFurtherOn(s: Text, b: nat)
    requires |s| >= 3
    ensures Bit(s[3..], b) == Bit(s, b + 24)
  {
    assert (b + 24) / 8 == b / 8 + 3 && (b + 24) % 8 == b % 8;
  }

  lemma {:induction false} EncodedLength(s: Text)
    ensures |Encode(s)| == 4 * ((|s| + 2) / 3)
  {
    if |s| > 3 {
      EncodedLength(s[3..]);
      assert (|s| + 2) / 3 == (|s| - 1) / 3 + 1;
    }
  }

  /** As character k of an encoding of s, c is right about its j-th bit: it stands for a
      number with the j-th of the six bits of s from 6k on, or it is padding where s has
      no bit left. */
  predicate Carries(c: byte, s: Text, k: nat, j: nat)
    requires j < 6
  {
    if 6 * k < 8 * |s| then
      FromSymbol(c).Some? && NumberBit(FromSymbol(c).value, 5 - j) == Bit(s, 6 * k + j)
    else c == PAD
  }

  lemma GroupBits(g: Text, k: nat, j: nat)
    requires 1 <= |g| <= 3 && k < 4 && j < 6
    ensures Carries(EncodeGroup(g)[k], g, k, j)
  {
    if k <= |g| {
      SymbolRoundTrip(Split(g)[k]);
      SplitBits(g, k, j);
    }
  }

  lemma FirstGroup(c: byte, s: Text, k: nat, j: nat)
    requires |s| >= 3 && k < 4 && j < 6 && Carries(c, s[..3], k, j)
    ensures Carries(c, s, k, j)
  {
    assert (6 * k + j) / 8 < 3;
  }

  lemma LaterGroup(c: byte, s: Text, k: nat, j: nat)
    requires |s| >= 3 && j < 6 && Carries(c, s[3..], k, j)
    ensures Carries(c, s, k + 4, j)
  {
    BitFurtherOn(s, 6 * k + j);
    assert 6 * (k + 4) + j == 6 * k + j + 24;
  }

  /** Four characters for each three bytes begun; character k carries bits 6k to 6k + 5 of
      the input, with zeros after its end, and is padding where no bit is left. */
  lemma {:induction false} EncodeBits(s: Text, k: nat, j: nat)
    requires k < 4 * ((|s| + 2) / 3) && j < 6
    ensures |Encode(s)| == 4 * ((|s| + 2) / 3)
    ensures Carries(Encode(s)[k], s, k, j)
  {
    EncodedLength(s);
    if |s| <= 3 {
      GroupBits(s, k, j);
    } else if k < 4 {
      GroupBits(s[..3], k, j);
      FirstGroup(Encode(s)[k], s, k, j);
    } else {
      EncodeBits(s[3..], k - 4, j);
      LaterGroup(Encode(s)[k], s, k - 4, j);
    }
  }

  /** Test vectors of section 10 of RFC 4648, one for each length of a last group: "f",
      "fo" and "foo" become "Zg==", "Zm8=" and "Zm9v". */
  lemma TestVectors()
    ensures Encode([102]) == [90, 103, 61, 61]
    ensures Encode([102, 111]) == [90, 109, 56, 61]
    ensures Encode([102, 111, 111]) == [90, 109, 57, 118]
  {
    assert Split([102]) == [25, 32];
    assert Split([102, 111]) == [25, 38, 60];
    assert Split([102, 111, 111]) == [25, 38, 61, 47];
  }
}
