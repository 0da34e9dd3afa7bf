// JSON texts (RFC 8259) as serde_json prints and parses them: compact output,
// and a parser that stops at 127 nested containers.
module Json {
  import opened Wrappers
  import opened Bytes

  datatype Json =
    | Null
    | Bool(b: bool)
    | Num(n: nat)            // an integer that fits in 64 unsigned bits
    | Real(lexeme: Text)     // any other number
    | Str(s: Text)
    | Arr(items: seq<Json>)
    | Obj(fields: seq<Field>)

  datatype Field = Field(key: Text, value: Json)

  /** serde_json's recursion budget: a container that would use up the last unit fails. */
  const MAX_DEPTH: nat := 128

  // ---- looking into a value ----

  function AsArray(v: Json): Option<seq<Json>> {
    if v.Arr? then Some(v.items) else None
  }

  function Index(items: seq<Json>, i: nat): Option<Json> {
    if i < |items| then Some(items[i]) else None
  }

  /** A later duplicate of a key replaces an earlier one. */
  function Lookup(fields: seq<Field>, key: Text): Option<Json> {
    if fields == [] then None
    else if fields[|fields| - 1].key == key then Some(fields[|fields| - 1].value)
    else Lookup(fields[..|fields| - 1], key)
  }

  function Get(v: Json, key: Text): Option<Json> {
    if v.Obj? then Lookup(v.fields, key) else None
  }

  function AsU64(v: Json): (r: Option<nat>) {
    if v.Num? then Some(v.n) else None
  }

  // ---- printing: each Emit writes in front of `rest` ----

  function HexDigit(x: nat): byte
    requires x < 16
  {
    if x < 10 then 48 + x else 97 + (x - 10)
  }

  function EmitByte(b: byte, rest: Text): Text {
    if b == 34 then [92, 34] + rest
    else if b == 92 then [92, 92] + rest
    else if b == 8 then [92, 98] + rest
    else if b == 9 then [92, 116] + rest
    else if b == 10 then [92, 110] + rest
    else if b == 12 then [92, 102] + rest
    else if b == 13 then [92, 114] + rest
    else if b < 32 then [92, 117, 48, 48, HexDigit(b / 16), HexDigit(b % 16)] + rest
    else [b] + rest
  }

  /** The characters of a string and its closing quote. */
  function EmitChars(s: Text, rest: Text): Text {
    if s == [] then [34] + rest else EmitByte(s[0], EmitChars(s[1..], rest))
  }

  function Emit(v: Json, rest: Text): Text
    decreases v, 0
  {
    match v
    case Null => Ascii("null") + rest
    case Bool(b) => (if b then Ascii("true") else Ascii("false")) + rest
    case Num(n) => EmitDecimal(n, rest)
    case Real(lexeme) => lexeme + rest
    case Str(s) => [34] + EmitChars(s, rest)
    case Arr(items) => if items == [] then [91, 93] + rest else [91] + EmitItems(items, rest)
    case Obj(fields) => if fields == [] then [123, 125] + rest else [123] + EmitFields(fields, rest)
  }

  function EmitItems(items: seq<Json>, rest: Text): Text
    requires items != []
    decreases items, 1
  {
    Emit(items[0], if |items| == 1 then [93] + rest else [44] + EmitItems(items[1..], rest))
  }

  function EmitFields(fields: seq<Field>, rest: Text): Text
    requires fields != []
    decreases fields, 1
  {
    [34] + EmitChars(fields[0].key, [58] + Emit(fields[0].value,
      if |fields| == 1 then [125] + rest else [44] + EmitFields(fields[1..], rest)))
  }

  function Print(v: Json): Text { Emit(v, []) }

  // ---- parsing ----

  function SkipWs(s: Text): (r: Text)
    ensures |r| <= |s|
    ensures s != [] && s[0] !in {32, 9, 10, 13} ==> r == s
  {
    if s != [] && s[0] in {32, 9, 10, 13} then SkipWs(s[1..]) else s
  }

  function HexValue(b: byte): (r: Option<nat>)
    ensures r.Some? ==> r.value < 16
  {
    if 48 <= b <= 57 then Some(b - 48)
    else if 97 <= b <= 102 then Some(b - 87)
    else if 65 <= b <= 70 then Some(b - 55)
    else None
  }

  /** The four hex digits of a \u escape. */
  function Hex4(s: Text): (r: Option<nat>)
    ensures r.Some? ==> r.value < 0x10000 && |s| >= 4
  {
    if |s| < 4 then None
    else
      var a :- HexValue(s[0]);
      var b :- HexValue(s[1]);
      var c :- HexValue(s[2]);
      var d :- HexValue(s[3]);
      Some(a * 4096 + b * 256 + c * 16 + d)
  }

  function Utf8(cp: nat): Text
    requires cp < 0x110000
  {
    if cp < 0x80 then [cp]
    else if cp < 0x800 then [192 + cp / 64, 128 + cp % 64]
    else if cp < 0x10000 then [224 + cp / 4096, 128 + cp / 64 % 64, 128 + cp % 64]
    else [240 + cp / 262144, 128 + cp / 4096 % 64, 128 + cp / 64 % 64, 128 + cp % 64]
  }

  /** What follows `\u`: one code unit, or a surrogate pair. */
  function ParseUnicode(s: Text): (r: Option<(Text, Text)>)
    ensures r.Some? ==> |r.value.1| < |s|
  {
    var u :- Hex4(s);
    if 0xD800 <= u < 0xDC00 then
      if |s| >= 10 && s[4] == 92 && s[5] == 117 then
        var v :- Hex4(s[6..]);
        if 0xDC00 <= v < 0xE000 then
          Some((Utf8(0x10000 + (u - 0xD800) * 1024 + (v - 0xDC00)), s[10..]))
        else None
      else None
    else if 0xDC00 <= u < 0xE000 then None
    else Some((Utf8(u), s[4..]))
  }

  /** What follows a backslash. */
  function ParseEscape(s: Text): (r: Option<(Text, Text)>)
    ensures r.Some? ==> |r.value.1| < |s|
  {
    if s == [] then None
    else if s[0] == 34 || s[0] == 92 || s[0] == 47 then Some(([s[0]], s[1..]))
    else if s[0] == 98 then Some(([8], s[1..]))
    else if s[0] == 116 then Some(([9], s[1..]))
    else if s[0] == 110 then Some(([10], s[1..]))
    else if s[0] == 102 then Some(([12], s[1..]))
    else if s[0] == 114 then Some(([13], s[1..]))
    else if s[0] == 117 then ParseUnicode(s[1..])
    else None
  }

  /** What follows an opening quote, up to and including the closing one. */
  function ParseChars(s: Text): (r: Option<(Text, Text)>)
    ensures r.Some? ==> |r.value.1| < |s|
  {
    if s == [] || s[0] < 32 then None
    else if s[0] == 34 then Some(([], s[1..]))
    else
      var head :- if s[0] == 92 then ParseEscape(s[1..]) else Some(([s[0]], s[1..]));
      var tail :- ParseChars(head.1);
      Some((head.0 + tail.0, tail.1))
  }

  /** A fraction and an exponent, where present; None when one of them has no digit. */
  function SkipFraction(s: Text): (r: Option<Text>)
    ensures r.Some? ==> |r.value| <= |s|
  {
    if s != [] && s[0] == 46 then
      var t := TakeDigits(s[1..], 0).1;
      if |t| < |s| - 1 then SkipExponent(t) else None
    else SkipExponent(s)
  }

  function SkipExponent(s: Text): (r: Option<Text>)
    ensures r.Some? ==> |r.value| <= |s|
  {
    if s != [] && (s[0] == 101 || s[0] == 69) then
      var t := if |s| > 1 && (s[1] == 43 || s[1] == 45) then s[2..] else s[1..];
      var u := TakeDigits(t, 0).1;
      if |u| < |t| then Some(u) else None
    else Some(s)
  }

  /** No digit at all, or a zero with another digit after it. */
  predicate BadInteger(t: Text) {
    t == [] || !IsDigit(t[0]) || (t[0] == 48 && |t| > 1 && IsDigit(t[1]))
  }

  /** The number that ends the text s in `u`, once its integer part n has been read. */
  function FinishNumber(s: Text, n: nat, u: Text): (r: Option<(Json, Text)>)
    requires |u| < |s|
    ensures r.Some? ==> |r.value.1| <= |u|
  {
    var v :- SkipFraction(u);
    if s[0] != 45 && u == v && n < U64_LIMIT then Some((Num(n), v))
    else Some((Real(s[..|s| - |v|]), v))
  }

  function ParseNumber(s: Text): (r: Option<(Json, Text)>)
    ensures r.Some? ==> |r.value.1| < |s|
  {
    var t := if s != [] && s[0] == 45 then s[1..] else s;
    if BadInteger(t) then None
    else
      var (n, u) := TakeDigits(t, 0);
      FinishNumber(s, n, u)
  }

  predicate StartsWith(s: Text, prefix: Text) {
    |prefix| <= |s| && s[..|prefix|] == prefix
  }

  function ParseValue(s0: Text, depth: nat): (r: Option<(Json, Text)>)
    ensures r.Some? ==> |r.value.1| < |s0|
    decreases |s0|, 0
  {
    var s := SkipWs(s0);
    if s == [] then None
    else if s[0] == 34 then
      var (chars, rest) :- ParseChars(s[1..]);
      Some((Str(chars), rest))
    else if s[0] == 91 then
      if depth <= 1 then None else ParseArray(s[1..], depth - 1)
    else if s[0] == 123 then
      if depth <= 1 then None else ParseObject(s[1..], depth - 1)
    else if StartsWith(s, Ascii("null")) then Some((Null, s[4..]))
    else if StartsWith(s, Ascii("true")) then Some((Bool(true), s[4..]))
    else if StartsWith(s, Ascii("false")) then Some((Bool(false), s[5..]))
    else ParseNumber(s)
  }

  function ParseArray(s0: Text, depth: nat): (r: Option<(Json, Text)>)
    ensures r.Some? ==> |r.value.1| < |s0|
    decreases |s0|, 2
  {
    var s := SkipWs(s0);
    if s != [] && s[0] == 93 then Some((Arr([]), s[1..]))
    else
      var (items, rest) :- ParseItems(s, depth);
      Some((Arr(items), rest))
  }

  /** One item, then a comma and more, or the closing bracket. */
  function ParseItems(s: Text, depth: nat): (r: Option<(seq<Json>, Text)>)
    ensures r.Some? ==> |r.value.1| < |s|
    decreases |s|, 1
  {
    var (v, t0) :- ParseValue(s, depth);
    var t := SkipWs(t0);
    if t != [] && t[0] == 44 then
      var (more, rest) :- ParseItems(t[1..], depth);
      Some(([v] + more, rest))
    else if t != [] && t[0] == 93 then Some(([v], t[1..]))
    else None
  }

  function ParseObject(s0: Text, depth: nat): (r: Option<(Json, Text)>)
    ensures r.Some? ==> |r.value.1| < |s0|
    decreases |s0|, 2
  {
    var s := SkipWs(s0);
    if s != [] && s[0] == 125 then Some((Obj([]), s[1..]))
    else
      var (fields, rest) :- ParseFields(s, depth);
      Some((Obj(fields), rest))
  }

  function ParseFields(s0: Text, depth: nat): (r: Option<(seq<Field>, Text)>)
    ensures r.Some? ==> |r.value.1| < |s0|
    decreases |s0|, 1
  {
    var s := SkipWs(s0);
    if s == [] || s[0] != 34 then None
    else
      var (key, k0) :- ParseChars(s[1..]);
      var k := SkipWs(k0);
      if k == [] || k[0] != 58 then None
      else
        var (v, t0) :- ParseValue(k[1..], depth);
        var t := SkipWs(t0);
        if t != [] && t[0] == 44 then
          var (more, rest) :- ParseFields(t[1..], depth);
          Some(([Field(key, v)] + more, rest))
        else if t != [] && t[0] == 125 then Some(([Field(key, v)], t[1..]))
        else None
  }

  /** A whole document: one value, then nothing but white space. */
  function Parse(s: Text): Option<Json> {
    var (v, rest) :- ParseValue(s, MAX_DEPTH);
    if SkipWs(rest) == [] then Some(v) else None
  }

  // ---- the round trip ----

  /** What serde_json can hold without going through a float. */
  predicate Exact(v: Json) {
    match v
    case Num(n) => n < U64_LIMIT
    case Real(_) => false
    case Arr(items) => forall i | 0 <= i < |items| :: Exact(items[i])
    case Obj(fields) => forall i | 0 <= i < |fields| :: Exact(fields[i].value)
    case _ => true
  }

  function Max(a: nat, b: nat): nat { if a < b then b else a }

  /** How deeply containers nest. */
  function Depth(v: Json): nat
    decreases v, 0
  {
    match v
    case Arr(items) => 1 + ItemsDepth(items)
    case Obj(fields) => 1 + FieldsDepth(fields)
    case _ => 0
  }

  function ItemsDepth(items: seq<Json>): nat
    decreases items, 1
  {
    if items == [] then 0 else Max(Depth(items[0]), ItemsDepth(items[1..]))
  }

  function FieldsDepth(fields: seq<Field>): nat
    decreases fields, 1
  {
    if fields == [] then 0 else Max(Depth(fields[0].value), FieldsDepth(fields[1..]))
  }

  /** What may follow a value inside a document. */
  predicate Boundary(rest: Text) { rest == [] || rest[0] in {44, 93, 125} }

  /** One printed character is read as that character, whatever follows. */
  lemma ByteRoundTrip(b: byte, tail: Text)
    ensures ParseChars(EmitByte(b, tail))
         == match ParseChars(tail)
            case None => None
            case Some((chars, rest)) => Some(([b] + chars, rest))
  {
    var t := EmitByte(b, tail);
    if t[0] != 92 {
      assert t[1..] == tail;
    } else {
      EscapeRoundTrip(b, tail);
    }
  }

  lemma EscapeRoundTrip(b: byte, tail: Text)
    requires EmitByte(b, tail)[0] == 92
    ensures ParseEscape(EmitByte(b, tail)[1..]) == Some(([b], tail))
  {
    var t := EmitByte(b, tail)[1..];
    if t[0] == 117 {
      UnicodeRoundTrip(b, tail);
      assert t[1..] == [48, 48, HexDigit(b / 16), HexDigit(b % 16)] + tail;
    } else {
      assert t[1..] == tail;
    }
  }

  lemma {:induction false} CharsRoundTrip(s: Text, rest: Text)
    ensures ParseChars(EmitChars(s, rest)) == Some((s, rest))
  {
    if s == [] {
      assert ([34] + rest)[1..] == rest;
    } else {
      CharsRoundTrip(s[1..], rest);
      ByteRoundTrip(s[0], EmitChars(s[1..], rest));
      assert [s[0]] + s[1..] == s;
    }
  }

  lemma UnicodeRoundTrip(b: byte, tail: Text)
    requires b < 32
    ensures ParseUnicode([48, 48, HexDigit(b / 16), HexDigit(b % 16)] + tail) == Some(([b], tail))
  {
    var s: Text := [48, 48, HexDigit(b / 16), HexDigit(b % 16)] + tail;
    assert HexValue(s[2]) == Some(b / 16) && HexValue(s[3]) == Some(b % 16);
    assert s[4..] == tail;
  }

  lemma NoFraction(rest: Text)
    requires Boundary(rest)
    ensures SkipFraction(rest) == Some(rest)
  {}

  lemma DigitsAreANumber(s: Text, n: nat, rest: Text)
    requires s != [] && IsDigit(s[0]) && !BadInteger(s) && TakeDigits(s, 0) == (n, rest)
    requires n < U64_LIMIT && SkipFraction(rest) == Some(rest)
    ensures ParseNumber(s) == Some((Num(n), rest))
  {}

  lemma NotALiteral(s: Text)
    requires s != [] && IsDigit(s[0])
    ensures !StartsWith(s, Ascii("null")) && !StartsWith(s, Ascii("true")) && !StartsWith(s, Ascii("false"))
  {
    NotAPrefix(s, Ascii("null"));
    NotAPrefix(s, Ascii("true"));
    NotAPrefix(s, Ascii("false"));
  }

  lemma NumberRead(s: Text, n: nat, rest: Text, depth: nat)
    requires s != [] && IsDigit(s[0]) && ParseNumber(s) == Some((Num(n), rest))
    ensures ParseValue(s, depth) == Some((Num(n), rest))
  {
    NotALiteral(s);
  }

  /** A rendered number is read back as that number. */
  lemma NumberRoundTrip(n: nat, rest: Text, depth: nat)
    requires n < U64_LIMIT && Boundary(rest)
    ensures ParseValue(EmitDecimal(n, rest), depth) == Some((Num(n), rest))
  {
    var s := EmitDecimal(n, rest);
    DecimalFront(n, rest);
    DecimalWhole(n, rest);
    NoLeadingZero(s, rest);
    NoFraction(rest);
    DigitsAreANumber(s, n, rest);
    NumberRead(s, n, rest, depth);
  }

  lemma NoLeadingZero(s: Text, rest: Text)
    requires s != [] && IsDigit(s[0]) && Boundary(rest)
    requires s[0] == 48 ==> s == [48] + rest
    ensures !BadInteger(s)
  {
    if s[0] == 48 && |s| > 1 {
      assert s[1] == rest[0];
    }
  }

  lemma NotAPrefix(s: Text, t: Text)
    requires s != [] && t != [] && s[0] != t[0]
    ensures !StartsWith(s, t)
  {
    assert |t| <= |s| ==> s[..|t|][0] == s[0];
  }

  /** A value starts with none of the bytes that separate or close. */
  lemma FirstByte(v: Json, rest: Text)
    requires Exact(v)
    ensures Emit(v, rest) != []
    ensures Emit(v, rest)[0] !in {32, 9, 10, 13, 44, 93, 125}
  {
    if v.Num? {
      DecimalFront(v.n, rest);
    }
  }

  lemma LiteralRoundTrip(v: Json, rest: Text, depth: nat)
    requires v.Null? || v.Bool?
    ensures ParseValue(Emit(v, rest), depth) == Some((v, rest))
  {
    var s := Emit(v, rest);
    if v == Bool(false) {
      assert s[..5] == Ascii("false") && s[5..] == rest;
    } else if v == Bool(true) {
      assert s[..4] == Ascii("true") && s[4..] == rest;
    } else {
      assert s[..4] == Ascii("null") && s[4..] == rest;
    }
  }

  lemma StringRoundTrip(chars: Text, rest: Text, depth: nat)
    ensures ParseValue(Emit(Str(chars), rest), depth) == Some((Str(chars), rest))
  {
    var s := Emit(Str(chars), rest);
    CharsRoundTrip(chars, rest);
    assert s[1..] == EmitChars(chars, rest);
  }

  /** An array parses as its items do, one level further down. */
  lemma ArrayStep(items: seq<Json>, rest: Text, depth: nat)
    requires items != [] && Exact(items[0]) && depth >= 1
    requires depth > 1 ==>
               ParseItems(EmitItems(items, rest), depth - 1)
               == if ItemsDepth(items) < depth - 1 then Some((items, rest)) else None
    ensures ParseValue(Emit(Arr(items), rest), depth)
         == if Depth(Arr(items)) < depth then Some((Arr(items), rest)) else None
  {
    var s := Emit(Arr(items), rest);
    assert s[1..] == EmitItems(items, rest);
    ItemsFirstByte(items, rest);
  }

  lemma ObjectStep(fields: seq<Field>, rest: Text, depth: nat)
    requires fields != [] && depth >= 1
    requires depth > 1 ==>
               ParseFields(EmitFields(fields, rest), depth - 1)
               == if FieldsDepth(fields) < depth - 1 then Some((fields, rest)) else None
    ensures ParseValue(Emit(Obj(fields), rest), depth)
         == if Depth(Obj(fields)) < depth then Some((Obj(fields), rest)) else None
  {
    var s := Emit(Obj(fields), rest);
    assert s[1..] == EmitFields(fields, rest);
    assert s[1..][0] == 34;
  }

  lemma EmptyContainers(rest: Text, depth: nat)
    ensures ParseValue(Emit(Arr([]), rest), depth) == if depth > 1 then Some((Arr([]), rest)) else None
    ensures ParseValue(Emit(Obj([]), rest), depth) == if depth > 1 then Some((Obj([]), rest)) else None
  {
    assert ([91, 93] + rest)[1..] == [93] + rest && ([93] + rest)[1..] == rest;
    assert ([123, 125] + rest)[1..] == [125] + rest && ([125] + rest)[1..] == rest;
  }

  /** Printing then parsing, with `depth` units of recursion left: the value comes
      back when it nests less deeply than that, and the parse fails otherwise. */
  lemma {:induction false} ValueRoundTrip(v: Json, rest: Text, depth: nat)
    requires Exact(v) && Boundary(rest) && depth >= 1
    ensures ParseValue(Emit(v, rest), depth) == if Depth(v) < depth then Some((v, rest)) else None
    decreases v, 0
  {
    match v
    case Null => LiteralRoundTrip(v, rest, depth);
    case Bool(_) => LiteralRoundTrip(v, rest, depth);
    case Num(n) => NumberRoundTrip(n, rest, depth);
    case Str(chars) => StringRoundTrip(chars, rest, depth);
    case Arr(items) => ArrayRoundTrip(items, rest, depth);
    case Obj(fields) => ObjectRoundTrip(fields, rest, depth);
  }

  lemma {:induction false} ArrayRoundTrip(items: seq<Json>, rest: Text, depth: nat)
    requires depth >= 1 && forall i | 0 <= i < |items| :: Exact(items[i])
    ensures ParseValue(Emit(Arr(items), rest), depth)
         == if Depth(Arr(items)) < depth then Some((Arr(items), rest)) else None
    decreases items, 2
  {
    if items == [] {
      EmptyContainers(rest, depth);
    } else {
      if depth > 1 {
        ItemsRoundTrip(items, rest, depth - 1);
      }
      ArrayStep(items, rest, depth);
    }
  }

  lemma {:induction false} ObjectRoundTrip(fields: seq<Field>, rest: Text, depth: nat)
    requires depth >= 1 && forall i | 0 <= i < |fields| :: Exact(fields[i].value)
    ensures ParseValue(Emit(Obj(fields), rest), depth)
         == if Depth(Obj(fields)) < depth then Some((Obj(fields), rest)) else None
    decreases fields, 2
  {
    if fields == [] {
      EmptyContainers(rest, depth);
    } else {
      if depth > 1 {
        FieldsRoundTrip(fields, rest, depth - 1);
      }
      ObjectStep(fields, rest, depth);
    }
  }

  lemma ItemsFirstByte(items: seq<Json>, rest: Text)
    requires items != [] && Exact(items[0])
    ensures EmitItems(items, rest) != []
    ensures EmitItems(items, rest)[0] !in {32, 9, 10, 13, 93}
  {
    FirstByte(items[0], if |items| == 1 then [93] + rest else [44] + EmitItems(items[1..], rest));
  }

  lemma {:induction false} ItemsRoundTrip(items: seq<Json>, rest: Text, depth: nat)
    requires items != [] && depth >= 1
    requires forall i | 0 <= i < |items| :: Exact(items[i])
    ensures ParseItems(EmitItems(items, rest), depth)
         == if ItemsDepth(items) < depth then Some((items, rest)) else None
    decreases items, 1
  {
    var tail := if |items| == 1 then [93] + rest else [44] + EmitItems(items[1..], rest);
    ValueRoundTrip(items[0], tail, depth);
    if |items| == 1 {
      assert tail[1..] == rest;
      assert items == [items[0]] && ItemsDepth(items[1..]) == 0;
    } else {
      assert tail[1..] == EmitItems(items[1..], rest);
      ItemsRoundTrip(items[1..], rest, depth);
      assert [items[0]] + items[1..] == items;
    }
  }

  /** A printed key is read up to its colon, leaving the value's text. */
  lemma KeyStep(key: Text, body: Text)
    ensures var s: Text := [34] + EmitChars(key, [58] + body);
            SkipWs(s) == s && ParseChars(s[1..]) == Some((key, [58] + body))
            && ([58] + body)[1..] == body
  {
    CharsRoundTrip(key, [58] + body);
    var s: Text := [34] + EmitChars(key, [58] + body);
    assert s[1..] == EmitChars(key, [58] + body);
  }

  /** How a field is parsed whose key has been printed and whose value, from `body` on,
      leaves `after` unread. */
  lemma FieldStep(key: Text, body: Text, v: Json, after: Text, depth: nat)
    requires ParseValue(body, depth) == Some((v, after))
    requires after != [] && after[0] in {44, 125}
    ensures ParseFields([34] + EmitChars(key, [58] + body), depth)
         == if after[0] == 125 then Some(([Field(key, v)], after[1..]))
            else
              match ParseFields(after[1..], depth)
              case None => None
              case Some((fs, t)) => Some(([Field(key, v)] + fs, t))
  {
    KeyStep(key, body);
  }

  lemma FieldFails(key: Text, body: Text, depth: nat)
    requires ParseValue(body, depth) == None
    ensures ParseFields([34] + EmitChars(key, [58] + body), depth) == None
  {
    KeyStep(key, body);
  }

  lemma LastField(f: Field, rest: Text, depth: nat)
    requires ParseValue(Emit(f.value, [125] + rest), depth)
          == if Depth(f.value) < depth then Some((f.value, [125] + rest)) else None
    ensures ParseFields(EmitFields([f], rest), depth)
         == if Depth(f.value) < depth then Some(([f], rest)) else None
  {
    var body := Emit(f.value, [125] + rest);
    if Depth(f.value) < depth {
      FieldStep(f.key, body, f.value, [125] + rest, depth);
      assert ([125] + rest)[1..] == rest;
    } else {
      FieldFails(f.key, body, depth);
    }
  }

  lemma NextField(f: Field, more: seq<Field>, rest: Text, depth: nat)
    requires more != []
    requires var tail := [44] + EmitFields(more, rest);
             ParseValue(Emit(f.value, tail), depth)
             == if Depth(f.value) < depth then Some((f.value, tail)) else None
    ensures ParseFields(EmitFields([f] + more, rest), depth)
         == if Depth(f.value) < depth then
              match ParseFields(EmitFields(more, rest), depth)
              case None => None
              case Some((fs, t)) => Some(([f] + fs, t))
            else None
  {
    var tail := [44] + EmitFields(more, rest);
    assert ([f] + more)[1..] == more && tail[1..] == EmitFields(more, rest);
    if Depth(f.value) < depth {
      FieldStep(f.key, Emit(f.value, tail), f.value, tail, depth);
    } else {
      FieldFails(f.key, Emit(f.value, tail), depth);
    }
  }

  lemma {:induction false} FieldsRoundTrip(fields: seq<Field>, rest: Text, depth: nat)
    requires fields != [] && depth >= 1
    requires forall i | 0 <= i < |fields| :: Exact(fields[i].value)
    ensures ParseFields(EmitFields(fields, rest), depth)
         == if FieldsDepth(fields) < depth then Some((fields, rest)) else None
    decreases fields, 1
  {
    var f, more := fields[0], fields[1..];
    assert fields == [f] + more;
    if more == [] {
      ValueRoundTrip(f.value, [125] + rest, depth);
      LastField(f, rest, depth);
      assert fields == [f] && FieldsDepth(more) == 0;
    } else {
      ValueRoundTrip(f.value, [44] + EmitFields(more, rest), depth);
      FieldsRoundTrip(more, rest, depth);
      NextField(f, more, rest, depth);
    }
  }

  /** A printed document parses back to the value it was printed from exactly when it
      nests at most 127 containers; deeper ones are rejected, never misread. */
  lemma ParsePrint(v: Json)
    requires Exact(v)
    ensures Parse(Print(v)) == Some(v) <==> Depth(v) < MAX_DEPTH
    ensures Parse(Print(v)) == None <==> Depth(v) >= MAX_DEPTH
  {
    ValueRoundTrip(v, [], MAX_DEPTH);
  }

  // ---- texts that others print ----

  /** White space in front of a document changes nothing. */
  lemma {:induction false} SpaceIgnored(space: Text, s: Text)
    requires forall b | b in space :: b in {32, 9, 10, 13}
    ensures SkipWs(space + s) == SkipWs(s)
  {
    if space == [] {
      assert space + s == s;
    } else {
      assert space[0] in space && forall b | b in space[1..] :: b in space;
      assert (space + s)[0] == space[0] && (space + s)[1..] == space[1..] + s;
      SpaceIgnored(space[1..], s);
    }
  }

  lemma LeadingSpace(space: Text, s: Text)
    requires forall b | b in space :: b in {32, 9, 10, 13}
    ensures Parse(space + s) == Parse(s)
  {
    SpaceIgnored(space, s);
  }

  /** The two-character escapes of section 7 of RFC 8259. */
  lemma ShortEscapes(tail: Text)
    ensures ParseEscape([34] + tail) == Some(([34], tail))
    ensures ParseEscape([92] + tail) == Some(([92], tail))
    ensures ParseEscape([47] + tail) == Some(([47], tail))
    ensures ParseEscape([98] + tail) == Some(([8], tail))
    ensures ParseEscape([102] + tail) == Some(([12], tail))
    ensures ParseEscape([110] + tail) == Some(([10], tail))
    ensures ParseEscape([114] + tail) == Some(([13], tail))
    ensures ParseEscape([116] + tail) == Some(([9], tail))
  {
    forall b: byte ensures ([b] + tail)[1..] == tail {}
  }

  /** A number below 2 to the 16 in four hex digits. */
  function FourHex(u: nat): Text
    requires u < 0x10000
  {
    [HexDigit(u / 4096), HexDigit(u / 256 % 16), HexDigit(u / 16 % 16), HexDigit(u % 16)]
  }

  lemma HexRead(u: nat, tail: Text)
    requires u < 0x10000
    ensures Hex4(FourHex(u) + tail) == Some(u) && (FourHex(u) + tail)[4..] == tail
  {
    var s := FourHex(u) + tail;
    assert HexValue(s[0]) == Some(u / 4096) && HexValue(s[1]) == Some(u / 256 % 16);
    assert HexValue(s[2]) == Some(u / 16 % 16) && HexValue(s[3]) == Some(u % 16);
    HexDigits(u);
  }

  lemma HexDigits(u: nat)
    requires u < 0x10000
    ensures u == u / 4096 * 4096 + u / 256 % 16 * 256 + u / 16 % 16 * 16 + u % 16
  {
    assert u / 16 / 16 == u / 256 && u / 256 / 16 == u / 4096;
  }

  /** An escaped code unit is the UTF-8 text of its character; half a surrogate pair is none. */
  lemma UnitRead(u: nat, tail: Text)
    requires u < 0x10000
    ensures !(0xD800 <= u < 0xE000) ==> ParseUnicode(FourHex(u) + tail) == Some((Utf8(u), tail))
    ensures 0xDC00 <= u < 0xE000 ==> ParseUnicode(FourHex(u) + tail) == None
  {
    HexRead(u, tail);
  }

  lemma UnitsRead(hi: nat, lo: nat, tail: Text)
    requires 0xD800 <= hi < 0xDC00 && 0xDC00 <= lo < 0xE000
    ensures ParseUnicode(FourHex(hi) + ([92, 117] + (FourHex(lo) + tail)))
         == Some((Utf8(0x10000 + (hi - 0xD800) * 1024 + (lo - 0xDC00)), tail))
  {
    var rest := [92, 117] + (FourHex(lo) + tail);
    var s := FourHex(hi) + rest;
    HexRead(hi, rest);
    HexRead(lo, tail);
    assert s[6..] == s[4..][2..] && rest[2..] == FourHex(lo) + tail;
    assert s[4] == rest[0] && s[5] == rest[1] && s[10..] == s[6..][4..];
  }

  /** An escaped surrogate pair is the UTF-8 text of the character it encodes. */
  lemma PairRead(cp: nat, tail: Text)
    requires 0x10000 <= cp < 0x110000
    ensures var hi, lo := 0xD800 + (cp - 0x10000) / 1024, 0xDC00 + (cp - 0x10000) % 1024;
            ParseUnicode(FourHex(hi) + ([92, 117] + (FourHex(lo) + tail))) == Some((Utf8(cp), tail))
  {
    UnitsRead(0xD800 + (cp - 0x10000) / 1024, 0xDC00 + (cp - 0x10000) % 1024, tail);
  }
}
