// src/report.rs: thousands separators.
module ReportText {
  import opened Bytes
  import opened Broker

  const COMMA: byte := 44

  /** Commas after every third digit from the right. */
  function Grouped(s: Text): Text {
    if |s| <= 3 then s else Grouped(s[..|s| - 3]) + [COMMA] + s[|s| - 3..]
  }

  function WithoutCommas(s: Text): Text {
    if s == [] then []
    else WithoutCommas(s[..|s| - 1]) + if s[|s| - 1] == COMMA then [] else [s[|s| - 1]]
  }

  lemma GroupedUnfold(front: Text, back: Text)
    requires front != [] && |back| == 3
    ensures Grouped(front + back) == Grouped(front) + [COMMA] + back
  {
    var s := front + back;
    assert s[..|s| - 3] == front && s[|s| - 3..] == back;
  }

  lemma Regroup(a: Text, b: Text, back: Text)
    ensures (a + b) + [COMMA] + back == a + (b + [COMMA] + back)
  {}

  /** A digit put in front of a grouped text needs a comma when it starts a new group. */
  lemma {:induction false} GroupedCons(x: byte, s: Text)
    ensures Grouped([x] + s)
         == if s != [] && |s| % 3 == 0 then [x, COMMA] + Grouped(s) else [x] + Grouped(s)
  {
    if |s| > 3 {
      var front, back := s[..|s| - 3], s[|s| - 3..];
      assert s == front + back && [x] + s == ([x] + front) + back;
      GroupedCons(x, front);
      GroupedUnfold(front, back);
      GroupedUnfold([x] + front, back);
      Regroup([x], Grouped(front), back);
      Regroup([x, COMMA], Grouped(front), back);
    } else if |s| == 3 {
      GroupedUnfold([x], s);
    }
  }

  lemma {:induction false} StripConcat(a: Text, b: Text)
    ensures WithoutCommas(a + b) == WithoutCommas(a) + WithoutCommas(b)
  {
    if b == [] {
      assert a + b == a;
    } else {
      var front, last := b[..|b| - 1], b[|b| - 1];
      StripConcat(a, front);
      assert (a + b)[..|a + b| - 1] == a + front && (a + b)[|a + b| - 1] == last;
    }
  }

  predicate Plain(s: Text) { forall b | b in s :: b != COMMA }

  lemma PlainParts(s: Text, cut: nat)
    requires Plain(s) && cut <= |s|
    ensures Plain(s[..cut]) && Plain(s[cut..])
  {
    assert forall b | b in s[..cut] :: b in s;
    assert forall b | b in s[cut..] :: b in s;
  }

  lemma {:induction false} StripPlain(s: Text)
    requires Plain(s)
    ensures WithoutCommas(s) == s
  {
    if s != [] {
      var front := s[..|s| - 1];
      PlainParts(s, |s| - 1);
      assert s[|s| - 1] in s;
      StripPlain(front);
      assert front + [s[|s| - 1]] == s;
    }
  }

  lemma StripGroup(front: Text, back: Text)
    requires Plain(back)
    ensures WithoutCommas(front + [COMMA] + back) == WithoutCommas(front) + back
  {
    StripPlain(back);
    StripConcat(front + [COMMA], back);
    assert (front + [COMMA])[..|front|] == front;
  }

  /** Grouping only inserts commas. */
  lemma {:induction false} GroupedStrips(s: Text)
    requires Plain(s)
    ensures WithoutCommas(Grouped(s)) == s
  {
    if |s| <= 3 {
      StripPlain(s);
    } else {
      var front, back := s[..|s| - 3], s[|s| - 3..];
      PlainParts(s, |s| - 3);
      GroupedStrips(front);
      StripGroup(Grouped(front), back);
      assert front + back == s;
    }
  }

  lemma FromTheRight(front: Text, back: Text, j: nat)
    requires |back| == 3 && j < |front| + 4
    ensures var t := front + [COMMA] + back;
            t[|t| - 1 - j] == if j < 3 then back[2 - j] else if j == 3 then COMMA
                              else front[|front| - 1 - (j - 4)]
  {}

  /** Every fourth character from the right is a comma, and no other is. */
  lemma {:induction false} CommaPlaces(s: Text, j: nat)
    requires Plain(s) && j < |Grouped(s)|
    ensures Grouped(s)[|Grouped(s)| - 1 - j] == COMMA <==> j % 4 == 3
  {
    if |s| <= 3 {
      assert s[|s| - 1 - j] in s;
    } else {
      var front, back := s[..|s| - 3], s[|s| - 3..];
      PlainParts(s, |s| - 3);
      FromTheRight(Grouped(front), back, j);
      if j < 3 {
        assert back[2 - j] in back;
      } else if j > 3 {
        CommaPlaces(front, j - 4);
      }
    }
  }

  lemma AllCommaPlaces(s: Text)
    requires Plain(s)
    ensures var r := Grouped(s);
            forall j | 0 <= j < |r| :: r[|r| - 1 - j] == COMMA <==> j % 4 == 3
  {
    forall j | 0 <= j < |Grouped(s)|
      ensures Grouped(s)[|Grouped(s)| - 1 - j] == COMMA <==> j % 4 == 3
    {
      CommaPlaces(s, j);
    }
  }

  lemma {:induction false} ReverseTwo(s: Text, x: byte, y: byte)
    ensures Reverse(s + [x]) == [x] + Reverse(s)
    ensures Reverse(s + [x] + [y]) == [y, x] + Reverse(s)
  {
    assert (s + [x])[..|s|] == s;
    assert (s + [x] + [y])[..|s| + 1] == s + [x];
  }

  /** A digit, with a comma before it when a group is full, pushed onto the reversed text. */
  lemma PushDigit(backwards: Text, tail: Text, c: byte)
    requires Reverse(backwards) == Grouped(tail)
    ensures Reverse(if tail != [] && |tail| % 3 == 0 then backwards + [COMMA] + [c]
                    else backwards + [c])
         == Grouped([c] + tail)
  {
    GroupedCons(c, tail);
    ReverseTwo(backwards, COMMA, c);
    ReverseTwo(backwards, c, c);
  }

  /** The loop runs over the digits from the right and builds the text backwards. */
  method FormatN(n: nat) returns (result: Text)
    ensures result == Grouped(Decimal(n))
    ensures WithoutCommas(result) == Decimal(n)
    ensures forall j | 0 <= j < |result| :: result[|result| - 1 - j] == COMMA <==> j % 4 == 3
  {
    var s := Decimal(n);
    var backwards: Text := [];
    var i := 0;
    while i < |s|
      invariant 0 <= i <= |s|
      invariant Reverse(backwards) == Grouped(s[|s| - i..])
    {
      var c := s[|s| - 1 - i];
      ghost var tail := s[|s| - i..];
      assert s[|s| - (i + 1)..] == [c] + tail;
      PushDigit(backwards, tail, c);
      if i > 0 && i % 3 == 0 {
        backwards := backwards + [COMMA];
      }
      backwards := backwards + [c];
      i := i + 1;
    }
    assert s[0..] == s;
    DecimalShape(n);
    GroupedStrips(s);
    assert Plain(s);
    result := Reverse(backwards);
    AllCommaPlaces(s);
  }
}
