// src/job.rs: the Redis keys a queue expands to, and the task envelope that
// carries the enqueue timestamp. Also the queue names of src/main.rs.
module Job {
  import opened Wrappers
  import opened Bytes
  import Base64
  import opened Json

  type u8 = x: int | 0 <= x < 256

  const PRIORITY_STEPS: seq<u8> := [0, 3, 6, 9]

  /** ACK and SYN, kombu's separator. */
  const PRIORITY_SEP: Text := [6, 22]

  // ---- priority steps ----

  /** The position of the greatest step that is at most n. */
  function StepIndex(n: u8): (k: nat)
    ensures k < 4 && PRIORITY_STEPS[k] <= n
    ensures forall j | k < j < 4 :: n < PRIORITY_STEPS[j]
  {
    if n < 3 then 0 else if n < 6 then 1 else if n < 9 then 2 else 3
  }

  /** The flooring loop: it stops at the first step above n. */
  method PriorityStep(n: u8) returns (result: u8)
    ensures result in PRIORITY_STEPS && result <= n
    ensures forall step | step in PRIORITY_STEPS && step <= n :: step <= result
    ensures result == PRIORITY_STEPS[StepIndex(n)]
  {
    result := PRIORITY_STEPS[0];
    var k := 0;
    while k < |PRIORITY_STEPS|
      invariant 0 <= k <= 4
      invariant k == 0 ==> result == PRIORITY_STEPS[0]
      invariant k > 0 ==> result == PRIORITY_STEPS[k - 1] && result <= n
    {
      var step := PRIORITY_STEPS[k];
      if step <= n {
        result := step;
      } else {
        break;
      }
      k := k + 1;
    }
  }

  // ---- keys ----

  /** What is appended to a queue name at step k. */
  function Suffix(k: nat): Text
    requires k < 4
  {
    if PRIORITY_STEPS[k] != 0 then PRIORITY_SEP + Decimal(PRIORITY_STEPS[k]) else []
  }

  function QForPri(queue: Text, priority: u8): Text {
    queue + Suffix(StepIndex(priority))
  }

  /** The key text: the queue's own name below priority 3, and from there on the separator
      and the digit of the floored step after it. */
  lemma KeyExactly(queue: Text, priority: u8)
    ensures QForPri(queue, priority)
         == queue + if priority < 3 then []
                    else if priority < 6 then [6, 22, 51]
                    else if priority < 9 then [6, 22, 54]
                    else [6, 22, 57]
  {
    assert Decimal(3) == [51] && Decimal(6) == [54] && Decimal(9) == [57];
  }

  /** One key for each queue, all at step k. */
  function StepRow(queues: seq<Text>, k: nat): (row: seq<Text>)
    requires k < 4
    ensures |row| == |queues|
    ensures forall j | 0 <= j < |row| :: row[j] == QForPri(queues[j], PRIORITY_STEPS[k])
  {
    seq(|queues|, j requires 0 <= j < |queues| => QForPri(queues[j], PRIORITY_STEPS[k]))
  }

  /** The rows of the steps from k on: priority is the outer loop, queue the inner. */
  function KeyRows(queues: seq<Text>, k: nat): seq<Text>
    requires k <= 4
    decreases 4 - k
  {
    if k == 4 then [] else StepRow(queues, k) + KeyRows(queues, k + 1)
  }

  function BrpopKeys(queues: seq<Text>): seq<Text> { KeyRows(queues, 0) }

  function MakeQueueNames(base: Text, n: nat): seq<Text> {
    if n <= 1 then [base] else seq(n, i requires 0 <= i < n => base + [95] + Decimal(i))
  }

  ghost predicate Distinct<T>(s: seq<T>) {
    forall i, j | 0 <= i < j < |s| :: s[i] != s[j]
  }

  lemma FourRows(queues: seq<Text>)
    ensures BrpopKeys(queues)
         == StepRow(queues, 0) + StepRow(queues, 1) + StepRow(queues, 2) + StepRow(queues, 3)
  {
    assert KeyRows(queues, 4) == [];
    LastRow(StepRow(queues, 3));
    assert KeyRows(queues, 2) == StepRow(queues, 2) + KeyRows(queues, 3);
    assert KeyRows(queues, 1) == StepRow(queues, 1) + KeyRows(queues, 2);
    JoinFour(StepRow(queues, 0), StepRow(queues, 1), StepRow(queues, 2), StepRow(queues, 3));
  }

  lemma LastRow(row: seq<Text>)
    ensures row + [] == row
  {}

  lemma JoinFour(a: seq<Text>, b: seq<Text>, c: seq<Text>, d: seq<Text>)
    ensures a + (b + (c + d)) == a + b + c + d
  {}

  /** The polled list has four keys a queue; position m * |queues| + j is queue j at step m. */
  lemma KeyPosition(queues: seq<Text>, m: nat, j: nat)
    requires m < 4 && j < |queues|
    ensures |BrpopKeys(queues)| == 4 * |queues|
    ensures 0 <= m * |queues| + j < |BrpopKeys(queues)|
    ensures BrpopKeys(queues)[m * |queues| + j] == QForPri(queues[j], PRIORITY_STEPS[m])
  {
    FourRows(queues);
    match m
    case 0 =>
    case 1 =>
    case 2 =>
    case 3 =>
  }

  /** Flooring a priority does not change the key, so every key a producer can derive
      is one that workers poll and that the cleanup deletes, at a known position. */
  lemma NoStrandedJob(queues: seq<Text>, j: nat, priority: u8)
    requires j < |queues|
    ensures var at := StepIndex(priority) * |queues| + j;
            0 <= at < |BrpopKeys(queues)| && BrpopKeys(queues)[at] == QForPri(queues[j], priority)
  {
    var m := StepIndex(priority);
    KeyPosition(queues, m, j);
    assert StepIndex(PRIORITY_STEPS[m]) == m;
  }

  // ---- distinct keys ----

  /** What a generated key holds after the base name: index j of n queues at step k. */
  function Tail(n: nat, j: nat, k: nat): Text
    requires k < 4
  {
    (if n <= 1 then [] else [95] + Decimal(j)) + Suffix(k)
  }

  lemma SuffixShape(k: nat)
    requires k < 4
    ensures k == 0 ==> Suffix(k) == []
    ensures k > 0 ==> Suffix(k) == [6, 22, 48 + PRIORITY_STEPS[k]]
  {}

  lemma TailInjective(n: nat, j1: nat, k1: nat, j2: nat, k2: nat)
    requires k1 < 4 && k2 < 4
    requires n <= 1 ==> j1 == j2
    requires Tail(n, j1, k1) == Tail(n, j2, k2)
    ensures j1 == j2 && k1 == k2
  {
    SuffixShape(k1);
    SuffixShape(k2);
    var t := Tail(n, j1, k1);
    if n > 1 {
      DecimalShape(j1);
      DecimalShape(j2);
      NumberedTail(j1, k1);
      NumberedTail(j2, k2);
      assert k1 == k2;
      var cut := |t| - |Suffix(k1)|;
      assert t[..cut][1..] == Decimal(j1);
      assert t[..cut][1..] == Decimal(j2);
      DecimalInjective(j1, j2);
    } else {
      assert t == Suffix(k1) && t == Suffix(k2);
      assert k1 > 0 && k2 > 0 ==> t[2] == 48 + PRIORITY_STEPS[k1] && t[2] == 48 + PRIORITY_STEPS[k2];
    }
  }

  /** The separator byte stands second to last exactly in the tails of steps above 0. */
  lemma NumberedTail(j: nat, k: nat)
    requires k < 4
    ensures var t := [95] + Decimal(j) + Suffix(k);
            |t| >= 2 && (t[|t| - 2] == 22 <==> k > 0)
            && (k > 0 ==> t[|t| - 1] == 48 + PRIORITY_STEPS[k])
  {
    SuffixShape(k);
    DecimalShape(j);
    var d := Decimal(j);
    var t := [95] + d + Suffix(k);
    if k == 0 {
      assert t == [95] + d;
      assert t[|t| - 2] == 95 || t[|t| - 2] == d[|d| - 2];
      if |d| >= 2 {
        assert d[|d| - 2] in d;
      }
    }
  }

  lemma KeyIsBaseAndTail(base: Text, n: nat, j: nat, k: nat)
    requires k < 4 && j < |MakeQueueNames(base, n)|
    ensures QForPri(MakeQueueNames(base, n)[j], PRIORITY_STEPS[k]) == base + Tail(n, j, k)
  {
    assert StepIndex(PRIORITY_STEPS[k]) == k;
    if n <= 1 {
      assert base + ([] + Suffix(k)) == base + Suffix(k);
    } else {
      assert base + [95] + Decimal(j) + Suffix(k) == base + ([95] + Decimal(j) + Suffix(k));
    }
  }

  lemma KeysDiffer(base: Text, n: nat, k1: nat, j1: nat, k2: nat, j2: nat)
    requires k1 < 4 && k2 < 4 && (k1 != k2 || j1 != j2)
    requires j1 < |MakeQueueNames(base, n)| && j2 < |MakeQueueNames(base, n)|
    ensures QForPri(MakeQueueNames(base, n)[j1], PRIORITY_STEPS[k1])
         != QForPri(MakeQueueNames(base, n)[j2], PRIORITY_STEPS[k2])
  {
    KeyIsBaseAndTail(base, n, j1, k1);
    KeyIsBaseAndTail(base, n, j2, k2);
    var t1, t2 := Tail(n, j1, k1), Tail(n, j2, k2);
    if base + t1 == base + t2 {
      assert (base + t1)[|base|..] == t1 && (base + t2)[|base|..] == t2;
      TailInjective(n, j1, k1, j2, k2);
    }
  }

  lemma PositionsDiffer(base: Text, n: nat, a: nat, b: nat)
    requires a < b < |BrpopKeys(MakeQueueNames(base, n))|
    ensures BrpopKeys(MakeQueueNames(base, n))[a] != BrpopKeys(MakeQueueNames(base, n))[b]
  {
    var k1, j1 := KeyAt(MakeQueueNames(base, n), a);
    var k2, j2 := KeyAt(MakeQueueNames(base, n), b);
    KeysDiffer(base, n, k1, j1, k2, j2);
  }

  /** Which queue's key, at which step, stands at a position of the polled list. */
  lemma KeyAt(queues: seq<Text>, a: nat) returns (k: nat, j: nat)
    requires queues != [] && a < |BrpopKeys(queues)|
    ensures k < 4 && j < |queues| && a == k * |queues| + j
    ensures BrpopKeys(queues)[a] == QForPri(queues[j], PRIORITY_STEPS[k])
  {
    KeyPosition(queues, 0, 0);
    k, j := SplitPosition(a, |queues|);
    KeyPosition(queues, k, j);
  }

  /** For every base name, even one holding the separator, all keys differ. */
  lemma KeysDistinct(base: Text, n: nat)
    ensures Distinct(BrpopKeys(MakeQueueNames(base, n)))
    ensures |BrpopKeys(MakeQueueNames(base, n))| == 4 * (if n <= 1 then 1 else n)
  {
    KeyPosition(MakeQueueNames(base, n), 0, 0);
    var keys := BrpopKeys(MakeQueueNames(base, n));
    forall a, b | 0 <= a < b < |keys| ensures keys[a] != keys[b] {
      PositionsDiffer(base, n, a, b);
    }
  }

  lemma SplitPosition(a: nat, w: nat) returns (k: nat, j: nat)
    requires w > 0 && a < 4 * w
    ensures k < 4 && j < w && a == k * w + j
  {
    if a < w { k, j := 0, a; }
    else if a < 2 * w { k, j := 1, a - w; }
    else if a < 3 * w { k, j := 2, a - 2 * w; }
    else { k, j := 3, a - 3 * w; }
  }

  // ---- the envelope ----

  /** The fields this tool reads back or derives from its inputs; the remaining
      header fields are constants, UUIDs or the process id. */
  datatype Envelope = Envelope(body: Text, routingKey: Text, priority: u8)

  /** What a list element can be: an envelope's JSON, or bytes that are not one. */
  datatype Payload = Message(envelope: Envelope) | Malformed(bytes: Text)

  const MARKER: Text := Ascii("enqueued_at_ns")

  /** The inner body: args, kwargs and embed, object keys in the sorted order in
      which serde_json's map keeps them. */
  function InnerBody(nowNs: nat, idx: nat): Json {
    Arr([
      Arr([]),
      Obj([Field(MARKER, Num(nowNs)), Field(Ascii("idx"), Num(idx))]),
      Obj([Field(Ascii("callbacks"), Null), Field(Ascii("chain"), Null),
           Field(Ascii("chord"), Null), Field(Ascii("errbacks"), Null)])
    ])
  }

  function NewEnvelope(queue: Text, priority: u8, idx: nat, nowNs: nat): Envelope {
    Envelope(Base64.Encode(Print(InnerBody(nowNs, idx))), queue, priority)
  }

  function EnqueuedAtNs(e: Envelope): Option<nat> {
    var decoded :- Base64.Decode(e.body);
    var inner :- Parse(decoded);
    var items :- AsArray(inner);
    var kwargs :- Index(items, 1);
    var value :- Get(kwargs, MARKER);
    AsU64(value)
  }

  /** The marker a worker finds in a list element, if any. */
  function Marker(p: Payload): Option<nat> {
    if p.Message? then EnqueuedAtNs(p.envelope) else None
  }

  lemma {:induction false} PlainChars(s: Text, rest: Text)
    requires forall b | b in s :: b >= 32 && b != 34 && b != 92
    ensures EmitChars(s, rest) == s + [34] + rest
  {
    if s != [] {
      assert s[0] in s && forall b | b in s[1..] :: b in s;
      PlainChars(s[1..], rest);
      assert [s[0]] + (s[1..] + [34] + rest) == s + [34] + rest;
    }
  }

  /** A key in quotes, and its colon. */
  function KeyText(key: Text): Text { [34] + key + [34, 58] }

  lemma EmitsKey(key: Text, tail: Text)
    requires forall b | b in key :: b >= 32 && b != 34 && b != 92
    ensures [34] + EmitChars(key, [58] + tail) == KeyText(key) + tail
  {
    PlainChars(key, [58] + tail);
    assert [34] + (key + [34] + ([58] + tail)) == KeyText(key) + tail;
  }

  lemma EmitsLast(key: Text, n: nat, rest: Text)
    requires forall b | b in key :: b >= 32 && b != 34 && b != 92
    ensures EmitFields([Field(key, Num(n))], rest) == KeyText(key) + Decimal(n) + [125] + rest
  {
    EmitsKey(key, EmitDecimal(n, [125] + rest));
    EmitSplits(n, [125] + rest);
    assert KeyText(key) + (Decimal(n) + ([125] + rest)) == KeyText(key) + Decimal(n) + [125] + rest;
  }

  /** The kwargs object as text: {"enqueued_at_ns":N,"idx":I}, in front of `rest`. */
  lemma KwargsText(nowNs: nat, idx: nat, rest: Text)
    ensures Emit(Obj([Field(MARKER, Num(nowNs)), Field(Ascii("idx"), Num(idx))]), rest)
         == [123] + KeyText(MARKER) + Decimal(nowNs) + [44]
            + (KeyText(Ascii("idx")) + Decimal(idx) + [125] + rest)
  {
    var f, g := Field(MARKER, Num(nowNs)), Field(Ascii("idx"), Num(idx));
    EmitsLast(Ascii("idx"), idx, rest);
    var tail := [44] + EmitFields([g], rest);
    EmitsKey(MARKER, EmitDecimal(nowNs, tail));
    EmitSplits(nowNs, tail);
    assert [f, g][1..] == [g];
    assert EmitFields([f, g], rest) == KeyText(MARKER) + (Decimal(nowNs) + tail);
    Flat(KeyText(MARKER), Decimal(nowNs), EmitFields([g], rest));
  }

  lemma Flat(key: Text, digits: Text, more: Text)
    ensures [123] + (key + (digits + ([44] + more))) == [123] + key + digits + [44] + more
  {}

  lemma EmitsNull(key: Text, more: Text)
    requires forall b | b in key :: b >= 32 && b != 34 && b != 92
    ensures [34] + EmitChars(key, [58] + Emit(Null, more)) == KeyText(key) + Ascii("null") + more
  {
    EmitsKey(key, Emit(Null, more));
    assert KeyText(key) + (Ascii("null") + more) == KeyText(key) + Ascii("null") + more;
  }

  /** A field with the value null, in front of what follows it. */
  function NullField(key: Text, more: Text): Text { KeyText(key) + Ascii("null") + more }

  lemma EmitsNullField(f: Field, fields: seq<Field>, rest: Text)
    requires f.value == Null && forall b | b in f.key :: b >= 32 && b != 34 && b != 92
    ensures EmitFields([f] + fields, rest)
         == NullField(f.key, if fields == [] then [125] + rest else [44] + EmitFields(fields, rest))
  {
    assert ([f] + fields)[1..] == fields;
    EmitsNull(f.key, if fields == [] then [125] + rest else [44] + EmitFields(fields, rest));
  }

  /** The embed object as text: four nulls, their names in sorted order. */
  function EmbedText(rest: Text): Text {
    [123] + NullField(Ascii("callbacks"), [44] + NullField(Ascii("chain"),
      [44] + NullField(Ascii("chord"), [44] + NullField(Ascii("errbacks"), [125] + rest))))
  }

  function Embed(): Json {
    Obj([Field(Ascii("callbacks"), Null), Field(Ascii("chain"), Null),
         Field(Ascii("chord"), Null), Field(Ascii("errbacks"), Null)])
  }

  lemma EmbedPrints(rest: Text)
    ensures Emit(Embed(), rest) == EmbedText(rest)
  {
    var a, b := Field(Ascii("callbacks"), Null), Field(Ascii("chain"), Null);
    var c, d := Field(Ascii("chord"), Null), Field(Ascii("errbacks"), Null);
    EmitsNullField(d, [], rest);
    assert [d] + [] == [d];
    EmitsNullField(c, [d], rest);
    assert [c] + [d] == [c, d];
    EmitsNullField(b, [c, d], rest);
    assert [b] + [c, d] == [b, c, d];
    EmitsNullField(a, [b, c, d], rest);
    assert [a] + [b, c, d] == [a, b, c, d];
  }

  function KwargsJson(nowNs: nat, idx: nat): Json {
    Obj([Field(MARKER, Num(nowNs)), Field(Ascii("idx"), Num(idx))])
  }

  lemma ThreeItems(a: Json, b: Json, c: Json)
    ensures Print(Arr([a, b, c])) == [91] + Emit(a, [44] + Emit(b, [44] + Emit(c, [93])))
  {
    assert [a, b, c][1..] == [b, c] && [b, c][1..] == [c];
    assert [93] + [] == [93];
    assert EmitItems([c], []) == Emit(c, [93]);
    assert EmitItems([b, c], []) == Emit(b, [44] + EmitItems([c], []));
    assert EmitItems([a, b, c], []) == Emit(a, [44] + EmitItems([b, c], []));
  }

  /** The whole body as text: [[],{"enqueued_at_ns":N,"idx":I},{"callbacks":null,...}]. */
  lemma BodyText(nowNs: nat, idx: nat)
    ensures Print(InnerBody(nowNs, idx))
         == [91, 91, 93, 44, 123] + KeyText(MARKER) + Decimal(nowNs) + [44]
            + (KeyText(Ascii("idx")) + Decimal(idx) + [125] + ([44] + EmbedText([93])))
  {
    ThreeItems(Arr([]), KwargsJson(nowNs, idx), Embed());
    EmbedPrints([93]);
    var rest := [44] + EmbedText([93]);
    KwargsText(nowNs, idx, rest);
    Opening(KeyText(MARKER), Decimal(nowNs),
            KeyText(Ascii("idx")) + Decimal(idx) + [125] + rest);
  }

  lemma Opening(key: Text, digits: Text, more: Text)
    ensures [91] + ([91, 93] + ([44] + ([123] + key + digits + [44] + more)))
         == [91, 91, 93, 44, 123] + key + digits + [44] + more
  {
    var x, tail := [123] + key + digits + [44] + more, digits + [44] + more;
    assert [91] + ([91, 93] + ([44] + x)) == [91, 91, 93, 44] + x;
    assert x == [123] + (key + tail);
    assert [91, 91, 93, 44] + ([123] + (key + tail)) == [91, 91, 93, 44, 123] + (key + tail);
    assert [91, 91, 93, 44, 123] + (key + tail) == [91, 91, 93, 44, 123] + key + digits + [44] + more;
  }

  lemma InnerBodyParses(nowNs: nat, idx: nat)
    requires nowNs < U64_LIMIT && idx < U64_LIMIT
    ensures Parse(Print(InnerBody(nowNs, idx))) == Some(InnerBody(nowNs, idx))
  {
    var v := InnerBody(nowNs, idx);
    InnerDepth(nowNs, idx);
    ParsePrint(v);
    InnerBodyReads(nowNs, idx);
    ValueRoundTrip(v, [], MAX_DEPTH);
  }

  lemma InnerDepth(nowNs: nat, idx: nat)
    requires nowNs < U64_LIMIT && idx < U64_LIMIT
    ensures Exact(InnerBody(nowNs, idx)) && Depth(InnerBody(nowNs, idx)) < MAX_DEPTH
  {
    var items := InnerBody(nowNs, idx).items;
    assert Depth(items[0]) <= 1 by { ItemsAtMost([], 0); }
    FlatObject(items[1].fields);
    FlatObject(items[2].fields);
    ItemsAtMost(items, 1);
  }

  lemma FlatObject(fields: seq<Field>)
    requires forall i | 0 <= i < |fields| :: Depth(fields[i].value) == 0
    ensures Depth(Obj(fields)) == 1
  {
    FlatDepth(fields);
  }

  lemma ItemsAtMost(items: seq<Json>, d: nat)
    requires forall i | 0 <= i < |items| :: Depth(items[i]) <= d
    ensures ItemsDepth(items) <= d
  {}

  lemma FlatDepth(fields: seq<Field>)
    requires forall i | 0 <= i < |fields| :: Depth(fields[i].value) == 0
    ensures FieldsDepth(fields) == 0
  {}

  lemma InnerBodyReads(nowNs: nat, idx: nat)
    ensures Get(InnerBody(nowNs, idx).items[1], MARKER) == Some(Num(nowNs))
  {
    var fields := InnerBody(nowNs, idx).items[1].fields;
    assert |fields[1].key| == 3 && |MARKER| == 14;
    assert fields[..1][0] == fields[0];
    assert Lookup(fields, MARKER) == Lookup(fields[..1], MARKER);
  }

  /** The timestamp put into an envelope is the one a worker reads out of it, for
      every queue, priority, index and instant. */
  lemma MarkerRoundTrip(queue: Text, priority: u8, idx: nat, nowNs: nat)
    requires nowNs < U64_LIMIT && idx < U64_LIMIT
    ensures EnqueuedAtNs(NewEnvelope(queue, priority, idx, nowNs)) == Some(nowNs)
  {
    Base64.DecodeEncode(Print(InnerBody(nowNs, idx)));
    InnerBodyParses(nowNs, idx);
    InnerBodyReads(nowNs, idx);
  }

  // ---- what a worker makes of any list element ----

  /** The last field of that name. */
  predicate IsLast(fields: seq<Field>, key: Text, k: nat) {
    k < |fields| && fields[k].key == key && forall j | k < j < |fields| :: fields[j].key != key
  }

  lemma {:induction false} LookupExactly(fields: seq<Field>, key: Text, v: Json)
    ensures Lookup(fields, key) == Some(v)
       <==> exists k: nat :: IsLast(fields, key, k) && fields[k].value == v
  {
    if fields != [] {
      var n := |fields| - 1;
      LookupExactly(fields[..n], key, v);
      if fields[n].key == key {
        assert IsLast(fields, key, n);
      } else {
        forall k: nat ensures IsLast(fields, key, k) <==> IsLast(fields[..n], key, k) {
          assert k < n ==> fields[..n][k] == fields[k];
        }
      }
    }
  }

  /** `v` is an object whose last field named enqueued_at_ns is the number t. */
  ghost predicate HasMarker(v: Json, t: nat) {
    v.Obj? && exists k: nat :: IsLast(v.fields, MARKER, k) && v.fields[k].value == Num(t)
  }

  /** `text` is a JSON array whose second element has the marker. */
  ghost predicate Carries(text: Text, t: nat) {
    var v := Parse(text);
    v.Some? && v.value.Arr? && |v.value.items| > 1 && HasMarker(v.value.items[1], t)
  }

  lemma GetExactly(v: Json, t: nat)
    ensures Get(v, MARKER) == Some(Num(t)) <==> HasMarker(v, t)
  {
    if v.Obj? {
      LookupExactly(v.fields, MARKER, Num(t));
    }
  }

  lemma CarriesExactly(e: Envelope, text: Text, t: nat)
    requires Base64.Decode(e.body) == Some(text)
    ensures EnqueuedAtNs(e) == Some(t) <==> Carries(text, t)
  {
    var v := Parse(text);
    if v.Some? && v.value.Arr? && |v.value.items| > 1 {
      GetExactly(v.value.items[1], t);
    }
  }

  /** A list element is an envelope whose body is the base64 of a text that carries t. */
  ghost predicate BodyCarries(p: Payload, text: Text, t: nat) {
    p.Message? && p.envelope.body == Base64.Encode(text) && Carries(text, t)
  }

  /** A worker reads the timestamp t out of a list element exactly when it has a body that
      carries t. */
  lemma MarkerExactly(p: Payload, t: nat)
    ensures Marker(p) == Some(t) <==> exists text :: BodyCarries(p, text, t)
  {
    if Marker(p) == Some(t) {
      var body := p.envelope.body;
      var text := Base64.Decode(body).value;
      Base64.EncodeDecode(body);
      CarriesExactly(p.envelope, text, t);
      assert BodyCarries(p, text, t);
    }
    forall text | BodyCarries(p, text, t) ensures Marker(p) == Some(t) {
      Base64.DecodeEncode(text);
      CarriesExactly(p.envelope, text, t);
    }
  }

  /** Bytes that are no envelope have no marker, nor has an envelope whose body is not
      base64, not JSON or without the field; and nothing else is without one. */
  lemma NoMarkerExactly(p: Payload)
    ensures p.Malformed? ==> Marker(p) == None
    ensures Marker(p) == None <==> forall text, t: nat :: !BodyCarries(p, text, t)
  {
    forall text, t: nat | BodyCarries(p, text, t) ensures Marker(p) != None {
      MarkerExactly(p, t);
    }
    if Marker(p).Some? {
      MarkerExactly(p, Marker(p).value);
    }
  }

  // ---- what the producer writes ----

  /** An envelope is addressed to its queue, carries the priority as it was asked for, not
      floored, and holds in base64 exactly this text. */
  lemma EnvelopeExactly(queue: Text, priority: u8, idx: nat, nowNs: nat)
    ensures var e := NewEnvelope(queue, priority, idx, nowNs);
            && e.routingKey == queue && e.priority == priority
            && Base64.Decode(e.body)
               == Some([91, 91, 93, 44, 123] + KeyText(MARKER) + Decimal(nowNs) + [44]
                       + (KeyText(Ascii("idx")) + Decimal(idx) + [125] + ([44] + EmbedText([93]))))
  {
    BodyText(nowNs, idx);
    Base64.DecodeEncode(Print(InnerBody(nowNs, idx)));
  }

  /** Envelopes with equal bodies were built for the same job at the same instant. */
  lemma BodyInjective(q1: Text, p1: u8, i: nat, t1: nat, q2: Text, p2: u8, j: nat, t2: nat)
    requires i < U64_LIMIT && t1 < U64_LIMIT && j < U64_LIMIT && t2 < U64_LIMIT
    requires NewEnvelope(q1, p1, i, t1).body == NewEnvelope(q2, p2, j, t2).body
    ensures i == j && t1 == t2
  {
    Base64.DecodeEncode(Print(InnerBody(t1, i)));
    Base64.DecodeEncode(Print(InnerBody(t2, j)));
    InnerBodyParses(t1, i);
    InnerBodyParses(t2, j);
    InnerBodyDiffers(t1, i, t2, j);
  }

  lemma InnerBodyDiffers(t1: nat, i: nat, t2: nat, j: nat)
    requires InnerBody(t1, i) == InnerBody(t2, j)
    ensures i == j && t1 == t2
  {
    var f, g := InnerBody(t1, i).items[1].fields, InnerBody(t2, j).items[1].fields;
    assert f[0] == Field(MARKER, Num(t1)) && g[0] == Field(MARKER, Num(t2));
    assert f[1].value == Num(i) && g[1].value == Num(j);
  }
}
