// What a sequence of LPUSH commands leaves in the store, and the order in which
// multi-key pops take it out again, for any assignment of jobs to keys.
module Fill {
  import opened Bytes
  import opened Job
  import opened Broker

  /** Job i goes under key(i) as value(i). */
  datatype Source = Source(key: nat -> Text, value: nat -> Payload)

  /** The store after jobs 0..n have been pushed one at a time. */
  function Filled(store: Store, src: Source, n: nat): Store {
    if n == 0 then store
    else LPush(Filled(store, src, n - 1), src.key(n - 1), src.value(n - 1))
  }

  /** The jobs below n whose key is `key`, in increasing order. */
  function IndicesAt(src: Source, key: Text, n: nat): seq<nat> {
    if n == 0 then []
    else IndicesAt(src, key, n - 1) + (if src.key(n - 1) == key then [n - 1] else [])
  }

  function Jobs(src: Source, indices: seq<nat>): (r: seq<Payload>)
    ensures |r| == |indices|
    ensures forall k | 0 <= k < |r| :: r[k] == src.value(indices[k])
  {
    seq(|indices|, k requires 0 <= k < |indices| => src.value(indices[k]))
  }

  ghost predicate Increasing(s: seq<nat>) {
    forall a, b | 0 <= a < b < |s| :: s[a] < s[b]
  }

  /** The list of a key is exactly the jobs routed there, once each, in order. */
  lemma {:induction false} IndicesExact(src: Source, key: Text, n: nat)
    ensures Increasing(IndicesAt(src, key, n))
    ensures forall i: nat :: i in IndicesAt(src, key, n) <==> i < n && src.key(i) == key
  {
    if n > 0 {
      IndicesExact(src, key, n - 1);
      var before := IndicesAt(src, key, n - 1);
      assert forall a | 0 <= a < |before| :: before[a] in before;
    }
  }

  lemma ReverseSnoc<T>(s: seq<T>, x: T)
    ensures Reverse(s + [x]) == [x] + Reverse(s)
  {
    assert (s + [x])[..|s|] == s;
  }

  lemma {:induction false} ReverseCons<T>(x: T, s: seq<T>)
    ensures Reverse([x] + s) == Reverse(s) + [x]
  {
    if s != [] {
      var front, y := s[..|s| - 1], s[|s| - 1];
      ReverseCons(x, front);
      assert ([x] + s)[..|s|] == [x] + front;
      assert ([x] + s)[|s|] == y;
    }
  }

  lemma {:induction false} ReverseTwice<T>(s: seq<T>)
    ensures Reverse(Reverse(s)) == s
  {
    if s != [] {
      var front, x := s[..|s| - 1], s[|s| - 1];
      ReverseTwice(front);
      ReverseCons(x, Reverse(front));
      assert front + [x] == s;
    }
  }

  lemma JobsAppend(src: Source, a: seq<nat>, b: seq<nat>)
    ensures Jobs(src, a + b) == Jobs(src, a) + Jobs(src, b)
  {}

  /** The jobs of a key as its list shows them, the newest at the left end. */
  function ListOf(src: Source, key: Text, n: nat): seq<Payload> {
    Reverse(Jobs(src, IndicesAt(src, key, n)))
  }

  lemma ListOfNone(src: Source, key: Text)
    ensures ListOf(src, key, 0) == []
  {
    assert Jobs(src, []) == [];
  }

  lemma ListOfStep(src: Source, key: Text, i: nat)
    ensures ListOf(src, key, i + 1)
         == if src.key(i) == key then [src.value(i)] + ListOf(src, key, i) else ListOf(src, key, i)
  {
    var before := IndicesAt(src, key, i);
    if src.key(i) == key {
      JobsAppend(src, before, [i]);
      assert Jobs(src, [i]) == [src.value(i)];
      ReverseSnoc(Jobs(src, before), src.value(i));
    } else {
      assert before + [] == before;
    }
  }

  lemma PushedOnto(store: Store, target: Text, value: Payload, key: Text,
                   list: seq<Payload>, held: seq<Payload>)
    requires At(store, key) == list + held
    ensures At(LPush(store, target, value), key)
         == (if target == key then [value] + list else list) + held
  {
    AtAfterPush(store, target, value, key);
    assert [value] + (list + held) == ([value] + list) + held;
  }

  /** After a fill, each list holds its new jobs, newest leftmost, before what it held. */
  lemma {:induction false} FilledAt(store: Store, src: Source, key: Text, n: nat)
    ensures At(Filled(store, src, n), key) == ListOf(src, key, n) + At(store, key)
  {
    if n == 0 {
      ListOfNone(src, key);
    } else {
      FilledAt(store, src, key, n - 1);
      ListOfStep(src, key, n - 1);
      PushedOnto(Filled(store, src, n - 1), src.key(n - 1), src.value(n - 1), key,
                 ListOf(src, key, n - 1), At(store, key));
    }
  }

  /** A fill creates no key that it does not push to, and removes none. */
  lemma {:induction false} FilledElsewhere(store: Store, src: Source, key: Text, n: nat)
    requires forall i: nat :: src.key(i) != key
    ensures key in Filled(store, src, n) <==> key in store
    ensures At(Filled(store, src, n), key) == At(store, key)
  {
    if n > 0 {
      FilledElsewhere(store, src, key, n - 1);
      AtAfterPush(Filled(store, src, n - 1), src.key(n - 1), src.value(n - 1), key);
    }
  }

  /** The jobs below n, key by key. */
  function OrderOver(src: Source, keys: seq<Text>, n: nat): seq<nat> {
    if keys == [] then [] else IndicesAt(src, keys[0], n) + OrderOver(src, keys[1..], n)
  }

  lemma {:induction false} DrainOver(store: Store, src: Source, n: nat, keys: seq<Text>)
    requires forall k | k in keys :: Reverse(At(store, k)) == Jobs(src, IndicesAt(src, k, n))
    ensures Drain(store, keys) == Jobs(src, OrderOver(src, keys, n))
  {
    if keys != [] {
      assert keys[0] in keys;
      assert forall k | k in keys[1..] :: k in keys;
      DrainOver(store, src, n, keys[1..]);
      var a, b := IndicesAt(src, keys[0], n), OrderOver(src, keys[1..], n);
      JobsAppend(src, a, b);
    }
  }

  /** By position of the key first, then by index. */
  ghost predicate Before(position: nat -> nat, i: nat, j: nat) {
    position(i) < position(j) || (position(i) == position(j) && i < j)
  }

  ghost predicate Sorted(position: nat -> nat, s: seq<nat>) {
    forall a, b | 0 <= a < b < |s| :: Before(position, s[a], s[b])
  }

  ghost predicate Locates(src: Source, keys: seq<Text>, position: nat -> nat) {
    forall i: nat :: position(i) < |keys| && keys[position(i)] == src.key(i)
  }

  /** The order over keys[m..] lists the jobs positioned there, sorted. */
  lemma {:induction false} OrderMembers(
      src: Source, keys: seq<Text>, position: nat -> nat, m: nat, n: nat)
    requires Locates(src, keys, position) && Distinct(keys) && m <= |keys|
    ensures forall i: nat :: i in OrderOver(src, keys[m..], n) <==> i < n && m <= position(i)
    ensures Sorted(position, OrderOver(src, keys[m..], n))
    decreases |keys| - m
  {
    if m < |keys| {
      assert keys[m..][0] == keys[m] && keys[m..][1..] == keys[m + 1..];
      OrderMembers(src, keys, position, m + 1, n);
      IndicesExact(src, keys[m], n);
      var a, b := IndicesAt(src, keys[m], n), OrderOver(src, keys[m + 1..], n);
      forall i: nat ensures i in a <==> i < n && position(i) == m {
        assert keys[position(i)] == src.key(i);
      }
      AppendSorted(position, a, b, m);
    }
  }

  lemma AppendSorted(position: nat -> nat, a: seq<nat>, b: seq<nat>, m: nat)
    requires Increasing(a) && Sorted(position, b)
    requires forall i | i in a :: position(i) == m
    requires forall i | i in b :: m < position(i)
    ensures Sorted(position, a + b)
  {
    var s := a + b;
    forall x, y | 0 <= x < y < |s| ensures Before(position, s[x], s[y]) {
      if y < |a| {
        assert a[x] in a && a[y] in a;
      } else if x < |a| {
        assert a[x] in a && b[y - |a|] in b;
      }
    }
  }

  lemma {:induction false} OrderGrows(src: Source, keys: seq<Text>, n: nat)
    requires Distinct(keys)
    ensures |OrderOver(src, keys, n + 1)|
         == |OrderOver(src, keys, n)| + if src.key(n) in keys then 1 else 0
  {
    if keys != [] {
      OrderGrows(src, keys[1..], n);
      assert keys == [keys[0]] + keys[1..];
      assert keys[0] !in keys[1..];
    }
  }

  lemma {:induction false} OrderLength(
      src: Source, keys: seq<Text>, position: nat -> nat, n: nat)
    requires Locates(src, keys, position) && Distinct(keys)
    ensures |OrderOver(src, keys, n)| == n
  {
    if n == 0 {
      NoOrder(src, keys);
    } else {
      OrderLength(src, keys, position, n - 1);
      OrderGrows(src, keys, n - 1);
      assert keys[position(n - 1)] in keys;
    }
  }

  lemma NoOrder(src: Source, keys: seq<Text>)
    ensures OrderOver(src, keys, 0) == []
  {}
}
