// The part of Redis the benchmark relies on: lists under keys, LPUSH, DEL,
// FLUSHDB and the multi-key BRPOP. A key never holds an empty list.
module Broker {
  import opened Wrappers
  import opened Bytes
  import opened Job

  /** Each list is written as Redis numbers it, from its left end. */
  type Store = map<Text, seq<Payload>>

  function At(store: Store, key: Text): seq<Payload> {
    if key in store then store[key] else []
  }

  function LPush(store: Store, key: Text, value: Payload): Store {
    store[key := [value] + At(store, key)]
  }

  lemma AtAfterPush(store: Store, target: Text, value: Payload, key: Text)
    ensures At(LPush(store, target, value), key)
         == if target == key then [value] + At(store, key) else At(store, key)
    ensures target != key ==> (key in LPush(store, target, value) <==> key in store)
  {}

  /** Remove the right end of a list, and the key with its last element. */
  function RPop(store: Store, key: Text): Store
    requires At(store, key) != []
  {
    var list := store[key];
    if |list| == 1 then store - {key} else store[key := list[..|list| - 1]]
  }

  function Delete(store: Store, keys: seq<Text>): Store {
    store - (set k | k in keys)
  }

  lemma DeleteOneMore(store: Store, keys: seq<Text>, i: nat)
    requires i < |keys|
    ensures Delete(Delete(store, keys[..i]), [keys[i]]) == Delete(store, keys[..i + 1])
  {
    assert keys[..i + 1] == keys[..i] + [keys[i]];
  }

  /** The position of the first key that holds something, or |keys|. */
  function FirstReady(store: Store, keys: seq<Text>): (i: nat)
    ensures i <= |keys|
    ensures forall j | 0 <= j < i :: At(store, keys[j]) == []
    ensures i < |keys| ==> At(store, keys[i]) != []
  {
    if keys == [] || At(store, keys[0]) != [] then 0 else 1 + FirstReady(store, keys[1..])
  }

  predicate Ready(store: Store, keys: seq<Text>) { FirstReady(store, keys) < |keys| }

  /** What BRPOP on `keys` returns, and the store it leaves. */
  function Popped(store: Store, keys: seq<Text>): Payload
    requires Ready(store, keys)
  {
    var list := At(store, keys[FirstReady(store, keys)]);
    list[|list| - 1]
  }

  function AfterPop(store: Store, keys: seq<Text>): Store
    requires Ready(store, keys)
  {
    RPop(store, keys[FirstReady(store, keys)])
  }

  function Reverse<T>(s: seq<T>): (r: seq<T>)
    ensures |r| == |s|
  {
    if s == [] then [] else [s[|s| - 1]] + Reverse(s[..|s| - 1])
  }

  /** Everything the keys hold, in the order in which repeated pops would return it. */
  function Drain(store: Store, keys: seq<Text>): seq<Payload> {
    if keys == [] then [] else Reverse(At(store, keys[0])) + Drain(store, keys[1..])
  }

  lemma {:induction false} DrainFrame(store: Store, other: Store, keys: seq<Text>)
    requires forall k | k in keys :: At(store, k) == At(other, k)
    ensures Drain(store, keys) == Drain(other, keys)
  {
    if keys != [] {
      assert keys[0] in keys;
      assert forall k | k in keys[1..] :: k in keys;
      DrainFrame(store, other, keys[1..]);
    }
  }

  lemma FirstKeyReady(store: Store, keys: seq<Text>)
    requires Distinct(keys) && keys != [] && At(store, keys[0]) != []
    ensures Drain(store, keys) == [Popped(store, keys)] + Drain(AfterPop(store, keys), keys)
  {
    var list, tail, next := store[keys[0]], keys[1..], AfterPop(store, keys);
    assert forall k | k in tail :: k != keys[0];
    DrainFrame(store, next, tail);
    assert At(next, keys[0]) == list[..|list| - 1];
    assert Reverse(list) == [Popped(store, keys)] + Reverse(At(next, keys[0]));
    assert Drain(store, keys) == Reverse(list) + Drain(store, tail);
    assert Drain(next, keys) == Reverse(At(next, keys[0])) + Drain(next, tail);
  }

  lemma FirstKeyIdle(store: Store, keys: seq<Text>)
    requires Distinct(keys) && keys != [] && At(store, keys[0]) == []
    ensures Ready(store, keys) <==> Ready(store, keys[1..])
    ensures Drain(store, keys) == Drain(store, keys[1..])
    ensures Ready(store, keys) ==>
              Popped(store, keys) == Popped(store, keys[1..])
              && AfterPop(store, keys) == AfterPop(store, keys[1..])
              && Drain(AfterPop(store, keys), keys) == Drain(AfterPop(store, keys), keys[1..])
  {
    var tail := keys[1..];
    assert FirstReady(store, keys) == 1 + FirstReady(store, tail);
    if Ready(store, tail) {
      var key := tail[FirstReady(store, tail)];
      assert key == keys[1 + FirstReady(store, tail)] && key != keys[0];
      assert At(RPop(store, key), keys[0]) == [];
    }
  }

  /** A pop takes the head of what is left, whichever client issues it. */
  lemma {:induction false} PopTakesHead(store: Store, keys: seq<Text>)
    requires Distinct(keys)
    ensures Ready(store, keys) <==> Drain(store, keys) != []
    ensures Ready(store, keys) ==>
              Drain(store, keys) == [Popped(store, keys)] + Drain(AfterPop(store, keys), keys)
  {
    if keys != [] {
      if At(store, keys[0]) != [] {
        FirstKeyReady(store, keys);
      } else {
        FirstKeyIdle(store, keys);
        PopTakesHead(store, keys[1..]);
      }
    }
  }

  /** One command of a pipeline. */
  datatype Push = Push(key: Text, value: Payload)

  function PushAll(store: Store, pipe: seq<Push>): Store {
    if pipe == [] then store
    else
      var last := pipe[|pipe| - 1];
      LPush(PushAll(store, pipe[..|pipe| - 1]), last.key, last.value)
  }

  class Redis {
    var lists: Store

    ghost predicate Valid()
      reads this
    {
      forall k | k in lists :: lists[k] != []
    }

    constructor ()
      ensures Valid() && lists == map[]
    {
      lists := map[];
    }

    /** Run a pipeline of LPUSH commands in order. */
    method Execute(pipe: seq<Push>)
      requires Valid()
      modifies this
      ensures Valid() && lists == PushAll(old(lists), pipe)
    {
      for i := 0 to |pipe|
        invariant Valid() && lists == PushAll(old(lists), pipe[..i])
      {
        lists := LPush(lists, pipe[i].key, pipe[i].value);
        assert pipe[..i + 1][..i] == pipe[..i];
      }
      assert pipe[..|pipe|] == pipe;
    }

    method Del(key: Text)
      requires Valid()
      modifies this
      ensures Valid() && lists == Delete(old(lists), [key])
    {
      lists := lists - {key};
    }

    method FlushDb()
      modifies this
      ensures Valid() && lists == map[]
    {
      lists := map[];
    }

    /** The first non-empty key in argument order gives up its right end. */
    method BrPop(keys: seq<Text>) returns (reply: Option<Payload>)
      requires Valid()
      modifies this
      ensures Valid()
      ensures reply.Some? <==> old(Ready(lists, keys))
      ensures reply.Some? ==> reply.value == old(Popped(lists, keys)) && lists == old(AfterPop(lists, keys))
      ensures reply.None? ==> lists == old(lists)
    {
      var i := 0;
      while i < |keys|
        invariant 0 <= i <= |keys| && lists == old(lists)
        invariant forall j | 0 <= j < i :: At(lists, keys[j]) == []
      {
        if keys[i] in lists {
          var list := lists[keys[i]];
          ReadyAt(lists, keys, i);
          reply := Some(list[|list| - 1]);
          lists := RPop(lists, keys[i]);
          return;
        }
        i := i + 1;
      }
      reply := None;
    }
  }

  lemma ReadyAt(store: Store, keys: seq<Text>, i: nat)
    requires i < |keys| && At(store, keys[i]) != []
    requires forall j | 0 <= j < i :: At(store, keys[j]) == []
    ensures FirstReady(store, keys) == i
  {}
}
