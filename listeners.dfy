/** Listener lists shared by the client store and the theme manager: a
    callback is known by its identity, `subscribe` appends it, the function
    it returns filters it out, and a notification calls every listener in
    order with the same value. */
module Listeners {
  /** A callback, compared by identity as `!==` compares functions. */
  type Callback = nat

  /** One call made by a notification. */
  datatype Call<T> = Call(callback: Callback, argument: T)

  /** `listeners.filter(cb => cb !== callback)`. */
  function Without(ls: seq<Callback>, cb: Callback): (r: seq<Callback>)
    ensures |r| <= |ls|
  {
    if ls == [] then [] else (if ls[0] == cb then [] else [ls[0]]) + Without(ls[1..], cb)
  }

  /** Filtering removes every occurrence of the callback and keeps every
      other listener. */
  lemma {:induction false} WithoutMembers(ls: seq<Callback>, cb: Callback)
    ensures forall x :: x in Without(ls, cb) <==> x in ls && x != cb
  {
    if ls != [] {
      WithoutMembers(ls[1..], cb);
      assert ls == [ls[0]] + ls[1..];
    }
  }

  /** Filtering works piece by piece, so the remaining listeners keep their
      order. */
  lemma {:induction false} WithoutAppend(a: seq<Callback>, b: seq<Callback>, cb: Callback)
    ensures Without(a + b, cb) == Without(a, cb) + Without(b, cb)
  {
    if a == [] {
      assert a + b == b;
    } else {
      assert (a + b)[1..] == a[1..] + b;
      WithoutAppend(a[1..], b, cb);
    }
  }

  /** Filtering out a callback that is not subscribed changes nothing. */
  lemma {:induction false} WithoutAbsent(ls: seq<Callback>, cb: Callback)
    requires cb !in ls
    ensures Without(ls, cb) == ls
  {
    if ls != [] {
      WithoutAbsent(ls[1..], cb);
    }
  }

  /** Subscribing a new callback and calling the returned function gives back
      the original list; subscribing one already present and unsubscribing
      removes all its occurrences. */
  lemma SubscribeThenUnsubscribe(ls: seq<Callback>, cb: Callback)
    ensures Without(ls + [cb], cb) == Without(ls, cb)
    ensures cb !in ls ==> Without(ls + [cb], cb) == ls
  {
    WithoutAppend(ls, [cb], cb);
    assert Without([cb], cb) == [];
    if cb !in ls {
      WithoutAbsent(ls, cb);
    }
  }

  /** The calls a notification makes: each listener once, in order, with
      the same value. */
  function Calls<T>(ls: seq<Callback>, value: T): (r: seq<Call<T>>)
    ensures |r| == |ls|
    ensures forall i :: 0 <= i < |r| ==> r[i] == Call(ls[i], value)
  {
    if ls == [] then [] else [Call(ls[0], value)] + Calls(ls[1..], value)
  }

  /** `listeners.forEach(callback => callback(value))`. */
  method Notify<T>(ls: seq<Callback>, value: T) returns (calls: seq<Call<T>>)
    ensures calls == Calls(ls, value)
  {
    calls := [];
    for i := 0 to |ls|
      invariant |calls| == i
      invariant forall k :: 0 <= k < i ==> calls[k] == Call(ls[k], value)
    {
      calls := calls + [Call(ls[i], value)];
    }
  }
}
