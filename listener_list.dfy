/**
 * The per-name listener list of the watchman state (scripts.js): an ordered
 * sequence of listener identities, the filter that removes one listener from
 * it, and the forEach that notifies every listener on it.
 *
 * Listeners are callbacks in the source; here they are opaque identities of a
 * type `L` compared by equality, as `fn !== listener` compares them.  Calling a
 * listener is recorded as a `Call` of that listener with the written value.
 */
module ListenerList {

  /** One invocation `listener(value)` made while a property is written. */
  datatype Call<L, V> = Call(listener: L, value: V)

  /** `calls` invokes exactly the listeners of `list`, in list order, each with `v`. */
  ghost predicate Delivers<L, V>(calls: seq<Call<L, V>>, list: seq<L>, v: V)
  {
    && |calls| == |list|
    && forall i :: 0 <= i < |list| ==> calls[i] == Call(list[i], v)
  }

  /** The invocations of a notification, listed recursively: one call per listener, in list order. */
  function Broadcast<L, V>(list: seq<L>, v: V): (r: seq<Call<L, V>>)
    ensures |r| == |list|
  {
    if list == [] then [] else [Call(list[0], v)] + Broadcast(list[1..], v)
  }

  /**
   * The element-wise description of a notification and the recursive one
   * agree: `calls` delivers `v` to `list` exactly when it is the broadcast.
   */
  lemma {:induction false} DeliversIsBroadcast<L, V>(calls: seq<Call<L, V>>, list: seq<L>, v: V)
    ensures Delivers(calls, list, v) <==> calls == Broadcast(list, v)
  {
    if list != [] && |calls| == |list| {
      DeliversIsBroadcast(calls[1..], list[1..], v);
      assert calls == [calls[0]] + calls[1..];
      assert Delivers(calls, list, v) <==>
             calls[0] == Call(list[0], v) && Delivers(calls[1..], list[1..], v)
      by {
        if calls[0] == Call(list[0], v) && Delivers(calls[1..], list[1..], v) {
          forall i | 0 <= i < |list| ensures calls[i] == Call(list[i], v) {
            if i > 0 {
              assert calls[i] == calls[1..][i - 1];
            }
          }
        }
      }
    }
  }

  /**
   * The list left after `list.filter(fn => fn !== l)`: every occurrence of `l`
   * is dropped, every other element is kept.
   */
  function Without<L(==)>(list: seq<L>, l: L): (r: seq<L>)
    ensures l !in r
    ensures forall x :: x in r ==> x in list
    ensures forall x :: x in list && x != l ==> x in r
    ensures |r| <= |list|
  {
    if list == [] then []
    else if list[0] == l then Without(list[1..], l)
    else [list[0]] + Without(list[1..], l)
  }

  /**
   * Removal keeps the relative order of the remaining listeners: filtering a
   * concatenation filters each part and concatenates the results.
   */
  lemma {:induction false} WithoutConcat<L>(a: seq<L>, b: seq<L>, l: L)
    ensures Without(a + b, l) == Without(a, l) + Without(b, l)
  {
    if a == [] {
      assert a + b == b;
    } else {
      assert (a + b)[0] == a[0];
      assert (a + b)[1..] == a[1..] + b;
      WithoutConcat(a[1..], b, l);
    }
  }

  /**
   * Removal deletes every occurrence of `l` and keeps every other listener as
   * often as it was subscribed.
   */
  lemma {:induction false} WithoutCounts<L>(list: seq<L>, l: L)
    ensures multiset(Without(list, l)) == multiset(list)[l := 0]
  {
    if list != [] {
      WithoutCounts(list[1..], l);
      assert list == [list[0]] + list[1..];
      assert multiset(list) == multiset{list[0]} + multiset(list[1..]);
    }
  }

  /** Removing a listener that is not subscribed leaves the list as it was. */
  lemma {:induction false} WithoutAbsent<L>(list: seq<L>, l: L)
    requires l !in list
    ensures Without(list, l) == list
  {
    if list != [] {
      assert list[0] != l;
      WithoutAbsent(list[1..], l);
      assert list == [list[0]] + list[1..];
    }
  }

  /**
   * The forEach of the setter: invokes each listener of `list` in order with
   * the new value `v`, and returns the invocations it made.  The list is
   * passed by value, so the notification walks the list as it was when the
   * write began.
   */
  method Notify<L, V>(list: seq<L>, v: V) returns (calls: seq<Call<L, V>>)
    ensures Delivers(calls, list, v)
  {
    calls := [];
    var i := 0;
    while i < |list|
      invariant 0 <= i <= |list|
      invariant |calls| == i
      invariant forall k :: 0 <= k < i ==> calls[k] == Call(list[k], v)
    {
      calls := calls + [Call(list[i], v)];
      i := i + 1;
    }
  }
}
