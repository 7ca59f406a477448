/**
 * Sequences of operations on a fresh `State`, with what each step observes:
 * the demonstration at the end of scripts.js, and the behaviours of the
 * watchman around removal, clear-all and writes made before a subscription.
 */
module Scenarios {
  import opened Wrappers
  import opened ListenerList
  import opened Watchman

  /**
   * The demonstration: listener1 and listener2 subscribe to "user"; writing
   * "Alice" notifies both in that order; after listener1 is removed, writing
   * "Bob" notifies listener2 alone; after all listeners of "user" are
   * removed, reading "user" gives "Bob".
   */
  method DemoTrace() returns (alice: Result<seq<Call<string, string>>, SetError>,
                              bob: Result<seq<Call<string, string>>, SetError>,
                              user: Option<string>)
    ensures alice == Ok([Call("listener1", "Alice"), Call("listener2", "Alice")])
    ensures bob == Ok([Call("listener2", "Bob")])
    ensures user == Some("Bob")
  {
    var s := new State<string, string>();
    s.AddEventListener("user", "listener1");
    s.AddEventListener("user", "listener2");
    alice := s.Set("user", "Alice");
    assert alice.value == [Call("listener1", "Alice"), Call("listener2", "Alice")];
    s.RemoveEventListener("user", Some("listener1"));
    assert s.listeners["user"] == ["listener2"];
    bob := s.Set("user", "Bob");
    assert bob.value == [Call("listener2", "Bob")];
    s.RemoveEventListener("user", None);
    user := s.Get("user");
  }

  /**
   * Subscriptions append in order without de-duplication, and a write
   * notifies the listeners in subscription order.
   */
  method SubscriptionOrderScenario<V, L(==)>(name: string, a: L, b: L, v: V)
    returns (list: seq<L>, calls: Result<seq<Call<L, V>>, SetError>)
    ensures list == [a, b, a]
    ensures calls == Ok([Call(a, v), Call(b, v), Call(a, v)])
  {
    var s := new State<V, L>();
    s.AddEventListener(name, a);
    s.AddEventListener(name, b);
    s.AddEventListener(name, a);
    list := s.listeners[name];
    calls := s.Set(name, v);
    assert calls.value == [Call(a, v), Call(b, v), Call(a, v)];
  }

  /**
   * Removing `l` from `[a, l, b, l]` leaves `[a, b]`; removing it a second
   * time changes nothing; a write then notifies `a` and `b` only.
   */
  method TargetedRemovalScenario<V, L(==)>(name: string, a: L, l: L, b: L, v: V)
    returns (after: seq<L>, again: seq<L>, calls: Result<seq<Call<L, V>>, SetError>)
    requires a != l && b != l
    ensures after == [a, b]
    ensures again == [a, b]
    ensures calls == Ok([Call(a, v), Call(b, v)])
  {
    var s := new State<V, L>();
    s.AddEventListener(name, a);
    s.AddEventListener(name, l);
    s.AddEventListener(name, b);
    s.AddEventListener(name, l);
    assert s.listeners[name] == [a] + [l] + [b] + [l];
    WithoutConcat([a] + [l] + [b], [l], l);
    WithoutConcat([a] + [l], [b], l);
    WithoutConcat([a], [l], l);
    s.RemoveEventListener(name, Some(l));
    after := s.listeners[name];
    s.RemoveEventListener(name, Some(l));
    WithoutAbsent(after, l);
    again := s.listeners[name];
    calls := s.Set(name, v);
    assert calls.value == [Call(a, v), Call(b, v)];
  }

  /**
   * Removing the only listener leaves an empty list in place, so a later
   * write stores the value and notifies nobody without failing.
   */
  method EmptiedListScenario<V, L(==)>(name: string, l: L, v: V)
    returns (list: seq<L>, calls: Result<seq<Call<L, V>>, SetError>, read: Option<V>)
    ensures list == []
    ensures calls == Ok([])
    ensures read == Some(v)
  {
    var s := new State<V, L>();
    s.AddEventListener(name, l);
    s.RemoveEventListener(name, Some(l));
    list := s.listeners[name];
    calls := s.Set(name, v);
    read := s.Get(name);
  }

  /**
   * Removal on a name nobody subscribed to changes nothing, whether or not a
   * listener is given.
   */
  method UnknownNameRemovalScenario<V, L(==)>(name: string, other: string, l: L)
    returns (before: map<string, seq<L>>, after: map<string, seq<L>>)
    requires name != other
    ensures before == map[other := [l]]
    ensures after == before
  {
    var s := new State<V, L>();
    s.AddEventListener(other, l);
    before := s.listeners;
    s.RemoveEventListener(name, Some(l));
    s.RemoveEventListener(name, None);
    after := s.listeners;
  }

  /**
   * Clear-all keeps the accessor: a later write stores `w` and then fails
   * on the deleted list; reading still gives `w`; a new subscription starts
   * a fresh list holding only itself and is notified of later writes.
   */
  method ClearAllScenario<V, L(==)>(name: string, l: L, m: L, v: V, w: V, x: V)
    returns (first: Result<seq<Call<L, V>>, SetError>,
             cleared: Result<seq<Call<L, V>>, SetError>,
             read: Option<V>,
             renewed: seq<L>,
             resumed: Result<seq<Call<L, V>>, SetError>)
    ensures first == Ok([Call(l, v)])
    ensures cleared == Err(ListenersUndefined)
    ensures read == Some(w)
    ensures renewed == [m]
    ensures resumed == Ok([Call(m, x)])
  {
    var s := new State<V, L>();
    s.AddEventListener(name, l);
    first := s.Set(name, v);
    assert first.value == [Call(l, v)];
    s.RemoveEventListener(name, None);
    cleared := s.Set(name, w);
    read := s.Get(name);
    s.AddEventListener(name, m);
    renewed := s.listeners[name];
    resumed := s.Set(name, x);
    assert resumed.value == [Call(m, x)];
  }

  /**
   * The same sequence with the intended write: after clear-all, writing `w`
   * notifies nobody and reading gives `w`.
   */
  method ClearAllIntendedScenario<V, L(==)>(name: string, l: L, w: V)
    returns (cleared: seq<Call<L, V>>, read: Option<V>)
    ensures cleared == []
    ensures read == Some(w)
  {
    var s := new State<V, L>();
    s.AddEventListener(name, l);
    s.RemoveEventListener(name, None);
    cleared := s.SetIntended(name, w);
    read := s.Get(name);
  }

  /**
   * A write before the first subscription is plain storage: it notifies
   * nobody and can be read back, but once a listener subscribes the getter
   * reads only the stored values, and the earlier write is gone.
   */
  method EarlyWriteScenario<V, L(==)>(name: string, l: L, v: V)
    returns (early: Result<seq<Call<L, V>>, SetError>, before: Option<V>, after: Option<V>)
    ensures early == Ok([])
    ensures before == Some(v)
    ensures after == None
  {
    var s := new State<V, L>();
    early := s.Set(name, v);
    before := s.Get(name);
    s.AddEventListener(name, l);
    after := s.Get(name);
  }

  /**
   * The same sequence with the intended subscription: the value written
   * before the first subscription is still read afterwards.
   */
  method EarlyWriteIntendedScenario<V, L(==)>(name: string, l: L, v: V)
    returns (after: Option<V>)
    ensures after == Some(v)
  {
    var s := new State<V, L>();
    var early := s.SetIntended(name, v);
    s.AddEventListenerIntended(name, l);
    after := s.Get(name);
  }
}
