/**
 * The process-wide `State` object of scripts.js together with its `watchman`
 * methods.
 *
 * `values` is `State._values`, `listeners` is `State._listeners`.  The
 * accessor that `Object.defineProperty` installs on `State` for a name is
 * recorded by putting the name into `instrumented`; the uniform `Get` and `Set`
 * methods play the part of reading and assigning `State[name]`.  A name that
 * has no accessor yet is an ordinary data field of `State`: writes to it are
 * kept in `plain`, and installing the accessor replaces that field.
 *
 * For one name the state moves from uninstrumented (not in `instrumented`) to
 * instrumented with a list (in `listeners`) and, by a clear-all, to
 * instrumented without a list; a new subscription gives it a list again.
 */
module Watchman {
  import opened Wrappers
  import opened ListenerList

  /** The TypeError raised when the setter calls `forEach` on a deleted list. */
  datatype SetError = ListenersUndefined

  class State<V, L(==)> {
    /** `State._values`: the value behind each installed accessor. */
    var values: map<string, V>
    /** `State._listeners`: the ordered listener list of each name. */
    var listeners: map<string, seq<L>>
    /** The names on which a get/set accessor has been installed. */
    var instrumented: set<string>
    /** Ordinary data fields of `State`, written before an accessor existed. */
    var plain: map<string, V>

    /**
     * Lists and stored values exist only for names with an accessor, and a
     * name with an accessor is no longer an ordinary data field.
     */
    ghost predicate Valid()
      reads this
    {
      && listeners.Keys <= instrumented
      && values.Keys <= instrumented
      && plain.Keys !! instrumented
    }

    /** The object literal at the top of scripts.js: nothing stored, nothing watched. */
    constructor ()
      ensures Valid()
      ensures values == map[] && listeners == map[]
      ensures instrumented == {} && plain == map[]
    {
      values := map[];
      listeners := map[];
      instrumented := {};
      plain := map[];
    }

    /**
     * `watchman.addEventListener(name, l)`.  When `name` has no list, a new
     * empty list is created and the accessor is (re)installed, which discards
     * an ordinary data field of that name; then `l` is appended.
     */
    method AddEventListener(name: string, l: L)
      requires Valid()
      modifies this
      ensures Valid()
      ensures name in old(listeners) ==>
                listeners == old(listeners)[name := old(listeners[name]) + [l]]
      ensures name !in old(listeners) ==> listeners == old(listeners)[name := [l]]
      ensures instrumented == old(instrumented) + {name}
      ensures plain == old(plain) - {name}
      ensures values == old(values)
    {
      if name !in listeners {
        listeners := listeners[name := []];
        instrumented := instrumented + {name};
        plain := plain - {name};
        assert [] + [l] == [l];
      }
      listeners := listeners[name := listeners[name] + [l]];
    }

    /**
     * `watchman.removeEventListener(name, l)`, where `None` stands for a call
     * without a listener.  Nothing happens when `name` has no list; a given
     * listener is filtered out of the list; no listener deletes the list but
     * leaves the accessor in place.
     */
    method RemoveEventListener(name: string, l: Option<L>)
      requires Valid()
      modifies this
      ensures Valid()
      ensures name !in old(listeners) ==> listeners == old(listeners)
      ensures name in old(listeners) && l.Some? ==>
                listeners == old(listeners)[name := Without(old(listeners[name]), l.value)]
      ensures name in old(listeners) && l.None? ==> listeners == old(listeners) - {name}
      ensures instrumented == old(instrumented)
      ensures plain == old(plain)
      ensures values == old(values)
    {
      if name !in listeners {
        return;
      }
      if l.Some? {
        listeners := listeners[name := Without(listeners[name], l.value)];
      } else {
        listeners := listeners - {name};
      }
    }

    /**
     * Reading `State[name]`: the installed getter returns `_values[name]`; a
     * name without an accessor reads its ordinary data field.  `None` is
     * `undefined`.
     */
    method Get(name: string) returns (r: Option<V>)
      requires Valid()
      ensures name in instrumented ==> (r.Some? <==> name in values)
      ensures name in instrumented && r.Some? ==> r.value == values[name]
      ensures name !in instrumented ==> (r.Some? <==> name in plain)
      ensures name !in instrumented && r.Some? ==> r.value == plain[name]
    {
      if name in instrumented {
        r := if name in values then Some(values[name]) else None;
      } else {
        r := if name in plain then Some(plain[name]) else None;
      }
    }

    /**
     * Assigning `State[name] = v`.  Without an accessor this writes the
     * ordinary data field and notifies nobody.  With one, the setter stores
     * `v` in `_values` and then calls every listener on the list, in order;
     * when the list was deleted by a clear-all, the store has already
     * happened and the call on the missing list fails.
     */
    method Set(name: string, v: V) returns (r: Result<seq<Call<L, V>>, SetError>)
      requires Valid()
      modifies this
      ensures Valid()
      ensures name !in instrumented ==>
                plain == old(plain)[name := v] && values == old(values) && r == Ok([])
      ensures name in instrumented ==> values == old(values)[name := v] && plain == old(plain)
      ensures name in instrumented && name in listeners ==>
                r.Ok? && Delivers(r.value, listeners[name], v)
      ensures name in instrumented && name !in listeners ==> r == Err(ListenersUndefined)
      ensures listeners == old(listeners) && instrumented == old(instrumented)
    {
      if name !in instrumented {
        plain := plain[name := v];
        return Ok([]);
      }
      values := values[name := v];
      if name !in listeners {
        return Err(ListenersUndefined);
      }
      var calls := Notify(listeners[name], v);
      r := Ok(calls);
    }

    /**
     * The write the design describes: like `Set`, except that an
     * instrumented name whose list was deleted notifies nobody instead of
     * failing.
     */
    method SetIntended(name: string, v: V) returns (calls: seq<Call<L, V>>)
      requires Valid()
      modifies this
      ensures Valid()
      ensures name !in instrumented ==>
                plain == old(plain)[name := v] && values == old(values) && calls == []
      ensures name in instrumented ==> values == old(values)[name := v] && plain == old(plain)
      ensures name in instrumented && name in listeners ==> Delivers(calls, listeners[name], v)
      ensures name in instrumented && name !in listeners ==> calls == []
      ensures listeners == old(listeners) && instrumented == old(instrumented)
    {
      if name !in instrumented {
        plain := plain[name := v];
        return [];
      }
      values := values[name := v];
      if name !in listeners {
        return [];
      }
      calls := Notify(listeners[name], v);
    }

    /**
     * Subscription that keeps a value written before the first subscription:
     * like `AddEventListener`, except that installing the accessor moves the
     * ordinary data field into the stored values instead of discarding it.
     */
    method AddEventListenerIntended(name: string, l: L)
      requires Valid()
      modifies this
      ensures Valid()
      ensures name in old(listeners) ==>
                listeners == old(listeners)[name := old(listeners[name]) + [l]]
      ensures name !in old(listeners) ==> listeners == old(listeners)[name := [l]]
      ensures instrumented == old(instrumented) + {name}
      ensures plain == old(plain) - {name}
      ensures name in old(plain) ==> values == old(values)[name := old(plain[name])]
      ensures name !in old(plain) ==> values == old(values)
    {
      if name !in listeners {
        if name in plain {
          values := values[name := plain[name]];
        }
        listeners := listeners[name := []];
        instrumented := instrumented + {name};
        plain := plain - {name};
        assert [] + [l] == [l];
      }
      listeners := listeners[name := listeners[name] + [l]];
    }
  }
}
