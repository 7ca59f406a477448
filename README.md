# State.Watchman in Dafny

State.Watchman is a process-wide observable property container. The JavaScript
object `State` keeps two dictionaries: `_values`, the current value of each
watched property, and `_listeners`, the ordered callbacks of each property.
`State.watchman.addEventListener(name, listener)` installs a get/set accessor
for `name` the first time the name has no listener list. It then appends the
listener. Assigning `State[name]` stores the value and calls every listener in
order with it. `State.watchman.removeEventListener(name, listener?)` filters one
listener out of the list, or deletes the whole list when no listener is given.

The model has four modules:

- `Wrappers` (wrappers.dfy): `Option` (`None` is JavaScript's `undefined`) and `Result`.
- `ListenerList` (listener_list.dfy): the listener list. `Without` is the
  `filter` that removes a listener. `Notify` is the `forEach` loop that calls
  the listeners. A listener is an opaque identity compared with `==`, and a
  call is recorded as a `Call(listener, value)`.
- `Watchman` (state.dfy): the class `State`. Its fields are:
  - `values` (`_values`);
  - `listeners` (`_listeners`);
  - `instrumented`, the names that carry an installed accessor;
  - `plain`, the ordinary data fields that a write creates on `State` before the name has an accessor.

  Its methods are `AddEventListener`, `RemoveEventListener`, `Get` (reading
  `State[name]`) and `Set` (assigning `State[name]`). `Set` returns the calls
  it made, or `Err(ListenersUndefined)` for the TypeError described below.
- `Scenarios` (scenarios.dfy): runs of these operations on a fresh `State`,
  including the demonstration at the end of scripts.js.

For each name the model follows a small state machine:

1. Uninstrumented: not in `instrumented`.
2. Instrumented with a list: in `listeners`.
3. Instrumented with the list deleted: reached by a removal without a listener.

A later subscription moves state 3 back to state 2. `instrumented` only ever grows.

The model follows the code in two places where the described design expects something else:

- **Writing after clear-all fails.** Removal without a listener deletes the
  list but keeps the accessor. A later write stores the value and then calls
  `forEach` on the missing list, which raises a TypeError. The design
  expects such a write to store the value and notify nobody. `Set` returns
  `Err(ListenersUndefined)` after storing. `SetIntended` is the write the
  design describes.
- **Writes before the first subscription are lost.** Before a name is
  subscribed, a write creates an ordinary field. Installing the accessor
  replaces that field. The getter then reads only `_values`, so the earlier
  value can no longer be read. `AddEventListenerIntended` carries that value over.

The demonstration in scripts.js makes no write after clear-all. It only
reads `user` there, and gets "Bob". `DemoTrace` states exactly that.

## Model

| member | source | states |
|---|---|---|
| `ListenerList.Without` | scripts.js:46 | no occurrence of the removed listener remains; every other listener of the list remains, and nothing new appears |
| `ListenerList.WithoutConcat` | scripts.js:46 | removal keeps the relative order of the remaining listeners: filtering `a + b` is filtering `a` followed by filtering `b` |
| `ListenerList.WithoutCounts` | scripts.js:46 | removal deletes every occurrence of the listener and keeps each other listener exactly as many times as it was subscribed |
| `ListenerList.WithoutAbsent` | scripts.js:46 | removing a listener that is not on the list leaves the list equal to before |
| `ListenerList.Notify` | scripts.js:30 | the forEach calls exactly the listeners of the list, one call each, in list order, each with the written value |
| `ListenerList.DeliversIsBroadcast` | scripts.js:30 | the element-wise description of a notification holds exactly when the calls equal the recursively built list of one call per listener |
| `Watchman.State.constructor` | scripts.js:7-11 | the container starts with no values, no lists, no accessors and no plain fields |
| `Watchman.State.AddEventListener` | scripts.js:14-39 | a name without a list gets the list `[l]` and an accessor, and its plain field is discarded; a name with a list gets `l` appended at the end without de-duplication; no other name's list or value changes; the invariant holds |
| `Watchman.State.RemoveEventListener` | scripts.js:41-51 | no list means no change; a given listener is filtered out of the name's list (see `Without`); no listener deletes the list entry but keeps the accessor; values are untouched |
| `Watchman.State.Get` | scripts.js:22-25 | on a name with an accessor it returns the stored value, or `undefined` if none is stored; on other names it returns the plain field; nothing changes |
| `Watchman.State.Set` | scripts.js:26-31 | without an accessor the write is a plain field and notifies nobody; with one, the value is stored, and then either exactly the current list is notified in order with the value, or, if the list was deleted, the write fails with the value already stored; lists are unchanged |
| `Watchman.State.SetIntended` | scripts.js:26-31 | as `Set`, but a name whose list was deleted stores the value and notifies nobody |
| `Watchman.State.AddEventListenerIntended` | scripts.js:14-39 | as `AddEventListener`, but installing the accessor moves a plain field's value into the stored values |
| `Scenarios.DemoTrace` | scripts.js:56-79 | after listener1 and listener2 subscribe to "user", writing "Alice" notifies `[listener1, listener2]`; after removing listener1, writing "Bob" notifies `[listener2]`; after clear-all, reading "user" gives "Bob" |
| `Scenarios.SubscriptionOrderScenario` | scripts.js:38 | subscribing a, b, a gives the list `[a, b, a]`, and a write notifies a, b, a in that order |
| `Scenarios.TargetedRemovalScenario` | scripts.js:44-46 | removing l from `[a, l, b, l]` leaves `[a, b]`, removing it again changes nothing, and a write notifies a then b |
| `Scenarios.EmptiedListScenario` | scripts.js:42-46 | removing the only listener leaves the empty list in place, so a later write notifies nobody, does not fail, and is readable |
| `Scenarios.UnknownNameRemovalScenario` | scripts.js:42 | removal on a name without a list, with or without a listener, leaves every list as it was |
| `Scenarios.ClearAllScenario` | scripts.js:16-30 | after clear-all, a write fails at the notification step but its value is read back; a new subscription starts a fresh list holding only itself and is notified of the next write |
| `Scenarios.ClearAllIntendedScenario` | scripts.js:26-31 | with the intended write, a write after clear-all notifies nobody and its value is read back |
| `Scenarios.EarlyWriteScenario` | scripts.js:21-25 | a write before the first subscription notifies nobody and can be read back, but after a subscription the name reads as `undefined` |
| `Scenarios.EarlyWriteIntendedScenario` | scripts.js:21-25 | with the intended subscription, a value written before the first subscription is still read afterwards |

## Findings

| source | as written | input that shows it | evidently intended | confidence | as-written member | corrected member |
|---|---|---|---|---|---|---|
| scripts.js:30 | after `removeEventListener(name)` deletes the list, the setter stores the value and then calls `forEach` on `undefined`, raising a TypeError | `addEventListener("p", l)`, `removeEventListener("p")`, `State.p = w` | the write stores `w` and notifies nobody, since the accessor stays installed | medium, not executed | `Scenarios.ClearAllScenario` | `Watchman.State.SetIntended`, proved in `Scenarios.ClearAllIntendedScenario` |
| scripts.js:21 | `Object.defineProperty` replaces an existing data field of the same name, so a value assigned before the first subscription is dropped | `State.p = v`, `addEventListener("p", l)`, then reading `State.p` gives `undefined` | the value assigned earlier remains readable | low, not executed | `Scenarios.EarlyWriteScenario` | `Watchman.State.AddEventListenerIntended`, proved in `Scenarios.EarlyWriteIntendedScenario` |

The main model (`Set`, `AddEventListener` and the demonstration) follows the
code as written. The corrected members are provided alongside it.

## Left out

- `console.log` output and the bodies of listener1 and listener2 (scripts.js:56-57, 64-79) are I/O. Calling a listener is recorded as a `Call` in the result of `Set`.
- `Object.defineProperty` itself and `configurable: true` (scripts.js:21-34) are JavaScript reflection. The installed accessor is the name's membership in `instrumented`, and `Get`/`Set` stand for reading and assigning the property.
- Exceptions thrown by listeners are not modelled. In the source they leave the write and skip the remaining listeners.
- Re-entrant calls from inside a listener are not modelled: subscribing, removing or writing during a notification. `forEach` visits only the elements present when it starts. `filter` and `delete` replace or unlink the array rather than change it. The notification therefore works on a snapshot, and `Notify` takes the list by value.
- Names that collide with `State`'s own fields (`_values`, `_listeners`, `watchman`) or with `Object.prototype` members are not modelled. These are accidents of the JavaScript object model.
- The truthiness test on the listener argument (scripts.js:44) is not modelled. The argument is `Option<L>`: `None` means no listener was given.
- Values are of an arbitrary type `V`. Explicitly assigning `undefined` is not told apart from a missing value.
