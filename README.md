# Design patterns in JavaScript, modelled in Dafny

This project models the parts of the design-pattern demos that hold checkable
logic, one Dafny module per demo file:

- `Command` (`patterns/behavioral/command.js`): a reducer store. `Store` holds
  the current state and the reducer. Its constructor computes
  `reducer(undefined, {})` and `Dispatch` replaces the state with
  `reducer(state, action)`. A ghost history of dispatched actions keeps the
  invariant that the state is the left fold (`Fold`) of the reducer over that
  history. `CountReducer` is the counter reducer the demo keeps in a store.
- `Observer` (`patterns/behavioral/observer.js`): `ObserverList` keeps its
  `_observers` array as a sequence field that `Add` (push) and `RemoveAt`
  (`splice(idx, 1)`, with JavaScript's rules for negative and too-large starts)
  update in place. `Subject` registers, removes and notifies observers through
  its list. Observers are IDs compared by equality, which stands for `===`. A
  notification returns the ordered list of `update(ctx)` calls it makes.
- `Proxy` (`patterns/structural/proxy.js`): the `set` trap of
  `aboveZeroValidator` over a target that starts as `{}`. A refused value gives
  a `Failure` carrying the error text. An accepted one gives `Success(true)`
  and is stored under its name. The exception is `__proto__`: assigning to it
  reaches the inherited `Object.prototype` setter, which ignores a number, so
  nothing is stored. The target keeps the invariant that every stored value is a
  non-negative number.
- `Factory` (`patterns/creational/factory.js`): `createVehicle` as a map merge,
  defaults first and options laid over them, with `None` for `undefined`.
- `TextEditor` (`patterns/behavioral/state.js`): the transform table (identity,
  ASCII upper case, ASCII lower case) and the editor object, whose mode field
  `SetTransform` reassigns and whose `Type` returns what would be printed.
- `Singleton` (`patterns/creational/singleton.js`): the lazily set `instance`
  and a ghost count of `init` runs, which stays at most one.
- `RevealingModule` (`patterns/creational/revealing-module.js`): the private
  counter that `PublicMethod` reports and then increments, plus the constant
  `publicProperty`.
- `Wrappers`: the `Option` and `Result` datatypes the modules share.

Printing (`console.log`) is modelled by returning what would be printed.

Two points where the code cannot be followed literally:

- `patterns/behavioral/command.js:21` declares the default parameter as
  `state = {count = 0}`. That is a JavaScript syntax error, so the file as
  written does not run. The model uses the evident intent: a missing state
  defaults to `{count: 0}` (`CountReducer` maps `None` to `CountState(0)`).
- In `patterns/structural/proxy.js:11-12` zero is accepted, although the error
  text says values must be "above 0". The model follows the guard:
  `Proxy.AcceptedValues` states that zero is accepted.

## Model

| member | source | states |
|---|---|---|
| `Command.FoldSnoc` | patterns/behavioral/command.js:15-17 | folding one more action equals one more reducer step applied to the folded state, which is what each `dispatch` does |
| `Command.Store.constructor` | patterns/behavioral/command.js:10-11 | a new store keeps the given reducer; its state is `reducer(undefined, {})` and its history is empty |
| `Command.Store.GetState` | patterns/behavioral/command.js:14 | returns the current state, which is the fold of the reducer over every dispatched action from the initial state; nothing changes |
| `Command.Store.Dispatch` | patterns/behavioral/command.js:15-17 | the new state is `reducer(previous state, action)`; the action joins the history, and the fold invariant still holds |
| `Command.CountReducer` | patterns/behavioral/command.js:21-30 | `INCREMENT` gives count + 1 and `DECREMENT` gives count - 1; any other or absent type returns the state unchanged; a missing state counts as `{count: 0}` |
| `Command.CountInitial` | patterns/behavioral/command.js:11 | a counter store starts at count 0 |
| `Command.IncrementDecrementInverse` | patterns/behavioral/command.js:23-26 | `INCREMENT` then `DECREMENT` returns any state to itself, and so does the reverse order |
| `Command.CountFold` | patterns/behavioral/command.js:21-30 | any sequence of actions moves the count by the number of increments minus the number of decrements |
| `Command.CounterDemo` | patterns/behavioral/command.js:32-35 | the demo store's state is count 0, then 1 after `INCREMENT`, then 0 after `DECREMENT` |
| `Observer.FindIndex` | patterns/behavioral/observer.js:31-33 | the least index holding the observer, or -1 exactly when it is absent |
| `Observer.SpliceStart` | patterns/behavioral/observer.js:35-37 | the start `splice` uses: a negative start counts back from the end, and both ends clamp to the array |
| `Observer.SpliceOne` | patterns/behavioral/observer.js:35-37 | `splice(start, 1)` removes exactly the element at an in-range start (for a negative start, counted from the end) and keeps the order of the rest; a start past the end changes nothing |
| `Observer.RemoveObserverSpec` | patterns/behavioral/observer.js:49-51 | `removeObserver` always removes exactly one observer from a non-empty list, registered or not, and never adds one; an empty list stays empty |
| `Observer.RemovePresentObserver` | patterns/behavioral/observer.js:49-51 | for a registered observer, `removeObserver` deletes only its first occurrence: the length drops by one and exactly one copy leaves the multiset |
| `Observer.RemoveAbsentDropsLast` | patterns/behavioral/observer.js:49-51 | for an observer that is not registered, on a non-empty list, `removeObserver` removes the last observer |
| `Observer.RemoveAbsentExample` | patterns/behavioral/observer.js:50 | with observers 1 and 2 registered, removing observer 3 leaves only observer 1 |
| `Observer.ObserverList.constructor` | patterns/behavioral/observer.js:11-13 | a new list is empty |
| `Observer.ObserverList.Add` | patterns/behavioral/observer.js:15-17 | appends the observer and leaves the earlier ones untouched; returns the new length |
| `Observer.ObserverList.Count` | patterns/behavioral/observer.js:19-21 | returns the number of registered observers |
| `Observer.ObserverList.Get` | patterns/behavioral/observer.js:23-25 | returns the observer at an in-range index, and `undefined` for any other index |
| `Observer.ObserverList.GetAll` | patterns/behavioral/observer.js:27-29 | returns every registered observer, in insertion order |
| `Observer.ObserverList.IndexOf` | patterns/behavioral/observer.js:31-33 | a linear search that returns the least index holding the observer, or -1 exactly when none does |
| `Observer.ObserverList.RemoveAt` | patterns/behavioral/observer.js:35-37 | the list becomes `splice(idx, 1)` of the old one: for an in-range index exactly that element goes and the length drops by one; for an index at or past the end nothing changes |
| `Observer.Subject.constructor` | patterns/behavioral/observer.js:41-43 | a new subject owns a fresh, empty observer list |
| `Observer.Subject.AddObserver` | patterns/behavioral/observer.js:45-47 | registers the observer at the end; duplicates are kept |
| `Observer.Subject.RemoveObserver` | patterns/behavioral/observer.js:49-51 | `removeAt(indexOf(o))`: the first occurrence goes if `o` is present; if it is absent the last observer goes; an empty list stays empty |
| `Observer.Subject.RemoveObserverIfPresent` | patterns/behavioral/observer.js:49-51 | the intended removal: the first occurrence goes if present, and otherwise nothing changes |
| `Observer.Subject.Notify` | patterns/behavioral/observer.js:53-55 | one delivery of `ctx` per registered observer, in insertion order, so the recipients are exactly the registration list |
| `Observer.ObserverDemo` | patterns/behavioral/observer.js:62-66 | with one observer registered, `notify('boop')` delivers `'boop'` to it once |
| `Proxy.Refused` | patterns/structural/proxy.js:11 | the guard lets a value through exactly when it is a number, not NaN and not negative |
| `Proxy.AcceptedValues` | patterns/structural/proxy.js:11 | zero gets through, although the error text says "above 0"; -1 is refused |
| `Proxy.ErrorMessage` | patterns/structural/proxy.js:12 | the error text is the property name followed by ` must be above 0` |
| `Proxy.PositiveValuesProxy.constructor` | patterns/structural/proxy.js:19 | the target starts empty |
| `Proxy.PositiveValuesProxy.Set` | patterns/structural/proxy.js:10-16 | accepted exactly for non-negative numbers; a refused set fails with `<prop> must be above 0` and leaves the target unchanged; an accepted set returns true and stores the value under `prop`, except under `__proto__`, whose inherited setter ignores a number so the target stays unchanged; no other property ever changes; every stored value stays a non-negative number |
| `Proxy.ProxyDemo` | patterns/structural/proxy.js:19-22 | after `a = 1` and `b = 20` the target holds exactly those two properties |
| `Factory.CreateVehicle` | patterns/creational/factory.js:9-16 | a result exists exactly for `vehicleType` car or truck; its properties are the options plus `doors` and `color`; every option appears unchanged; a default shows only where no option overrides it |
| `Factory.DefaultsApply` | patterns/creational/factory.js:11-14 | without `doors` or `color` in the options, a car gets 4 doors in silver and a truck 2 doors in black |
| `Factory.PinkCar` | patterns/creational/factory.js:18-21 | the pink car comes out as `{doors: 4, color: 'pink', vehicleType: 'car'}` |
| `TextEditor.UpperChar` | patterns/behavioral/state.js:11 | maps a–z to A–Z and leaves every other character alone; the result is never a lower-case letter |
| `TextEditor.LowerChar` | patterns/behavioral/state.js:12 | maps A–Z to a–z and leaves every other character alone; the result is never an upper-case letter |
| `TextEditor.Identity` | patterns/behavioral/state.js:10 | the `default` transform returns its input |
| `TextEditor.Upper` | patterns/behavioral/state.js:11 | keeps the length and upper-cases each character in place |
| `TextEditor.Lower` | patterns/behavioral/state.js:12 | keeps the length and lower-cases each character in place |
| `TextEditor.CaseIdempotent` | patterns/behavioral/state.js:11-12 | applying `upper` twice equals applying it once, and the same holds for `lower` |
| `TextEditor.CaseAbsorbs` | patterns/behavioral/state.js:11-12 | `upper` after `lower` equals `upper` alone, and `lower` after `upper` equals `lower` alone |
| `TextEditor.TransformTable` | patterns/behavioral/state.js:9-13 | the transform table has exactly the modes `default`, `upper` and `lower`, naming the identity, upper-casing and lower-casing |
| `TextEditor.Editor.constructor` | patterns/behavioral/state.js:16 | the editor starts in mode `'default'` |
| `TextEditor.Editor.SetTransform` | patterns/behavioral/state.js:19 | takes any name unchecked, sets only the mode, and returns the new mode |
| `TextEditor.Editor.Type` | patterns/behavioral/state.js:20 | outputs what the current mode's transform makes of the words and leaves the mode alone; a mode not in the table throws |
| `TextEditor.EditorDemo` | patterns/behavioral/state.js:24-28 | the demo prints `boop`, `YELLING`, `whispering` |
| `Singleton.Instance.PublicMethod` | patterns/creational/singleton.js:13 | the instance's method prints `boop` |
| `Singleton.Singleton.constructor` | patterns/creational/singleton.js:7 | there is no instance before the first call, and `init` has not run |
| `Singleton.Singleton.GetInstance` | patterns/creational/singleton.js:18-21 | the first call creates a fresh instance through `init`; later calls return that same instance without running `init`; the result is never empty and `init` runs at most once |
| `Singleton.SameInstanceTwice` | patterns/creational/singleton.js:18-21 | two calls return the identical instance |
| `RevealingModule.RevealingModule.constructor` | patterns/creational/revealing-module.js:7-10 | the counter starts at 0 and `publicProperty` is 42 |
| `RevealingModule.RevealingModule.PublicMethod` | patterns/creational/revealing-module.js:11-13 | prints the counter's current value, then increments it by exactly 1; the k-th call (from 0) prints k; `publicProperty` stays 42 |
| `RevealingModule.ReportedIncrease` | patterns/creational/revealing-module.js:12 | in any module state its calls have produced, the printed values strictly increase from one call to the next |

## Left out

- Console output: every `console.log` is modelled as a returned value (the deliveries of `Notify`, the output of `Type`, the value `PublicMethod` prints).
- `Command.Store.Dispatch`: reducers are modelled as total functions. A reducer that throws is not modelled: in the source the assignment at `patterns/behavioral/command.js:16` then never happens, the state stays as it was and the error reaches the caller of `dispatch` (or of `createStore`, for the initial call). For `countReducer` that happens only when `dispatch` is called without an action, which the model's `Action` type cannot express.
- JavaScript numbers: counts, indices and proxied values are unbounded integers. Precision loss above 2^53, `-0`, `Infinity`, fractional indices and fractional values are not modelled.
- `Proxy` traps other than `set`, and ways to write the target that bypass the trap, are not modelled.
- `Observer.Subject.Notify`: it does not model what each observer's `update` does. That code is supplied by the caller. An observer that changes the list during `notify`, and aliasing through the array `getAll()` returns, are not modelled either.
- Object identity is modelled by observer IDs compared with `==`. The singleton's instance is a Dafny object, so identity is reference equality there.
- `TextEditor.Editor.Type`: a mode naming a property inherited from `Object.prototype` (such as `toString`) is treated like any other unknown mode. In JavaScript it would find an inherited function instead of throwing.
- `TextEditor.Upper` and `TextEditor.Lower`: case mapping covers ASCII letters only. The Unicode case mappings of `toUpperCase` and `toLowerCase` are not modelled.
- `Factory.CreateVehicle`: property order in the resulting object is not modelled, and neither is passing a non-object as options.
- The `privateProperty = 'secret'` constant inside the singleton's `init` is never read, so it is not modelled.
- The demos strategy.js, decorator.js, adapter.js, template-method.js, iterator.js and facade.js are not part of this model. They only forward calls to printing methods, use the generator protocol over a float, or probe browser objects.

## Findings

| source | as written | input that shows it | evidently intended | confidence | as-written member | corrected member |
|---|---|---|---|---|---|---|
| patterns/behavioral/observer.js:50 | `removeAt(indexOf(observer))` passes -1 to `splice` when the observer is not registered, and `splice(-1, 1)` removes the last element | observers `[1, 2]`, `removeObserver(3)` leaves `[1]` | removing an unregistered observer leaves the list unchanged | likely unintended; not executed | `Observer.RemoveAbsentDropsLast` | `Observer.Subject.RemoveObserverIfPresent` |
