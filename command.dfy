/**
 * The command pattern as a reducer store: a store holds one state value and
 * replaces it, on every dispatched action, by what the reducer computes from
 * the previous state and the action. The counter reducer is the example
 * reducer the store is instantiated with.
 */
module Command {
  import opened Wrappers

  /** An action descriptor. `kind` is the action's `type` field; the empty
      action `{}` used to initialise a store has none. */
  datatype Action = Action(kind: Option<string>)

  /** The empty action `{}` a store is initialised with. */
  const EmptyAction: Action := Action(None)

  /** A reducer receives `None` for the prior state when there is none yet. */
  type Reducer<!S> = (Option<S>, Action) -> S

  /** The state reached from `s` by applying `reducer` to each action in turn
      (a left fold). */
  function Fold<S>(reducer: Reducer<S>, s: S, actions: seq<Action>): S
    decreases |actions|
  {
    if actions == [] then s else Fold(reducer, reducer(Some(s), actions[0]), actions[1..])
  }

  /** Folding one more action is one more reducer step on the folded state. */
  lemma {:induction false} FoldSnoc<S>(reducer: Reducer<S>, s: S, actions: seq<Action>, a: Action)
    ensures Fold(reducer, s, actions + [a]) == reducer(Some(Fold(reducer, s, actions)), a)
    decreases |actions|
  {
    if actions == [] {
      assert actions + [a] == [a];
    } else {
      assert (actions + [a])[1..] == actions[1..] + [a];
      FoldSnoc(reducer, reducer(Some(s), actions[0]), actions[1..], a);
    }
  }

  /** The object `createStore(reducer)` returns, with the closure variable
      `state` as a field. `history` records the actions dispatched so far. */
  class Store<S> {
    const reducer: Reducer<S>
    var state: S
    ghost var history: seq<Action>

    /** The current state is the fold of the reducer over every action
        dispatched, starting from the initial state. */
    ghost predicate Valid()
      reads this
    {
      state == Fold(reducer, reducer(None, EmptyAction), history)
    }

    /** `createStore(reducer)`: the state starts as `reducer(undefined, {})`. */
    constructor (reducer: Reducer<S>)
      ensures Valid()
      ensures this.reducer == reducer
      ensures state == reducer(None, EmptyAction)
      ensures history == []
    {
      this.reducer := reducer;
      state := reducer(None, EmptyAction);
      history := [];
    }

    /** `getState()`: the latest state; nothing changes. */
    method GetState() returns (s: S)
      requires Valid()
      ensures s == state
      ensures s == Fold(reducer, reducer(None, EmptyAction), history)
    {
      s := state;
    }

    /** `dispatch(action)`: the state becomes `reducer(state, action)`. */
    method Dispatch(action: Action)
      requires Valid()
      modifies this`state, this`history
      ensures Valid()
      ensures state == reducer(Some(old(state)), action)
      ensures history == old(history) + [action]
    {
      FoldSnoc(reducer, reducer(None, EmptyAction), history, action);
      state := reducer(Some(state), action);
      history := history + [action];
    }
  }

  /** The counter's state `{count: n}`. */
  datatype CountState = CountState(count: int)

  const Increment: Action := Action(Some("INCREMENT"))
  const Decrement: Action := Action(Some("DECREMENT"))

  /** `countReducer`: an absent state defaults to `{count: 0}`; `INCREMENT`
      and `DECREMENT` step the count and any other or absent type leaves the
      state as it is. */
  function CountReducer(state: Option<CountState>, action: Action): (r: CountState)
    ensures action == Increment ==> r.count == (if state.Some? then state.value.count else 0) + 1
    ensures action == Decrement ==> r.count == (if state.Some? then state.value.count else 0) - 1
    ensures action != Increment && action != Decrement ==>
              r == (if state.Some? then state.value else CountState(0))
  {
    var s := if state.Some? then state.value else CountState(0);
    match action.kind
    case Some("INCREMENT") => CountState(s.count + 1)
    case Some("DECREMENT") => CountState(s.count - 1)
    case _ => s
  }

  /** A fresh counter store starts at count 0. */
  lemma CountInitial()
    ensures CountReducer(None, EmptyAction).count == 0
  {
  }

  /** `DECREMENT` undoes `INCREMENT` and `INCREMENT` undoes `DECREMENT`. */
  lemma IncrementDecrementInverse(s: CountState)
    ensures CountReducer(Some(CountReducer(Some(s), Increment)), Decrement) == s
    ensures CountReducer(Some(CountReducer(Some(s), Decrement)), Increment) == s
  {
  }

  /** The number of `INCREMENT`s minus the number of `DECREMENT`s. */
  function Net(actions: seq<Action>): int
    decreases |actions|
  {
    if actions == [] then 0
    else (if actions[0] == Increment then 1 else if actions[0] == Decrement then -1 else 0)
         + Net(actions[1..])
  }

  /** Any sequence of dispatches moves the count by exactly its net number of
      increments, whatever other actions are interleaved. */
  lemma {:induction false} CountFold(s: CountState, actions: seq<Action>)
    ensures Fold(CountReducer, s, actions).count == s.count + Net(actions)
    decreases |actions|
  {
    if actions != [] {
      CountFold(CountReducer(Some(s), actions[0]), actions[1..]);
    }
  }

  /** The demo: a counter store, `INCREMENT` then `DECREMENT`; the states it
      passes through are 0, 1 and 0. */
  method CounterDemo() returns (counts: seq<int>)
    ensures counts == [0, 1, 0]
  {
    var store := new Store(CountReducer);
    var s0 := store.GetState();
    store.Dispatch(Increment);
    var s1 := store.GetState();
    store.Dispatch(Decrement);
    var s2 := store.GetState();
    counts := [s0.count, s1.count, s2.count];
  }
}
