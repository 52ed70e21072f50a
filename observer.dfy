/**
 * The observer pattern: an ObserverList kept in an array that is grown with
 * `push` and shrunk with `splice`, and a Subject that registers, removes and
 * notifies observers through it. Observers are IDs compared by equality,
 * standing for JavaScript's `===` on object references; a notification is
 * returned as the ordered sequence of deliveries it makes.
 */
module Observer {
  import opened Wrappers

  /** The identity of an observer object. */
  type ObserverId = nat

  /** One call `observer.update(ctx)` made by `notify`. */
  datatype Delivery = Delivery(observer: ObserverId, ctx: string)

  /** `findIndex(observer => observer === o)`: the least index holding `o`,
      or -1 when none does. */
  function FindIndex(s: seq<ObserverId>, o: ObserverId): (i: int)
    ensures -1 <= i < |s|
    ensures i == -1 <==> o !in s
    ensures 0 <= i ==> s[i] == o && forall j :: 0 <= j < i ==> s[j] != o
    decreases |s|
  {
    if s == [] then -1
    else if s[0] == o then 0
    else
      var j := FindIndex(s[1..], o);
      if j == -1 then -1 else j + 1
  }

  /** The index at which `splice(start, ...)` starts on an array of length
      `len`: a negative start counts from the end, and both ends clamp. */
  function SpliceStart(len: nat, start: int): (k: nat)
    ensures k <= len
    ensures 0 <= start <= len ==> k == start
    ensures start > len ==> k == len
    ensures start < 0 && 0 <= len + start ==> k == len + start
    ensures len + start < 0 ==> k == 0
  {
    if start < 0 then (if len + start < 0 then 0 else len + start)
    else if start > len then len
    else start
  }

  /** The array after `splice(start, 1)`: the element at the clamped start is
      removed, if there is one. */
  function SpliceOne(s: seq<ObserverId>, start: int): (r: seq<ObserverId>)
    ensures 0 <= start < |s| ==> r == s[..start] + s[start + 1..]
    ensures start >= |s| ==> r == s
    ensures -|s| <= start < 0 ==> r == s[..|s| + start] + s[|s| + start + 1..]
    ensures start < -|s| && s != [] ==> r == s[1..]
    ensures s == [] ==> r == []
  {
    var k := SpliceStart(|s|, start);
    if k < |s| then s[..k] + s[k + 1..] else s
  }

  /** The list after `removeObserver(o)`: the index `indexOf` finds is handed
      to `splice` unchecked. */
  function RemoveObserverSpec(s: seq<ObserverId>, o: ObserverId): (r: seq<ObserverId>)
    ensures s != [] ==> |r| == |s| - 1
    ensures s == [] ==> r == []
    ensures multiset(r) <= multiset(s)
  {
    var i := FindIndex(s, o);
    if s == [] then SpliceOne(s, i)
    else
      var k := if i == -1 then |s| - 1 else i;
      MultisetRemoveAt(s, k);
      SpliceOne(s, i)
  }

  /** Removing a present observer deletes exactly its first occurrence: the
      elements before it and after it keep their order, and one copy of `o`
      is gone. */
  lemma RemovePresentObserver(s: seq<ObserverId>, o: ObserverId)
    requires o in s
    ensures var k := FindIndex(s, o);
            && RemoveObserverSpec(s, o) == s[..k] + s[k + 1..]
            && (forall j :: 0 <= j < k ==> s[j] != o)
            && |RemoveObserverSpec(s, o)| == |s| - 1
            && multiset(RemoveObserverSpec(s, o)) == multiset(s) - multiset{o}
  {
    var k := FindIndex(s, o);
    MultisetRemoveAt(s, k);
  }

  /** Deleting the element at `k` takes one copy of it out of the multiset. */
  lemma MultisetRemoveAt(s: seq<ObserverId>, k: nat)
    requires k < |s|
    ensures multiset(s[..k] + s[k + 1..]) == multiset(s) - multiset{s[k]}
  {
    assert s == s[..k] + [s[k]] + s[k + 1..];
  }

  /** As written, removing an observer that was never added removes the last
      registered one instead, since `indexOf` gives -1 and `splice(-1, 1)`
      deletes the final element. */
  lemma RemoveAbsentDropsLast(s: seq<ObserverId>, o: ObserverId)
    requires o !in s && s != []
    ensures RemoveObserverSpec(s, o) == s[..|s| - 1]
    ensures s[|s| - 1] != o
  {
  }

  /** A concrete instance of the above: with observers 1 and 2 registered,
      removing observer 3 unregisters observer 2. */
  lemma RemoveAbsentExample()
    ensures RemoveObserverSpec([1, 2], 3) == [1]
  {
    RemoveAbsentDropsLast([1, 2], 3);
  }

  /** The `ObserverList` class, its `_observers` array as a sequence field. */
  class ObserverList {
    var observers: seq<ObserverId>

    /** A new list is empty. */
    constructor ()
      ensures observers == []
    {
      observers := [];
    }

    /** `add(obj)`: `push` appends and returns the new length. */
    method Add(o: ObserverId) returns (n: nat)
      modifies this
      ensures observers == old(observers) + [o]
      ensures n == |observers|
    {
      observers := observers + [o];
      n := |observers|;
    }

    /** `count()`: the number of registered observers. */
    method Count() returns (n: nat)
      ensures n == |observers|
    {
      n := |observers|;
    }

    /** `get(idx)`: the observer at `idx`, or `undefined` outside the array. */
    method Get(idx: int) returns (r: Option<ObserverId>)
      ensures r.Some? <==> 0 <= idx < |observers|
      ensures r.Some? ==> r.value == observers[idx]
    {
      if 0 <= idx < |observers| {
        r := Some(observers[idx]);
      } else {
        r := None;
      }
    }

    /** `getAll()`: every registered observer, in insertion order. */
    method GetAll() returns (all: seq<ObserverId>)
      ensures all == observers
    {
      all := observers;
    }

    /** `indexOf(obj)`: a linear search for the first observer equal to `o`. */
    method IndexOf(o: ObserverId) returns (i: int)
      ensures -1 <= i < |observers|
      ensures i == -1 <==> o !in observers
      ensures 0 <= i ==> observers[i] == o && forall j :: 0 <= j < i ==> observers[j] != o
      ensures i == FindIndex(observers, o)
    {
      i := 0;
      while i < |observers|
        invariant 0 <= i <= |observers|
        invariant forall j :: 0 <= j < i ==> observers[j] != o
      {
        if observers[i] == o {
          return;
        }
        i := i + 1;
      }
      i := -1;
    }

    /** `removeAt(idx)`: `splice(idx, 1)` on the array, in place. */
    method RemoveAt(idx: int)
      modifies this
      ensures observers == SpliceOne(old(observers), idx)
      ensures 0 <= idx < |old(observers)| ==>
                observers == old(observers)[..idx] + old(observers)[idx + 1..]
                && |observers| == |old(observers)| - 1
      ensures idx >= |old(observers)| ==> observers == old(observers)
    {
      var k := SpliceStart(|observers|, idx);
      if k < |observers| {
        observers := observers[..k] + observers[k + 1..];
      }
    }
  }

  /** The `Subject` class, holding its own ObserverList. */
  class Subject {
    const observers: ObserverList

    /** A new subject has a fresh, empty list. */
    constructor ()
      ensures fresh(observers)
      ensures observers.observers == []
    {
      observers := new ObserverList();
    }

    /** `addObserver(observer)`: registers `o` at the end; duplicates are
        kept. */
    method AddObserver(o: ObserverId)
      modifies observers
      ensures observers.observers == old(observers.observers) + [o]
    {
      var _ := observers.Add(o);
    }

    /** `removeObserver(observer)`: `removeAt(indexOf(observer))`. A present
        observer loses its first registration; for an absent one the index
        -1 reaches `splice` and the last observer is removed. */
    method RemoveObserver(o: ObserverId)
      modifies observers
      ensures observers.observers == RemoveObserverSpec(old(observers.observers), o)
      ensures o in old(observers.observers) ==>
                var k := FindIndex(old(observers.observers), o);
                observers.observers == old(observers.observers)[..k] + old(observers.observers)[k + 1..]
      ensures o !in old(observers.observers) && old(observers.observers) != [] ==>
                observers.observers == old(observers.observers)[..|old(observers.observers)| - 1]
      ensures old(observers.observers) == [] ==> observers.observers == []
    {
      ghost var before := observers.observers;
      var i := observers.IndexOf(o);
      observers.RemoveAt(i);
      if o in before {
        RemovePresentObserver(before, o);
      } else if before != [] {
        RemoveAbsentDropsLast(before, o);
      }
    }

    /** The evidently intended removal: only a registered observer can be
        removed, and asking for any other leaves the registrations alone. */
    method RemoveObserverIfPresent(o: ObserverId)
      modifies observers
      ensures o in old(observers.observers) ==>
                var k := FindIndex(old(observers.observers), o);
                observers.observers == old(observers.observers)[..k] + old(observers.observers)[k + 1..]
      ensures o !in old(observers.observers) ==> observers.observers == old(observers.observers)
    {
      var i := observers.IndexOf(o);
      if i != -1 {
        observers.RemoveAt(i);
      }
    }

    /** `notify(ctx)`: `update(ctx)` on every registered observer, in
        insertion order, once per registration. */
    method Notify(ctx: string) returns (deliveries: seq<Delivery>)
      ensures |deliveries| == |observers.observers|
      ensures forall i :: 0 <= i < |deliveries| ==> deliveries[i] == Delivery(observers.observers[i], ctx)
    {
      var all := observers.GetAll();
      deliveries := [];
      var i := 0;
      while i < |all|
        invariant 0 <= i <= |all|
        invariant |deliveries| == i
        invariant forall j :: 0 <= j < i ==> deliveries[j] == Delivery(all[j], ctx)
      {
        deliveries := deliveries + [Delivery(all[i], ctx)];
        i := i + 1;
      }
    }
  }

  /** The demo: one observer registered, then `notify('boop')`. */
  method ObserverDemo() returns (deliveries: seq<Delivery>)
    ensures deliveries == [Delivery(0, "boop")]
  {
    var subject := new Subject();
    subject.AddObserver(0);
    deliveries := subject.Notify("boop");
  }
}
