/**
 * The revealing module pattern: a private counter that only `publicMethod`
 * can reach, next to a constant public property.
 */
module RevealingModule {

  /** The object the module expression returns, with the closure variable
      `privateProperty` as a field. `reported` is every value `publicMethod`
      has printed so far. */
  class RevealingModule {
    var privateProperty: int
    const publicProperty: int
    ghost var reported: seq<int>

    /** The counter equals the number of calls so far, and the k-th call
        (from 0) printed k. */
    ghost predicate Valid()
      reads this
    {
      && privateProperty == |reported|
      && (forall k :: 0 <= k < |reported| ==> reported[k] == k)
      && publicProperty == 42
    }

    /** The counter starts at 0 and `publicProperty` is 42. */
    constructor ()
      ensures Valid()
      ensures privateProperty == 0 && publicProperty == 42 && reported == []
    {
      privateProperty := 0;
      publicProperty := 42;
      reported := [];
    }

    /** `publicMethod()`: prints the counter's value before the increment
        (`privateProperty++`), then the counter is one higher. */
    method PublicMethod() returns (printed: int)
      requires Valid()
      modifies this`privateProperty, this`reported
      ensures Valid()
      ensures printed == old(privateProperty)
      ensures privateProperty == old(privateProperty) + 1
      ensures printed == |old(reported)|
      ensures reported == old(reported) + [printed]
    {
      printed := privateProperty;
      privateProperty := privateProperty + 1;
      reported := reported + [printed];
    }
  }

  /** The values `publicMethod` has printed strictly increase from call to
      call. */
  lemma ReportedIncrease(m: RevealingModule)
    requires m.Valid()
    ensures forall i, j :: 0 <= i < j < |m.reported| ==> m.reported[i] < m.reported[j]
  {
  }
}
