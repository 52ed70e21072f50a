/**
 * The singleton pattern: `getInstance` creates the one instance with `init`
 * on its first call and hands out that same instance ever after.
 */
module Singleton {

  /** The object `init` returns. */
  class Instance {
    constructor ()
    {
    }

    /** `publicMethod`: prints `boop`, returned here as the printed text. */
    method PublicMethod() returns (printed: string)
      ensures printed == "boop"
    {
      printed := "boop";
    }
  }

  /** The closure behind `singleton`: the variable `instance`, undefined
      until first asked for, and the number of times `init` has run. */
  class Singleton {
    var instance: Instance?
    ghost var initCalls: nat

    /** `init` has run exactly once if there is an instance, never otherwise. */
    ghost predicate Valid()
      reads this
    {
      initCalls == (if instance == null then 0 else 1)
    }

    /** Before the first call there is no instance and `init` has not run. */
    constructor ()
      ensures Valid()
      ensures instance == null && initCalls == 0
    {
      instance := null;
      initCalls := 0;
    }

    /** `getInstance()`: the first call runs `init` and keeps what it creates;
        later calls return that same object and do not run `init`. The result
        is never empty, and `init` never runs twice. */
    method GetInstance() returns (i: Instance)
      requires Valid()
      modifies this
      ensures Valid()
      ensures instance == i
      ensures old(instance) == null ==> fresh(i) && initCalls == 1
      ensures old(instance) != null ==> i == old(instance) && initCalls == old(initCalls)
      ensures initCalls <= 1
    {
      if instance == null {
        instance := new Instance();
        initCalls := initCalls + 1;
      }
      i := instance;
    }
  }

  /** Two calls in a row hand out one and the same instance. */
  method SameInstanceTwice() returns (first: Instance, second: Instance)
    ensures first == second
  {
    var s := new Singleton();
    first := s.GetInstance();
    second := s.GetInstance();
  }
}
