/**
 * The proxy pattern: a `set` trap that validates a value before it reaches
 * the target object. The target starts as the empty object `{}`; its
 * properties are a map from property names to values.
 */
module Proxy {
  import opened Wrappers

  /** A JavaScript value as the guard sees it: something that is not a
      number, the number NaN, or an ordinary number. */
  datatype Value = NonNumber | NaN | Num(n: int)

  /** The guard of the trap: a value is refused when its type is not
      `'number'`, when it is NaN, or when it is below zero. So exactly the
      non-negative numbers get through. */
  predicate Refused(v: Value): (r: bool)
    ensures !r <==> v.Num? && v.n >= 0
  {
    match v
    case NonNumber => true
    case NaN => true
    case Num(n) => n < 0
  }

  /** Zero gets through, although the error text speaks of values "above 0";
      the largest refused number is -1. */
  lemma AcceptedValues()
    ensures !Refused(Num(0))
    ensures Refused(Num(-1))
  {
  }

  /** The text of the error a refused set throws: the property's name, then
      the complaint. */
  function ErrorMessage(prop: string): (msg: string)
    ensures |msg| == |prop| + 16
    ensures msg[..|prop|] == prop && msg[|prop|..] == " must be above 0"
  {
    prop + " must be above 0"
  }

  /** Every stored value is a non-negative number. */
  ghost predicate AllAccepted(props: map<string, Value>)
  {
    forall p :: p in props ==> !Refused(props[p])
  }

  /** The one property name whose assignment on a plain object does not
      create an own property: it reaches the `Object.prototype.__proto__`
      setter, which ignores anything that is not an object. */
  const ProtoKey: string := "__proto__"

  /** The proxied object `positiveValuesProxy`: its target's own properties. */
  class PositiveValuesProxy {
    var props: map<string, Value>

    ghost predicate Valid()
      reads this
    {
      AllAccepted(props)
    }

    /** `new Proxy({}, aboveZeroValidator)`: the target is empty. */
    constructor ()
      ensures Valid()
      ensures props == map[]
    {
      props := map[];
    }

    /** The `set(obj, prop, value)` trap: a refused value throws an error
        naming `prop` and leaves the target alone; an accepted one is stored
        under `prop`, no other property changes, and the trap returns true.
        An accepted number assigned to `__proto__` goes to the inherited
        setter, which ignores it, so nothing is stored and the trap still
        returns true. */
    method Set(prop: string, value: Value) returns (r: Result<bool, string>)
      requires Valid()
      modifies this
      ensures Valid()
      ensures r.Success? <==> (value.Num? && value.n >= 0)
      ensures r.Failure? ==> r.error == ErrorMessage(prop) && props == old(props)
      ensures r.Success? ==> r.value
      ensures r.Success? && prop != ProtoKey ==> props == old(props)[prop := value]
      ensures r.Success? && prop == ProtoKey ==> props == old(props)
      ensures forall p :: p in old(props) && p != prop ==> p in props && props[p] == old(props)[p]
    {
      if Refused(value) {
        return Failure(ErrorMessage(prop));
      }
      if prop != ProtoKey {
        props := props[prop := value];
      }
      return Success(true);
    }
  }

  /** The demo: `a = 1`, then `b = 20`; both are accepted and stored. */
  method ProxyDemo() returns (stored: map<string, Value>)
    ensures stored == map["a" := Num(1), "b" := Num(20)]
  {
    var proxy := new PositiveValuesProxy();
    var ra := proxy.Set("a", Num(1));
    var rb := proxy.Set("b", Num(20));
    stored := proxy.props;
  }
}
