/**
 * A `BaseObject` instance seen through its proxy: the prototype is fixed,
 * the own slots change when a setter runs. `Get` and `Has` read the state;
 * `Set` and `DeleteProperty` run the source's steps and change the slots
 * only by calling the setter.
 */
module BaseObject {
  import opened Naming
  import opened Dispatch

  class Instance {
    const proto: Prototype
    var slots: Slots

    /** The instance as its class-field initialisers leave it. */
    constructor (proto: Prototype, slots: Slots)
      ensures this.proto == proto && this.slots == slots
    {
      this.proto := proto;
      this.slots := slots;
    }

    /**
     * Instance `className()`: the name the inherited method answers when
     * `instance.className` is read through the `get` trap and called.
     */
    function ClassName(): (name: string)
      reads this
      ensures "className" !in slots ==>
                Get("className") == Ok(Function("className"))
                && CallNoArgs(proto, Get("className").value.id, slots) == Str(name)
    {
      proto.typeName
    }

    /**
     * The `get` trap (`instance.key`) on the current slots: it succeeds
     * exactly where the `in` test holds, and returns a defined slot as is.
     */
    function Get(key: string): (r: Outcome<Value>)
      reads this
      ensures r == Dispatch.Get(proto, slots, key)
      ensures r.Ok? <==> Has(key)
      ensures IsDefined(proto, slots, key) ==> r == Ok(Lookup(proto, slots, key))
    {
      Dispatch.Get(proto, slots, key)
    }

    /** The `has` trap (`key in instance`): a defined slot or a getter. */
    predicate Has(key: string): (b: bool)
      reads this
      ensures b <==> IsDefined(proto, slots, key) || HasGetter(proto, slots, key)
    {
      Dispatch.Has(proto, slots, key)
    }

    /**
     * The `set` trap (`instance.key = value`): calls the setter once and
     * answers true, or throws and leaves the slots as they were.
     */
    method Set(key: string, value: Value) returns (r: Outcome<bool>)
      modifies this
      ensures Dispatch.Set(proto, old(slots), key, value).Ok? ==>
                r == Ok(true) && slots == Dispatch.Set(proto, old(slots), key, value).value
      ensures Dispatch.Set(proto, old(slots), key, value).Fail? ==>
                r == Fail(Dispatch.Set(proto, old(slots), key, value).error) && slots == old(slots)
    {
      var setter := Lookup(proto, slots, SetterName(key));
      if setter.Function? {
        slots := proto.callWithArg(setter.id, value, slots);
        return Ok(true);
      }
      var getter := Lookup(proto, slots, GetterName(key));
      if getter.Function? {
        return Fail(InvalidCall("Setting read-only property: " + proto.typeName + "::" + key));
      }
      return Fail(UnknownProperty("Setting unknown property: " + proto.typeName + "::" + key));
    }

    /**
     * The `deleteProperty` trap (`delete instance.key`): calls the setter
     * with `null` and answers true, throws for a read-only key, and
     * otherwise answers true with the slots unchanged.
     */
    method DeleteProperty(key: string) returns (r: Outcome<bool>)
      modifies this
      ensures Dispatch.Delete(proto, old(slots), key).Ok? ==>
                r == Ok(true) && slots == Dispatch.Delete(proto, old(slots), key).value
      ensures Dispatch.Delete(proto, old(slots), key).Fail? ==>
                r == Fail(Dispatch.Delete(proto, old(slots), key).error) && slots == old(slots)
    {
      var setter := Lookup(proto, slots, SetterName(key));
      if setter.Function? {
        slots := proto.callWithArg(setter.id, Null, slots);
        return Ok(true);
      }
      var getter := Lookup(proto, slots, GetterName(key));
      if getter.Function? {
        return Fail(InvalidCall("Unsetting read-only property: " + proto.typeName + "::" + key));
      }
      return Ok(true);
    }
  }
}
