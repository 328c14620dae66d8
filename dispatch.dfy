/**
 * The four traps of the `Proxy` that the `BaseObject` constructor returns
 * (base/BaseObject.js), as functions of the wrapped instance's state.
 *
 * An instance is its prototype (type name, methods, and what calling a
 * method does) together with its own slots. Looking up `instance[name]`
 * finds an own slot first, then a prototype method, and otherwise yields
 * `undefined`.
 */
module Dispatch {
  import opened Naming

  /** JavaScript values, as far as the traps tell them apart. */
  datatype Value =
    | Undefined
    | Null
    | Bool(b: bool)
    | Num(n: int)
    | Str(s: string)
    | Function(id: string)   // a function value, identified by the name of the method it was read from

  /** The instance's own properties; an absent key reads as `undefined`. */
  type Slots = map<string, Value>

  /**
   * What the instance's own class adds: the name of its constructor, the
   * names of its methods, and what calling one of them does. `callNoArgs(id, s)`
   * is the result of calling method `id` with no argument in state `s`
   * (getters read the state and do not change it); `callWithArg(id, v, s)` is
   * the state after calling method `id` with argument `v` (its return value
   * is discarded by the traps).
   */
  datatype Prototype = Prototype(
    typeName: string,
    methods: set<string>,
    callNoArgs: (string, Slots) -> Value,
    callWithArg: (string, Value, Slots) -> Slots)

  /** The two exception classes the traps throw, with their messages. */
  datatype Error =
    | InvalidCall(message: string)
    | UnknownProperty(message: string)

  datatype Outcome<T> = Ok(value: T) | Fail(error: Error)

  /** The instance methods every `BaseObject` inherits. */
  const BaseMethods: set<string> := {"className"}

  /** `instance[name]`: own slots, then the class's methods, then `BaseObject`'s. */
  function Lookup(p: Prototype, s: Slots, name: string): Value {
    if name in s then s[name]
    else if name in p.methods || name in BaseMethods then Function(name)
    else Undefined
  }

  /**
   * Calling function `id` with no argument in state `s`. `BaseObject`'s own
   * `className()` answers `this.constructor.name`, the type name; every
   * other function is the class's.
   */
  function CallNoArgs(p: Prototype, id: string, s: Slots): Value {
    if id == "className" then Str(p.typeName) else p.callNoArgs(id, s)
  }

  /**
   * Lookup precedence: an own slot shadows the prototype, even when it
   * holds `undefined`; an unshadowed name is defined exactly when it is a
   * method of the class or of `BaseObject`, and then reads as that function.
   */
  lemma LookupPrecedence(p: Prototype, s: Slots, name: string)
    ensures name in s ==> Lookup(p, s, name) == s[name]
    ensures name !in s ==> (Lookup(p, s, name) != Undefined <==> name in p.methods || name == "className")
    ensures name !in s && Lookup(p, s, name) != Undefined ==> Lookup(p, s, name) == Function(name)
  {
  }

  /** `typeof instance[key] !== "undefined"` */
  predicate IsDefined(p: Prototype, s: Slots, key: string) {
    !Lookup(p, s, key).Undefined?
  }

  /** `typeof instance[get<Key>] === "function"` */
  predicate HasGetter(p: Prototype, s: Slots, key: string) {
    Lookup(p, s, GetterName(key)).Function?
  }

  /** `typeof instance[set<Key>] === "function"` */
  predicate HasSetter(p: Prototype, s: Slots, key: string) {
    Lookup(p, s, SetterName(key)).Function?
  }

  /** The value `instance[get<Key>]()` returns. */
  function GetterResult(p: Prototype, s: Slots, key: string): Value
    requires HasGetter(p, s, key)
  {
    CallNoArgs(p, Lookup(p, s, GetterName(key)).id, s)
  }

  /** The state after `instance[set<Key>](v)`. */
  function SetterEffect(p: Prototype, s: Slots, key: string, v: Value): Slots
    requires HasSetter(p, s, key)
  {
    p.callWithArg(Lookup(p, s, SetterName(key)).id, v, s)
  }

  /** The access policy of a key, as its accessors make it. */
  datatype Policy = ReadWrite | ReadOnly | WriteOnly | Undeclared {
    predicate Readable() { this == ReadWrite || this == ReadOnly }
    predicate Writable() { this == ReadWrite || this == WriteOnly }
  }

  function PolicyOf(p: Prototype, s: Slots, key: string): (pol: Policy)
    ensures pol.Readable() <==> HasGetter(p, s, key)
    ensures pol.Writable() <==> HasSetter(p, s, key)
  {
    match (HasGetter(p, s, key), HasSetter(p, s, key))
    case (true, true) => ReadWrite
    case (true, false) => ReadOnly
    case (false, true) => WriteOnly
    case (false, false) => Undeclared
  }

  /**
   * The `get` trap. A defined slot wins over every accessor; an undefined
   * one is served by the getter, and without a getter the read fails as
   * write-only (a setter exists) or unknown.
   */
  function Get(p: Prototype, s: Slots, key: string): (r: Outcome<Value>)
    ensures IsDefined(p, s, key) ==> r == Ok(Lookup(p, s, key))
    ensures !IsDefined(p, s, key) && PolicyOf(p, s, key).Readable() ==> r == Ok(GetterResult(p, s, key))
    ensures !IsDefined(p, s, key) && PolicyOf(p, s, key) == WriteOnly ==>
              r == Fail(InvalidCall("Getting write-only property: " + p.typeName + "::" + key))
    ensures !IsDefined(p, s, key) && PolicyOf(p, s, key) == Undeclared ==>
              r == Fail(UnknownProperty("Getting unknown property: " + p.typeName + "::" + key))
  {
    var field := Lookup(p, s, key);
    if !field.Undefined? then Ok(field)
    else
      var getter := Lookup(p, s, GetterName(key));
      if getter.Function? then Ok(CallNoArgs(p, getter.id, s))
      else
        var setter := Lookup(p, s, SetterName(key));
        if setter.Function? then Fail(InvalidCall("Getting write-only property: " + p.typeName + "::" + key))
        else Fail(UnknownProperty("Getting unknown property: " + p.typeName + "::" + key))
  }

  /**
   * The `has` trap (`key in instance`). It never fails, and it answers true
   * exactly for the keys that `get` can read; a key with only a setter is
   * absent.
   */
  function Has(p: Prototype, s: Slots, key: string): (b: bool)
    ensures b <==> IsDefined(p, s, key) || PolicyOf(p, s, key).Readable()
    ensures b <==> Get(p, s, key).Ok?
  {
    !Lookup(p, s, key).Undefined? || Lookup(p, s, GetterName(key)).Function?
  }

  /**
   * The `set` trap, giving the new state on success. The setter wins even
   * over a defined slot of the same name; without a setter the write fails
   * as read-only (a getter exists) or unknown, whether or not a plain slot
   * `key` is defined.
   */
  function Set(p: Prototype, s: Slots, key: string, v: Value): (r: Outcome<Slots>)
    ensures r.Ok? <==> PolicyOf(p, s, key).Writable()
    ensures r.Ok? ==> r.value == SetterEffect(p, s, key, v)
    ensures PolicyOf(p, s, key) == ReadOnly ==>
              r == Fail(InvalidCall("Setting read-only property: " + p.typeName + "::" + key))
    ensures PolicyOf(p, s, key) == Undeclared ==>
              r == Fail(UnknownProperty("Setting unknown property: " + p.typeName + "::" + key))
  {
    var setter := Lookup(p, s, SetterName(key));
    if setter.Function? then Ok(p.callWithArg(setter.id, v, s))
    else
      var getter := Lookup(p, s, GetterName(key));
      if getter.Function? then Fail(InvalidCall("Setting read-only property: " + p.typeName + "::" + key))
      else Fail(UnknownProperty("Setting unknown property: " + p.typeName + "::" + key))
  }

  /**
   * The `deleteProperty` trap. It resets through the setter with `null`,
   * fails only for a read-only key, and otherwise succeeds without touching
   * anything: a plain slot is not removed.
   */
  function Delete(p: Prototype, s: Slots, key: string): (r: Outcome<Slots>)
    ensures r.Fail? <==> PolicyOf(p, s, key) == ReadOnly
    ensures r.Fail? ==> r.error == InvalidCall("Unsetting read-only property: " + p.typeName + "::" + key)
    ensures PolicyOf(p, s, key).Writable() ==> r == Ok(SetterEffect(p, s, key, Null))
    ensures PolicyOf(p, s, key) == Undeclared ==> r == Ok(s)
  {
    var setter := Lookup(p, s, SetterName(key));
    if setter.Function? then Ok(p.callWithArg(setter.id, Null, s))
    else
      var getter := Lookup(p, s, GetterName(key));
      if getter.Function? then Fail(InvalidCall("Unsetting read-only property: " + p.typeName + "::" + key))
      else Ok(s)
  }

  /**
   * `instance.className()` for every class and every state without an own
   * `className` slot: the `get` trap hands out the inherited method (a
   * function is defined, so no getter is consulted), and calling it answers
   * the class's type name.
   */
  lemma ClassNameThroughGet(p: Prototype, s: Slots)
    requires "className" !in s
    ensures Get(p, s, "className") == Ok(Function("className"))
    ensures CallNoArgs(p, Get(p, s, "className").value.id, s) == Str(p.typeName)
  {
  }

  /**
   * Where a write succeeds, deleting is writing `null`; where a write fails
   * as unknown, deleting is a no-op; where it fails as read-only, so does
   * deleting.
   */
  lemma DeleteIsSetNull(p: Prototype, s: Slots, key: string)
    ensures Set(p, s, key, Null).Ok? ==> Delete(p, s, key) == Set(p, s, key, Null)
    ensures Set(p, s, key, Null).Fail? && Set(p, s, key, Null).error.UnknownProperty? ==> Delete(p, s, key) == Ok(s)
    ensures Set(p, s, key, Null).Fail? && Set(p, s, key, Null).error.InvalidCall? ==> Delete(p, s, key).Fail?
  {
  }

  /**
   * Whatever the plain slot `key` holds, it decides nothing for `set` and
   * `deleteProperty`: writes and deletes succeed or fail, and fail with the
   * same exception, as they would without it.
   */
  lemma PlainSlotDoesNotGuardWrites(p: Prototype, s: Slots, key: string, w: Value, v: Value)
    ensures Set(p, s[key := w], key, v).Ok? <==> Set(p, s, key, v).Ok?
    ensures Set(p, s, key, v).Fail? ==> Set(p, s[key := w], key, v) == Set(p, s, key, v)
    ensures Delete(p, s[key := w], key).Fail? <==> Delete(p, s, key).Fail?
    ensures Delete(p, s, key).Fail? ==> Delete(p, s[key := w], key) == Delete(p, s, key)
  {
  }

  /**
   * A getter/setter pair for `key` that stores verbatim in the own slot
   * `backing` (a getter returning `this.<backing>`, a setter assigning it),
   * with `key` itself undefined and not overwritten by the setter.
   */
  ghost predicate StoresVerbatim(p: Prototype, s: Slots, key: string, backing: string) {
    && HasGetter(p, s, key) && HasSetter(p, s, key)
    && !IsDefined(p, s, key)
    && backing != key && backing != GetterName(key)
    && (forall t: Slots :: CallNoArgs(p, Lookup(p, s, GetterName(key)).id, t) == Lookup(p, t, backing))
    && (forall t: Slots, v: Value :: p.callWithArg(Lookup(p, s, SetterName(key)).id, v, t) == t[backing := v])
  }

  /** Round trip: with a verbatim pair, `set(key, v)` then `get(key)` yields `v`. */
  lemma SetThenGet(p: Prototype, s: Slots, key: string, backing: string, v: Value)
    requires StoresVerbatim(p, s, key, backing)
    ensures Set(p, s, key, v).Ok?
    ensures Get(p, Set(p, s, key, v).value, key) == Ok(v)
  {
  }

  /** Deleting a verbatim pair's key resets it: `get(key)` then yields `null`. */
  lemma DeleteThenGet(p: Prototype, s: Slots, key: string, backing: string)
    requires StoresVerbatim(p, s, key, backing)
    ensures Delete(p, s, key).Ok?
    ensures Get(p, Delete(p, s, key).value, key) == Ok(Null)
  {
  }
}
