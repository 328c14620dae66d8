# BaseObject virtual properties, modelled in Dafny

`BaseObject` (base/BaseObject.js) wraps every instance in a `Proxy`. Its four
traps turn a property access on `key` into a call of a naming-convention
accessor (`get<Key>()`, `set<Key>(value)`, with `<Key>` the key with its first
letter upper-cased) or into one of two exceptions, `InvalidCallException` and
`UnknownPropertyException`, with a fixed message `"<Action> <kind> property:
<TypeName>::<key>"`.

The model:

- `naming.dfy` (module `Naming`): `uppercaseFirst` and the accessor names it derives.
- `dispatch.dfy` (module `Dispatch`): JavaScript values, the instance as its
  prototype (type name, method names, what calling a function does) plus its
  own slots, `instance[name]` lookup, and the four traps `Get`, `Has`, `Set`,
  `Delete` as functions. Their contracts state each trap per access policy
  (read-write, read-only, write-only, undeclared) of the key, which is derived
  afresh from the state on every access.
- `base_object.dfy` (module `BaseObject`): class `Instance`, whose own slots are
  a mutable `map` field. `Set` and `DeleteProperty` follow the source step by
  step: look up the setter, call it and answer true; otherwise look up the
  getter and throw if it exists; with neither accessor, `Set` throws
  `UnknownProperty` while `DeleteProperty` answers true and changes nothing.
  They are proved against `Dispatch.Set` / `Dispatch.Delete`.
- `traces.dfy` (module `Traces`): a sequence of accesses on one instance, run in
  order, with the answers the traps give. The facts about order alone
  (splitting a trace, reads between which nothing changes) are proved for
  any step function, as `Replay`, and then applied to the traps.
- `user_fixture.dfy` (module `UserFixture`): the `User` class of
  test/BaseObject.test.js and every assertion of its four tests.

Lookup follows `instance[name]`: an own slot first (even one holding
`undefined`), then a method of the instance's class, then `BaseObject`'s own
`className`; a method reads as a function value, and anything else is
`undefined`. "Defined" means `typeof ... !== "undefined"`: `null` and function
values count as defined. This is how `user.className` reaches the inherited
method. Calling `className` answers the type name (`this.constructor.name`);
calling any other method is kept abstract in the prototype:
`callNoArgs(id, slots)` is what a getter returns, and
`callWithArg(id, v, slots)` is the slots after a setter ran.

Three points of the code's behaviour that are easy to misread:

- A defined slot is returned by `get` even when a setter exists.
- The slot test also sees prototype methods, not only own fields.
- `uppercaseFirst("")` is `""`. The key is used unchanged in messages.

## Model

| member | source | states |
|---|---|---|
| Naming.ToUpperAscii | base/BaseObject.js:5 | a lower-case ASCII letter becomes the upper-case letter at the same place in the alphabet; every other character is unchanged; the result is never an ASCII lower-case letter |
| Naming.UppercaseFirst | base/BaseObject.js:4-6 | same length; the first character is upper-cased; every later character is unchanged; `""` stays `""` |
| Naming.AccessorNames | base/BaseObject.js:27-33 | `set<Key>` and `get<Key>` are `"set"` / `"get"` followed by the key, whose first character is upper-cased and the rest unchanged; three characters longer than the key |
| Naming.GetterNeverSetter | base/BaseObject.js:27-33 | a `get<Key>` name never equals a `set<Key>` name, for any two keys |
| Naming.AccessorNeverKey | base/BaseObject.js:55-59 | an accessor name never equals the key it serves, so the slot test and the accessor tests look at different names |
| Naming.SharedAccessors | base/BaseObject.js:27-33 | two keys get the same getter (and the same setter) exactly when they agree up to the case of their first letter, e.g. `name` and `Name` |
| Dispatch.LookupPrecedence | base/BaseObject.js:55-65 | an own slot shadows the prototype even when it holds `undefined`; otherwise the name reads as a function exactly when the class has that method or it is the inherited `className`, and that function is the method itself |
| Dispatch.PolicyOf | base/BaseObject.js:59-65 | a key is readable exactly when `get<Key>` is a function, and writable exactly when `set<Key>` is |
| Dispatch.Get | base/BaseObject.js:54-74 | a defined slot is returned even when both accessors exist; else the getter's result; else write-only `InvalidCall` if only a setter exists; else `UnknownProperty`, each with its exact message |
| Dispatch.Has | base/BaseObject.js:75-77 | never fails; true exactly when the slot is defined or a getter exists (so a setter-only key is absent), which is exactly when `get` succeeds (getters always return in this model, see "Left out") |
| Dispatch.Set | base/BaseObject.js:26-43 | succeeds exactly when a setter exists, with the setter's effect on the state, even when a plain slot `key` is defined; otherwise read-only `InvalidCall` if a getter exists, else `UnknownProperty`, with exact messages |
| Dispatch.Delete | base/BaseObject.js:78-93 | fails exactly for read-only keys, with the "Unsetting read-only" `InvalidCall`; with a setter it has the setter's effect with `null`; for an undeclared key it succeeds and changes nothing, a plain slot included |
| Dispatch.DeleteIsSetNull | base/BaseObject.js:78-93 | where writing `null` succeeds, deleting is that write; where a write fails as unknown, deleting is a no-op; where it fails as read-only, deleting fails too |
| Dispatch.PlainSlotDoesNotGuardWrites | base/BaseObject.js:26-43 | whatever the slot `key` holds, `set` and `deleteProperty` succeed or fail as without it, and fail with the same exception |
| Dispatch.ClassNameThroughGet | base/BaseObject.js:9-11 | for every class and every state without an own `className` slot, `get` of `className` hands out the method `BaseObject` defines, and calling it answers the class's type name |
| Dispatch.SetThenGet | base/BaseObject.js:26-61 | with a getter/setter pair storing verbatim in a backing slot, `set(key, v)` succeeds and a following `get(key)` returns `v` |
| Dispatch.DeleteThenGet | base/BaseObject.js:78-83 | with such a pair, `delete` succeeds and a following `get(key)` returns `null` |
| BaseObject.Instance.ClassName | base/BaseObject.js:9-11 | unless an own slot shadows it, reading `className` through `get` yields the inherited method, and calling it answers this name |
| BaseObject.Instance.Get | base/BaseObject.js:54-74 | the `get` trap on the current slots: it succeeds exactly where the `in` test holds, and a defined slot is returned as is |
| BaseObject.Instance.Has | base/BaseObject.js:75-77 | true exactly when the slot is defined or a getter exists |
| BaseObject.Instance.Set | base/BaseObject.js:26-43 | answers true and installs the setter's effect when `Dispatch.Set` succeeds; otherwise throws its exception and leaves the slots as they were |
| BaseObject.Instance.DeleteProperty | base/BaseObject.js:78-93 | answers true with the state `Dispatch.Delete` gives, or throws its exception and leaves the slots as they were |
| Traces.Step | base/BaseObject.js:26-93 | a failed access changes nothing (accessor code never throws in this model, see "Left out"); reads and `in` tests never change the state; `in` always answers a boolean; a delete without a setter changes nothing |
| Traces.Replay | test/BaseObject.test.js:34-45 | replaying a trace with any step function gives one answer per access |
| Traces.ReplayCons | test/BaseObject.test.js:34-45 | replaying `a` then `rest` is the step on `a`, then `rest` replayed from the state it leaves, answers in that order |
| Traces.ReplaySplit | test/BaseObject.test.js:34-45 | replaying a trace is replaying any prefix of it and then the rest from the state the prefix leaves; the answers are the prefix's followed by the rest's |
| Traces.ReplayObserving | base/BaseObject.js:54-77 | with a step whose reads and `in` tests keep the state, a trace of them alone keeps the state and answers each access as on the starting state |
| Traces.ReplayRepeatsAgree | base/BaseObject.js:54-77 | with such a step, two equal reads anywhere in a trace answer the same when only reads and `in` tests stand between them |
| Traces.Run | test/BaseObject.test.js:34-45 | running the traps on an instance gives one answer per access |
| Traces.RunCons | test/BaseObject.test.js:34-45 | a non-empty trace runs its first access on the starting state, then the rest from the state that access leaves |
| Traces.TrapsObserve | base/BaseObject.js:54-77 | the `get` and `has` traps never change the instance |
| Traces.ObservingChangesNothing | base/BaseObject.js:54-77 | a trace of reads and `in` tests leaves the state as it was, and each answer is that of `get` / `has` on the starting state |
| Traces.RepeatedReadsAgree | base/BaseObject.js:54-77 | anywhere in any trace, two reads of one key answer the same when only reads and `in` tests come between them |
| Traces.WithoutSettersNothingChanges | base/BaseObject.js:26-93 | a trace whose keys have no setter leaves the state exactly as it was, whatever it reads, writes or deletes |
| UserFixture.ClassNameScenario | test/BaseObject.test.js:27 | `user.className` reaches the inherited method through `get`, and calling it answers `"User"` |
| UserFixture.GetIdScenario | test/BaseObject.test.js:28 | `user.id` is `42` |
| UserFixture.GetNameScenario | test/BaseObject.test.js:29 | `user.name` is `"Mehdi"` |
| UserFixture.GetPasswordScenario | test/BaseObject.test.js:30 | reading `password` throws `InvalidCall("Getting write-only property: User::password")` |
| UserFixture.GetUnknownScenario | test/BaseObject.test.js:31 | reading `unknown` throws `UnknownProperty("Getting unknown property: User::unknown")` |
| UserFixture.NameStoresVerbatim | test/BaseObject.test.js:10-15 | `getName` / `setName` store `name` verbatim in `__name`, so the round-trip lemmas apply to it |
| UserFixture.WritePasswordScenario | test/BaseObject.test.js:37 | `user.password = "new password"` runs `setPassword` and answers true |
| UserFixture.WriteNameScenario | test/BaseObject.test.js:38 | `user.name = "John"` runs `setName` and answers true |
| UserFixture.ReadNameScenario | test/BaseObject.test.js:39 | `user.name` then reads `"John"` |
| UserFixture.WriteReadOnlyScenario | test/BaseObject.test.js:41-43 | writing `readOnly` throws `InvalidCall("Setting read-only property: User::readOnly")` |
| UserFixture.WriteUnknownScenario | test/BaseObject.test.js:44 | writing `unknown` throws `UnknownProperty("Setting unknown property: User::unknown")` |
| UserFixture.SetTailScenario | test/BaseObject.test.js:39-44 | once `name` is `"John"`, the read-back and the two throwing writes give their three answers and change nothing |
| UserFixture.SetScenario | test/BaseObject.test.js:34-45 | the whole "BaseObject.set" test as one trace: its five answers and the final state |
| UserFixture.HasNameScenario | test/BaseObject.test.js:50 | `"name" in user` is true |
| UserFixture.HasAbsentScenario | test/BaseObject.test.js:51 | `"unknown" in user` is false, and so is the write-only `"password" in user` |
| UserFixture.DeleteNameScenario | test/BaseObject.test.js:57 | `delete user.name` on a fresh user answers true and sets `__name` to `null` through `setName` |
| UserFixture.DeletePasswordScenario | test/BaseObject.test.js:58 | `delete user.password` then answers true and sets `__password` to `null` through `setPassword` |
| UserFixture.DeleteReadOnlyScenario | test/BaseObject.test.js:59 | `delete user.readOnly` then throws `InvalidCall("Unsetting read-only property: User::readOnly")` |
| UserFixture.DeleteUnknownScenario | test/BaseObject.test.js:60 | `delete user.unknown` then answers true and changes nothing |
| UserFixture.DeleteScenario | test/BaseObject.test.js:54-61 | the whole "BaseObject.deleteProperty" test as one trace on one user: its four answers and the final state |
| UserFixture.SetTestOnInstance | test/BaseObject.test.js:34-45 | the "BaseObject.set" test run on an `Instance`, relying only on the class's contracts, reads back `"John"` and throws the two expected exceptions |

## Left out

- The `Proxy` and reflection mechanics: the prototype chain is one set of method names, and `typeof` is a test on the value's case. Members of `Object.prototype` (such as `toString`) count only when listed among the methods.
- The `receiver` argument: accessors act on the wrapped instance itself, as in the source.
- Class-field initialisation (`id = 42` and the like): it runs without a trap, so the initial slots are given to the constructor of `Instance`.
- Symbol keys: keys are strings. With a Symbol key, `get` and `has` of a defined slot answer at base/BaseObject.js:55-56 / 76 without error; every other path calls `uppercaseFirst` (lines 27, 59, 76, 79), whose `str.charAt` throws a `TypeError` on a Symbol before any message is built.
- A class overriding `className`: the model always runs `BaseObject`'s method, which answers the type name; a subclass's own `className` is not modelled.
- Full Unicode `toUpperCase`: upper-casing covers the ASCII letters only. Characters such as `ß`, which expand to several letters, are not modelled.
- Static `className()` (base/BaseObject.js:12-14): inside a static method `this.constructor` is `Function`, so it answers `"Function"`, not the type name. It is not modelled.
- The exception classes (`InvalidCallException`, `UnknownPropertyException`) are not part of this model. They are two error tags that carry a message.
- Side effects of getters: a getter reads the state and does not change it.
- Exceptions thrown by accessor code: every getter returns a value and every setter returns, so a getter that throws, and a setter that changes part of the state before throwing, are not captured; "a failed access changes nothing" holds only for the exceptions the traps throw themselves.
- The return value of a setter: the traps ignore it. A setter changes only the own slots, not the methods.
- Numbers are unbounded integers. JavaScript floating point is not modelled.
- The trap return values in strict mode (a falsy `set` answer throwing `TypeError`): the traps here always answer `true` on success, so this cannot arise.
- The vitest harness: its `User` fixture and assertions appear as scenario lemmas only.
