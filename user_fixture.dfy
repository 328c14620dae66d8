/**
 * The `User` class of test/BaseObject.test.js: an own field `id = 42`,
 * private slots `__password` and `__name`, a read-write `name` stored
 * verbatim in `__name`, a write-only `password` and a read-only `readOnly`.
 * Each test builds a fresh `User` and runs one trace of accesses on it.
 */
module UserFixture {
  import opened Naming
  import opened Dispatch
  import opened Traces
  import opened BaseObject

  const UserMethods: set<string> :=
    {"constructor", "getName", "setName", "setPassword", "getReadOnly"}

  /** What calling a `User` method with no argument returns. */
  function UserCallNoArgs(id: string, s: Slots): Value {
    if id == "getName" then (if "__name" in s then s["__name"] else Undefined)
    else if id == "getReadOnly" then Str("can't write this")
    else Undefined
  }

  /** What calling a `User` method with one argument does to the slots. */
  function UserCallWithArg(id: string, v: Value, s: Slots): Slots {
    if id == "setName" then s["__name" := v]
    else if id == "setPassword" then s["__password" := v]
    else s
  }

  function UserPrototype(): Prototype {
    Prototype("User", UserMethods, UserCallNoArgs, UserCallWithArg)
  }

  /** The slots of `new User()`. */
  function FreshUser(): Slots {
    map["id" := Num(42), "__password" := Str(""), "__name" := Str("Mehdi")]
  }

  /** `user.className()` reaches the method through the `get` trap, and calling it answers `"User"`. */
  lemma ClassNameScenario()
    ensures Get(UserPrototype(), FreshUser(), "className") == Ok(Function("className"))
    ensures CallNoArgs(UserPrototype(), Get(UserPrototype(), FreshUser(), "className").value.id, FreshUser()) == Str("User")
  {
    ClassNameThroughGet(UserPrototype(), FreshUser());
  }

  /** `user.id` is the plain field. */
  lemma GetIdScenario()
    ensures Get(UserPrototype(), FreshUser(), "id") == Ok(Num(42))
  {
  }

  /** `user.name` goes through `getName`. */
  lemma GetNameScenario()
    ensures Get(UserPrototype(), FreshUser(), "name") == Ok(Str("Mehdi"))
  {
    assert GetterName("name") == "getName";
  }

  /** Reading the write-only `password` throws. */
  lemma GetPasswordScenario()
    ensures Get(UserPrototype(), FreshUser(), "password")
            == Fail(InvalidCall("Getting write-only property: User::password"))
  {
    assert GetterName("password") == "getPassword";
    assert SetterName("password") == "setPassword";
    assert "Getting write-only property: " + "User" + "::" + "password"
           == "Getting write-only property: User::password";
  }

  /** Reading an unknown key throws. */
  lemma GetUnknownScenario()
    ensures Get(UserPrototype(), FreshUser(), "unknown")
            == Fail(UnknownProperty("Getting unknown property: User::unknown"))
  {
    assert GetterName("unknown") == "getUnknown";
    assert SetterName("unknown") == "setUnknown";
    assert "Getting unknown property: " + "User" + "::" + "unknown"
           == "Getting unknown property: User::unknown";
  }

  /** `name` is a getter/setter pair that stores verbatim in `__name`. */
  lemma NameStoresVerbatim(s: Slots)
    requires "name" !in s && "getName" !in s && "setName" !in s
    ensures StoresVerbatim(UserPrototype(), s, "name", "__name")
  {
    assert GetterName("name") == "getName";
    assert SetterName("name") == "setName";
  }

  /** The slots once `user.password = "new password"` has run. */
  function AfterPassword(): Slots {
    FreshUser()["__password" := Str("new password")]
  }

  /** The slots once `user.name = "John"` has run as well. */
  function AfterName(): Slots {
    AfterPassword()["__name" := Str("John")]
  }

  /** `user.password = "new password"` runs `setPassword`. */
  lemma WritePasswordScenario()
    ensures Set(UserPrototype(), FreshUser(), "password", Str("new password")) == Ok(AfterPassword())
    ensures Step(UserPrototype(), FreshUser(), Write("password", Str("new password"))) == (AfterPassword(), Ok(Bool(true)))
  {
    assert SetterName("password") == "setPassword";
  }

  /** `user.name = "John"` runs `setName`. */
  lemma WriteNameScenario()
    ensures Set(UserPrototype(), AfterPassword(), "name", Str("John")) == Ok(AfterName())
    ensures Step(UserPrototype(), AfterPassword(), Write("name", Str("John"))) == (AfterName(), Ok(Bool(true)))
  {
    assert SetterName("name") == "setName";
  }

  /** `user.name` then reads back `"John"`. */
  lemma ReadNameScenario()
    ensures Get(UserPrototype(), AfterName(), "name") == Ok(Str("John"))
    ensures Step(UserPrototype(), AfterName(), Read("name")) == (AfterName(), Ok(Str("John")))
  {
    assert GetterName("name") == "getName";
  }

  /** Writing the read-only `readOnly` throws. */
  lemma WriteReadOnlyScenario()
    ensures Set(UserPrototype(), AfterName(), "readOnly", Str("watch this"))
            == Fail(InvalidCall("Setting read-only property: User::readOnly"))
    ensures Step(UserPrototype(), AfterName(), Write("readOnly", Str("watch this")))
            == (AfterName(), Fail(InvalidCall("Setting read-only property: User::readOnly")))
  {
    assert SetterName("readOnly") == "setReadOnly";
    assert GetterName("readOnly") == "getReadOnly";
    assert "Setting read-only property: " + "User" + "::" + "readOnly"
           == "Setting read-only property: User::readOnly";
  }

  /** Writing an unknown key throws. */
  lemma WriteUnknownScenario()
    ensures Set(UserPrototype(), AfterName(), "unknown", Str("foo"))
            == Fail(UnknownProperty("Setting unknown property: User::unknown"))
    ensures Step(UserPrototype(), AfterName(), Write("unknown", Str("foo")))
            == (AfterName(), Fail(UnknownProperty("Setting unknown property: User::unknown")))
  {
    assert SetterName("unknown") == "setUnknown";
    assert GetterName("unknown") == "getUnknown";
    assert "Setting unknown property: " + "User" + "::" + "unknown"
           == "Setting unknown property: User::unknown";
  }

  /** The trace of the test "BaseObject.set". */
  function SetTrace(): seq<Access> {
    [ Write("password", Str("new password")),
      Write("name", Str("John")),
      Read("name"),
      Write("readOnly", Str("watch this")),
      Write("unknown", Str("foo")) ]
  }

  /** The last three accesses of "BaseObject.set": the read-back and the two writes that throw. */
  lemma SetTailScenario()
    ensures Run(UserPrototype(), AfterName(), SetTrace()[2..]) ==
            (AfterName(),
             [ Ok(Str("John")),
               Fail(InvalidCall("Setting read-only property: User::readOnly")),
               Fail(UnknownProperty("Setting unknown property: User::unknown")) ])
  {
    var p, s2, t := UserPrototype(), AfterName(), SetTrace();
    var john: Outcome<Value> := Ok(Str("John"));
    var readOnly := Fail(InvalidCall("Setting read-only property: User::readOnly"));
    var unknown := Fail(UnknownProperty("Setting unknown property: User::unknown"));
    ReadNameScenario();
    WriteReadOnlyScenario();
    WriteUnknownScenario();
    assert t[4..][1..] == [];
    RunCons(p, s2, t[4..]);
    assert [unknown] + [] == [unknown];
    assert t[3..][1..] == t[4..];
    RunCons(p, s2, t[3..]);
    assert [readOnly] + [unknown] == [readOnly, unknown];
    assert t[2..][1..] == t[3..];
    RunCons(p, s2, t[2..]);
    assert [john] + [readOnly, unknown] == [john, readOnly, unknown];
  }

  /** The test "BaseObject.set" as one trace on a fresh `User`. */
  lemma SetScenario()
    ensures Run(UserPrototype(), FreshUser(), SetTrace()) ==
            (AfterName(),
             [ Ok(Bool(true)),
               Ok(Bool(true)),
               Ok(Str("John")),
               Fail(InvalidCall("Setting read-only property: User::readOnly")),
               Fail(UnknownProperty("Setting unknown property: User::unknown")) ])
  {
    var p, t := UserPrototype(), SetTrace();
    var yes: Outcome<Value> := Ok(Bool(true));
    var tail := [ Ok(Str("John")),
                  Fail(InvalidCall("Setting read-only property: User::readOnly")),
                  Fail(UnknownProperty("Setting unknown property: User::unknown")) ];
    WritePasswordScenario();
    WriteNameScenario();
    SetTailScenario();
    assert t[1..][1..] == t[2..];
    RunCons(p, AfterPassword(), t[1..]);
    RunCons(p, FreshUser(), t);
    assert [yes] + ([yes] + tail) == [yes, yes, tail[0], tail[1], tail[2]];
  }

  /** `"name" in user` holds. */
  lemma HasNameScenario()
    ensures Has(UserPrototype(), FreshUser(), "name")
  {
    assert GetterName("name") == "getName";
  }

  /** `"unknown" in user` does not hold, and neither does the write-only `"password" in user`. */
  lemma HasAbsentScenario()
    ensures !Has(UserPrototype(), FreshUser(), "unknown")
    ensures !Has(UserPrototype(), FreshUser(), "password")
  {
    assert GetterName("unknown") == "getUnknown";
    assert GetterName("password") == "getPassword";
  }

  /** The slots once `delete user.name` has run. */
  function AfterNameReset(): Slots {
    FreshUser()["__name" := Null]
  }

  /** The slots once `delete user.password` has run as well. */
  function AfterResets(): Slots {
    AfterNameReset()["__password" := Null]
  }

  /** `delete user.name` answers true and resets `__name` to `null` through `setName`. */
  lemma DeleteNameScenario()
    ensures Delete(UserPrototype(), FreshUser(), "name") == Ok(AfterNameReset())
    ensures Step(UserPrototype(), FreshUser(), Remove("name")) == (AfterNameReset(), Ok(Bool(true)))
  {
    assert SetterName("name") == "setName";
  }

  /** `delete user.password` then answers true and resets `__password` through `setPassword`. */
  lemma DeletePasswordScenario()
    ensures Delete(UserPrototype(), AfterNameReset(), "password") == Ok(AfterResets())
    ensures Step(UserPrototype(), AfterNameReset(), Remove("password")) == (AfterResets(), Ok(Bool(true)))
  {
    assert SetterName("password") == "setPassword";
  }

  /** `delete user.readOnly` then throws. */
  lemma DeleteReadOnlyScenario()
    ensures Delete(UserPrototype(), AfterResets(), "readOnly")
            == Fail(InvalidCall("Unsetting read-only property: User::readOnly"))
    ensures Step(UserPrototype(), AfterResets(), Remove("readOnly"))
            == (AfterResets(), Fail(InvalidCall("Unsetting read-only property: User::readOnly")))
  {
    assert SetterName("readOnly") == "setReadOnly";
    assert GetterName("readOnly") == "getReadOnly";
    assert "Unsetting read-only property: " + "User" + "::" + "readOnly"
           == "Unsetting read-only property: User::readOnly";
  }

  /** `delete user.unknown` then answers true and changes nothing. */
  lemma DeleteUnknownScenario()
    ensures Delete(UserPrototype(), AfterResets(), "unknown") == Ok(AfterResets())
    ensures Step(UserPrototype(), AfterResets(), Remove("unknown")) == (AfterResets(), Ok(Bool(true)))
  {
    assert SetterName("unknown") == "setUnknown";
    assert GetterName("unknown") == "getUnknown";
  }

  /** The trace of the test "BaseObject.deleteProperty". */
  function DeleteTrace(): seq<Access> {
    [Remove("name"), Remove("password"), Remove("readOnly"), Remove("unknown")]
  }

  /** The test "BaseObject.deleteProperty" as one trace on a fresh `User`. */
  lemma DeleteScenario()
    ensures Run(UserPrototype(), FreshUser(), DeleteTrace()) ==
            (AfterResets(),
             [ Ok(Bool(true)),
               Ok(Bool(true)),
               Fail(InvalidCall("Unsetting read-only property: User::readOnly")),
               Ok(Bool(true)) ])
  {
    var p, t := UserPrototype(), DeleteTrace();
    var s1, s2 := AfterNameReset(), AfterResets();
    var yes: Outcome<Value> := Ok(Bool(true));
    var readOnly := Fail(InvalidCall("Unsetting read-only property: User::readOnly"));
    DeleteNameScenario();
    DeletePasswordScenario();
    DeleteReadOnlyScenario();
    DeleteUnknownScenario();
    assert t[3..][1..] == [];
    RunCons(p, s2, t[3..]);
    assert [yes] + [] == [yes];
    assert t[2..][1..] == t[3..];
    RunCons(p, s2, t[2..]);
    assert [readOnly] + [yes] == [readOnly, yes];
    assert t[1..][1..] == t[2..];
    RunCons(p, s1, t[1..]);
    assert [yes] + [readOnly, yes] == [yes, readOnly, yes];
    RunCons(p, FreshUser(), t);
    assert [yes] + [yes, readOnly, yes] == [yes, yes, readOnly, yes];
  }

  /** The test "BaseObject.set" run on an `Instance`, relying on the class's contracts. */
  method SetTestOnInstance() returns (name: Outcome<Value>, readOnly: Outcome<bool>, unknown: Outcome<bool>)
    ensures name == Ok(Str("John"))
    ensures readOnly == Fail(InvalidCall("Setting read-only property: User::readOnly"))
    ensures unknown == Fail(UnknownProperty("Setting unknown property: User::unknown"))
  {
    var user := new Instance(UserPrototype(), FreshUser());
    WritePasswordScenario();
    var r := user.Set("password", Str("new password"));
    assert user.slots == AfterPassword();
    WriteNameScenario();
    r := user.Set("name", Str("John"));
    assert user.slots == AfterName();
    ReadNameScenario();
    name := user.Get("name");
    WriteReadOnlyScenario();
    readOnly := user.Set("readOnly", Str("watch this"));
    WriteUnknownScenario();
    unknown := user.Set("unknown", Str("foo"));
  }
}
