/** Concrete scenarios of the descriptors and of the singleton construction on a
    `Person` host, following the library's unit tests and docstring example. The
    host's `__init__` (`self._name = name`) is a plain storage assignment;
    random getters are an arbitrary getter `roll`. */
module Scenarios {
  import opened PyModel
  import opened Base
  import opened PresenceRequired
  import opened Lazy
  import opened SingletonPattern

  /** The default missing-property message for `lucky_number`, spelled out. */
  lemma NotPresentLuckyNumber()
    ensures "property '" + "lucky_number" + "' is not present yet" == "property 'lucky_number' is not present yet"
  {
  }

  /** The not-writable message for `name`, spelled out. */
  lemma NotWritableName()
    ensures "setting '" + "name" + "' is not allowed" == "setting 'name' is not allowed"
  {
  }

  /** The docstring example: the first read of `lucky_number` computes and caches
      the getter's value next to `_name`; the second read returns the same value
      without running the getter again. */
  method LazyDocstringExample(roll: Getter)
    returns (first: Result<Value>, second: Result<Value>, calls: nat, after: Store)
    ensures first == Ok(roll(map["_name" := StrValue("Isaac")]))
    ensures second == first && calls == 1
    ensures after == map["_name" := StrValue("Isaac"), "_lucky_number" := first.value]
  {
    var p := new Host(map[]);
    p.Assign("_name", StrValue("Isaac"));
    var luckyNumber := new LazyProperty(Some(roll));
    luckyNumber.SetName("lucky_number");
    assert PrivateName("lucky_number") == "_lucky_number";
    var c1, c2;
    first, c1 := luckyNumber.Get(p);
    second, c2 := luckyNumber.Get(p);
    calls := c1 + c2;
    after := p.store;
  }

  /** A lazy property with a setter that writes `_lucky_number`: after writing
      100, a read returns 100 without running the getter. */
  method LazyPropertyWithSetter(roll: Getter)
    returns (first: Result<Value>, written: Outcome, second: Result<Value>, calls: nat)
    ensures first == Ok(roll(map["_name" := StrValue("Isaac")]))
    ensures written == Done && second == Ok(IntValue(100)) && calls == 0
  {
    var p := new Host(map[]);
    p.Assign("_name", StrValue("Isaac"));
    var luckyNumber := new LazyProperty(Some(roll), Some((s: Store, v: Value) => s["_lucky_number" := v]));
    luckyNumber.SetName("lucky_number");
    assert PrivateName("lucky_number") == "_lucky_number";
    var c1;
    first, c1 := luckyNumber.Get(p);
    written := luckyNumber.Set(p, IntValue(100));
    second, calls := luckyNumber.Get(p);
  }

  /** `require_presence()` on `lucky_number`, never set: the read fails with the
      default message, and a retry fails the same way. */
  method RequirePresenceMiss(roll: Getter)
    returns (r: Result<Value>, retry: Result<Value>, warning: Option<string>, after: Store)
    ensures r == Err(AttributeError("property 'lucky_number' is not present yet"))
    ensures retry == r && warning == None
    ensures after == map["_name" := StrValue("Isaac")]
  {
    var p := new Host(map[]);
    p.Assign("_name", StrValue("Isaac"));
    var luckyNumber := ApplyPartial(RequirePresence(), roll);
    luckyNumber.SetName("lucky_number");
    assert PrivateName("lucky_number") == "_lucky_number";
    RequirePresenceDefaultMessage("lucky_number", p.store);
    NotPresentLuckyNumber();
    var g1: nat, g2: nat;
    r, warning, g1 := luckyNumber.Get(p);
    var w2;
    retry, w2, g2 := luckyNumber.Get(p);
    after := p.store;
  }

  /** `require_presence()` on `name`, which `__init__` fills: the read returns the
      stored name, and a write without a setter is refused. */
  method RequirePresenceWithoutSetter(getName: Getter)
    returns (read: Result<Value>, written: Outcome, after: Store)
    ensures read == Ok(StrValue("Isaac"))
    ensures written == Failed(AttributeError("setting 'name' is not allowed"))
    ensures after == map["_name" := StrValue("Isaac")]
  {
    var p := new Host(map[]);
    p.Assign("_name", StrValue("Isaac"));
    var name := ApplyPartial(RequirePresence(), getName);
    name.SetName("name");
    assert PrivateName("name") == "_name";
    var w;
    var g1: nat;
    read, w, g1 := name.Get(p);
    LazyWriteWithoutSetter("name", p.store, StrValue("Albert"));
    NotWritableName();
    written := name.Set(p, StrValue("Albert"));
    after := p.store;
  }

  /** A presence-required `name` with a setter that writes `_name` (the default
      policy, as attaching a setter rebuilds the descriptor from its getter,
      setter, deleter and docstring): after writing "Albert" the read returns it
      and the storage is exactly `{_name: "Albert"}`. */
  method RequirePresenceWithSetter(getName: Getter)
    returns (before: Result<Value>, written: Outcome, read: Result<Value>, after: Store)
    ensures before == Ok(StrValue("Isaac")) && written == Done
    ensures read == Ok(StrValue("Albert"))
    ensures after == map["_name" := StrValue("Albert")]
  {
    var p := new Host(map[]);
    p.Assign("_name", StrValue("Isaac"));
    var name := new PresenceRequiredProperty(Some(getName), Some((s: Store, v: Value) => s["_name" := v]));
    name.SetName("name");
    assert PrivateName("name") == "_name";
    var w1, w2;
    var g1: nat, g2: nat;
    before, w1, g1 := name.Get(p);
    written := name.Set(p, StrValue("Albert"));
    read, w2, g2 := name.Get(p);
    after := p.store;
  }

  /** `with_default_value_when_missing(-1, warning)` on `lucky_number`: the first
      read warns, caches -1 next to `_name` and returns -1; the next read returns
      -1 without warning. */
  method DefaultWhenMissing(roll: Getter)
    returns (first: Result<Value>, warning: Option<string>, second: Result<Value>, again: Option<string>, after: Store)
    ensures first == Ok(IntValue(-1)) && warning == Some("the lucky number is not present yet")
    ensures after == map["_name" := StrValue("Isaac"), "_lucky_number" := IntValue(-1)]
    ensures second == first && again == None
  {
    var p := new Host(map[]);
    p.Assign("_name", StrValue("Isaac"));
    var luckyNumber := ApplyPartial(WithDefaultValueWhenMissing(IntValue(-1), Some("the lucky number is not present yet")), roll);
    luckyNumber.SetName("lucky_number");
    assert PrivateName("lucky_number") == "_lucky_number";
    var g1: nat, g2: nat;
    first, warning, g1 := luckyNumber.Get(p);
    after := p.store;
    second, again, g2 := luckyNumber.Get(p);
  }

  /** A subclass of `Singleton`, constructed twice with different arguments,
      yields one object. */
  method SingletonSubclassIdentity()
    returns (a: Result<Instance>, b: Result<Instance>)
    ensures a.Ok? && b == a && a.value.cls.name == "Config"
  {
    var singletonClass := new PyClass.Singleton();
    var config := new PyClass.Plain("Config", [singletonClass]);
    assert LookupInstance(config) == Some(None) by {
      assert FirstInstance([singletonClass]) == Some(None);
    }
    assert singletonClass in config.ancestors;
    a := SingletonNew(config, [IntValue(1)]);
    b := SingletonNew(config, [StrValue("other")]);
  }

  /** Once `Parent` has its instance, constructing `Child(Parent)` finds `_instance`
      on `Parent` and returns the parent's object. */
  method SubclassReceivesParentInstance()
    returns (p: Result<Instance>, c: Result<Instance>)
    ensures p.Ok? && c == p && c.value.cls.name == "Parent"
  {
    var singletonClass := new PyClass.Singleton();
    var parent := new PyClass.Plain("Parent", [singletonClass]);
    var child := new PyClass.Plain("Child", [parent, singletonClass]);
    assert LookupInstance(parent) == Some(None) by {
      assert FirstInstance([singletonClass]) == Some(None);
    }
    assert singletonClass in parent.ancestors;
    p := SingletonNew(parent, []);
    assert LookupInstance(child) == p.value.cls.ownInstance by {
      assert FirstInstance([parent, singletonClass]) == parent.ownInstance;
    }
    c := SingletonNew(child, []);
  }

  /** Constructing `Child(Parent)` first stores the child's object on `Child`, so
      a later `Parent()` still finds `Singleton`'s empty slot and gets another
      object. */
  method SubclassFirstGetsOwnInstance()
    returns (c: Result<Instance>, p: Result<Instance>)
    ensures c.Ok? && p.Ok? && c.value != p.value
    ensures c.value.cls.name == "Child" && p.value.cls.name == "Parent"
  {
    var singletonClass := new PyClass.Singleton();
    var parent := new PyClass.Plain("Parent", [singletonClass]);
    var child := new PyClass.Plain("Child", [parent, singletonClass]);
    assert LookupInstance(child) == Some(None) by {
      assert FirstInstance([singletonClass]) == Some(None);
      assert FirstInstance([parent, singletonClass]) == Some(None);
    }
    assert singletonClass in child.ancestors;
    c := SingletonNew(child, []);
    assert LookupInstance(parent) == Some(None) by {
      assert FirstInstance([singletonClass]) == Some(None);
    }
    assert singletonClass in parent.ancestors;
    p := SingletonNew(parent, []);
  }

  /** `@singleton` on a class that does not derive from `Singleton`, with
      `Singleton.__new__` as written: the first construction fails, because the
      allocation goes through `super(Singleton, cls)`. */
  method DecoratedPlainClassAsWritten()
    returns (r: Result<Instance>)
    ensures r == Err(SuperTypeError)
  {
    var service := new PyClass.Plain("Service", []);
    var decorated := Decorate(service);
    r := SingletonNew(decorated, []);
  }

  /** `@singleton` on a class that does not derive from `Singleton`, with the
      allocation done by `object.__new__`: two constructions with different
      arguments yield one object. */
  method DecoratedPlainClassFixed()
    returns (a: Result<Instance>, b: Result<Instance>)
    ensures a.Ok? && b == a && a.value.cls.name == "Service"
  {
    var service := new PyClass.Plain("Service", []);
    var decorated := Decorate(service);
    a := SingletonNewFixed(decorated, [IntValue(1)]);
    b := SingletonNewFixed(decorated, [IntValue(2)]);
  }
}
