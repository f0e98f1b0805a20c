/** `Singleton` and the `singleton` class decorator: construction of a class
    whose `__new__` is `Singleton.__new__` creates an object only while the
    class's `_instance` slot is empty, stores it there, and from then on returns
    that stored object.

    `cls._instance` is read through the class hierarchy but assigned on `cls`
    itself, so the model keeps, per class object, its own `_instance` entry and
    the classes after it in its method resolution order. */
module SingletonPattern {
  import opened PyModel

  /** An object allocated by `object.__new__(cls)`; identity is reference identity. */
  class Instance {
    const cls: PyClass

    constructor (cls: PyClass)
      ensures this.cls == cls
    {
      this.cls := cls;
    }
  }

  /** A Python class object, as far as `singleton.py` looks at it. */
  class PyClass {
    const name: string
    /** The classes after this one in its method resolution order, `__mro__[1:]`. */
    const ancestors: seq<PyClass>
    /** Whether this is the class `Singleton` itself. */
    const isSingletonBase: bool
    /** This class's own `_instance` entry: None when its `__dict__` has none,
        Some(None) when it holds `None`, Some(Some(o)) when it holds `o`. */
    var ownInstance: Option<Option<Instance>>
    /** Whether this class's own `__dict__` holds `Singleton.__new__` as `__new__`.
        It only records the decorator's effect: construction is modelled by calling
        `SingletonNew` directly, so nothing reads this field. */
    var ownNewIsSingletonNew: bool

    /** The class `Singleton`, whose body sets `_instance = None` and defines `__new__`. */
    constructor Singleton()
      ensures name == "Singleton" && ancestors == [] && isSingletonBase
      ensures ownInstance == Some(None) && ownNewIsSingletonNew
    {
      name, ancestors, isSingletonBase := "Singleton", [], true;
      ownInstance, ownNewIsSingletonNew := Some(None), true;
    }

    /** A class statement whose body defines neither `_instance` nor `__new__`,
        with the given method resolution order after itself. */
    constructor Plain(name: string, ancestors: seq<PyClass>)
      ensures this.name == name && this.ancestors == ancestors && !isSingletonBase
      ensures ownInstance == None && !ownNewIsSingletonNew
    {
      this.name, this.ancestors, isSingletonBase := name, ancestors, false;
      ownInstance, ownNewIsSingletonNew := None, false;
    }
  }

  /** The first own `_instance` entry along `chain`, in order. */
  function FirstInstance(chain: seq<PyClass>): Option<Option<Instance>>
    reads chain
  {
    if chain == [] then None
    else if chain[0].ownInstance.Some? then chain[0].ownInstance
    else FirstInstance(chain[1..])
  }

  /** Attribute lookup of `cls._instance` through the class hierarchy; None when no
      class on the way has the attribute. */
  function LookupInstance(cls: PyClass): (r: Option<Option<Instance>>)
    reads cls, cls.ancestors
    ensures cls.ownInstance.Some? ==> r == cls.ownInstance
    ensures cls.ownInstance.None? ==> r == FirstInstance(cls.ancestors)
    ensures r.None? <==> cls.ownInstance.None? && forall j :: 0 <= j < |cls.ancestors| ==> cls.ancestors[j].ownInstance.None?
  {
    var chain := [cls] + cls.ancestors;
    FirstInstanceIsFirstOwn(chain);
    assert chain[1..] == cls.ancestors;
    assert forall j :: 0 <= j < |cls.ancestors| ==> chain[j + 1] == cls.ancestors[j];
    FirstInstance(chain)
  }

  /** `issubclass(cls, Singleton)`. */
  predicate DerivesFromSingleton(cls: PyClass)
  {
    cls.isSingletonBase || exists c :: c in cls.ancestors && c.isSingletonBase
  }

  /** The lookup finds the entry of the first class on the chain that has one of
      its own, and nothing when no class on the chain has one. */
  lemma {:induction false} FirstInstanceIsFirstOwn(chain: seq<PyClass>)
    ensures FirstInstance(chain).None? <==> forall j :: 0 <= j < |chain| ==> chain[j].ownInstance.None?
    ensures forall i :: 0 <= i < |chain| && chain[i].ownInstance.Some?
                        && (forall j :: 0 <= j < i ==> chain[j].ownInstance.None?)
                        ==> FirstInstance(chain) == chain[i].ownInstance
    decreases |chain|
  {
    if chain != [] {
      FirstInstanceIsFirstOwn(chain[1..]);
      forall i | 0 <= i < |chain| && chain[i].ownInstance.Some?
                 && (forall j :: 0 <= j < i ==> chain[j].ownInstance.None?)
        ensures FirstInstance(chain) == chain[i].ownInstance
      {
        if i > 0 {
          assert chain[1..][i - 1] == chain[i];
          assert forall j :: 0 <= j < i - 1 ==> chain[1..][j] == chain[j + 1];
        }
      }
      if forall j :: 0 <= j < |chain| ==> chain[j].ownInstance.None? {
        assert forall j :: 0 <= j < |chain| - 1 ==> chain[1..][j] == chain[j + 1];
      }
    }
  }

  /** `Singleton.__new__(cls, *args, **kwargs)` as written: the arguments play no
      part, and the allocation `super().__new__(cls)` is `super(Singleton, cls)`,
      which fails for a `cls` that does not derive from `Singleton`. */
  method SingletonNew(cls: PyClass, args: seq<Value>) returns (r: Result<Instance>)
    modifies cls
    ensures cls.ownNewIsSingletonNew == old(cls.ownNewIsSingletonNew)
    ensures match old(LookupInstance(cls))
      case None => r == Err(MissingAttribute("_instance")) && cls.ownInstance == old(cls.ownInstance)
      case Some(Some(o)) => r == Ok(o) && cls.ownInstance == old(cls.ownInstance)
      case Some(None) =>
        if DerivesFromSingleton(cls) then
          r.Ok? && fresh(r.value) && r.value.cls == cls && cls.ownInstance == Some(Some(r.value))
        else
          r == Err(SuperTypeError) && cls.ownInstance == old(cls.ownInstance)
    ensures r.Ok? ==> LookupInstance(cls) == Some(Some(r.value))
  {
    var slot := LookupInstance(cls);
    match slot
    case None =>
      r := Err(MissingAttribute("_instance"));
    case Some(None) =>
      if DerivesFromSingleton(cls) {
        var o := new Instance(cls);
        cls.ownInstance := Some(Some(o));
        r := Ok(o);
      } else {
        r := Err(SuperTypeError);
      }
    case Some(Some(o)) =>
      r := Ok(o);
  }

  /** `Singleton.__new__` with the allocation done by `object.__new__(cls)`, which
      works for every class, so that the decorator needs no `Singleton` base. */
  method SingletonNewFixed(cls: PyClass, args: seq<Value>) returns (r: Result<Instance>)
    modifies cls
    ensures cls.ownNewIsSingletonNew == old(cls.ownNewIsSingletonNew)
    ensures match old(LookupInstance(cls))
      case None => r == Err(MissingAttribute("_instance")) && cls.ownInstance == old(cls.ownInstance)
      case Some(Some(o)) => r == Ok(o) && cls.ownInstance == old(cls.ownInstance)
      case Some(None) => r.Ok? && fresh(r.value) && r.value.cls == cls && cls.ownInstance == Some(Some(r.value))
    ensures r.Ok? ==> LookupInstance(cls) == Some(Some(r.value))
  {
    var slot := LookupInstance(cls);
    match slot
    case None =>
      r := Err(MissingAttribute("_instance"));
    case Some(None) =>
      var o := new Instance(cls);
      cls.ownInstance := Some(Some(o));
      r := Ok(o);
    case Some(Some(o)) =>
      r := Ok(o);
  }

  /** The `singleton` decorator: sets the class's own `_instance` to `None`,
      installs `Singleton.__new__` as its `__new__`, and returns the same class. */
  method Decorate(cls: PyClass) returns (decorated: PyClass)
    modifies cls
    ensures decorated == cls
    ensures cls.ownInstance == Some(None) && cls.ownNewIsSingletonNew
  {
    cls.ownInstance := Some(None);
    cls.ownNewIsSingletonNew := true;
    decorated := cls;
  }

  /** Two constructions of one class that derives from `Singleton`, with any
      arguments, under `Singleton.__new__` as written: an empty slot makes the
      first one create an object, and once the first has produced an object,
      the second returns that same object and the slot keeps holding it. */
  method ConstructTwice(cls: PyClass, args1: seq<Value>, args2: seq<Value>)
    returns (first: Result<Instance>, second: Result<Instance>)
    requires DerivesFromSingleton(cls)
    modifies cls
    ensures old(LookupInstance(cls)) == Some(None) ==> first.Ok? && fresh(first.value) && first.value.cls == cls
    ensures first.Ok? ==> second == first && LookupInstance(cls) == Some(Some(first.value))
  {
    first := SingletonNew(cls, args1);
    second := SingletonNew(cls, args2);
  }

  /** Two constructions of any class, with any arguments, under the corrected
      `object.__new__` allocation: the same promise as `ConstructTwice`, without
      the `Singleton` base. */
  method ConstructTwiceFixed(cls: PyClass, args1: seq<Value>, args2: seq<Value>)
    returns (first: Result<Instance>, second: Result<Instance>)
    modifies cls
    ensures old(LookupInstance(cls)) == Some(None) ==> first.Ok? && fresh(first.value) && first.value.cls == cls
    ensures first.Ok? ==> second == first && LookupInstance(cls) == Some(Some(first.value))
  {
    first := SingletonNewFixed(cls, args1);
    second := SingletonNewFixed(cls, args2);
  }
}
