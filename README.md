# Lazy properties and singletons of xpyutils, modelled in Dafny

This project models the lazy-property descriptors of `xpyutils` and its
singleton utility.

**Lazy properties.** A property descriptor computes its attribute on the first
read and caches the value in the host object's storage. The storage is the
host's `__dict__`, modelled as a `map<string, Value>` in a `Host` object. The
value is cached under the attribute's name with a leading underscore.

- `base_lazy_property` reads the cached entry, or runs its getter (`fget`) and
  caches the result. A write is refused unless there is a setter (`fset`), and
  then the setter does the whole write.
- `presence_required_property` never runs its getter. On a miss it either fails,
  with the configured error text or a default "not present yet" message, or it
  warns when a warning text is set, caches a default value and returns it.
- `lazy_property` is a pass-through subclass of the base descriptor. Its two
  factories, `require_presence` and `with_default_value_when_missing`, return
  partially applied constructors of the presence-required descriptor.

**Singletons.** `Singleton.__new__` fills a per-class `_instance` slot on the
first construction and returns that object from then on. The `singleton`
decorator installs the same `__new__` on an existing class.

**Structure.** Each descriptor is a class with the source's fields.
`presence_required_property` and `lazy_property` hold their
`base_lazy_property` part in a `base` field, which stands in for the
`super().__init__` call. A read or a write is a method of the descriptor that takes the `Host`. The methods
are proved equal to the step functions `LazyRead`, `LazyWrite` and
`PresenceRead`. The lemmas state what those functions promise, over one access
and over any run of consecutive reads.

The getter is a total function of the host's storage. The setter maps the
storage and the written value to the new storage. The model returns a warning
as its text, and how many times a read ran the getter as a count. A class
object in the singleton model keeps its own `_instance` entry and the classes
after it in its method resolution order. So `cls._instance` is looked up
through the hierarchy, but the assignment lands on `cls` itself.

Files:

- `pymodel.dfy`: values, the host object and the errors.
- `base.dfy`: `xpyutils/property/base.py`.
- `presence_required.dfy`: `xpyutils/property/presence_required.py`.
- `lazy.dfy`: `xpyutils/property/lazy.py`.
- `singleton.dfy`: `xpyutils/singleton.py`.
- `scenarios.dfy`: the unit tests of `tests/test_lazy_property.py`, the
  docstring example and the singleton cases, as verified scenario methods.

Behaviour of the code worth noting:

- **Miss with no getter.** A read with no getter and no cached entry calls
  `self.fget(obj)` while `self.fget` is `None`. That is a `TypeError`, which the model returns as
  `NoneNotCallable`.
- **Deletion.** The code does not override `__delete__`. Reads never remove the
  cached entry, and neither does any other code in the library. A
  user-supplied setter or deleter, or the host's own code, can remove it, and
  the next read then resolves the attribute again.
- **Decorator.** The `singleton` decorator does not work on a class that lacks
  the `Singleton` base. See Findings.
- **Subclasses.** A subclass of a singleton class inherits `Singleton.__new__`.
  Once the parent class has its instance, constructing the subclass returns the
  parent's object.

## Model

| member | source | states |
|---|---|---|
| `PyModel.Host.Assign` | tests/test_lazy_property.py:7-8 | the host's own assignment `self._name = name` puts the value in the storage under that key and changes nothing else |
| `Base.PrivateName` | xpyutils/property/base.py:43-44 | the storage key is the name with a leading `_`: one character longer, starting with `_`, followed by the name, and never equal to the name |
| `Base.PrivateNameInjective` | xpyutils/property/base.py:41-44 | two attribute names get the same storage key exactly when they are the same name |
| `Base.BaseLazyProperty.constructor` | xpyutils/property/base.py:11-36 | the getter, setter, deleter and docstring are kept exactly as passed, each defaulting to none; the descriptor starts unbound |
| `Base.BaseLazyProperty.SetName` | xpyutils/property/base.py:38-44 | binding sets the public name to `name` and the storage key to `"_" + name`, and the two differ |
| `Base.BaseLazyProperty.Get` | xpyutils/property/base.py:46-58 | the read returns, stores and counts getter runs exactly as `LazyRead` says, for the descriptor's getter and key on the host's storage before the call |
| `Base.BaseLazyProperty.Set` | xpyutils/property/base.py:60-65 | the write's outcome and the host's new storage are exactly as `LazyWrite` says, for the descriptor's setter and name |
| `Base.LazyRead` | xpyutils/property/base.py:46-58 | one `__get__` on the storage: the getter runs at most once, no key is removed, and a failed read changes nothing and runs no getter; `LazyReadSucceeds` gives when it succeeds and runs the getter, `LazyReadsCacheOnce` what a run of reads does |
| `Base.LazyWrite` | xpyutils/property/base.py:60-65 | one `__set__`: it succeeds if and only if there is a setter, and without one the storage is unchanged; `LazyWriteWithoutSetter` and `LazyWriteDelegates` give the exact outcome and storage |
| `Base.LazyReadHit` | xpyutils/property/base.py:49-50 | with an entry under the key, a read returns it, leaves the storage as it was and does not run the getter |
| `Base.LazyReadMiss` | xpyutils/property/base.py:53-58 | on a miss with a getter, the getter runs once on the current storage, and its value is cached under the key and returned |
| `Base.LazyReadSucceeds` | xpyutils/property/base.py:46-58 | a read succeeds if and only if the descriptor is bound and there is an entry or a getter; the getter runs if and only if it is a bound miss with a getter, at most once |
| `Base.LazyReadCaches` | xpyutils/property/base.py:53-58 | after every successful read, the returned value is cached under the key |
| `Base.LazyReadFailureTouchesNothing` | xpyutils/property/base.py:53-56 | a failed read, such as a miss with no getter, leaves the storage as it was and creates no entry |
| `Base.LazyReadFrame` | xpyutils/property/base.py:56 | a read adds at most its own key, removes no key and leaves every other entry unchanged |
| `Base.LazyReadIdempotent` | xpyutils/property/base.py:46-58 | a second read right after the first returns the same result, leaves the storage unchanged and does not run the getter |
| `Base.LazyWriteWithoutSetter` | xpyutils/property/base.py:62-63 | a write with no setter fails with exactly `setting '<name>' is not allowed` and leaves the storage unchanged |
| `Base.LazyWriteDelegates` | xpyutils/property/base.py:65 | a write with a setter succeeds, and the new storage is exactly what the setter makes of the old storage and the value; the descriptor caches nothing itself |
| `Base.WriteThenRead` | tests/test_lazy_property.py:27-38 | when the setter stores the value under the key, a later read returns the written value without running the getter |
| `Base.LazyReadsSettled` | xpyutils/property/base.py:49-50 | once a read runs no getter, any number of further reads return the same result, leave the storage unchanged and run no getter |
| `Base.LazyReadsCacheOnce` | xpyutils/property/base.py:46-58 | over any positive number of consecutive reads, the getter runs at most once; every read returns what the first returned; the storage ends as the first read left it |
| `PresenceRequired.PresenceRequiredProperty.constructor` | xpyutils/property/presence_required.py:8-30 | the getter, setter, deleter and docstring go to the base part; the four policy fields are kept as passed, defaulting to fail on a miss, default value `None`, no warning text and no error text |
| `PresenceRequired.PresenceRequiredProperty.SetName` | xpyutils/property/base.py:38-44 | binding is the inherited one: public name `name`, storage key `"_" + name` |
| `PresenceRequired.PresenceRequiredProperty.Get` | xpyutils/property/presence_required.py:32-52 | the read's result, the host's new storage and the emitted warning are exactly as `PresenceRead` says under the descriptor's policy; the getter is not an input of `PresenceRead`, and the reported getter runs are zero |
| `PresenceRequired.PresenceRequiredProperty.Set` | xpyutils/property/base.py:60-65 | writes keep the base descriptor's behaviour, `LazyWrite`, for the same setter and name |
| `PresenceRequired.PresenceRead` | xpyutils/property/presence_required.py:32-52 | one `__get__` under a policy, with no getter input: no key is removed, a failure changes nothing and warns nothing, and a warning comes only under the default-value policy; `PresenceReadAllOrNothing`, `PresenceMissDefault` and `PresenceReadsWarnOnce` say the rest |
| `PresenceRequired.PresenceReadHit` | xpyutils/property/presence_required.py:35-36 | with an entry under the key, a read returns it, changes nothing and warns nothing, whatever the policy |
| `PresenceRequired.PresenceMissCustomError` | xpyutils/property/presence_required.py:39-41 | a miss under a failing policy that has an error text fails with exactly that text and changes nothing |
| `PresenceRequired.PresenceMissDefaultError` | xpyutils/property/presence_required.py:42-43 | a miss under a failing policy with no error text fails with exactly `property '<name>' is not present yet` and changes nothing |
| `PresenceRequired.PresenceMissDefault` | xpyutils/property/presence_required.py:45-52 | a miss under the non-failing policy warns if and only if a warning text is set, caches the default under the key, changes no other entry and returns the default |
| `PresenceRequired.PresenceReadAllOrNothing` | xpyutils/property/presence_required.py:32-52 | a read either succeeds with the returned value cached, or fails with the storage unchanged and no warning; a warning comes only from a miss that installed the default |
| `PresenceRequired.PresenceDefaultSticks` | xpyutils/property/presence_required.py:35-52 | after any read, a second read returns the same result, changes nothing and emits no warning, so an installed default is returned again without a second warning |
| `PresenceRequired.PresenceReadsSettled` | xpyutils/property/presence_required.py:35-43 | once a read changes nothing, any number of further reads return the same, change nothing and warn nothing |
| `PresenceRequired.PresenceReadsWarnOnce` | xpyutils/property/presence_required.py:32-52 | over any positive number of consecutive reads, every read returns what the first returned, the storage ends as the first read left it, and only the first read can warn, at most once; a retried failing read keeps failing the same way |
| `Lazy.LazyProperty.constructor` | xpyutils/property/lazy.py:37-62 | the four arguments are forwarded unchanged to the base part, which starts unbound |
| `Lazy.LazyProperty.SetName` | xpyutils/property/lazy.py:7 | binding is the inherited one |
| `Lazy.LazyProperty.Get` | xpyutils/property/lazy.py:7 | a read is exactly the base read, `LazyRead`, since no access method is overridden |
| `Lazy.LazyProperty.Set` | xpyutils/property/lazy.py:7 | a write is exactly the base write, `LazyWrite` |
| `Lazy.ApplyPartial` | xpyutils/property/lazy.py:83-115 | applying a factory's partial to the decorated method `f` gives a fresh, unbound presence-required descriptor with getter `f`, no setter, deleter or docstring, and each policy field bound by the partial, the rest taking the constructor's defaults |
| `Lazy.RequirePresence` | xpyutils/property/lazy.py:64-86 | the keywords `require_presence(m)` binds resolve to the policy fail on a miss, default `None`, no warning, error text `m`; `RequirePresenceDefaultMessage` gives the read's outcome |
| `Lazy.WithDefaultValueWhenMissing` | xpyutils/property/lazy.py:88-115 | the keywords `with_default_value_when_missing(d, w)` binds resolve to the policy do not fail, default `d`, warning `w`, no error text; `WithDefaultNoWarning` gives the read's outcome |
| `Lazy.RequirePresenceDefaultMessage` | xpyutils/property/lazy.py:65-68 | `require_presence()` with no argument leaves the error text unset, so a miss fails with `property '<name>' is not present yet` and changes nothing |
| `Lazy.WithDefaultNoWarning` | xpyutils/property/lazy.py:92 | `with_default_value_when_missing(d)` with no warning text caches and returns `d` on a miss, and warns nothing |
| `SingletonPattern.PyClass.Singleton` | xpyutils/singleton.py:4-9 | the class `Singleton` has its own `_instance` set to `None` and its own `__new__` |
| `SingletonPattern.LookupInstance` | xpyutils/singleton.py:12 | `cls._instance` is the class's own entry when it has one, otherwise the lookup along the rest of its method resolution order, and nothing exactly when no class on it has one; `FirstInstanceIsFirstOwn` states it for the whole order |
| `SingletonPattern.FirstInstanceIsFirstOwn` | xpyutils/singleton.py:12 | `cls._instance` finds the entry of the first class in the method resolution order that has one of its own, and nothing if and only if no class has one |
| `SingletonPattern.SingletonNew` | xpyutils/singleton.py:9-16 | as written: while the slot found is empty, construction creates a fresh instance of `cls` and stores it on `cls` itself if `cls` derives from `Singleton`, and otherwise fails with the `super` TypeError; after that it returns the stored object and changes nothing; the arguments play no part |
| `SingletonPattern.SingletonNewFixed` | xpyutils/singleton.py:9-16 | with `object.__new__` allocation: an empty slot makes construction create, store on `cls` and return a fresh instance of `cls`; a filled slot returns its object unchanged; once set, the slot is never reset |
| `SingletonPattern.Decorate` | xpyutils/singleton.py:18-38 | the decorator sets the class's own `_instance` to `None`, installs `Singleton.__new__` and returns the same class object |
| `SingletonPattern.ConstructTwice` | xpyutils/singleton.py:9-16 | for a class that derives from `Singleton`, under `__new__` as written and with any two argument lists, an empty slot makes the first call create a fresh object, and once it has an object the second call returns that same object |
| `SingletonPattern.ConstructTwiceFixed` | xpyutils/singleton.py:9-16 | the same promise for any class, with the corrected `object.__new__` allocation in place of `super().__new__(cls)` |
| `Scenarios.LazyDocstringExample` | xpyutils/property/lazy.py:19-33 | the first read caches the getter's value next to `_name`; the second read returns the same value; the getter runs once |
| `Scenarios.LazyPropertyWithSetter` | tests/test_lazy_property.py:16-38 | after writing 100 through a setter that stores `_lucky_number`, a read returns 100 without running the getter |
| `Scenarios.RequirePresenceMiss` | tests/test_lazy_property.py:40-60 | a never-set `require_presence()` property fails with `property 'lucky_number' is not present yet`, fails the same way on a retry, and leaves the storage unchanged |
| `Scenarios.RequirePresenceWithoutSetter` | tests/test_lazy_property.py:62-82 | the read returns the name set by `__init__`; the write fails with `setting 'name' is not allowed` and leaves the storage unchanged |
| `Scenarios.RequirePresenceWithSetter` | tests/test_lazy_property.py:84-109 | after writing "Albert" through the setter, the read returns "Albert" and the storage is exactly `{_name: "Albert"}` |
| `Scenarios.DefaultWhenMissing` | tests/test_lazy_property.py:111-136 | the first read returns -1 and emits the configured warning; the storage becomes `{_name: "Isaac", _lucky_number: -1}`; the next read returns -1 with no warning |
| `Scenarios.SingletonSubclassIdentity` | xpyutils/singleton.py:4-16 | two constructions of a `Singleton` subclass with different arguments return one object |
| `Scenarios.SubclassReceivesParentInstance` | xpyutils/singleton.py:12-13 | once the parent class has its instance, constructing a subclass returns the parent's object |
| `Scenarios.SubclassFirstGetsOwnInstance` | xpyutils/singleton.py:12-13 | constructing the subclass first stores its object on the subclass, so the parent later gets a different object |
| `Scenarios.DecoratedPlainClassAsWritten` | xpyutils/singleton.py:13 | as written, constructing a decorated class that does not derive from `Singleton` fails with the `super` TypeError |
| `Scenarios.DecoratedPlainClassFixed` | xpyutils/singleton.py:18-38 | with the corrected allocation, two constructions of such a decorated class return one object |

## Findings

| source | as written | input that shows it | evidently intended | confidence | as-written member | corrected member |
|---|---|---|---|---|---|---|
| xpyutils/singleton.py:13 | the instance is allocated by `super().__new__(cls)`. The zero-argument `super()` here is bound to `Singleton`, so it is `super(Singleton, cls)`, and that requires `cls` to derive from `Singleton` | `@singleton class Service: pass` followed by `Service()`: the first construction raises TypeError | the decorator makes any class a singleton without inheriting from `Singleton` (its docstring, lines 19-27); allocating with `object.__new__(cls)` does that | high; not executed | `Scenarios.DecoratedPlainClassAsWritten` (on `SingletonPattern.SingletonNew`) | `SingletonPattern.SingletonNewFixed`, with `Scenarios.DecoratedPlainClassFixed` and `SingletonPattern.ConstructTwiceFixed` |

For a class that derives from `Singleton`, the two `__new__` models have the
same contract.

## Left out

- Python's descriptor and class machinery is not modelled. That covers the
  automatic `__set_name__` call when the owner class is created, attribute
  interception and reads through the class (`obj` is `None`). Binding, reading
  and writing are explicit method calls instead. `SetName` ignores the owner
  argument, as the source does.
- Attaching a setter with `.setter` is not modelled. It rebuilds the descriptor
  from its getter, setter, deleter and docstring only, and the policy fields of
  a presence-required descriptor are evidently not carried over. The scenarios
  build a descriptor that has a setter directly through its constructor, with
  the default policy.
- Deletion is not modelled. Neither descriptor overrides `__delete__`, so
  deletion is the built-in `property`'s. The deleter is stored but never used.
- Getters are total and pure functions of the host's storage. A getter that
  raises, mutates the host or draws random numbers is not modelled. The tests'
  random getter is an arbitrary getter parameter.
- `Base.BaseLazyProperty.Get` counts getter runs only. It does not model a
  getter's own effects on the host.
- The `warnings` module's output channel is not modelled. Only the text of an
  emitted warning is.
- Presence of an attribute is membership in the host's storage. General
  `hasattr`/`getattr` lookup is not modelled: class attributes, `__getattr__`
  hooks and `__slots__` are all out.
- Python's own error messages are reduced to error kinds with no text. Those
  are the missing-attribute error on an unbound descriptor or a class without
  `_instance`, calling a `None` getter, and the `super` TypeError. The messages
  the library itself raises are modelled exactly.
- Values are limited to `None`, integers and strings.
- For singletons, `__init__` running again on every construction and
  `type.__call__` are not modelled. The method resolution order is an input
  to each class rather than computed from its bases. Construction calls
  `SingletonNew` directly instead of dispatching on the class's `__new__`, so
  `ownNewIsSingletonNew` only records what the decorator installs. The check whether a class
  derives from `Singleton` looks for the class object flagged as `Singleton`.
  Positional and keyword arguments are merged into one list, which plays no
  part in the result.
- Thread safety is not modelled; the library provides none.
