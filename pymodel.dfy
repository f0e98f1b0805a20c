/** The vocabulary the descriptor modules share: the Python values an attribute
    can hold, a host object with its per-instance storage (its `__dict__`), the
    getter, setter and deleter callables a property is built from, and the
    errors an attribute access can raise. */
module PyModel {

  datatype Option<+T> = None | Some(value: T)

  /** The Python values the model needs; `NoneValue` is Python's `None`. */
  datatype Value = NoneValue | IntValue(i: int) | StrValue(s: string)

  /** A host object's `__dict__`: storage key to stored value. */
  type Store = map<string, Value>

  /** `fget(obj)`: what the getter computes, as a function of the host's storage. */
  type Getter = Store -> Value

  /** `fset(obj, value)`: the host's storage after the setter ran. */
  type Setter = (Store, Value) -> Store

  /** `fdel(obj)`: the host's storage after the deleter ran. */
  type Deleter = Store -> Store

  /** The failures an access can end in. */
  datatype Error =
      /** `raise AttributeError(message)` in the descriptors' own code. */
    | AttributeError(message: string)
      /** An attribute the code reads that was never set, such as a descriptor's
          `private_property_name` before `__set_name__` ran or a class's `_instance`. */
    | MissingAttribute(attribute: string)
      /** Calling a getter that is `None` (a `TypeError` in Python). */
    | NoneNotCallable
      /** `super(Singleton, cls)` with a `cls` that does not derive from `Singleton`
          (a `TypeError` in Python). */
    | SuperTypeError

  datatype Result<+T> = Ok(value: T) | Err(error: Error)

  /** The outcome of an attribute write, which returns nothing. */
  datatype Outcome = Done | Failed(error: Error)

  /** An object whose attributes are managed by lazy-property descriptors. Its
      class holds the descriptors; the object holds only its storage. */
  class Host {
    var store: Store

    constructor (initial: Store)
      ensures store == initial
    {
      store := initial;
    }

    /** A plain attribute assignment by the host's own code, as `self._name = name`
        in an `__init__`: it lands in the storage directly. */
    method Assign(key: string, v: Value)
      modifies this
      ensures store == old(store)[key := v]
    {
      store := store[key := v];
    }
  }
}
