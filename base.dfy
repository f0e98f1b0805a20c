/** `base_lazy_property`: a property descriptor that computes its value on the
    first read through the getter, caches it in the host's storage under a
    private key, and lets writes through only when a setter was supplied.

    The behaviour of one read and one write is given by the functions `LazyRead`
    and `LazyWrite` over the host's storage; the descriptor class's methods are
    proved to do exactly that, and the lemmas below state what those functions
    promise. */
module Base {
  import opened PyModel

  /** The storage key a public attribute name is cached under: the name with a
      leading underscore. */
  function PrivateName(name: string): (key: string)
    ensures |key| == |name| + 1 && key[0] == '_' && key[1..] == name
    ensures key != name
  {
    "_" + name
  }

  /** Distinct attribute names are cached under distinct keys. */
  lemma PrivateNameInjective(a: string, b: string)
    ensures PrivateName(a) == PrivateName(b) <==> a == b
  {
  }

  /** The message of the error a write without a setter raises. */
  function NotWritableMessage(name: string): string
  {
    "setting '" + name + "' is not allowed"
  }

  /** One read of the attribute: what it returns, the host's storage afterwards,
      and how many times it ran the getter. */
  datatype ReadStep = ReadStep(result: Result<Value>, store: Store, getterCalls: nat)

  /** One write of the attribute: its outcome and the host's storage afterwards. */
  datatype WriteStep = WriteStep(outcome: Outcome, store: Store)

  /** `__get__` of a descriptor with getter `fget` and private name `key` (None
      until `__set_name__` ran) on a host whose storage is `s`. */
  function LazyRead(fget: Option<Getter>, key: Option<string>, s: Store): (step: ReadStep)
    ensures step.getterCalls <= 1
    ensures s.Keys <= step.store.Keys
    ensures step.result.Err? ==> step.store == s && step.getterCalls == 0
  {
    match key
    case None => ReadStep(Err(MissingAttribute("private_property_name")), s, 0)
    case Some(k) =>
      if k in s then ReadStep(Ok(s[k]), s, 0)
      else
        match fget
        case None => ReadStep(Err(NoneNotCallable), s, 0)
        case Some(f) =>
          var v := f(s);
          ReadStep(Ok(v), s[k := v], 1)
  }

  /** `__set__` of a descriptor with setter `fset` and public name `name` (None
      until `__set_name__` ran), writing `v` on a host whose storage is `s`. */
  function LazyWrite(fset: Option<Setter>, name: Option<string>, s: Store, v: Value): (step: WriteStep)
    ensures step.outcome == Done <==> fset.Some?
    ensures fset.None? ==> step.store == s
  {
    match fset
    case None =>
      (match name
       case None => WriteStep(Failed(MissingAttribute("property_name")), s)
       case Some(n) => WriteStep(Failed(AttributeError(NotWritableMessage(n))), s))
    case Some(f) => WriteStep(Done, f(s, v))
  }

  /** A cache hit returns the stored entry, leaves the storage as it was and does
      not run the getter. */
  lemma LazyReadHit(fget: Option<Getter>, k: string, s: Store)
    requires k in s
    ensures LazyRead(fget, Some(k), s) == ReadStep(Ok(s[k]), s, 0)
  {
  }

  /** A miss with a getter runs it once on the current storage, caches its value
      under the key and returns that same value. */
  lemma LazyReadMiss(f: Getter, k: string, s: Store)
    requires k !in s
    ensures var step := LazyRead(Some(f), Some(k), s);
      && step.getterCalls == 1
      && step.result == Ok(f(s))
      && k in step.store && step.store[k] == f(s)
  {
  }

  /** A read succeeds exactly when the descriptor is bound and either the entry is
      cached or there is a getter; the getter runs exactly on a bound miss. */
  lemma LazyReadSucceeds(fget: Option<Getter>, key: Option<string>, s: Store)
    ensures var step := LazyRead(fget, key, s);
      && (step.result.Ok? <==> key.Some? && (key.value in s || fget.Some?))
      && (step.getterCalls == 1 <==> key.Some? && key.value !in s && fget.Some?)
      && step.getterCalls <= 1
  {
  }

  /** Every successful read leaves the returned value cached under the key, so
      the host is never left half resolved. */
  lemma LazyReadCaches(fget: Option<Getter>, key: Option<string>, s: Store)
    ensures var step := LazyRead(fget, key, s);
      step.result.Ok? ==> key.Some? && key.value in step.store && step.store[key.value] == step.result.value
  {
  }

  /** A failed read creates no entry and changes nothing. */
  lemma LazyReadFailureTouchesNothing(fget: Option<Getter>, key: Option<string>, s: Store)
    ensures LazyRead(fget, key, s).result.Err? ==> LazyRead(fget, key, s).store == s
  {
  }

  /** A read changes at most the entry under its own key: every other entry of
      the host's storage is kept as it was, and no other key appears. */
  lemma LazyReadFrame(fget: Option<Getter>, k: string, s: Store)
    ensures var s' := LazyRead(fget, Some(k), s).store;
      && s'.Keys <= s.Keys + {k}
      && s.Keys <= s'.Keys
      && forall other :: other in s && other != k ==> s'[other] == s[other]
  {
  }

  /** Reading twice returns the same value both times, the second read changes
      nothing and does not run the getter. */
  lemma LazyReadIdempotent(fget: Option<Getter>, key: Option<string>, s: Store)
    ensures var first := LazyRead(fget, key, s);
      var second := LazyRead(fget, key, first.store);
      && second.result == first.result
      && second.store == first.store
      && second.getterCalls == 0
  {
  }

  /** A write without a setter fails with the not-writable message and leaves the
      storage as it was. */
  lemma LazyWriteWithoutSetter(name: string, s: Store, v: Value)
    ensures LazyWrite(None, Some(name), s, v)
         == WriteStep(Failed(AttributeError("setting '" + name + "' is not allowed")), s)
  {
  }

  /** A write with a setter succeeds and its effect is the setter's and nothing
      else: the descriptor caches nothing of its own. */
  lemma LazyWriteDelegates(f: Setter, name: Option<string>, s: Store, v: Value)
    ensures LazyWrite(Some(f), name, s, v) == WriteStep(Done, f(s, v))
  {
  }

  /** With a setter that stores the written value under the private key, a later
      read returns the written value without running the getter. */
  lemma WriteThenRead(fget: Option<Getter>, f: Setter, name: Option<string>, k: string, s: Store, v: Value)
    requires k in f(s, v) && f(s, v)[k] == v
    ensures var w := LazyWrite(Some(f), name, s, v);
      var r := LazyRead(fget, Some(k), w.store);
      && w.outcome == Done
      && r.result == Ok(v) && r.getterCalls == 0 && r.store == w.store
  {
  }

  /** The results of `n` consecutive reads with nothing in between, the storage
      after the last one, and how many times the getter ran over all of them. */
  datatype ReadRun = ReadRun(results: seq<Result<Value>>, store: Store, getterCalls: nat)

  function LazyReads(fget: Option<Getter>, key: Option<string>, s: Store, n: nat): (run: ReadRun)
    ensures |run.results| == n
    decreases n
  {
    if n == 0 then ReadRun([], s, 0)
    else
      var first := LazyRead(fget, key, s);
      var rest := LazyReads(fget, key, first.store, n - 1);
      ReadRun([first.result] + rest.results, rest.store, first.getterCalls + rest.getterCalls)
  }

  /** Once a read no longer runs the getter (a hit, or a failure), every further
      read returns the same and changes nothing. */
  lemma {:induction false} LazyReadsSettled(fget: Option<Getter>, key: Option<string>, s: Store, n: nat)
    requires LazyRead(fget, key, s).getterCalls == 0
    ensures var run := LazyReads(fget, key, s, n);
      && run.store == s
      && run.getterCalls == 0
      && forall i :: 0 <= i < n ==> run.results[i] == LazyRead(fget, key, s).result
    decreases n
  {
    if n > 0 {
      LazyReadsSettled(fget, key, s, n - 1);
    }
  }

  /** Caching is idempotent: over any number of consecutive reads the getter runs
      at most once, every read returns what the first one returned, and the
      storage ends as the first read left it. */
  lemma {:induction false} LazyReadsCacheOnce(fget: Option<Getter>, key: Option<string>, s: Store, n: nat)
    requires n > 0
    ensures var run := LazyReads(fget, key, s, n);
      var first := LazyRead(fget, key, s);
      && run.getterCalls == first.getterCalls <= 1
      && run.store == first.store
      && forall i :: 0 <= i < n ==> run.results[i] == first.result
  {
    var first := LazyRead(fget, key, s);
    LazyReadIdempotent(fget, key, s);
    LazyReadsSettled(fget, key, first.store, n - 1);
  }

  /** A `base_lazy_property`: the getter, setter, deleter and docstring it was
      built from, and the two names `__set_name__` gives it. */
  class BaseLazyProperty {
    const fget: Option<Getter>
    const fset: Option<Setter>
    const fdel: Option<Deleter>
    const doc: Option<string>
    /** The attribute name; None until `__set_name__` ran. */
    var propertyName: Option<string>
    /** The storage key; None until `__set_name__` ran. */
    var privatePropertyName: Option<string>

    constructor (getProperty: Option<Getter> := None, setProperty: Option<Setter> := None,
                 deleteProperty: Option<Deleter> := None, doc: Option<string> := None)
      ensures fget == getProperty && fset == setProperty && fdel == deleteProperty && this.doc == doc
      ensures propertyName == None && privatePropertyName == None
    {
      fget, fset, fdel, this.doc := getProperty, setProperty, deleteProperty, doc;
      propertyName, privatePropertyName := None, None;
    }

    /** The names `__set_name__` gives a descriptor bound under `name`. */
    ghost predicate BoundTo(name: string)
      reads this
    {
      propertyName == Some(name) && privatePropertyName == Some(PrivateName(name))
    }

    /** `__set_name__(owner, name)`; the owner class plays no part. */
    method SetName(name: string)
      modifies this
      ensures BoundTo(name)
      ensures propertyName.value != privatePropertyName.value
    {
      propertyName := Some(name);
      privatePropertyName := Some(PrivateName(name));
    }

    /** `__get__(obj)`; `getterCalls` is how many times it ran the getter. */
    method Get(host: Host) returns (r: Result<Value>, getterCalls: nat)
      modifies host
      ensures ReadStep(r, host.store, getterCalls) == LazyRead(fget, privatePropertyName, old(host.store))
    {
      getterCalls := 0;
      if privatePropertyName.None? {
        r := Err(MissingAttribute("private_property_name"));
        return;
      }
      var key := privatePropertyName.value;
      if key in host.store {
        r := Ok(host.store[key]);
        return;
      }
      if fget.None? {
        r := Err(NoneNotCallable);
        return;
      }
      var v := fget.value(host.store);
      getterCalls := 1;
      host.store := host.store[key := v];
      r := Ok(v);
    }

    /** `__set__(obj, value)`. */
    method Set(host: Host, value: Value) returns (o: Outcome)
      modifies host
      ensures WriteStep(o, host.store) == LazyWrite(fset, propertyName, old(host.store), value)
    {
      if fset.None? {
        if propertyName.None? {
          o := Failed(MissingAttribute("property_name"));
        } else {
          o := Failed(AttributeError(NotWritableMessage(propertyName.value)));
        }
        return;
      }
      host.store := fset.value(host.store, value);
      o := Done;
    }
  }
}
