/** `presence_required_property`: a descriptor whose value must be put in the
    host's storage by other code (a setter, or the host's own `__init__`) before
    it is read. On a miss it never runs its getter: by its policy it either
    fails with an error, or warns (when a warning text is configured) and caches
    and returns a default value. Writes behave as in `base_lazy_property`. */
module PresenceRequired {
  import opened PyModel
  import opened Base

  /** The four policy settings the constructor stores. */
  datatype MissPolicy = MissPolicy(
    raiseExceptionWhenMissing: bool,
    defaultValue: Value,
    warningMessage: Option<string>,
    errorMessage: Option<string>)

  /** The constructor's keyword defaults: fail on a miss, a default of `None`, no
      warning text and no custom error text. */
  const DefaultPolicy: MissPolicy := MissPolicy(true, NoneValue, None, None)

  /** The message of the error a miss raises when no custom error text is set. */
  function NotPresentMessage(name: string): string
  {
    "property '" + name + "' is not present yet"
  }

  /** One read: what it returns, the host's storage afterwards, and the text of
      the warning it emitted, if any. */
  datatype PresenceStep = PresenceStep(result: Result<Value>, store: Store, warning: Option<string>)

  /** `__get__` under policy `p`, for a descriptor whose public name is `name` and
      whose storage key is `key` (both None until `__set_name__` ran), on a host
      whose storage is `s`. No getter is an input: none is ever run. */
  function PresenceRead(p: MissPolicy, name: Option<string>, key: Option<string>, s: Store): (step: PresenceStep)
    ensures s.Keys <= step.store.Keys
    ensures step.result.Err? ==> step.store == s && step.warning == None
    ensures step.warning.Some? ==> !p.raiseExceptionWhenMissing
  {
    match key
    case None => PresenceStep(Err(MissingAttribute("private_property_name")), s, None)
    case Some(k) =>
      if k in s then PresenceStep(Ok(s[k]), s, None)
      else if p.raiseExceptionWhenMissing then
        match p.errorMessage
        case Some(m) => PresenceStep(Err(AttributeError(m)), s, None)
        case None =>
          match name
          case None => PresenceStep(Err(MissingAttribute("property_name")), s, None)
          case Some(n) => PresenceStep(Err(AttributeError(NotPresentMessage(n))), s, None)
      else PresenceStep(Ok(p.defaultValue), s[k := p.defaultValue], p.warningMessage)
  }

  /** A cache hit returns the stored entry, changes nothing and warns nothing,
      whatever the policy. */
  lemma PresenceReadHit(p: MissPolicy, name: Option<string>, k: string, s: Store)
    requires k in s
    ensures PresenceRead(p, name, Some(k), s) == PresenceStep(Ok(s[k]), s, None)
  {
  }

  /** A miss under a failing policy with a custom error text fails with exactly
      that text and changes nothing. */
  lemma PresenceMissCustomError(p: MissPolicy, name: Option<string>, k: string, s: Store, m: string)
    requires k !in s && p.raiseExceptionWhenMissing && p.errorMessage == Some(m)
    ensures PresenceRead(p, name, Some(k), s) == PresenceStep(Err(AttributeError(m)), s, None)
  {
  }

  /** A miss under a failing policy without custom text fails with the
      "not present yet" message naming the attribute, and changes nothing. */
  lemma PresenceMissDefaultError(p: MissPolicy, name: string, k: string, s: Store)
    requires k !in s && p.raiseExceptionWhenMissing && p.errorMessage == None
    ensures PresenceRead(p, Some(name), Some(k), s)
         == PresenceStep(Err(AttributeError("property '" + name + "' is not present yet")), s, None)
  {
  }

  /** A miss under the default-value policy warns exactly when a warning text is
      configured, caches the default under the key, leaves every other entry as
      it was, and returns the default. */
  lemma PresenceMissDefault(p: MissPolicy, name: Option<string>, k: string, s: Store)
    requires k !in s && !p.raiseExceptionWhenMissing
    ensures var step := PresenceRead(p, name, Some(k), s);
      && step.result == Ok(p.defaultValue)
      && step.store == s[k := p.defaultValue]
      && (step.warning.Some? <==> p.warningMessage.Some?)
      && step.warning == p.warningMessage
  {
  }

  /** Every read is either a success that leaves the returned value cached, or a
      failure that leaves the storage as it was; a warning comes only with a
      success that installed the default. */
  lemma PresenceReadAllOrNothing(p: MissPolicy, name: Option<string>, key: Option<string>, s: Store)
    ensures var step := PresenceRead(p, name, key, s);
      && (step.result.Ok? ==> key.Some? && key.value in step.store && step.store[key.value] == step.result.value)
      && (step.result.Err? ==> step.store == s && step.warning == None)
      && (step.warning.Some? ==> key.Some? && key.value !in s && step.result == Ok(p.defaultValue))
  {
  }

  /** After a default was installed, the next read returns it again and emits no
      further warning. */
  lemma PresenceDefaultSticks(p: MissPolicy, name: Option<string>, key: Option<string>, s: Store)
    ensures var first := PresenceRead(p, name, key, s);
      var second := PresenceRead(p, name, key, first.store);
      && second.result == first.result
      && second.store == first.store
      && second.warning == None
  {
  }

  /** The results of `n` consecutive reads with nothing in between, the storage
      after the last one, and the warnings they emitted, in order. */
  datatype PresenceRun = PresenceRun(results: seq<Result<Value>>, store: Store, warnings: seq<string>)

  function PresenceReads(p: MissPolicy, name: Option<string>, key: Option<string>, s: Store, n: nat): (run: PresenceRun)
    ensures |run.results| == n
    decreases n
  {
    if n == 0 then PresenceRun([], s, [])
    else
      var first := PresenceRead(p, name, key, s);
      var rest := PresenceReads(p, name, key, first.store, n - 1);
      var emitted := match first.warning case Some(w) => [w] case None => [];
      PresenceRun([first.result] + rest.results, rest.store, emitted + rest.warnings)
  }

  /** Once a read warns no longer and changes nothing (a hit, or a failure),
      every further read returns the same, changes nothing and warns nothing. */
  lemma {:induction false} PresenceReadsSettled(p: MissPolicy, name: Option<string>, key: Option<string>, s: Store, n: nat)
    requires PresenceRead(p, name, key, s).store == s
    ensures var run := PresenceReads(p, name, key, s, n);
      && run.store == s
      && run.warnings == []
      && forall i :: 0 <= i < n ==> run.results[i] == PresenceRead(p, name, key, s).result
    decreases n
  {
    if n > 0 {
      PresenceReadsSettled(p, name, key, s, n - 1);
    }
  }

  /** Over any number of consecutive reads every read returns what the first one
      returned, the storage ends as the first read left it, and at most one
      warning is emitted, by the first read; a retried failing read keeps
      failing the same way. */
  lemma {:induction false} PresenceReadsWarnOnce(p: MissPolicy, name: Option<string>, key: Option<string>, s: Store, n: nat)
    requires n > 0
    ensures var run := PresenceReads(p, name, key, s, n);
      var first := PresenceRead(p, name, key, s);
      && run.store == first.store
      && run.warnings == (match first.warning case Some(w) => [w] case None => [])
      && |run.warnings| <= 1
      && forall i :: 0 <= i < n ==> run.results[i] == first.result
  {
    var first := PresenceRead(p, name, key, s);
    PresenceDefaultSticks(p, name, key, s);
    PresenceReadsSettled(p, name, key, first.store, n - 1);
  }

  /** A `presence_required_property`. `base` is its `base_lazy_property` part,
      which holds the getter, setter, deleter, docstring and the two names. */
  class PresenceRequiredProperty {
    const base: BaseLazyProperty
    const raiseExceptionWhenMissing: bool
    const defaultValue: Value
    const warningMessage: Option<string>
    const errorMessage: Option<string>

    constructor (getProperty: Option<Getter> := None, setProperty: Option<Setter> := None,
                 deleteProperty: Option<Deleter> := None, doc: Option<string> := None,
                 raiseExceptionWhenMissing: bool := DefaultPolicy.raiseExceptionWhenMissing,
                 defaultValue: Value := DefaultPolicy.defaultValue,
                 warningMessage: Option<string> := DefaultPolicy.warningMessage,
                 errorMessage: Option<string> := DefaultPolicy.errorMessage)
      ensures fresh(base)
      ensures base.fget == getProperty && base.fset == setProperty
      ensures base.fdel == deleteProperty && base.doc == doc
      ensures base.propertyName == None && base.privatePropertyName == None
      ensures Policy() == MissPolicy(raiseExceptionWhenMissing, defaultValue, warningMessage, errorMessage)
    {
      base := new BaseLazyProperty(getProperty, setProperty, deleteProperty, doc);
      this.raiseExceptionWhenMissing := raiseExceptionWhenMissing;
      this.defaultValue := defaultValue;
      this.warningMessage := warningMessage;
      this.errorMessage := errorMessage;
    }

    /** The four policy fields as one value. */
    function Policy(): MissPolicy
    {
      MissPolicy(raiseExceptionWhenMissing, defaultValue, warningMessage, errorMessage)
    }

    /** `__set_name__`, inherited from `base_lazy_property`. */
    method SetName(name: string)
      modifies base
      ensures base.BoundTo(name)
    {
      base.SetName(name);
    }

    /** `__get__(obj)`; `warning` is the text of the warning it emitted, if any, and
        `getterCalls` how many times it ran the getter, which is never. */
    method Get(host: Host) returns (r: Result<Value>, warning: Option<string>, getterCalls: nat)
      modifies host
      ensures PresenceStep(r, host.store, warning)
           == PresenceRead(Policy(), base.propertyName, base.privatePropertyName, old(host.store))
      ensures getterCalls == 0
    {
      warning, getterCalls := None, 0;
      if base.privatePropertyName.None? {
        r := Err(MissingAttribute("private_property_name"));
        return;
      }
      var key := base.privatePropertyName.value;
      if key in host.store {
        r := Ok(host.store[key]);
        return;
      }
      if raiseExceptionWhenMissing {
        if errorMessage.Some? {
          r := Err(AttributeError(errorMessage.value));
        } else if base.propertyName.None? {
          r := Err(MissingAttribute("property_name"));
        } else {
          r := Err(AttributeError(NotPresentMessage(base.propertyName.value)));
        }
        return;
      }
      warning := warningMessage;
      host.store := host.store[key := defaultValue];
      r := Ok(defaultValue);
    }

    /** `__set__(obj, value)`, inherited from `base_lazy_property`. */
    method Set(host: Host, value: Value) returns (o: Outcome)
      modifies host
      ensures WriteStep(o, host.store) == LazyWrite(base.fset, base.propertyName, old(host.store), value)
    {
      o := base.Set(host, value);
    }
  }
}
