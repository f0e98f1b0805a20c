/** `lazy_property`: the directly usable lazy property, which behaves exactly as
    `base_lazy_property`, and the two factories that pre-configure a
    `presence_required_property` before it is applied to a getter. */
module Lazy {
  import opened PyModel
  import opened Base
  import opened PresenceRequired

  /** A `lazy_property`: its constructor forwards its four arguments to
      `base_lazy_property` and it overrides no access, so each access is the base
      one. */
  class LazyProperty {
    const base: BaseLazyProperty

    constructor (getProperty: Option<Getter> := None, setProperty: Option<Setter> := None,
                 deleteProperty: Option<Deleter> := None, doc: Option<string> := None)
      ensures fresh(base)
      ensures base.fget == getProperty && base.fset == setProperty
      ensures base.fdel == deleteProperty && base.doc == doc
      ensures base.propertyName == None && base.privatePropertyName == None
    {
      base := new BaseLazyProperty(getProperty, setProperty, deleteProperty, doc);
    }

    method SetName(name: string)
      modifies base
      ensures base.BoundTo(name)
    {
      base.SetName(name);
    }

    method Get(host: Host) returns (r: Result<Value>, getterCalls: nat)
      modifies host
      ensures ReadStep(r, host.store, getterCalls) == LazyRead(base.fget, base.privatePropertyName, old(host.store))
    {
      r, getterCalls := base.Get(host);
    }

    method Set(host: Host, value: Value) returns (o: Outcome)
      modifies host
      ensures WriteStep(o, host.store) == LazyWrite(base.fset, base.propertyName, old(host.store), value)
    {
      o := base.Set(host, value);
    }
  }

  /** What a factory returns: `partial(presence_required_property, **keywords)`,
      as the keyword arguments it binds. A field is None when the partial does not
      bind that keyword, so the constructor's default applies. */
  datatype PresenceKeywords = PresenceKeywords(
    raiseExceptionWhenMissing: Option<bool>,
    defaultValue: Option<Value>,
    warningMessage: Option<Option<string>>,
    errorMessage: Option<Option<string>>)

  /** `lazy_property.require_presence(error_message)`: binds only the error text. */
  function RequirePresence(errorMessage: Option<string> := None): (k: PresenceKeywords)
    ensures Resolve(k) == MissPolicy(true, NoneValue, None, errorMessage)
  {
    PresenceKeywords(None, None, None, Some(errorMessage))
  }

  /** `lazy_property.with_default_value_when_missing(default_value, warning_message)`:
      binds the failing switch to off, the default value and the warning text. */
  function WithDefaultValueWhenMissing(defaultValue: Value, warningMessage: Option<string> := None): (k: PresenceKeywords)
    ensures Resolve(k) == MissPolicy(false, defaultValue, warningMessage, None)
  {
    PresenceKeywords(Some(false), Some(defaultValue), Some(warningMessage), None)
  }

  function OrElse<T>(o: Option<T>, fallback: T): T
  {
    match o
    case Some(v) => v
    case None => fallback
  }

  /** The policy the constructor ends up with when the partial is called: each
      keyword the partial bound, else the constructor's default. */
  function Resolve(k: PresenceKeywords): MissPolicy
  {
    MissPolicy(
      OrElse(k.raiseExceptionWhenMissing, DefaultPolicy.raiseExceptionWhenMissing),
      OrElse(k.defaultValue, DefaultPolicy.defaultValue),
      OrElse(k.warningMessage, DefaultPolicy.warningMessage),
      OrElse(k.errorMessage, DefaultPolicy.errorMessage))
  }

  /** Applying a factory's partial to the decorated method `f`: a fresh, unbound
      `presence_required_property` with getter `f`, no setter, deleter or
      docstring, and the resolved policy. */
  method ApplyPartial(k: PresenceKeywords, f: Getter) returns (d: PresenceRequiredProperty)
    ensures fresh(d) && fresh(d.base)
    ensures d.base.fget == Some(f) && d.base.fset == None && d.base.fdel == None && d.base.doc == None
    ensures d.base.propertyName == None && d.base.privatePropertyName == None
    ensures d.Policy() == Resolve(k)
  {
    var p := Resolve(k);
    d := new PresenceRequiredProperty(Some(f),
      raiseExceptionWhenMissing := p.raiseExceptionWhenMissing,
      defaultValue := p.defaultValue,
      warningMessage := p.warningMessage,
      errorMessage := p.errorMessage);
  }

  /** `require_presence()` without an argument leaves the error text unset, so a
      miss fails with the "not present yet" message and changes nothing. */
  lemma RequirePresenceDefaultMessage(name: string, s: Store)
    requires PrivateName(name) !in s
    ensures PresenceRead(Resolve(RequirePresence()), Some(name), Some(PrivateName(name)), s)
         == PresenceStep(Err(AttributeError("property '" + name + "' is not present yet")), s, None)
  {
  }

  /** `with_default_value_when_missing(d)` without a warning text installs and
      returns `d` on a miss and emits no warning. */
  lemma WithDefaultNoWarning(d: Value, name: Option<string>, k: string, s: Store)
    requires k !in s
    ensures PresenceRead(Resolve(WithDefaultValueWhenMissing(d)), name, Some(k), s)
         == PresenceStep(Ok(d), s[k := d], None)
  {
  }
}
