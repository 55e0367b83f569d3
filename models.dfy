/**
 * The parts of Hitch.Model, Hitch.Resource and Hitch.App (hitch.js) that do
 * more than delegate to Backbone: the `$id` unwrapping in `Model.set`, the
 * `loaded` flag `Resource.fetch` arranges for, and the option defaults and
 * asset list of an App.
 */
module Models {
  import opened Common
  import opened Js

  // ------------------------------------------------------------ Model.set

  /** The first argument of `set`: an attribute hash, or a single key (with its value). */
  datatype SetArgs = Attributes(attrs: seq<(string, Value)>) | KeyValue(key: string, value: Value)

  /** `_.has(v, key)`: `v` has an own property `key`. */
  predicate HasOwn(v: Value, key: string)
  {
    v.Obj? && HasKey(v.props, key)
  }

  /**
   * What `set` hands on to Backbone: when `attrs` is a hash whose id attribute
   * is a truthy object with an own `$id`, that attribute is replaced by the
   * `$id` value; a single key is passed through untouched, `$id` or not.
   */
  function UnwrapId(args: SetArgs, idAttribute: string): SetArgs
  {
    match args
    case KeyValue(_, _) => args
    case Attributes(attrs) =>
      match Get(attrs, idAttribute)
      case None => args
      case Some(id) =>
        if Truthy(id) && IsObject(id) && HasOwn(id, "$id") then
          Attributes(Put(attrs, idAttribute, Get(id.props, "$id").value))
        else args
  }

  /**
   * Unwrapping replaces exactly the id attribute, keeps every attribute in its
   * place, and happens exactly for a hash whose id is an object with an own `$id`.
   */
  lemma UnwrapIdReplacesOnlyTheId(attrs: seq<(string, Value)>, idAttribute: string)
    ensures var r := UnwrapId(Attributes(attrs), idAttribute);
      && r.Attributes?
      && |r.attrs| == |attrs|
      && (forall i :: 0 <= i < |attrs| ==> r.attrs[i].0 == attrs[i].0)
      && (forall k :: k != idAttribute ==> Get(r.attrs, k) == Get(attrs, k))
      && (r != Attributes(attrs) ==> Get(attrs, idAttribute).Some? && HasOwn(Get(attrs, idAttribute).value, "$id"))
      && (Get(attrs, idAttribute).Some? && HasOwn(Get(attrs, idAttribute).value, "$id") ==>
            Get(r.attrs, idAttribute) == Get(Get(attrs, idAttribute).value.props, "$id"))
  {
    var id := Get(attrs, idAttribute);
    if id.Some? && Truthy(id.value) && IsObject(id.value) && HasOwn(id.value, "$id") {
      PutKeepsPositions(attrs, idAttribute, Get(id.value.props, "$id").value);
    }
  }

  /** Once unwrapped to a value that is not itself wrapped, unwrapping again changes nothing. */
  lemma UnwrapIdIdempotent(args: SetArgs, idAttribute: string)
    requires var r := UnwrapId(args, idAttribute);
      r.Attributes? ==> Get(r.attrs, idAttribute).None? || !HasOwn(Get(r.attrs, idAttribute).value, "$id")
    ensures UnwrapId(UnwrapId(args, idAttribute), idAttribute) == UnwrapId(args, idAttribute)
  {
  }

  // -------------------------------------------------------- Resource.fetch

  /**
   * An `options.success` value: absent, the caller's own callback, or the
   * wrapper `fetch` binds to a resource around the previous value.
   */
  datatype Callback = NoCallback | UserCallback(fn: nat) | LoadedWrapper(inner: Callback, resource: Resource)

  /** The `options` object handed to `fetch`. */
  class FetchOptions {
    var success: Callback

    constructor (success: Callback)
      ensures this.success == success
    {
      this.success := success;
    }
  }

  /** The resources whose wrappers a callback contains. */
  function Wrapped(cb: Callback): set<Resource>
  {
    match cb
    case LoadedWrapper(inner, r) => Wrapped(inner) + {r}
    case _ => {}
  }

  /** The user callbacks a call runs, in order, with the response. */
  datatype Call = Called(fn: nat, response: nat)

  /**
   * What calling `cb` does: the user callbacks it runs and the resources it
   * marks loaded, and whether it returns (false when a user callback throws).
   */
  datatype Settlement = Settlement(calls: seq<Call>, marked: set<Resource>, completes: bool)

  function Settle(cb: Callback, response: nat, throws: nat -> bool): (s: Settlement)
    ensures s.marked <= Wrapped(cb)
    ensures s.completes ==> s.marked == Wrapped(cb)
  {
    match cb
    case NoCallback => Settlement([], {}, true)
    case UserCallback(fn) => Settlement([Called(fn, response)], {}, !throws(fn))
    case LoadedWrapper(inner, r) =>
      var s := Settle(inner, response, throws);
      if s.completes then Settlement(s.calls, s.marked + {r}, true) else s
  }

  /** Trace of user callbacks invoked. */
  class CallLog {
    var calls: seq<Call>

    constructor ()
      ensures calls == []
    {
      calls := [];
    }
  }

  class Resource {
    var loaded: bool

    constructor ()
      ensures !loaded
    {
      loaded := false;
    }

    /**
     * `fetch(options)`: replaces `options.success` by a wrapper bound to this
     * resource around the previous value. It starts no request. Without an
     * options object, reading `options.success` throws a TypeError.
     */
    method Fetch(options: FetchOptions?) returns (r: Result<(), string>)
      modifies options
      ensures options == null <==> r.Err?
      ensures options != null ==> options.success == LoadedWrapper(old(options.success), this)
      ensures loaded == old(loaded)
    {
      if options == null {
        return Err("TypeError");
      }
      options.success := LoadedWrapper(options.success, this);
      r := Ok(());
    }
  }

  /**
   * Calling `options.success(response)`: a wrapper first calls what it wrapped
   * (when that is truthy), then sets its resource's `loaded`; a callback that
   * throws ends the call there.
   */
  method Succeed(cb: Callback, response: nat, throws: nat -> bool, log: CallLog) returns (returned: bool)
    modifies Wrapped(cb), log
    decreases cb
    ensures var s := Settle(cb, response, throws);
      && returned == s.completes
      && log.calls == old(log.calls) + s.calls
      && (forall r :: r in Wrapped(cb) && old(allocated(r)) ==> r.loaded == (old(r.loaded) || r in s.marked))
  {
    match cb {
      case NoCallback =>
        returned := true;
      case UserCallback(fn) =>
        log.calls := log.calls + [Called(fn, response)];
        returned := !throws(fn);
      case LoadedWrapper(inner, r) =>
        returned := Succeed(inner, response, throws, log);
        if returned {
          r.loaded := true;
        }
    }
  }

  /**
   * After one `fetch`, a success response first runs the caller's callback and
   * then marks the resource loaded -- unless that callback throws, in which case
   * `loaded` is not set.
   */
  lemma {:induction false} FetchThenSucceed(resource: Resource, fn: nat, response: nat, throws: nat -> bool)
    ensures var s := Settle(LoadedWrapper(UserCallback(fn), resource), response, throws);
      && s.calls == [Called(fn, response)]
      && (resource in s.marked <==> !throws(fn))
  {
  }

  /** When no user callback in the chain throws, a success marks every wrapping resource loaded. */
  lemma {:induction false} NestedWrappersAllMark(cb: Callback, response: nat, throws: nat -> bool)
    requires forall c :: c in UserCallbacks(cb) ==> !throws(c)
    ensures Settle(cb, response, throws).completes
    ensures Settle(cb, response, throws).marked == Wrapped(cb)
  {
    match cb {
      case NoCallback =>
      case UserCallback(fn) =>
        assert fn in UserCallbacks(cb);
      case LoadedWrapper(inner, r) =>
        NestedWrappersAllMark(inner, response, throws);
    }
  }

  /** The user callbacks a chain of wrappers ends in. */
  function UserCallbacks(cb: Callback): set<nat>
  {
    match cb
    case NoCallback => {}
    case UserCallback(fn) => {fn}
    case LoadedWrapper(inner, _) => UserCallbacks(inner)
  }

  // ------------------------------------------------------------------ App

  /** The current user an App starts with: the one given, or a fresh anonymous one. */
  datatype CurrentUser = GivenUser(user: Value) | AnonymousUser(id: string)

  /** `_.each(collection, f)` visits: array items, object values, string characters. */
  function Items(v: Value): (r: seq<Value>)
    ensures v.Arr? ==> r == v.items
    ensures !IsObject(v) && !v.Str? ==> r == []
  {
    match v
    case Arr(items) => items
    case Obj(props) => seq(|props|, i requires 0 <= i < |props| => props[i].1)
    case Str(s) => seq(|s|, i requires 0 <= i < |s| => Str([s[i]]))
    case _ => []
  }

  /** What the App constructor makes of its options: name, user and the assets to add. */
  datatype Settings = Settings(name: Value, user: CurrentUser, assets: seq<Value>)

  /**
   * `options || {}`, a string taken as the name, `'HitchApp'` and an anonymous
   * user as defaults. On a truthy primitive that is not a string the default
   * assignments are lost (non-strict code) and every option reads `undefined`.
   */
  function AppSettings(options: Value, anonymousId: string): Settings
  {
    if !Truthy(options) then Settings(Str("HitchApp"), AnonymousUser(anonymousId), [])
    else match options
      case Str(s) => Settings(options, AnonymousUser(anonymousId), [])
      case Obj(props) =>
        var name := Get(props, "name");
        var user := Get(props, "user");
        var assets := Get(props, "assets");
        Settings(if name.Some? && Truthy(name.value) then name.value else Str("HitchApp"),
                 if user.Some? && Truthy(user.value) then GivenUser(user.value) else AnonymousUser(anonymousId),
                 if assets.Some? && Truthy(assets.value) then Items(assets.value) else [])
      case Arr(_) => Settings(Str("HitchApp"), AnonymousUser(anonymousId), [])
      case Date(_, _) => Settings(Str("HitchApp"), AnonymousUser(anonymousId), [])
      case _ => Settings(Undefined, GivenUser(Undefined), [])
  }

  /** Every App gets a truthy name and a user, except one built from a truthy non-string primitive. */
  lemma AppDefaults(options: Value, anonymousId: string)
    ensures var s := AppSettings(options, anonymousId);
      (Truthy(options) && !options.Str? && !IsObject(options)) <==> s.name == Undefined
    ensures var s := AppSettings(options, anonymousId);
      s.name != Undefined ==> Truthy(s.name) && (s.user.GivenUser? ==> Truthy(s.user.user))
    ensures var s := AppSettings(options, anonymousId);
      options.Str? && options.s != "" ==> s == Settings(options, AnonymousUser(anonymousId), [])
  {
  }

  class App {
    var name: Value
    var user: CurrentUser
    /** The `assets` attribute; `get('assets') || []` reads an unset one as empty. */
    var assets: seq<Value>

    constructor (options: Value, anonymousId: string)
      ensures var s := AppSettings(options, anonymousId);
        name == s.name && user == s.user && assets == s.assets
    {
      var settings := AppSettings(options, anonymousId);
      assets := [];
      name := Undefined;
      user := settings.user;
      new;
      var i := 0;
      while i < |settings.assets|
        invariant 0 <= i <= |settings.assets|
        invariant assets == settings.assets[..i]
      {
        AddAsset(settings.assets[i]);
        i := i + 1;
      }
      name := settings.name;
      user := settings.user;
    }

    /** `addAsset(asset)`: the `instanceof` guard never rejects, so every value is appended. */
    method AddAsset(asset: Value)
      modifies this`assets
      ensures assets == old(assets) + [asset]
    {
      assets := assets + [asset];
    }
  }
}
