/**
 * Hitch.Cookies (src/hitch.cookies.js): writing, clearing and reading
 * `document.cookie`.
 *
 * `escape` and `unescape`, the cookie-string parsing in `get` and `names`, and
 * the browser's cookie store (how assigning one cookie line changes what
 * reading `document.cookie` returns) are collaborators: they are the fields of
 * `Host`.
 */
module Cookies {
  import opened Common
  import opened Js
  import Helpers

  /** Names `set` refuses: the cookie attribute names, in any ASCII case. */
  const ReservedNames: seq<string> := ["expires", "max-age", "path", "domain", "secure"]

  /** What `set` writes for an `expires` of `Infinity`. */
  const FarFuture: string := "Tue, 19 Jan 2038 03:14:07 GMT"

  /** What `clear` writes as the expiry. */
  const Epoch: string := "Thu, 01 Jan 1970 00:00:00 GMT"

  datatype Host = Host(
    escape: string -> string,
    names: string -> seq<string>,           // names() on a document.cookie string
    read: (string, string) -> string,       // get's regex extraction and unescape
    store: (string, string) -> string)      // document.cookie after assigning a line

  /** ASCII lower-casing, as a case-insensitive RegExp without the `u` flag compares. */
  function LowerAscii(s: string): (r: string)
    ensures |r| == |s|
    ensures forall i :: 0 <= i < |s| ==> r[i] == Helpers.Lower(s[i])
  {
    if s == [] then [] else [Helpers.Lower(s[0])] + LowerAscii(s[1..])
  }

  /** `!name || /^(?:expires|max\-age|path|domain|secure)$/i.test(name)`. */
  predicate Rejected(name: Value)
  {
    !Truthy(name) || LowerAscii(ToStr(name)) in ReservedNames
  }

  /** No accepted name coincides with an attribute key of the cookie object. */
  lemma AcceptedNameIsNotAnAttribute(name: Value)
    requires !Rejected(name)
    ensures ToStr(name) !in ReservedNames
  {
    var key := ToStr(name);
    if key in ReservedNames {
      LowerCaseFixed(key);
    }
  }

  /** Strings without ASCII capitals, such as the reserved names, are their own lower case. */
  lemma LowerCaseFixed(s: string)
    requires s in ReservedNames
    ensures LowerAscii(s) == s
  {
    assert forall i :: 0 <= i < |s| ==> !('A' <= s[i] <= 'Z');
    assert forall i :: 0 <= i < |s| ==> LowerAscii(s)[i] == s[i];
  }

  /** The `expires` attribute as `set` writes it: kept, converted, moved to `max-age`, or dropped. */
  datatype Expiry = Keep(v: Value) | MaxAge(seconds: Value) | Dropped

  function ExpiryOf(expires: Value): (r: Expiry)
    ensures !Truthy(expires) || expires.Str? ==> r == Keep(expires)
    ensures r.MaxAge? <==> Truthy(expires) && IsNumber(expires) && expires != Infinity(false)
    ensures r == Dropped <==> Truthy(expires) && !IsNumber(expires) && !expires.Date? && !expires.Str?
  {
    if Truthy(expires) && IsNumber(expires) then
      if expires == Infinity(false) then Keep(Str(FarFuture)) else MaxAge(expires)
    else if Truthy(expires) && expires.Date? then Keep(Str(expires.gmt))
    else if Truthy(expires) && !expires.Str? then Dropped
    else Keep(expires)
  }

  /**
   * The object `set` serialises: the cookie itself, then the four attributes in
   * `_.object`'s order (`undefined` for the ones not passed), with `max-age`
   * appended last when a number replaced `expires`.
   */
  function CookieObject(key: string, escaped: string, expires: Value, path: Value, domain: Value, secure: Value): seq<(string, Value)>
  {
    var head := [(key, Str(escaped))];
    var tail := [("path", path), ("domain", domain), ("secure", secure)];
    match ExpiryOf(expires)
    case Keep(v) => head + [("expires", v)] + tail
    case MaxAge(seconds) => head + tail + [("max-age", seconds)]
    case Dropped => head + tail
  }

  /** `pair.join('=')` for every pair whose value is not `undefined`. */
  function Rendered(props: seq<(string, Value)>): (r: seq<string>)
    ensures |r| <= |props|
  {
    if props == [] then []
    else
      RenderPair(props[0]) + Rendered(props[1..])
  }

  /** How one pair is rendered: `key=value`, or nothing for an `undefined` value. */
  function RenderPair(pair: (string, Value)): seq<string>
  {
    if pair.1.Undefined? then [] else [pair.0 + "=" + ElementString(pair.1)]
  }

  lemma RenderedCons(pair: (string, Value), rest: seq<(string, Value)>)
    ensures Rendered([pair] + rest) == RenderPair(pair) + Rendered(rest)
  {
    assert ([pair] + rest)[1..] == rest;
  }

  /** Rendering works pair by pair. */
  lemma {:induction false} RenderedAppend(front: seq<(string, Value)>, back: seq<(string, Value)>)
    ensures Rendered(front + back) == Rendered(front) + Rendered(back)
  {
    if front == [] {
      assert front + back == back;
    } else {
      RenderedAppend(front[1..], back);
      ConsAppend(front, back);
      RenderedCons(front[0], front[1..] + back);
      Regroup(RenderPair(front[0]), Rendered(front[1..]), Rendered(back));
    }
  }

  /** The line `set` assigns to `document.cookie`. */
  function Serialise(props: seq<(string, Value)>): string
  {
    Join(Rendered(props), ";")
  }

  /** The line `clear` assigns to `document.cookie`. */
  function ClearLine(escapedName: string, path: Value): string
  {
    escapedName + "=; expires=" + Epoch + (if Truthy(path) then "; path=" + ToStr(path) else "")
  }

  class Document {
    /** What reading `document.cookie` returns. */
    var cookie: string

    constructor (cookie: string)
      ensures this.cookie == cookie
    {
      this.cookie := cookie;
    }

    /** `has(name)`: strict equality against `names()`, so only a string can be found. */
    function Has(name: Value, host: Host): (r: bool)
      reads this
      ensures r ==> name.Str?
    {
      name.Str? && name.s in host.names(cookie)
    }

    /** `get(sKey)`: `null` for a falsy key or one `has` does not find. */
    function Get(key: Value, host: Host): (r: Value)
      reads this
      ensures r == Null <==> !Truthy(key) || !Has(key, host)
      ensures r != Null ==> key.Str? && r == Str(host.read(cookie, key.s))
    {
      if !Truthy(key) || !Has(key, host) then Null else Str(host.read(cookie, key.s))
    }

    /**
     * `set(name, value, expires, path, domain, secure)`, arguments not passed
     * being `undefined`. A rejected name writes nothing.
     */
    method Set(name: Value, value: Value, expires: Value, path: Value, domain: Value, secure: Value, host: Host)
      modifies this`cookie
      ensures Rejected(name) ==> cookie == old(cookie)
      ensures !Rejected(name) ==>
        cookie == host.store(old(cookie), Serialise(CookieObject(ToStr(name), host.escape(ToStr(value)), expires, path, domain, secure)))
    {
      if Rejected(name) {
        return;
      }
      AcceptedNameIsNotAnAttribute(name);
      var cookieObject := BuildCookieObject(ToStr(name), host.escape(ToStr(value)), expires, path, domain, secure);
      cookie := host.store(cookie, Serialise(cookieObject));
    }

    /** `clear(name, path)`: expires a cookie `has` finds; anything else writes nothing. */
    method Clear(name: Value, path: Value, host: Host)
      modifies this`cookie
      ensures !Truthy(name) || !old(Has(name, host)) ==> cookie == old(cookie)
      ensures Truthy(name) && old(Has(name, host)) ==> cookie == host.store(old(cookie), ClearLine(host.escape(name.s), path))
    {
      if !Truthy(name) || !Has(name, host) {
        return;
      }
      cookie := host.store(cookie, ClearLine(host.escape(name.s), path));
    }
  }

  /** `cookie[name] = escape(value)`, then `_.extend` with the four attributes in order. */
  method ObjectWithAttributes(key: string, escaped: string, expires: Value, path: Value, domain: Value, secure: Value)
    returns (cookieObject: seq<(string, Value)>)
    requires key !in ReservedNames
    ensures cookieObject == [(key, Str(escaped)), ("expires", expires)] + [("path", path), ("domain", domain), ("secure", secure)]
  {
    cookieObject := [(key, Str(escaped))];
    var attributes := [("expires", expires), ("path", path), ("domain", domain), ("secure", secure)];
    var i := 0;
    while i < |attributes|
      invariant 0 <= i <= |attributes|
      invariant cookieObject == [(key, Str(escaped))] + attributes[..i]
    {
      AppendAttribute(key, escaped, attributes, i);
      cookieObject := Put(cookieObject, attributes[i].0, attributes[i].1);
      i := i + 1;
    }
    assert attributes[..4] == attributes;
  }

  /** One step of `_.extend`: the attribute key is new, so it goes last. */
  lemma AppendAttribute(key: string, escaped: string, attributes: seq<(string, Value)>, i: nat)
    requires key !in ReservedNames
    requires |attributes| == 4 && Keys(attributes) == ["expires", "path", "domain", "secure"]
    requires i < |attributes|
    ensures Put([(key, Str(escaped))] + attributes[..i], attributes[i].0, attributes[i].1) == [(key, Str(escaped))] + attributes[..i + 1]
  {
    FreshAttribute(key, escaped, attributes, i);
    PutAppends([(key, Str(escaped))] + attributes[..i], attributes[i].0, attributes[i].1);
    TakeOneMore(attributes, i);
    Regroup([(key, Str(escaped))], attributes[..i], [attributes[i]]);
  }

  /** Before `_.extend` reaches an attribute, the object does not have its key. */
  lemma FreshAttribute(key: string, escaped: string, attributes: seq<(string, Value)>, i: nat)
    requires key !in ReservedNames
    requires |attributes| == 4 && Keys(attributes) == ["expires", "path", "domain", "secure"]
    requires i < |attributes|
    ensures !HasKey([(key, Str(escaped))] + attributes[..i], attributes[i].0)
  {
    var props := [(key, Str(escaped))] + attributes[..i];
    assert attributes[i].0 in ReservedNames by {
      assert ReservedNames[0] == "expires" && ReservedNames[2] == "path" && ReservedNames[3] == "domain" && ReservedNames[4] == "secure";
    }
    forall j | 0 <= j < |props| ensures props[j].0 != attributes[i].0 {
      if j > 0 {
        assert props[j] == attributes[j - 1];
      }
    }
  }

  function Keys(props: seq<(string, Value)>): (r: seq<string>)
    ensures |r| == |props| && forall i :: 0 <= i < |props| ==> r[i] == props[i].0
  {
    seq(|props|, i requires 0 <= i < |props| => props[i].0)
  }

  /** The object `set` builds, step by step as the source does. */
  method BuildCookieObject(key: string, escaped: string, expires: Value, path: Value, domain: Value, secure: Value)
    returns (cookieObject: seq<(string, Value)>)
    requires key !in ReservedNames
    ensures cookieObject == CookieObject(key, escaped, expires, path, domain, secure)
  {
    cookieObject := ObjectWithAttributes(key, escaped, expires, path, domain, secure);
    assert cookieObject == [(key, Str(escaped))] + [("expires", expires)] + [("path", path), ("domain", domain), ("secure", secure)];
    if Truthy(expires) && IsNumber(expires) {
      if expires == Infinity(false) {
        ExpiresConverted(key, escaped, expires, path, domain, secure, Str(FarFuture));
        cookieObject := Put(cookieObject, "expires", Str(FarFuture));
      } else {
        ExpiresMoved(key, escaped, expires, path, domain, secure);
        cookieObject := Put(cookieObject, "max-age", expires);
        cookieObject := Remove(cookieObject, "expires");
      }
    } else if Truthy(expires) && expires.Date? {
      ExpiresConverted(key, escaped, expires, path, domain, secure, Str(expires.gmt));
      cookieObject := Put(cookieObject, "expires", Str(expires.gmt));
    } else if Truthy(expires) && !expires.Str? {
      ExpiresDropped(key, escaped, expires, path, domain, secure);
      cookieObject := Remove(cookieObject, "expires");
    }
  }

  /** `cookie.expires = converted` for an `Infinity` or a date. */
  lemma ExpiresConverted(key: string, escaped: string, expires: Value, path: Value, domain: Value, secure: Value, converted: Value)
    requires key !in ReservedNames
    requires ExpiryOf(expires) == Keep(converted)
    ensures Put([(key, Str(escaped))] + [("expires", expires)] + [("path", path), ("domain", domain), ("secure", secure)], "expires", converted)
      == CookieObject(key, escaped, expires, path, domain, secure)
  {
    assert ReservedNames[0] == "expires";
    PutReplaces([(key, Str(escaped))], "expires", expires, [("path", path), ("domain", domain), ("secure", secure)], converted);
  }

  /** A number other than `Infinity` moves to `max-age`. */
  lemma ExpiresMoved(key: string, escaped: string, expires: Value, path: Value, domain: Value, secure: Value)
    requires key !in ReservedNames
    requires ExpiryOf(expires) == MaxAge(expires)
    ensures var props := [(key, Str(escaped))] + [("expires", expires)] + [("path", path), ("domain", domain), ("secure", secure)];
      && UniqueKeys(Put(props, "max-age", expires))
      && Remove(Put(props, "max-age", expires), "expires") == CookieObject(key, escaped, expires, path, domain, secure)
  {
    var tail := [("path", path), ("domain", domain), ("secure", secure)];
    MovedToMaxAge(key, escaped, expires, tail);
    Regroup([(key, Str(escaped))], tail, [("max-age", expires)]);
  }

  /** Any other truthy value that is not a string is deleted. */
  lemma ExpiresDropped(key: string, escaped: string, expires: Value, path: Value, domain: Value, secure: Value)
    requires key !in ReservedNames
    requires ExpiryOf(expires) == Dropped
    ensures var props := [(key, Str(escaped))] + [("expires", expires)] + [("path", path), ("domain", domain), ("secure", secure)];
      && UniqueKeys(props)
      && Remove(props, "expires") == CookieObject(key, escaped, expires, path, domain, secure)
  {
    var head := [(key, Str(escaped))];
    var tail := [("path", path), ("domain", domain), ("secure", secure)];
    KeysAllDistinct(key, escaped, expires, tail);
    var props := head + [("expires", expires)] + tail;
    assert UniqueKeys(props) by {
      assert props == (props + [("max-age", expires)])[..5];
    }
    RemoveDrops(head, "expires", expires, tail);
  }

  /** `cookie['max-age'] = cookie.expires; delete cookie.expires`. */
  lemma MovedToMaxAge(key: string, escaped: string, expires: Value, tail: seq<(string, Value)>)
    requires key !in ReservedNames
    requires Keys(tail) == ["path", "domain", "secure"]
    ensures var withMaxAge := Put([(key, Str(escaped))] + [("expires", expires)] + tail, "max-age", expires);
      && withMaxAge == [(key, Str(escaped))] + [("expires", expires)] + (tail + [("max-age", expires)])
      && UniqueKeys(withMaxAge)
      && Remove(withMaxAge, "expires") == [(key, Str(escaped))] + (tail + [("max-age", expires)])
  {
    var head := [(key, Str(escaped))];
    var props := head + [("expires", expires)] + tail;
    NoMaxAgeYet(key, escaped, expires, tail);
    PutAppends(props, "max-age", expires);
    var withMaxAge := props + [("max-age", expires)];
    assert withMaxAge == head + [("expires", expires)] + (tail + [("max-age", expires)]);
    KeysAllDistinct(key, escaped, expires, tail);
    RemoveDrops(head, "expires", expires, tail + [("max-age", expires)]);
  }

  lemma NoMaxAgeYet(key: string, escaped: string, expires: Value, tail: seq<(string, Value)>)
    requires key !in ReservedNames
    requires Keys(tail) == ["path", "domain", "secure"]
    ensures !HasKey([(key, Str(escaped))] + [("expires", expires)] + tail, "max-age")
  {
    var props := [(key, Str(escaped))] + [("expires", expires)] + tail;
    assert ReservedNames[1] == "max-age";
    forall j | 0 <= j < |props| ensures props[j].0 != "max-age" {
      if j >= 2 {
        assert props[j] == tail[j - 2];
      }
    }
  }

  lemma KeysAllDistinct(key: string, escaped: string, expires: Value, tail: seq<(string, Value)>)
    requires key !in ReservedNames
    requires Keys(tail) == ["path", "domain", "secure"]
    ensures UniqueKeys([(key, Str(escaped))] + [("expires", expires)] + tail + [("max-age", expires)])
  {
    var props := [(key, Str(escaped))] + [("expires", expires)] + tail + [("max-age", expires)];
    var keys := [key, "expires", "path", "domain", "secure", "max-age"];
    forall j | 0 <= j < |props| ensures props[j].0 == keys[j] {
      if 2 <= j < 5 {
        assert props[j] == tail[j - 2];
      }
    }
    assert key != "expires" && key != "path" && key != "domain" && key != "secure" && key != "max-age" by {
      assert ReservedNames == ["expires", "max-age", "path", "domain", "secure"];
    }
  }

  // ------------------------------------------------------------ properties

  /**
   * The cookie object starts with the cookie, never carries both `expires` and
   * `max-age`, carries `max-age` exactly for a truthy number other than
   * `Infinity`, and has no key twice.
   */
  lemma CookieObjectShape(name: Value, escaped: string, expires: Value, path: Value, domain: Value, secure: Value)
    requires !Rejected(name)
    ensures var props := CookieObject(ToStr(name), escaped, expires, path, domain, secure);
      && props[0] == (ToStr(name), Str(escaped))
      && UniqueKeys(props)
      && !(HasKey(props, "expires") && HasKey(props, "max-age"))
      && (HasKey(props, "max-age") <==> Truthy(expires) && IsNumber(expires) && expires != Infinity(false))
  {
    AcceptedNameIsNotAnAttribute(name);
    var props := CookieObject(ToStr(name), escaped, expires, path, domain, secure);
    assert ReservedNames[1] == "max-age";
    if Truthy(expires) && IsNumber(expires) && expires != Infinity(false) {
      assert props[4].0 == "max-age";
    } else {
      forall i | 0 <= i < |props| ensures props[i].0 != "max-age" {
      }
    }
  }

  /** Rendering a five-pair object, pair by pair. */
  lemma RenderedFive(a: (string, Value), b: (string, Value), c: (string, Value), d: (string, Value), e: (string, Value))
    ensures Rendered([a, b, c, d, e]) == RenderPair(a) + (RenderPair(b) + (RenderPair(c) + (RenderPair(d) + RenderPair(e))))
  {
    var l5 := [e] + [];
    var l4 := [d] + l5;
    var l3 := [c] + l4;
    var l2 := [b] + l3;
    var l1 := [a] + l2;
    assert l1 == [a, b, c, d, e];
    RenderedCons(e, []);
    RenderedCons(d, l5);
    RenderedCons(c, l4);
    RenderedCons(b, l3);
    RenderedCons(a, l2);
  }

  /** `set(name, value)` alone writes just `name=escaped value`. */
  lemma PlainCookie(key: string, escaped: string)
    ensures Serialise(CookieObject(key, escaped, Undefined, Undefined, Undefined, Undefined)) == key + "=" + escaped
  {
    var a, b, c, d, e := (key, Str(escaped)), ("expires", Undefined), ("path", Undefined), ("domain", Undefined), ("secure", Undefined);
    assert CookieObject(key, escaped, Undefined, Undefined, Undefined, Undefined) == [a, b, c, d, e];
    RenderedFive(a, b, c, d, e);
  }

  /** A number of seconds becomes a trailing `max-age`, after the path. */
  lemma MaxAgeCookie(key: string, escaped: string, seconds: int, path: string)
    requires seconds != 0
    ensures Serialise(CookieObject(key, escaped, Num(seconds), Str(path), Undefined, Undefined))
      == (key + "=" + escaped) + ";" + ("path" + "=" + path) + ";" + ("max-age" + "=" + NumberString(seconds))
  {
    var parts := [key + "=" + escaped, "path" + "=" + path, "max-age" + "=" + NumberString(seconds)];
    MaxAgeRendered(key, escaped, seconds, path);
    assert parts[1..] == [parts[1], parts[2]];
    JoinPair(parts[1], parts[2], ";");
    assert Join(parts, ";") == parts[0] + ";" + (parts[1] + ";" + parts[2]);
    Regroup(parts[0] + ";", parts[1], ";" + parts[2]);
    Regroup(parts[0] + ";" + parts[1], ";", parts[2]);
  }

  lemma MaxAgeRendered(key: string, escaped: string, seconds: int, path: string)
    requires seconds != 0
    ensures Rendered(CookieObject(key, escaped, Num(seconds), Str(path), Undefined, Undefined))
      == [key + "=" + escaped, "path" + "=" + path, "max-age" + "=" + NumberString(seconds)]
  {
    var a, b, c, d, e := (key, Str(escaped)), ("path", Str(path)), ("domain", Undefined), ("secure", Undefined), ("max-age", Num(seconds));
    assert CookieObject(key, escaped, Num(seconds), Str(path), Undefined, Undefined) == [a, b, c, d, e];
    RenderedFive(a, b, c, d, e);
    assert ElementString(Num(seconds)) == NumberString(seconds);
  }

  /** Falsy expiries are written as they are: `0` as `expires=0`, `null` as an empty `expires=`. */
  lemma FalsyExpiryKept(key: string, escaped: string)
    ensures Serialise(CookieObject(key, escaped, Num(0), Undefined, Undefined, Undefined)) == key + "=" + escaped + ";" + "expires" + "=" + "0"
    ensures Serialise(CookieObject(key, escaped, Null, Undefined, Undefined, Undefined)) == key + "=" + escaped + ";" + "expires" + "="
  {
    FalsyExpiry(key, escaped, Num(0));
    FalsyExpiry(key, escaped, Null);
  }

  lemma FalsyExpiry(key: string, escaped: string, expires: Value)
    requires !Truthy(expires) && !expires.Undefined?
    ensures Serialise(CookieObject(key, escaped, expires, Undefined, Undefined, Undefined)) == key + "=" + escaped + ";" + "expires" + "=" + ElementString(expires)
  {
    FalsyExpiryRendered(key, escaped, expires);
    JoinPair(key + "=" + escaped, "expires" + "=" + ElementString(expires), ";");
  }

  lemma FalsyExpiryRendered(key: string, escaped: string, expires: Value)
    requires !Truthy(expires) && !expires.Undefined?
    ensures Rendered(CookieObject(key, escaped, expires, Undefined, Undefined, Undefined)) == [key + "=" + escaped, "expires" + "=" + ElementString(expires)]
  {
    var a, b, c, d, e := (key, Str(escaped)), ("expires", expires), ("path", Undefined), ("domain", Undefined), ("secure", Undefined);
    assert CookieObject(key, escaped, expires, Undefined, Undefined, Undefined) == [a, b, c, d, e];
    RenderedFive(a, b, c, d, e);
  }

  /** `Infinity` is written as the far-future date; other objects than dates and strings are dropped. */
  lemma ExpiryConversions(v: Value)
    ensures ExpiryOf(Infinity(false)) == Keep(Str(FarFuture))
    ensures ExpiryOf(Infinity(true)) == MaxAge(Infinity(true))
    ensures v.Date? ==> ExpiryOf(v) == Keep(Str(v.gmt))
    ensures v.Arr? || v.Obj? || v == Bool(true) ==> ExpiryOf(v) == Dropped
  {
  }

  /** `clear` always writes an expiry in the past, and the path only when one is given. */
  lemma ClearLineShape(escapedName: string, path: Value)
    ensures var line := ClearLine(escapedName, path);
      && Helpers.StartsWith(line, escapedName + "=; expires=" + Epoch)
      && (!Truthy(path) ==> line == escapedName + "=; expires=" + Epoch)
      && (Truthy(path) ==> Helpers.EndsWith(line, "; path=" + ToStr(path)))
  {
    var prefix := escapedName + "=; expires=" + Epoch;
    var line := ClearLine(escapedName, path);
    assert line[..|prefix|] == prefix;
  }

  /** Reading agrees with `has`: a value comes back exactly for a truthy string key that `has` finds. */
  lemma GetAgreesWithHas(doc: Document, key: Value, host: Host)
    ensures doc.Get(key, host) != Null <==> key.Str? && key.s != "" && key.s in host.names(doc.cookie)
  {
  }
}
