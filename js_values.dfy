/**
 * The part of JavaScript's value model that the modelled code inspects:
 * truthiness, `_.isObject`/`_.isNumber`, string conversion by `+` and by
 * `Array.prototype.join`, and objects as property lists in enumeration order
 * (assigning to an existing key keeps its position and a new key goes last,
 * which is JavaScript's order for keys that are not integer-like).
 */
module Js {
  import opened Common

  /** A JavaScript value. Numbers are the integral ones plus NaN and the infinities. */
  datatype Value =
    | Undefined
    | Null
    | Bool(b: bool)
    | Num(n: int)
    | NaN
    | Infinity(negative: bool)
    | Str(s: string)
      /** A Date object, carrying what its `toGMTString()` and `toString()` return. */
    | Date(gmt: string, text: string)
    | Arr(items: seq<Value>)
    | Obj(props: seq<(string, Value)>)

  /** JavaScript's ToBoolean. */
  predicate Truthy(v: Value)
  {
    match v
    case Undefined => false
    case Null => false
    case Bool(b) => b
    case Num(n) => n != 0
    case NaN => false
    case Infinity(_) => true
    case Str(s) => s != ""
    case _ => true
  }

  /** `_.isObject`: objects, arrays and dates (functions are not part of this value model). */
  predicate IsObject(v: Value)
  {
    v.Date? || v.Arr? || v.Obj?
  }

  /** `_.isNumber`, equivalently `v.constructor === Number` for a primitive. */
  predicate IsNumber(v: Value)
  {
    v.Num? || v.NaN? || v.Infinity?
  }

  function DigitChar(d: nat): (c: char)
    requires d < 10
    ensures '0' <= c <= '9'
  {
    "0123456789"[d]
  }

  /** Decimal digits of a natural number, most significant first. */
  function Digits(n: nat): (r: string)
    ensures |r| > 0
    ensures forall i :: 0 <= i < |r| ==> '0' <= r[i] <= '9'
    ensures |r| > 1 ==> r[0] != '0'
  {
    if n < 10 then [DigitChar(n)] else Digits(n / 10) + [DigitChar(n % 10)]
  }

  /** `String(n)` for an integral number. */
  function NumberString(n: int): string
  {
    if n < 0 then "-" + Digits(-n) else Digits(n)
  }

  /** `String(v)`, which is also what `+` appends to a string. */
  function ToStr(v: Value): string
  {
    match v
    case Undefined => "undefined"
    case Null => "null"
    case Bool(b) => if b then "true" else "false"
    case Num(n) => NumberString(n)
    case NaN => "NaN"
    case Infinity(negative) => if negative then "-Infinity" else "Infinity"
    case Str(s) => s
    case Date(_, text) => text
    case Arr(items) => Join(ItemStrings(items), ",")
    case Obj(_) => "[object Object]"
  }

  /** The array items as `join` renders them: `null` and `undefined` become "". */
  function ItemStrings(items: seq<Value>): (r: seq<string>)
    ensures |r| == |items|
  {
    if items == [] then []
    else [if items[0].Undefined? || items[0].Null? then "" else ToStr(items[0])] + ItemStrings(items[1..])
  }

  /** How `Array.prototype.join` renders one element: `null` and `undefined` become "". */
  function ElementString(v: Value): (r: string)
    ensures v.Undefined? || v.Null? ==> r == ""
    ensures !(v.Undefined? || v.Null?) ==> r == ToStr(v)
  {
    if v.Undefined? || v.Null? then "" else ToStr(v)
  }

  /** `parts.join(sep)`. */
  function Join(parts: seq<string>, sep: string): string
  {
    if |parts| == 0 then ""
    else if |parts| == 1 then parts[0]
    else parts[0] + sep + Join(parts[1..], sep)
  }

  lemma JoinPair(a: string, b: string, sep: string)
    ensures Join([a, b], sep) == a + sep + b
  {
    assert [a, b][1..] == [b];
  }

  // Ordered property lists: a JS object as its (key, value) pairs in enumeration order.

  predicate HasKey<V>(props: seq<(string, V)>, key: string)
  {
    exists i :: 0 <= i < |props| && props[i].0 == key
  }

  /**
   * The properties every plain `{}` inherits from Object.prototype (Node's
   * list). Reading one of them from an object that lacks it as its own
   * property gives a function, or for `__proto__` the prototype itself: a
   * truthy value in every case.
   */
  const InheritedNames: set<string> := {
    "constructor", "toString", "toLocaleString", "valueOf", "hasOwnProperty",
    "isPrototypeOf", "propertyIsEnumerable", "__defineGetter__", "__defineSetter__",
    "__lookupGetter__", "__lookupSetter__", "__proto__"
  }

  /** No key occurs twice, as in any JS object. */
  predicate UniqueKeys<V>(props: seq<(string, V)>)
  {
    forall i, j :: 0 <= i < j < |props| ==> props[i].0 != props[j].0
  }

  /** `obj[key]`, `None` standing for a missing property. */
  function Get<V>(props: seq<(string, V)>, key: string): (r: Option<V>)
    ensures r.None? <==> !HasKey(props, key)
  {
    if props == [] then None
    else if props[0].0 == key then Some(props[0].1)
    else Get(props[1..], key)
  }

  /** `obj[key] = v`: an existing key keeps its position, a new key goes last. */
  function Put<V>(props: seq<(string, V)>, key: string, v: V): (r: seq<(string, V)>)
    ensures Get(r, key) == Some(v)
    ensures forall k :: k != key ==> Get(r, k) == Get(props, k)
    ensures |r| == if HasKey(props, key) then |props| else |props| + 1
    ensures UniqueKeys(props) ==> UniqueKeys(r)
  {
    if props == [] then [(key, v)]
    else if props[0].0 == key then
      var r := [(key, v)] + props[1..];
      assert r[1..] == props[1..];
      r
    else
      var rest := Put(props[1..], key, v);
      var r := [props[0]] + rest;
      assert r[1..] == rest;
      TailKeys(props, key);
      assert UniqueKeys(props) ==> UniqueKeys(r) by {
        if UniqueKeys(props) {
          TailKeys(props, props[0].0);
          assert Get(rest, props[0].0) == Get(props[1..], props[0].0);
          ConsUnique(props[0], rest);
        }
      }
      r
  }

  /** A key other than the first one is present exactly when the tail has it; a unique list's tail is unique. */
  lemma TailKeys<V>(props: seq<(string, V)>, key: string)
    requires props != []
    ensures props[0].0 != key ==> (HasKey(props, key) <==> HasKey(props[1..], key))
    ensures UniqueKeys(props) ==> UniqueKeys(props[1..]) && !HasKey(props[1..], props[0].0)
  {
    if HasKey(props, key) && props[0].0 != key {
      var i :| 0 <= i < |props| && props[i].0 == key;
      assert props[1..][i - 1] == props[i];
    }
    if HasKey(props[1..], key) {
      var i :| 0 <= i < |props[1..]| && props[1..][i].0 == key;
      assert props[i + 1] == props[1..][i];
    }
    if UniqueKeys(props) {
      forall i | 0 <= i < |props[1..]| ensures props[1..][i].0 != props[0].0 {
        assert props[1..][i] == props[i + 1];
      }
      forall i, j | 0 <= i < j < |props[1..]| ensures props[1..][i].0 != props[1..][j].0 {
        assert props[1..][i] == props[i + 1] && props[1..][j] == props[j + 1];
      }
    }
  }

  /** Assignment keeps every existing key at its position and puts a new key last. */
  lemma {:induction false} PutKeepsPositions<V>(props: seq<(string, V)>, key: string, v: V)
    ensures forall i :: 0 <= i < |props| ==> Put(props, key, v)[i].0 == props[i].0
    ensures !HasKey(props, key) ==> Put(props, key, v)[|props|].0 == key
  {
    if props != [] && props[0].0 != key {
      PutKeepsPositions(props[1..], key, v);
      TailKeys(props, key);
      var r := Put(props, key, v);
      assert r == [props[0]] + Put(props[1..], key, v);
      forall i | 1 <= i < |props| ensures r[i].0 == props[i].0 {
        assert r[i] == Put(props[1..], key, v)[i - 1] && props[i] == props[1..][i - 1];
      }
    }
  }

  /** Prepending a pair whose key the list lacks keeps keys unique. */
  lemma ConsUnique<V>(first: (string, V), rest: seq<(string, V)>)
    requires UniqueKeys(rest) && !HasKey(rest, first.0)
    ensures UniqueKeys([first] + rest)
  {
    var r := [first] + rest;
    forall i, j | 0 <= i < j < |r| ensures r[i].0 != r[j].0 {
      assert r[j] == rest[j - 1];
      if i > 0 {
        assert r[i] == rest[i - 1];
      }
    }
  }

  /** `delete obj[key]`. */
  function Remove<V>(props: seq<(string, V)>, key: string): (r: seq<(string, V)>)
    requires UniqueKeys(props)
    ensures Get(r, key) == None
    ensures forall k :: k != key ==> Get(r, k) == Get(props, k)
    ensures UniqueKeys(r)
    ensures forall i :: 0 <= i < |r| ==> r[i] in props
    ensures !HasKey(props, key) ==> r == props
  {
    if props == [] then []
    else if props[0].0 == key then props[1..]
    else [props[0]] + Remove(props[1..], key)
  }

  /** Assigning the same key twice leaves only the second value, in the first one's place. */
  lemma {:induction false} PutTwice<V>(props: seq<(string, V)>, key: string, v1: V, v2: V)
    ensures Put(Put(props, key, v1), key, v2) == Put(props, key, v2)
  {
    if props != [] && props[0].0 != key {
      PutTwice(props[1..], key, v1, v2);
    }
  }

  /** A new key is appended after all the existing ones. */
  lemma {:induction false} PutAppends<V>(props: seq<(string, V)>, key: string, v: V)
    requires !HasKey(props, key)
    ensures Put(props, key, v) == props + [(key, v)]
  {
    if props != [] {
      TailKeys(props, key);
      PutAppends(props[1..], key, v);
      PutSkips(props[0], props[1..], key, v);
      ConsSnoc(props, (key, v));
    }
  }

  /** An existing key keeps its place and takes the new value. */
  lemma {:induction false} PutReplaces<V>(front: seq<(string, V)>, key: string, previous: V, back: seq<(string, V)>, v: V)
    requires !HasKey(front, key)
    ensures Put(front + [(key, previous)] + back, key, v) == front + [(key, v)] + back
  {
    if front == [] {
      assert front + [(key, previous)] + back == [(key, previous)] + back;
      assert front + [(key, v)] + back == [(key, v)] + back;
      PutFirst(key, previous, back, v);
    } else {
      ConsSplit(front, [(key, previous)], back);
      ConsSplit(front, [(key, v)], back);
      TailKeys(front, key);
      PutReplaces(front[1..], key, previous, back, v);
      PutSkips(front[0], front[1..] + [(key, previous)] + back, key, v);
    }
  }

  lemma ConsSnoc<T>(s: seq<T>, x: T)
    requires s != []
    ensures s + [x] == [s[0]] + (s[1..] + [x])
  {
    assert s == [s[0]] + s[1..];
  }

  lemma ConsSplit<T>(front: seq<T>, middle: seq<T>, back: seq<T>)
    requires front != []
    ensures front + middle + back == [front[0]] + (front[1..] + middle + back)
  {
    assert front == [front[0]] + front[1..];
  }

  lemma PutFirst<V>(key: string, previous: V, back: seq<(string, V)>, v: V)
    ensures Put([(key, previous)] + back, key, v) == [(key, v)] + back
  {
    var props := [(key, previous)] + back;
    assert props[0].0 == key;
    assert props[1..] == back;
  }

  lemma PutSkips<V>(first: (string, V), rest: seq<(string, V)>, key: string, v: V)
    requires first.0 != key
    ensures Put([first] + rest, key, v) == [first] + Put(rest, key, v)
  {
    assert ([first] + rest)[1..] == rest;
  }

  /** Deleting a key takes out its entry and keeps the rest in order. */
  lemma {:induction false} RemoveDrops<V>(front: seq<(string, V)>, key: string, v: V, back: seq<(string, V)>)
    requires UniqueKeys(front + [(key, v)] + back)
    requires !HasKey(front, key)
    ensures Remove(front + [(key, v)] + back, key) == front + back
  {
    var props := front + [(key, v)] + back;
    if front != [] {
      ConsSplit(front, [(key, v)], back);
      ConsSplit(front, [], back);
      assert front + [] + back == front + back;
      assert front[1..] + [] + back == front[1..] + back;
      TailKeys(front, key);
      TailKeys(props, props[0].0);
      assert props[1..] == front[1..] + [(key, v)] + back;
      RemoveDrops(front[1..], key, v, back);
      RemoveSkips(front[0], front[1..] + [(key, v)] + back, key);
    } else {
      assert props == [(key, v)] + back;
      assert props[1..] == back;
    }
  }

  lemma RemoveSkips<V>(first: (string, V), rest: seq<(string, V)>, key: string)
    requires first.0 != key
    requires UniqueKeys([first] + rest)
    ensures UniqueKeys(rest)
    ensures Remove([first] + rest, key) == [first] + Remove(rest, key)
  {
    TailKeys([first] + rest, first.0);
    assert ([first] + rest)[1..] == rest;
  }
}
