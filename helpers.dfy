/**
 * Hitch.Helpers' string helpers (src/hitch.helpers.js): `tagFor`, which
 * serialises one HTML element, and `ucFirst`/`lcFirst`, which change the case
 * of a string's first character.
 */
module Helpers {
  import opened Js

  // ---------------------------------------------------------------- tagFor

  /** Elements `tagFor` writes without a closing tag. */
  const VoidTags: seq<string> := ["link", "input", "meta"]

  /** `_.indexOf(VoidTags, tagName) >= 0`: strict equality, so only those exact strings. */
  predicate IsVoid(tagName: Value)
  {
    tagName.Str? && tagName.s in VoidTags
  }

  /** The attribute and content arguments after `tagFor`'s shuffle. */
  datatype TagArgs = TagArgs(attrs: Value, content: Value)

  /**
   * A truthy non-object `attrs` with a falsy `content` is the content:
   * `tagFor('p', 'text')` is `tagFor('p', {}, 'text')`.
   */
  function Shuffle(attrs: Value, content: Value): (r: TagArgs)
    ensures Truthy(attrs) && !Truthy(content) && !IsObject(attrs) ==> r == TagArgs(Obj([]), attrs)
    ensures !(Truthy(attrs) && !Truthy(content) && !IsObject(attrs)) ==> r == TagArgs(attrs, content)
  {
    if Truthy(attrs) && !Truthy(content) && !IsObject(attrs) then TagArgs(Obj([]), attrs)
    else TagArgs(attrs, content)
  }

  /**
   * `_.pairs(attrs)` as underscore 1.4 writes it, a `for (key in attrs)` loop
   * over own properties: an object's properties in order, an array's or a
   * string's indices with their elements, and nothing for the other primitives
   * or a Date.
   */
  function Pairs(attrs: Value): (r: seq<(string, Value)>)
    ensures attrs.Obj? ==> r == attrs.props
    ensures attrs.Arr? ==> |r| == |attrs.items| && forall i :: 0 <= i < |r| ==> r[i] == (NumberString(i), attrs.items[i])
    ensures attrs.Str? ==> |r| == |attrs.s| && forall i :: 0 <= i < |r| ==> r[i] == (NumberString(i), Str([attrs.s[i]]))
    ensures !attrs.Obj? && !attrs.Arr? && !attrs.Str? ==> r == []
  {
    match attrs
    case Obj(props) => props
    case Arr(items) => seq(|items|, i requires 0 <= i < |items| => (NumberString(i), items[i]))
    case Str(s) => seq(|s|, i requires 0 <= i < |s| => (NumberString(i), Str([s[i]])))
    case _ => []
  }

  /** `[key, value].join('="') + '"'`. */
  function Attribute(pair: (string, Value)): (r: string)
    ensures r == pair.0 + "=\"" + ElementString(pair.1) + "\""
  {
    JoinPair(pair.0, ElementString(pair.1), "=\"");
    Join([pair.0, ElementString(pair.1)], "=\"") + "\""
  }

  /** The attributes, each rendered by `Attribute`, separated by single spaces. */
  function AttributeList(pairs: seq<(string, Value)>): string
  {
    Join(seq(|pairs|, i requires 0 <= i < |pairs| => Attribute(pairs[i])), " ")
  }

  /** An element: open tag with a space after the name, body, and a closing tag unless `void`. */
  function Element(name: string, attributes: string, body: string, void: bool): string
  {
    "<" + name + " " + attributes + ">" + body + (if void then "" else "</" + name + ">")
  }

  /** `tagFor(tagName, attrs, content)`. */
  function TagFor(tagName: Value, attrs: Value, content: Value): string
  {
    var args := Shuffle(attrs, content);
    Element(ToStr(tagName), AttributeList(Pairs(args.attrs)),
            if Truthy(args.content) then ToStr(args.content) else "", IsVoid(tagName))
  }

  predicate StartsWith(s: string, prefix: string)
  {
    |prefix| <= |s| && s[..|prefix|] == prefix
  }

  predicate EndsWith(s: string, suffix: string)
  {
    |suffix| <= |s| && s[|s| - |suffix|..] == suffix
  }

  lemma ElementFrame(name: string, attributes: string, body: string, void: bool)
    ensures StartsWith(Element(name, attributes, body, void), "<" + name + " ")
    ensures !void ==> EndsWith(Element(name, attributes, body, void), "</" + name + ">")
    ensures void && body == "" ==> EndsWith(Element(name, attributes, body, void), ">")
  {
    var open := "<" + name + " ";
    var inner := open + attributes + ">" + body;
    var e := Element(name, attributes, body, void);
    assert e == inner + (if void then "" else "</" + name + ">");
    assert e[..|open|] == open;
    if void && body == "" {
      assert e == open + attributes + ">";
    }
  }

  /**
   * Every tag opens with `<`, the tag name and a space (even without
   * attributes), and ends with `</name>` exactly when the name is not one of
   * the void tags; a void tag without content ends with `>`.
   */
  lemma TagForFrame(tagName: Value, attrs: Value, content: Value)
    ensures StartsWith(TagFor(tagName, attrs, content), "<" + ToStr(tagName) + " ")
    ensures !IsVoid(tagName) ==> EndsWith(TagFor(tagName, attrs, content), "</" + ToStr(tagName) + ">")
    ensures IsVoid(tagName) && !Truthy(Shuffle(attrs, content).content) ==> EndsWith(TagFor(tagName, attrs, content), ">")
  {
    var args := Shuffle(attrs, content);
    ElementFrame(ToStr(tagName), AttributeList(Pairs(args.attrs)),
                 if Truthy(args.content) then ToStr(args.content) else "", IsVoid(tagName));
  }

  /** A truthy primitive in the attribute position, with no content, is rendered as the content. */
  lemma ShuffledContent(tagName: Value, text: Value)
    requires Truthy(text) && !IsObject(text)
    ensures TagFor(tagName, text, Undefined) == TagFor(tagName, Obj([]), text)
    ensures !IsVoid(tagName) ==> TagFor(tagName, text, Undefined) == "<" + ToStr(tagName) + " >" + ToStr(text) + "</" + ToStr(tagName) + ">"
  {
  }

  /** A falsy content (after the shuffle) leaves the element empty. */
  lemma EmptyElement(tagName: Value, props: seq<(string, Value)>, content: Value)
    requires !Truthy(content)
    ensures TagFor(tagName, Obj(props), content) ==
      "<" + ToStr(tagName) + " " + AttributeList(props) + ">" + (if IsVoid(tagName) then "" else "</" + ToStr(tagName) + ">")
  {
  }

  lemma LinkAttributes()
    ensures AttributeList([("href", Str("/some/url")), ("dataType", Str("resource"))])
      == "href=\"/some/url\" dataType=\"resource\""
  {
    var pairs := [("href", Str("/some/url")), ("dataType", Str("resource"))];
    var rendered := seq(|pairs|, i requires 0 <= i < |pairs| => Attribute(pairs[i]));
    HrefAttribute();
    DataTypeAttribute();
    assert rendered == ["href=\"/some/url\"", "dataType=\"resource\""];
    JoinPair(rendered[0], rendered[1], " ");
    SpacedLink();
  }

  lemma HrefAttribute()
    ensures Attribute(("href", Str("/some/url"))) == "href=\"/some/url\""
  {
  }

  lemma DataTypeAttribute()
    ensures Attribute(("dataType", Str("resource"))) == "dataType=\"resource\""
  {
  }

  lemma SpacedLink()
    ensures "href=\"/some/url\"" + " " + "dataType=\"resource\"" == "href=\"/some/url\" dataType=\"resource\""
  {
  }

  /** Attribute keys are written as given: a camel-cased key is not turned into a dashed one. */
  lemma TagForLink()
    ensures TagFor(Str("a"), Obj([("href", Str("/some/url")), ("dataType", Str("resource"))]), Str("Link"))
      == "<a " + "href=\"/some/url\" dataType=\"resource\"" + ">Link</a>"
  {
    var pairs := [("href", Str("/some/url")), ("dataType", Str("resource"))];
    LinkAttributes();
    assert Shuffle(Obj(pairs), Str("Link")) == TagArgs(Obj(pairs), Str("Link"));
    assert !IsVoid(Str("a"));
    var attributes := "href=\"/some/url\" dataType=\"resource\"";
    assert TagFor(Str("a"), Obj(pairs), Str("Link")) == Element("a", attributes, "Link", false);
    ElementLink(attributes);
  }

  lemma ElementLink(attributes: string)
    ensures Element("a", attributes, "Link", false) == "<a " + attributes + ">Link</a>"
  {
    assert "<" + "a" + " " == "<a ";
    assert ">" + "Link" + ("</" + "a" + ">") == ">Link</a>";
  }

  /**
   * A string in the attribute position next to a truthy content is not
   * shuffled: its indices and characters become the attributes.
   */
  lemma StringAttributes()
    ensures TagFor(Str("p"), Str("ab"), Str("x")) == "<p 0=\"a\" 1=\"b\">x</p>"
  {
    StringPairs();
    IndexAttributeList();
    assert Shuffle(Str("ab"), Str("x")) == TagArgs(Str("ab"), Str("x"));
    assert !IsVoid(Str("p"));
    assert TagFor(Str("p"), Str("ab"), Str("x")) == Element("p", "0=\"a\" 1=\"b\"", "x", false);
    ElementP("0=\"a\" 1=\"b\"");
    IndexedParagraph();
  }

  lemma IndexedParagraph()
    ensures "<p " + "0=\"a\" 1=\"b\"" + ">x</p>" == "<p 0=\"a\" 1=\"b\">x</p>"
  {
  }

  lemma ElementP(attributes: string)
    ensures Element("p", attributes, "x", false) == "<p " + attributes + ">x</p>"
  {
    assert "<" + "p" + " " == "<p ";
    assert ">" + "x" + ("</" + "p" + ">") == ">x</p>";
  }

  lemma StringPairs()
    ensures Pairs(Str("ab")) == [("0", Str("a")), ("1", Str("b"))]
  {
    assert NumberString(0) == "0" && NumberString(1) == "1";
  }

  lemma IndexAttributeList()
    ensures AttributeList([("0", Str("a")), ("1", Str("b"))]) == "0=\"a\" 1=\"b\""
  {
    var pairs := [("0", Str("a")), ("1", Str("b"))];
    var rendered := seq(|pairs|, i requires 0 <= i < |pairs| => Attribute(pairs[i]));
    IndexAttributes();
    assert rendered == ["0=\"a\"", "1=\"b\""];
    JoinPair(rendered[0], rendered[1], " ");
  }

  lemma IndexAttributes()
    ensures Attribute(("0", Str("a"))) == "0=\"a\""
    ensures Attribute(("1", Str("b"))) == "1=\"b\""
  {
  }

  /** `<input>` gets no closing tag. */
  lemma TagForInput()
    ensures TagFor(Str("input"), Obj([("type", Str("text"))]), Undefined) == "<input type=\"text\">"
  {
    var pairs := [("type", Str("text"))];
    var rendered := seq(|pairs|, i requires 0 <= i < |pairs| => Attribute(pairs[i]));
    assert Attribute(pairs[0]) == "type=\"text\"";
    assert rendered == ["type=\"text\""];
    assert AttributeList(pairs) == "type=\"text\"";
    assert Shuffle(Obj(pairs), Undefined) == TagArgs(Obj(pairs), Undefined);
    assert IsVoid(Str("input"));
  }

  // ------------------------------------------------------ ucFirst / lcFirst

  /** `toUpperCase` on one character, for the ASCII letters. */
  function Upper(c: char): (r: char)
    ensures 'a' <= c <= 'z' ==> 'A' <= r <= 'Z' && r as int - c as int == 'A' as int - 'a' as int
    ensures !('a' <= c <= 'z') ==> r == c
  {
    if 'a' <= c <= 'z' then (c as int - 'a' as int + 'A' as int) as char else c
  }

  /** `toLowerCase` on one character, for the ASCII letters. */
  function Lower(c: char): (r: char)
    ensures 'A' <= c <= 'Z' ==> 'a' <= r <= 'z' && r as int - c as int == 'a' as int - 'A' as int
    ensures !('A' <= c <= 'Z') ==> r == c
  {
    if 'A' <= c <= 'Z' then (c as int - 'A' as int + 'a' as int) as char else c
  }

  /** `str.charAt(0).toUpperCase() + str.substring(1)`. */
  function UcFirst(str: string): (r: string)
    ensures |r| == |str|
    ensures |str| > 0 ==> r[0] == Upper(str[0]) && r[1..] == str[1..]
  {
    if str == [] then "" else [Upper(str[0])] + str[1..]
  }

  /** `str.charAt(0).toLowerCase() + str.substring(1)`. */
  function LcFirst(str: string): (r: string)
    ensures |r| == |str|
    ensures |str| > 0 ==> r[0] == Lower(str[0]) && r[1..] == str[1..]
  {
    if str == [] then "" else [Lower(str[0])] + str[1..]
  }

  /** Applying either helper twice is the same as once, and the last one applied wins. */
  lemma CaseHelpersCompose(str: string)
    ensures UcFirst(UcFirst(str)) == UcFirst(str)
    ensures LcFirst(LcFirst(str)) == LcFirst(str)
    ensures UcFirst(LcFirst(str)) == UcFirst(str)
    ensures LcFirst(UcFirst(str)) == LcFirst(str)
  {
  }

  /** Only a lower-case first letter is changed by `ucFirst`, only an upper-case one by `lcFirst`. */
  lemma CaseHelpersFixpoints(str: string)
    ensures UcFirst(str) == str <==> str == [] || !('a' <= str[0] <= 'z')
    ensures LcFirst(str) == str <==> str == [] || !('A' <= str[0] <= 'Z')
  {
    if str != [] {
      if UcFirst(str) == str {
        assert UcFirst(str)[0] == str[0];
      }
      if LcFirst(str) == str {
        assert LcFirst(str)[0] == str[0];
      }
    }
  }

  lemma UcFirstExample()
    ensures UcFirst("string") == "String"
  {
  }

  lemma LcFirstExample()
    ensures LcFirst("String") == "string"
  {
  }
}
