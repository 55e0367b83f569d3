/**
 * The string-building logic of the command-line scaffolding tool
 * (lib/functions.js): repeating and centring banner text, aligning the rows
 * of the help table, rendering a module configuration as a JavaScript
 * object literal, normalising the application root, and choosing the build
 * steps of `buildTarget`. File-system, template and process work is
 * represented by the steps it would perform.
 */
module Scaffold {
  import opened Common
  import opened Js

  // ---------------------------------------------------------------------
  // _strRepeat and _strCenter
  // ---------------------------------------------------------------------

  /** `_strRepeat(s, times)`: `s` concatenated `times` times; no copies when `times <= 0`. */
  function StrRepeat(s: string, times: int): (r: string)
    ensures |r| == if times <= 0 then 0 else times * |s|
    decreases times
  {
    if times <= 0 then "" else StrRepeat(s, times - 1) + s
  }

  lemma {:induction false} RepeatAdd(s: string, a: nat, b: nat)
    ensures StrRepeat(s, a + b) == StrRepeat(s, a) + StrRepeat(s, b)
    decreases b
  {
    if b > 0 {
      RepeatAdd(s, a, b - 1);
      assert StrRepeat(s, a + b) == StrRepeat(s, a + b - 1) + s;
    }
  }

  lemma {:induction false} RepeatChar(c: char, times: int)
    ensures forall i :: 0 <= i < |StrRepeat([c], times)| ==> StrRepeat([c], times)[i] == c
    decreases times
  {
    if times > 0 {
      RepeatChar(c, times - 1);
    }
  }

  /** The pads before and after a string centred in `ws` spare positions: floor and ceiling of the half. */
  function CenterSplit(ws: int): (split: (nat, nat))
    requires ws > 0
    ensures split.0 + split.1 == ws
    ensures split.0 <= split.1 <= split.0 + 1
  {
    if ws % 2 == 0 then (ws / 2, ws / 2) else (ws / 2, ws / 2 + 1)
  }

  /** `_strCenter(str, len, pad)`; an omitted or empty pad stands for a blank. */
  function StrCenter(str: string, len: int, pad: string): (r: string)
    ensures len <= |str| ==> r == str
  {
    if len <= |str| then str
    else
      var p := if pad == "" then " " else pad;
      var split := CenterSplit(len - |str|);
      StrRepeat(p, split.0) + str + StrRepeat(p, split.1)
  }

  /**
   * With a one-character pad (or the default blank), a string shorter than
   * `len` ends up in a field of exactly `len` characters, starting after
   * half the spare room rounded down and followed by the rest.
   */
  lemma CenterLayout(str: string, len: int, pad: string, c: char)
    requires len > |str|
    requires pad == [c] || (pad == "" && c == ' ')
    ensures var r := StrCenter(str, len, pad);
      var before := (len - |str|) / 2;
      && |r| == len
      && r[before..before + |str|] == str
      && (forall i :: 0 <= i < before ==> r[i] == c)
      && (forall i :: before + |str| <= i < len ==> r[i] == c)
      && 0 <= (len - before - |str|) - before <= 1
  {
    var split := CenterSplit(len - |str|);
    RepeatChar(c, split.0);
    RepeatChar(c, split.1);
    var r := StrCenter(str, len, pad);
    assert r == StrRepeat([c], split.0) + str + StrRepeat([c], split.1);
  }

  /** The banner line of the help screen: 24 characters centred in 73 get 24 blanks before them. */
  lemma BannerCentered()
    ensures var r := StrCenter("Hitch Command Line Tools", 73, "");
      |r| == 73 && r[24..48] == "Hitch Command Line Tools" && r[0] == ' ' && r[72] == ' '
  {
    CenterLayout("Hitch Command Line Tools", 73, "", ' ');
  }

  // ---------------------------------------------------------------------
  // _printTable
  // ---------------------------------------------------------------------

  /** One cell of a table row: the column followed by blanks up to its width. */
  function Cell(column: string, width: int): (r: string)
    ensures |column| >= width ==> r == column
    ensures |column| < width ==> |r| == width && r[..|column|] == column
    ensures forall i :: |column| <= i < |r| ==> r[i] == ' '
  {
    RepeatChar(' ', width - |column|);
    column + StrRepeat(" ", width - |column|)
  }

  /** The cells of a row concatenated (`log.join('')`); every column has a width here. */
  function Cells(row: seq<string>, widths: seq<int>): string
    requires |row| <= |widths|
  {
    if row == [] then "" else Cell(row[0], widths[0]) + Cells(row[1..], widths[1..])
  }

  /**
   * The line printed for one row, or `None` when a column has no width:
   * `options.columns[i]` is then undefined, the pad count is NaN and
   * `_.range(0, NaN)` throws a RangeError.
   */
  function FormatRow(row: seq<string>, widths: seq<int>): (r: Option<string>)
    ensures r.Some? <==> |row| <= |widths|
  {
    if |row| <= |widths| then Some(Cells(row, widths)) else None
  }

  function Sum(widths: seq<int>): int
  {
    if widths == [] then 0 else widths[0] + Sum(widths[1..])
  }

  /** A row whose columns fit their widths is as wide as its widths together. */
  lemma {:induction false} RowWidth(row: seq<string>, widths: seq<int>)
    requires |row| <= |widths|
    requires forall j :: 0 <= j < |row| ==> |row[j]| <= widths[j]
    ensures |Cells(row, widths)| == Sum(widths[..|row|])
  {
    if row != [] {
      RowWidth(row[1..], widths[1..]);
      assert widths[..|row|][1..] == widths[1..][..|row| - 1];
    }
  }

  /** In such a row, column `j` starts at the sum of the widths before it: the columns line up. */
  lemma {:induction false} RowColumnStart(row: seq<string>, widths: seq<int>, j: nat)
    requires |row| <= |widths|
    requires forall k :: 0 <= k < |row| ==> |row[k]| <= widths[k]
    requires j < |row|
    ensures var start := Sum(widths[..j]);
      0 <= start && start + |row[j]| <= |Cells(row, widths)| && Cells(row, widths)[start..start + |row[j]|] == row[j]
  {
    var cell := Cell(row[0], widths[0]);
    var rest := Cells(row[1..], widths[1..]);
    assert Cells(row, widths) == cell + rest;
    assert |cell| == widths[0];
    if j == 0 {
      assert widths[..0] == [];
      assert (cell + rest)[..|row[0]|] == cell[..|row[0]|];
    } else {
      RowColumnStart(row[1..], widths[1..], j - 1);
      SumStep(widths, j);
      var start := Sum(widths[1..][..j - 1]);
      assert row[1..][j - 1] == row[j];
      SliceShift(cell, rest, start, start + |row[j]|);
    }
  }

  // SumStep and SliceShift model nothing on their own: they are the slice
  // arithmetic RowColumnStart needs.

  lemma SumStep(widths: seq<int>, j: nat)
    requires 0 < j <= |widths|
    ensures Sum(widths[..j]) == widths[0] + Sum(widths[1..][..j - 1])
  {
    assert widths[..j][1..] == widths[1..][..j - 1];
  }

  lemma SliceShift(front: string, back: string, from: nat, to: nat)
    requires from <= to <= |back|
    ensures (front + back)[|front| + from..|front| + to] == back[from..to]
  {
  }

  /** A column longer than its width is printed whole and gets no padding. */
  lemma OverlongColumn(column: string, width: int)
    requires |column| >= width
    ensures Cells([column], [width]) == column
  {
  }

  /**
   * `_printTable(data, {columns: widths})`: prints one line per row until a
   * row has a column without a width, which throws.
   */
  method PrintTable(data: seq<seq<string>>, widths: seq<int>) returns (printed: seq<string>, thrown: bool)
    ensures |printed| <= |data|
    ensures forall i :: 0 <= i < |printed| ==> FormatRow(data[i], widths) == Some(printed[i])
    ensures thrown <==> exists i :: 0 <= i < |data| && |data[i]| > |widths|
    ensures thrown ==> |printed| < |data| && |data[|printed|]| > |widths|
    ensures !thrown ==> |printed| == |data|
  {
    printed := [];
    var i := 0;
    while i < |data|
      invariant 0 <= i <= |data| && |printed| == i
      invariant forall k :: 0 <= k < i ==> FormatRow(data[k], widths) == Some(printed[k])
      invariant forall k :: 0 <= k < i ==> |data[k]| <= |widths|
    {
      var line := FormatRow(data[i], widths);
      if line.None? {
        return printed, true;
      }
      printed := printed + [line.value];
      i := i + 1;
    }
    return printed, false;
  }

  // ---------------------------------------------------------------------
  // moduleConfigurationToJavascript
  // ---------------------------------------------------------------------

  /** A character matched by `\w`. */
  predicate WordChar(c: char)
  {
    'a' <= c <= 'z' || 'A' <= c <= 'Z' || '0' <= c <= '9' || c == '_'
  }

  /** A key matched by `/^\w+$/`, which may be written as a bare identifier. */
  predicate IsWordKey(key: string)
  {
    |key| > 0 && forall i :: 0 <= i < |key| ==> WordChar(key[i])
  }

  function KeyLiteral(key: string): string
  {
    if IsWordKey(key) then key else "'" + key + "'"
  }

  /**
   * How one value is written. Objects go to `notation`, which stands for
   * `objectToJavascriptNotation`: that name is not defined in the file, so
   * only ConfigAsWritten says what the code does with an object value.
   * Strings are quoted but not escaped.
   */
  function ValueLiteral(key: string, value: Value, notation: Value -> string): string
  {
    if IsObject(value) then notation(value)
    else if key == "resource" then "this.resources." + ToStr(value)
    else
      match value
      case Str(s) => "'" + s + "'"
      case Bool(b) => if b then "true" else "false"
      case Null => "null"
      case Undefined => "undefined"
      case _ => ToStr(value)
  }

  /** What precedes the entry at `index`: a comma unless it is the first, then a newline. */
  function Separator(index: nat): string
  {
    (if index == 0 then "" else ",") + "\n"
  }

  /** The key as written, followed by ": ". */
  function KeyPart(key: string): string
  {
    KeyLiteral(key) + ": "
  }

  /** One entry without its separator: `key: value`. */
  function EntryText(entry: (string, Value), notation: Value -> string): string
  {
    KeyPart(entry.0) + ValueLiteral(entry.0, entry.1, notation)
  }

  /** What the loop appends for the entry at position `index`. */
  function EntryAt(index: nat, entry: (string, Value), notation: Value -> string): string
  {
    Separator(index) + EntryText(entry, notation)
  }

  /** What the loop has appended after "{" once it has visited `props`. */
  function Entries(props: seq<(string, Value)>, notation: Value -> string): string
  {
    if props == [] then ""
    else
      var last := |props| - 1;
      Entries(props[..last], notation) + EntryAt(last, props[last], notation)
  }

  /** Concatenation regrouped: the solver does not reassociate appends on its own. */
  lemma EntriesStep(props: seq<(string, Value)>, index: nat, notation: Value -> string)
    requires index < |props|
    ensures Entries(props[..index + 1], notation) == Entries(props[..index], notation) + EntryAt(index, props[index], notation)
  {
    assert props[..index + 1][..index] == props[..index];
  }

  /**
   * The string `moduleConfigurationToJavascript(obj)` was evidently meant to
   * return, with `notation` the missing `objectToJavascriptNotation`.
   */
  function ConfigLiteral(props: seq<(string, Value)>, notation: Value -> string): string
  {
    "{" + Entries(props, notation) + "\n}"
  }

  /** What calling the undefined name `objectToJavascriptNotation` throws. */
  const NotationReferenceError: string := "ReferenceError: objectToJavascriptNotation is not defined"

  /** Some property's value is an object, which the loop hands to `objectToJavascriptNotation`. */
  predicate HasObjectValue(props: seq<(string, Value)>)
  {
    exists i :: 0 <= i < |props| && IsObject(props[i].1)
  }

  /**
   * Stands in for `objectToJavascriptNotation`, which lib/functions.js calls
   * but never defines. No object value reaches it on the path that returns,
   * as NotationUnused shows.
   */
  const Unbound: Value -> string := _ => ""

  /**
   * `moduleConfigurationToJavascript(obj)` as lib/functions.js writes it: the
   * first object-valued property throws a ReferenceError, and a configuration
   * of primitives gives the literal.
   */
  function ConfigAsWritten(props: seq<(string, Value)>): Result<string, string>
  {
    if HasObjectValue(props) then Err(NotationReferenceError) else Ok(ConfigLiteral(props, Unbound))
  }

  /** Without object values, the notation function is never applied. */
  lemma {:induction false} NotationUnused(props: seq<(string, Value)>, f: Value -> string, g: Value -> string)
    requires !HasObjectValue(props)
    ensures Entries(props, f) == Entries(props, g)
    decreases |props|
  {
    if props != [] {
      var last := |props| - 1;
      assert !IsObject(props[last].1);
      assert !HasObjectValue(props[..last]) by {
        forall i | 0 <= i < last ensures !IsObject(props[..last][i].1) {
          assert props[..last][i] == props[i];
        }
      }
      NotationUnused(props[..last], f, g);
    }
  }

  /**
   * The code as written and the intended literal agree exactly on the
   * configurations without object values; with one, only the written code throws.
   */
  lemma AsWrittenAgreesWithoutObjects(props: seq<(string, Value)>, notation: Value -> string)
    ensures ConfigAsWritten(props) == Ok(ConfigLiteral(props, notation)) <==> !HasObjectValue(props)
    ensures HasObjectValue(props) <==> ConfigAsWritten(props) == Err(NotationReferenceError)
  {
    if !HasObjectValue(props) {
      NotationUnused(props, Unbound, notation);
    }
  }

  /** `moduleConfigurationToJavascript({child: {}})` throws as soon as it reaches the nested object. */
  lemma NestedObjectThrows()
    ensures ConfigAsWritten([("child", Obj([]))]) == Err(NotationReferenceError)
  {
    assert IsObject([("child", Obj([]))][0].1);
  }

  /** The three appends of one loop iteration add that entry to the literal so far. */
  lemma AppendEntry(before: string, props: seq<(string, Value)>, index: nat, notation: Value -> string)
    requires index < |props|
    requires before == "{" + Entries(props[..index], notation)
    ensures before + Separator(index) + KeyPart(props[index].0) + ValueLiteral(props[index].0, props[index].1, notation)
      == "{" + Entries(props[..index + 1], notation)
  {
    var separator := Separator(index);
    var keyPart := KeyPart(props[index].0);
    var valuePart := ValueLiteral(props[index].0, props[index].1, notation);
    Regroup(before + separator, keyPart, valuePart);
    Regroup(before, separator, keyPart + valuePart);
    EntriesStep(props, index, notation);
    Regroup("{", Entries(props[..index], notation), EntryAt(index, props[index], notation));
  }

  lemma NoObjectStep(props: seq<(string, Value)>, index: nat)
    requires index < |props|
    requires !HasObjectValue(props[..index]) && !IsObject(props[index].1)
    ensures !HasObjectValue(props[..index + 1])
  {
    var grown := props[..index + 1];
    forall i | 0 <= i < |grown| ensures !IsObject(grown[i].1) {
      if i < index {
        assert grown[i] == props[..index][i];
      }
    }
  }

  /** `moduleConfigurationToJavascript(obj)`, building its result one property at a time. */
  method ModuleConfigurationToJavascript(props: seq<(string, Value)>) returns (r: Result<string, string>)
    ensures r == ConfigAsWritten(props)
  {
    var s := "{";
    var index := 0;
    assert props[..0] == [];
    while index < |props|
      invariant 0 <= index <= |props|
      invariant !HasObjectValue(props[..index])
      invariant s == "{" + Entries(props[..index], Unbound)
    {
      var key := props[index].0;
      var value := props[index].1;
      // The separator and key appended before the throw are lost with it.
      if IsObject(value) {
        assert HasObjectValue(props) by { assert IsObject(props[index].1); }
        return Err(NotationReferenceError);
      }
      ghost var before := s;
      s := s + Separator(index);
      s := s + KeyPart(key);
      s := s + ValueLiteral(key, value, Unbound);
      AppendEntry(before, props, index, Unbound);
      NoObjectStep(props, index);
      index := index + 1;
    }
    assert props[..index] == props;
    r := Ok(s + "\n}");
  }

  /** The entry texts in object order. */
  function EntryTexts(props: seq<(string, Value)>, notation: Value -> string): (r: seq<string>)
    ensures |r| == |props|
    ensures forall i :: 0 <= i < |props| ==> r[i] == EntryText(props[i], notation)
  {
    if props == [] then [] else [EntryText(props[0], notation)] + EntryTexts(props[1..], notation)
  }

  lemma {:induction false} JoinSnoc(parts: seq<string>, last: string, sep: string)
    requires parts != []
    ensures Join(parts + [last], sep) == Join(parts, sep) + sep + last
    decreases |parts|
  {
    if |parts| == 1 {
      JoinPair(parts[0], last, sep);
    } else {
      assert (parts + [last])[1..] == parts[1..] + [last];
      JoinSnoc(parts[1..], last, sep);
    }
  }

  /**
   * The accumulated string is the entries joined by ",\n" after one leading
   * newline, between "{" and "\n}": each entry but the first is preceded by
   * a comma.
   */
  lemma {:induction false} ConfigIsJoinedEntries(props: seq<(string, Value)>, notation: Value -> string)
    ensures ConfigLiteral(props, notation)
      == "{" + (if props == [] then "" else "\n" + Join(EntryTexts(props, notation), ",\n")) + "\n}"
  {
    EntriesAreSeparated(props, notation);
    SeparatedIsJoined(EntryTexts(props, notation));
  }

  /** Texts laid out as the loop lays out entries. */
  function Separated(texts: seq<string>): string
  {
    if texts == [] then ""
    else
      var last := |texts| - 1;
      Separated(texts[..last]) + (Separator(last) + texts[last])
  }

  lemma {:induction false} EntriesAreSeparated(props: seq<(string, Value)>, notation: Value -> string)
    ensures Entries(props, notation) == Separated(EntryTexts(props, notation))
    decreases |props|
  {
    if props != [] {
      var last := |props| - 1;
      EntriesAreSeparated(props[..last], notation);
      EntryTextsPrefix(props, notation);
      SeparatedLast(EntryTexts(props, notation), EntryAt(last, props[last], notation));
    }
  }

  lemma EntryTextsPrefix(props: seq<(string, Value)>, notation: Value -> string)
    requires props != []
    ensures EntryTexts(props, notation)[..|props| - 1] == EntryTexts(props[..|props| - 1], notation)
    ensures Separator(|props| - 1) + EntryTexts(props, notation)[|props| - 1] == EntryAt(|props| - 1, props[|props| - 1], notation)
  {
    var n := |props| - 1;
    var whole := EntryTexts(props, notation);
    var front := EntryTexts(props[..n], notation);
    forall i | 0 <= i < n ensures whole[..n][i] == front[i] {
      assert props[..n][i] == props[i];
    }
    assert whole[..n] == front;
  }

  lemma SeparatedLast(texts: seq<string>, step: string)
    requires texts != []
    requires step == Separator(|texts| - 1) + texts[|texts| - 1]
    ensures Separated(texts) == Separated(texts[..|texts| - 1]) + step
  {
  }

  lemma {:induction false} SeparatedIsJoined(texts: seq<string>)
    ensures Separated(texts) == if texts == [] then "" else "\n" + Join(texts, ",\n")
    decreases |texts|
  {
    if texts != [] {
      var last := |texts| - 1;
      var front := texts[..last];
      assert texts == front + [texts[last]];
      if last == 0 {
        assert Separator(0) == "\n";
      } else {
        SeparatedIsJoined(front);
        JoinSnoc(front, texts[last], ",\n");
        assert Separator(last) == ",\n";
        CommaStep(Separated(front), Join(front, ",\n"), texts[last]);
      }
    }
  }

  /** Concatenation regrouped for SeparatedIsJoined; it models nothing on its own. */
  lemma CommaStep(previous: string, joined: string, text: string)
    requires previous == "\n" + joined
    ensures previous + (",\n" + text) == "\n" + (joined + ",\n" + text)
  {
  }

  /** An empty configuration is an empty literal; every literal is braced. */
  lemma ConfigBraces(props: seq<(string, Value)>, notation: Value -> string)
    ensures var r := ConfigLiteral(props, notation);
      |r| >= 3 && r[0] == '{' && r[|r| - 2..] == "\n}"
    ensures ConfigLiteral([], notation) == "{\n}"
  {
  }

  /** Word keys are written bare, every other key (the empty one included) single-quoted. */
  lemma KeyQuoting(key: string)
    ensures IsWordKey(key) ==> KeyLiteral(key) == key
    ensures !IsWordKey(key) ==> KeyLiteral(key) == "'" + key + "'"
    ensures KeyLiteral("") == "''" && KeyLiteral("data-type") == "'data-type'"
  {
    assert !WordChar("data-type"[4]);
  }

  /**
   * Apart from strings and the `resource` key, a primitive is written as
   * `String(value)`: numbers bare, booleans, `null` and `undefined` by name.
   */
  lemma PrimitivesAsString(key: string, value: Value, notation: Value -> string)
    requires !IsObject(value) && !value.Str? && key != "resource"
    ensures ValueLiteral(key, value, notation) == ToStr(value)
  {
  }

  /** Under the key `resource` a primitive becomes a reference into `this.resources`. */
  lemma ResourceReference(name: string, notation: Value -> string)
    ensures ValueLiteral("resource", Str(name), notation) == "this.resources." + name
  {
  }

  /** Strings are quoted without escaping, so a quote inside one ends the literal early. */
  lemma StringsAreNotEscaped(key: string, notation: Value -> string)
    requires key != "resource"
    ensures ValueLiteral(key, Str("it's"), notation) == "'it's'"
  {
  }

  // ---------------------------------------------------------------------
  // The application root and buildTarget
  // ---------------------------------------------------------------------

  /** The root with a trailing slash (`generateIndexHtml`); `charAt(-1)` of "" is "", so "" becomes "/". */
  function RootWithSlash(root: string): (r: string)
    ensures |r| > 0 && r[|r| - 1] == '/'
    ensures r == root || r == root + "/"
    ensures |root| > 0 && root[|root| - 1] == '/' ==> r == root
  {
    if |root| > 0 && root[|root| - 1] == '/' then root else root + "/"
  }

  lemma RootIdempotent(root: string)
    ensures RootWithSlash(RootWithSlash(root)) == RootWithSlash(root)
  {
  }

  /** What `parseFile` read from `app.js`, updated in place by `buildTarget` and `generateIndexHtml`. */
  class AppData {
    var resources: Value
    var modules: Value
    var assets: Value
    var root: string

    constructor(resources: Value, modules: Value, assets: Value, root: string)
      ensures this.resources == resources && this.modules == modules
      ensures this.assets == assets && this.root == root
    {
      this.resources := resources;
      this.modules := modules;
      this.assets := assets;
      this.root := root;
    }

    /** `buildTarget`'s defaults: falsy `resources` and `modules` become `{}`, falsy `assets` `[]`. */
    method ApplyDefaults()
      modifies this
      ensures resources == Defaulted(old(resources), Obj([]))
      ensures modules == Defaulted(old(modules), Obj([]))
      ensures assets == Defaulted(old(assets), Arr([]))
      ensures root == old(root)
    {
      if !Truthy(resources) {
        resources := Obj([]);
      }
      if !Truthy(modules) {
        modules := Obj([]);
      }
      if !Truthy(assets) {
        assets := Arr([]);
      }
    }

    /** The root normalisation of `generateIndexHtml`. */
    method NormalizeRoot()
      modifies this`root
      ensures root == RootWithSlash(old(root))
    {
      if |root| == 0 || root[|root| - 1] != '/' {
        root := root + "/";
      }
    }
  }

  /** `value || fallback` as an assignment guarded by `!value`. */
  function Defaulted(value: Value, fallback: Value): (r: Value)
    requires Truthy(fallback)
    ensures Truthy(r)
    ensures Truthy(value) ==> r == value
  {
    if Truthy(value) then value else fallback
  }

  /** A build step, performed on the resolved application path. */
  datatype Step =
    | Log(line: string)
    | BuildAssets(path: string)
    | GenerateModules(path: string)
    | GenerateResources(path: string)
    | GenerateMainIndex(path: string)
    | GenerateBootstrap(path: string)
    | GenerateIndexHtml(path: string)

  const TargetsLine := "build targets: assets, modules, resources, main, all"
  const NoAppMessage := "invalid location. no hitch.json found in path"
  const BadTargetMessage := "invalid build target. Use one of assets, modules, resources, main, all."
  /** `buildAssets(data)` receives the data as its path and reads `undefined.assets`. */
  const AssetsTypeError := "TypeError: Cannot read property 'assets' of undefined"

  /** The build steps of the `switch` in `buildTarget`, for a target already defaulted. */
  function Plan(target: Value, path: string): (r: Result<seq<Step>, string>)
  {
    if target == Str("targets") then Ok([Log(TargetsLine)])
    else if target == Str("assets") then Err(AssetsTypeError)
    else if target == Str("modules") then Ok([GenerateModules(path)])
    else if target == Str("resources") then Ok([GenerateResources(path)])
    else if target == Str("main") then Ok([GenerateBootstrap(path)])
    else if target == Str("all") then
      Ok([BuildAssets(path), GenerateModules(path), GenerateResources(path),
          GenerateMainIndex(path), GenerateBootstrap(path), GenerateIndexHtml(path)])
    else Err(BadTargetMessage)
  }

  /** The target after `if (!target) target = 'all'`. */
  function EffectiveTarget(target: Value): (r: Value)
    ensures r.Str? || Truthy(r)
  {
    if Truthy(target) then target else Str("all")
  }

  /** The path after `path = path || process.cwd()`. */
  function EffectivePath(path: string, cwd: string): string
  {
    if path != "" then path else cwd
  }

  /**
   * `buildTarget(target, path)`. `data` is what `parseFile(path + '/app.js')`
   * returned, null when it was falsy; `cwd` is `process.cwd()`.
   */
  method BuildTarget(target: Value, path: string, cwd: string, data: AppData?) returns (r: Result<seq<Step>, string>)
    modifies data
    ensures data == null ==> r == Err(NoAppMessage)
    ensures data != null ==> r == Plan(EffectiveTarget(target), EffectivePath(path, cwd))
    ensures data != null ==>
      && data.resources == Defaulted(old(data.resources), Obj([]))
      && data.modules == Defaulted(old(data.modules), Obj([]))
      && data.assets == Defaulted(old(data.assets), Arr([]))
      && data.root == old(data.root)
  {
    var t := EffectiveTarget(target);
    var p := EffectivePath(path, cwd);
    if data == null {
      return Err(NoAppMessage);
    }
    data.ApplyDefaults();
    r := Plan(t, p);
  }

  /** A missing target builds everything. */
  lemma MissingTargetIsAll(target: Value, path: string)
    requires !Truthy(target)
    ensures Plan(EffectiveTarget(target), path) == Plan(Str("all"), path)
  {
  }

  /** `all` runs every generator once, in the fixed order, each on the resolved path. */
  lemma AllOrder(path: string)
    ensures Plan(Str("all"), path).Ok?
    ensures var steps := Plan(Str("all"), path).value;
      && |steps| == 6
      && steps[0].BuildAssets? && steps[1].GenerateModules? && steps[2].GenerateResources?
      && steps[3].GenerateMainIndex? && steps[4].GenerateBootstrap? && steps[5].GenerateIndexHtml?
      && forall i :: 0 <= i < 6 ==> !steps[i].Log? && steps[i].path == path
  {
  }

  /** The known targets are exactly the six names of the `switch`; any other target throws. */
  predicate KnownTarget(target: Value)
  {
    target in {Str("targets"), Str("assets"), Str("modules"), Str("resources"), Str("main"), Str("all")}
  }

  lemma UnknownTargetThrows(target: Value, path: string)
    ensures Plan(target, path) == Err(BadTargetMessage) <==> !KnownTarget(target)
  {
  }

  /** Each single target other than `targets` and `assets` runs exactly one generator; `assets` always throws. */
  lemma SingleTargets(path: string)
    ensures Plan(Str("assets"), path).Err?
    ensures Plan(Str("modules"), path) == Ok([GenerateModules(path)])
    ensures Plan(Str("main"), path) == Ok([GenerateBootstrap(path)])
    ensures Plan(Str("targets"), path) == Ok([Log(TargetsLine)])
  {
  }
}
