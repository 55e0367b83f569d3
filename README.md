# Hitch, modelled in Dafny

Hitch is a small client-side framework built on Backbone, plus a command-line
scaffolding tool. This project models the parts of it that decide behaviour
rather than delegate it, and proves properties of them:

- **Access control lists** (`Hitch.ACL`, module `Acl`). This is a two-level
  map from principal key to access type to a flag, which may be any value.
  Users are keyed by id, roles by `"role:" + name`, and the public principal
  by `1337`.
- **The router** (`Hitch.Router`, `Hitch.View.close`, module `Router`). It
  covers:
  - before and after filter tables, shared through `Router.prototype`;
  - `_applyFilters` and the route callback that `route` registers, with its
    `try`/`catch`;
  - `showView` and its display slots, and `View.close`.
- **Models** (module `Models`): the `$id` unwrapping in `Model.set`, the
  `loaded` flag that `Resource.fetch` arranges for, and `App`'s option
  defaults and `addAsset`.
- **String helpers** (`Hitch.Helpers`, module `Helpers`): `tagFor`,
  `ucFirst` and `lcFirst`.
- **Cookies** (`Hitch.Cookies`, module `Cookies`): `set`, `clear`, `get` and
  `has`, over a `document.cookie` string.
- **Scaffolding strings** (lib/functions.js, module `Scaffold`). It covers:
  - `_strRepeat`, `_strCenter` and `_printTable`'s rows;
  - `moduleConfigurationToJavascript`;
  - the root normalisation of `generateIndexHtml`;
  - the defaults and target dispatch of `buildTarget`.
- **The command registry** (lib/console_utils.js, module `ConsoleUtils`):
  `pushCommand`, `run`, `error` and `Command.accepts`.

Module `Js` holds the part of JavaScript's value model this code relies on:
truthiness, `String(v)`, `Array.prototype.join`, `_.isObject`, objects as
property lists in enumeration order (a write keeps an existing key's
position and adds a new key last, which is JavaScript's order for keys that
are not integer-like), and the names every plain `{}` inherits from `Object.prototype`. Underscore's
functions are modelled as underscore 1.4 writes them; in particular `_.pairs`
is a `for (key in obj)` loop, so a string yields its indices and characters.
Module `Common` holds `Option`, `Result` and three small lemmas that regroup
sequence concatenation.

Code that works on an object's state is modelled as a class whose methods
update its fields:

- the ACL;
- the router, its shared prototype tables and the world it acts on;
- resources, fetch options and apps;
- the cookie document;
- the scaffolding's app data;
- the console.

Each such method is tied by its `ensures` to a specification function, and
the lemmas prove what that function promises. Code that only computes is
modelled as functions.

Collaborators whose code is not part of this model are parameters, as
arrow-typed fields of `Router.Env` and `Cookies.Host`, or abstract numbers.
They are:

- Backbone's `_routeToRegExp`, `_extractParameters` and event listeners;
- `RegExp.prototype.test`;
- the application's filters, handlers and callbacks;
- a view's `beforeClose` and `render`;
- `escape` and the cookie parsing regexes;
- `objectToJavascriptNotation`, which lib/functions.js calls but does not
  define (see "## Findings");
- which strings `new RegExp` accepts as patterns.

Calls to them are recorded in a trace.

Behaviours the code does not have, stated so that they are not assumed:

- `_addFilter` keeps one filter per (phase, pattern) key, and registering a
  pattern again replaces the earlier filter. Filters do not accumulate.
- A phase is false as soon as one matching filter returns `false`, and later
  filters are not called. There is no `beforeAll`/`afterAll` hook.
- An omitted handler is looked up when `route` is called, not when it
  dispatches.
- Only a `Hitch.Error` thrown in the `try` block becomes an `error` event.
  Exceptions from before filters are not caught.
- `showView` does not isolate a failing `close`. The old view stays in the
  slot, and nothing is rendered.
- There is no `open()`.

Where the code and its own test disagree, the model follows the code:

- `tagFor` writes attribute keys verbatim. The test expects `dataType` to
  appear as `data-type` (test/tests.js:158-165), and
  `Helpers.TagForLink` proves what the code produces.
- `buildTarget('assets')` calls `buildAssets(data)` with the data in the
  path position. It therefore reads `undefined.assets` and throws a
  TypeError (`Scaffold.Plan`, `Scaffold.SingleTargets`).

## Model

| member | source | states |
|---|---|---|
| Js.Get | hitch.js:69-70 | A property lookup finds a value exactly when the key is present, and `None` is the `undefined` of a missing key |
| Js.Put | hitch.js:365 | Assigning a property makes the key read back the new value and leaves every other key alone. The object grows by one exactly for a new key, and keys stay unique |
| Js.PutKeepsPositions | hitch.js:365 | Assignment keeps every existing key at its position and puts a new key last |
| Js.Remove | src/hitch.cookies.js:43 | `delete` of a property drops exactly that key |
| Js.PutTwice | hitch.js:365 | Assigning the same key twice leaves only the second value |
| Js.PutAppends | src/hitch.cookies.js:33-36 | Assigning a key the object does not have appends it last |
| Js.PutReplaces | hitch.js:365 | Assigning an existing key replaces its value in place |
| Js.RemoveDrops | src/hitch.cookies.js:42-43 | Deleting a key found once removes just that pair and keeps the order of the rest |
| Acl.Lookup | hitch.js:69-70 | `permissions[key] && permissions[key][type]` is defined exactly when both levels exist, and then it is the stored flag |
| Acl.PrincipalKey | hitch.js:63-67 | A user is keyed by its id, a role by `"role:"` and its name, anything else by its string form (defined, no contract) |
| Acl.Updated | hitch.js:74-98 | The permissions after `_setAccess`: a truthy `allowed` stores `true`, creating the entry if needed; a falsy one is a no-op on a missing entry and otherwise deletes only that access type (defined, no contract; its properties are the lemmas below) |
| Acl.UpdatedPrincipals | hitch.js:80-89 | A grant adds the principal when it is new; a revoke never adds or removes a principal |
| Acl.GrantThenLookup | hitch.js:74-98 | After a set with any truthy `allowed`, the same principal and access type read `true` |
| Acl.RevokeThenLookup | hitch.js:90-96 | After a set with any falsy `allowed`, the same principal and access type read `undefined`, which is falsy |
| Acl.UnknownIsFalsy | hitch.js:60-72 | An unknown principal, or an access type its entry lacks, reads falsy |
| Acl.RevokeAbsentIsNoOp | hitch.js:83-85 | Revoking for a principal without an entry changes nothing |
| Acl.RevokePresent | hitch.js:92-96 | Revoking for a present principal deletes only that access type. The emptied entry stays, because the second `delete` targets the inner map. Other principals are untouched |
| Acl.UpdateIsLocal | hitch.js:74-98 | A set changes one (principal, access type) cell and no other |
| Acl.RoleIsNeverPublic | hitch.js:63-67 | A role key starts with `role:`, so it never equals the public key |
| Acl.RoleWriteGrantIsInvisible | hitch.js:140-146 | Granting a role write access does not change what `getRoleWriteAccess` reads |
| Acl.UserWithPublicIdIsPublic | hitch.js:53-64 | A user with id `1337` shares the public entry |
| Acl.ACL.constructor | hitch.js:29-51 | A user gets read and write access. An object is copied entry by entry, whatever values its flags hold (`{u1: {read: 1}}` keeps the `1`). Anything else gives no permissions |
| Acl.ACL.GetAccess | hitch.js:60-72 | `_getAccess` reads the cell of the normalised principal key |
| Acl.ACL.SetAccess | hitch.js:74-98 | `_setAccess` leaves the permissions as `Acl.Updated` describes, including the no-op on a revoke for a missing principal |
| Acl.ACL.GetPublicReadAccess | hitch.js:100-102 | Reads the public principal's `read` cell |
| Acl.ACL.SetPublicReadAccess | hitch.js:104-106 | Updates the public principal's `read` cell |
| Acl.ACL.GetRoleReadAccess | hitch.js:108-110 | Reads the role's `read` cell |
| Acl.ACL.SetRoleReadAccess | hitch.js:112-114 | Updates the role's `read` cell |
| Acl.ACL.GetReadAccess | hitch.js:116-118 | Reads the principal's `read` cell |
| Acl.ACL.SetReadAccess | hitch.js:120-122 | Updates the principal's `read` cell |
| Acl.ACL.GetWriteAccess | hitch.js:124-126 | Reads the principal's `write` cell |
| Acl.ACL.SetWriteAccess | hitch.js:128-130 | Updates the principal's `write` cell |
| Acl.ACL.GetPublicWriteAccess | hitch.js:132-134 | Reads the public principal's `write` cell |
| Acl.ACL.SetPublicWriteAccess | hitch.js:136-138 | Updates the public principal's `write` cell |
| Acl.ACL.GetRoleWriteAccess | hitch.js:140-142 | Whatever role it is given, it reads the public `write` cell |
| Acl.ACL.SetRoleWriteAccess | hitch.js:144-146 | Updates the role's `write` cell |
| Router.NewRegExp | hitch.js:364 | `new RegExp(s)`: no flags, `s` as the source, and `(?:)` for the empty pattern (defined, no contract; see EmptyPatternKey) |
| Router.RegExpString | hitch.js:365 | `String(re)`: the source between slashes, then the flags (defined, no contract; see FilterKey) |
| Router.FilterKey | hitch.js:364-365 | A filter is stored under the string form of a RegExp, which starts with `/` and has at least two characters |
| Router.EmptyPatternKey | hitch.js:364-365 | The empty string pattern is keyed `/(?:)/`, the same key as the RegExp `/(?:)/`, so each replaces the other's filter |
| Router.Matching | hitch.js:376-379 | The matching filters are at most the whole table. There are none exactly when no key, rebuilt with `new RegExp(key)`, tests the fragment |
| Router.MatchingMembers | hitch.js:376-379 | A filter matches exactly when its key tests the fragment |
| Router.FindFalse | hitch.js:381-384 | Filters run in order and stop at the first that returns exactly `false` or throws. The result is false, true or thrown according to that filter |
| Router.Calls | hitch.js:382 | Each invoked filter is called with the extracted arguments |
| Router.NoMatchPasses | hitch.js:372-381 | A phase with no table, an empty table or no matching key is true and calls nothing |
| Router.FalseIffSomeFilterReturnsFalse | hitch.js:368-385 | When no filter throws, the phase is false exactly when some matching filter returns `false`. Filters after the first such one are not called |
| Router.FindFalseIff | hitch.js:381-384 | The same, stated for the matching filters `_.find` walks |
| Router.Unparsable | hitch.js:364 | A string pattern that `new RegExp` rejects; a RegExp is never rebuilt (defined, no contract) |
| Router.AddedTables | hitch.js:362-366 | The tables `_addFilter` leaves (defined, no contract; see AddedTablesEffect) |
| Router.AddedTablesEffect | hitch.js:362-366 | Only the filter's phase changes. An accepted pattern makes the filter the one its key selects; a rejected one changes no filter but leaves the phase's table in place, created empty if it was missing |
| Router.ApplyFilters | hitch.js:368-385 | `_applyFilters`: true without calls for a missing, empty or unmatched table, otherwise `FindFalse` over the matching filters (defined, no contract; see the lemmas around it) |
| Router.StringFilterNeedsSlashes | hitch.js:364-377 | A filter on a non-empty literal string `s` is keyed `/s/`, so it matches only fragments that contain `/s/` |
| Router.StringFiltersIgnoreSlashFreeFragments | hitch.js:364-385 | Literal string filters never fire on a fragment without `/` |
| Router.Then | hitch.js:405-413 | Steps after a prefix keep their error, and the trace lengths add up |
| Router.EmitSteps | hitch.js:411-412 | `route:<name>` is always emitted first; history `route` follows unless the first listener throws, and both are emitted when nothing throws |
| Router.AfterSteps | hitch.js:409-412 | The after phase's calls, then the two events unless the phase threw; its true or false result is ignored (defined, no contract) |
| Router.GuardedSteps | hitch.js:405-413 | The `try` block: the handler if there is one, then `AfterSteps`, ending at the first throw (defined, no contract) |
| Router.Settle | hitch.js:414-420 | The `catch`: a Hitch.Error becomes an `error` event, and any other error is rethrown (defined, no contract; see HandlerErrors) |
| Router.DispatchSpec | hitch.js:399-425 | The route callback: extract the arguments, run the before phase, and only when it is exactly true run the `try` block and its `catch` (defined, no contract; its properties are the lemmas below) |
| Router.BeforePhaseGates | hitch.js:403 | A before phase that is false or throws leaves only the before-filter calls. No handler, after filter or event runs, and a thrown error propagates |
| Router.DispatchCompletes | hitch.js:401-412 | When nothing throws, the trace is: before filters, the handler, after filters, `route:<name>`, then history `route`. The after phase's result does not matter |
| Router.HandlerErrors | hitch.js:407-419 | A `Hitch.Error` from the handler becomes an `error` event, and no after filter or route event runs. Any other exception is rethrown |
| Router.CaughtOnlyHitchErrors | hitch.js:405-420 | Wherever the `try` block throws, a `Hitch.Error` ends the dispatch with one `error` event, and anything else propagates |
| Router.HistoryEventComesLast | hitch.js:407-412 | History's `route` event fires exactly when the handler, the after phase and `route:<name>` all return, and it is the last step |
| Router.HandlerOnlyAfterBeforePasses | hitch.js:403-407 | A handler call or an event in the trace implies that the before phase was true |
| Router.CloseSpec | hitch.js:466-474 | `beforeClose` is called first exactly when the view has one, and then `undelegateEvents` and `remove` and nothing else. `close` throws exactly when a defined `beforeClose` throws, with that error, and then nothing follows it |
| Router.ShowViewSpec | hitch.js:342-352 | `showView`: close the slot's view if there is one, render and insert the new view, then store it; a throw stops at that step (defined, no contract; see the next two lemmas) |
| Router.ShowViewReplaces | hitch.js:342-352 | The old view, if any, is torn down before the new view renders; an empty slot closes nothing, and only the render and the insertion happen. On success the slot holds the new view, it is returned, and no other slot changes |
| Router.ShowViewFailures | hitch.js:344-349 | If the old view's `close` throws, nothing is rendered and the slot is unchanged. If `render` throws, the slot still holds the old view |
| Router.RouterPrototype.constructor | hitch.js:338-340 | The shared slot and filter tables start empty |
| Router.Close | hitch.js:466-474 | `close` runs `beforeClose` if the view has one, then `undelegateEvents`, then `remove`. A throwing `beforeClose` ends it and its error propagates |
| Router.Router.ShowView | hitch.js:342-352 | The slots, the trace and the returned view are those `ShowViewSpec` describes |
| Router.Router.AddFilter | hitch.js:362-366 | Creates the phase's table if missing. A string pattern `new RegExp` rejects throws a SyntaxError and leaves only that table behind. Otherwise the filter is bound to `context` or to the router and stored under its key, replacing an earlier one, with keys kept unique |
| Router.Router.Bound | hitch.js:365 | The filter bound to `context`, or to the router when there is none (defined, no contract) |
| Router.Router.AddBeforeFilter | hitch.js:354-356 | `_addFilter` in the before phase, with its SyntaxError |
| Router.Router.AddAfterFilter | hitch.js:358-360 | `_addFilter` in the after phase, with its SyntaxError |
| Router.Router.Route | hitch.js:387-426 | A string route goes through `_routeToRegExp`. An omitted handler is resolved as `this[name]` at registration. The binding is put first in history's list (`Backbone.History.route` unshifts, so later routes are tried first), and the router is returned |
| Router.Router.Emit | hitch.js:411-412 | `route:<name>` and then history `route`, stopping at a throwing listener |
| Router.Router.RunGuarded | hitch.js:405-413 | The `try` block's trace and error are those `GuardedSteps` describes |
| Router.Router.RunAfter | hitch.js:409-412 | The after phase and the events, with the after result ignored |
| Router.Router.Dispatch | hitch.js:399-425 | The route callback's trace and outcome are those `DispatchSpec` describes |
| Router.Router.RunCaught | hitch.js:405-420 | The `try` block and its `catch` clause |
| Models.UnwrapId | hitch.js:241-245 | What `set` passes on: a hash whose id attribute is a truthy object with an own `$id` has that attribute replaced by the `$id` value; anything else passes unchanged (defined, no contract; see the next two lemmas) |
| Models.UnwrapIdReplacesOnlyTheId | hitch.js:241-245 | Only the id attribute changes, and only when it is an object with an own `$id`. It becomes that `$id`, and every key keeps its place |
| Models.UnwrapIdIdempotent | hitch.js:241-245 | Unwrapping a value that is no longer wrapped changes nothing |
| Models.Settle | hitch.js:285-288 | A success call marks only resources whose wrappers it passes through, and all of them when it completes |
| Models.Resource.Fetch | hitch.js:283-289 | Wraps `options.success` around its old value for this resource, starts nothing, and leaves `loaded` unchanged. A missing options object throws |
| Models.Succeed | hitch.js:285-288 | Calling the wrapper calls the wrapped callback first, then sets `loaded`. The calls and the flags are those `Settle` describes |
| Models.FetchThenSucceed | hitch.js:283-289 | After one `fetch`, success runs the caller's callback, then marks the resource loaded, unless that callback throws |
| Models.NestedWrappersAllMark | hitch.js:285-288 | With no throwing user callback, every resource in a chain of wrappers becomes loaded |
| Models.Items | hitch.js:498-501 | `_.each` visits array items, and nothing for a non-string primitive |
| Models.AppSettings | hitch.js:489-496 | `options || {}`, a string as the name, `HitchApp` and an anonymous user as defaults (defined, no contract; see AppDefaults) |
| Models.AppDefaults | hitch.js:489-496 | A name defaults to `HitchApp` and a user to an anonymous one. A string is taken as the name. A truthy non-string primitive loses the defaults |
| Models.App.constructor | hitch.js:485-505 | The name, user and assets are those `AppSettings` computes, with each asset added in order |
| Models.App.AddAsset | hitch.js:536-545 | Appends the asset. The `instanceof` guard never rejects |
| Helpers.Shuffle | src/hitch.helpers.js:114-117 | A truthy non-object `attrs` with falsy content becomes the content, with no attributes |
| Helpers.Pairs | src/hitch.helpers.js:119 | `_.pairs` yields an object's properties in order, an array's indices with its items, a string's indices with its characters, and nothing for other primitives or a Date |
| Helpers.Element | src/hitch.helpers.js:119-129 | `<name `, the attributes, `>`, the body, then `</name>` unless void (defined, no contract; see ElementFrame) |
| Helpers.TagFor | src/hitch.helpers.js:110-130 | `tagFor`: shuffle, render the pairs as attributes, and write the element (defined, no contract; see the lemmas below) |
| Helpers.StringAttributes | src/hitch.helpers.js:114-121 | `tagFor('p', 'ab', 'x')` is not shuffled, and writes `<p 0="a" 1="b">x</p>` |
| Helpers.Attribute | src/hitch.helpers.js:119-121 | A pair is written as `key="value"`, with the key verbatim |
| Helpers.ElementFrame | src/hitch.helpers.js:119-129 | An element starts with `<name ` and ends with `</name>` unless it is void |
| Helpers.TagForFrame | src/hitch.helpers.js:110-130 | Every tag opens with `<`, the name and a space. It closes with `</name>` exactly when the name is not `link`, `input` or `meta` |
| Helpers.ShuffledContent | src/hitch.helpers.js:114-117 | `tagFor('p', 'text')` equals `tagFor('p', {}, 'text')` and writes `<p >text</p>` |
| Helpers.EmptyElement | src/hitch.helpers.js:122-125 | Falsy content contributes nothing between the tags |
| Helpers.LinkAttributes | src/hitch.helpers.js:119-121 | Attributes are joined by single spaces, in order |
| Helpers.TagForLink | test/tests.js:158-165 | The test's link comes out with the key written `dataType`, not `data-type` |
| Helpers.ElementLink | src/hitch.helpers.js:119-129 | The test's link element frame |
| Helpers.TagForInput | src/hitch.helpers.js:112-129 | An `input` gets no closing tag |
| Helpers.Upper | src/hitch.helpers.js:133 | `toUpperCase` on one character maps an ASCII lower-case letter to its capital and leaves everything else alone |
| Helpers.Lower | src/hitch.helpers.js:137 | `toLowerCase` on one character maps an ASCII capital to lower case and leaves everything else alone |
| Helpers.UcFirst | src/hitch.helpers.js:132-134 | Same length. The first character is upper-cased and the rest is unchanged |
| Helpers.LcFirst | src/hitch.helpers.js:136-138 | Same length. The first character is lower-cased and the rest is unchanged |
| Helpers.CaseHelpersCompose | src/hitch.helpers.js:132-138 | Each helper is idempotent, and the last one applied wins |
| Helpers.CaseHelpersFixpoints | src/hitch.helpers.js:132-138 | `ucFirst` changes a string exactly when it starts with a lower-case letter, and `lcFirst` exactly when it starts with a capital. `''` is fixed |
| Helpers.UcFirstExample | test/tests.js:167-175 | `'string'` becomes `'String'` |
| Helpers.LcFirstExample | test/tests.js:177-185 | `'String'` becomes `'string'` |
| Cookies.Rejected | src/hitch.cookies.js:29 | A falsy name, or one equal to a reserved attribute name ignoring ASCII case, is refused (defined, no contract; see AcceptedNameIsNotAnAttribute) |
| Cookies.LowerAscii | src/hitch.cookies.js:29 | Case-insensitive matching compares ASCII lower-case forms |
| Cookies.AcceptedNameIsNotAnAttribute | src/hitch.cookies.js:29 | A name that `set` accepts is none of the attribute keys |
| Cookies.LowerCaseFixed | src/hitch.cookies.js:29 | The reserved names are already lower case |
| Cookies.ExpiryOf | src/hitch.cookies.js:38-49 | A falsy or string `expires` is kept. A truthy number other than Infinity moves to `max-age`. A truthy value that is not a number, date or string is dropped |
| Cookies.CookieObject | src/hitch.cookies.js:31-49 | The cookie pair, then `expires` as `ExpiryOf` leaves it, `path`, `domain` and `secure`, with `max-age` last for a moved number (defined, no contract; see CookieObjectShape) |
| Cookies.Serialise | src/hitch.cookies.js:51-53 | The rendered pairs joined by `;` (defined, no contract; see PlainCookie and MaxAgeCookie) |
| Cookies.ClearLine | src/hitch.cookies.js:58 | The escaped name, the 1970 expiry, and the path only when it is truthy (defined, no contract; see ClearLineShape) |
| Cookies.RenderPair | src/hitch.cookies.js:52 | A pair whose value is undefined is dropped, any other is joined by `=` (defined, no contract; see Rendered) |
| Cookies.Rendered | src/hitch.cookies.js:51-53 | Pairs with an `undefined` value are left out |
| Cookies.RenderedAppend | src/hitch.cookies.js:51-53 | Rendering works pair by pair |
| Cookies.Document.Has | src/hitch.cookies.js:61-63 | `has` holds only for a string found in `names()` |
| Cookies.Document.Get | src/hitch.cookies.js:21-24 | Returns `null` exactly for a falsy key or one `has` does not find. Otherwise it returns the value read from the cookie string |
| Cookies.Document.Set | src/hitch.cookies.js:26-54 | A rejected name writes nothing. Otherwise the line written is the serialised cookie object |
| Cookies.Document.Clear | src/hitch.cookies.js:56-59 | Writes nothing unless `has(name)`. Otherwise it writes the expiring line |
| Cookies.ObjectWithAttributes | src/hitch.cookies.js:31-36 | The cookie pair comes first, then `expires`, `path`, `domain` and `secure` in that order |
| Cookies.BuildCookieObject | src/hitch.cookies.js:27-49 | The step-by-step object equals `CookieObject` |
| Cookies.MovedToMaxAge | src/hitch.cookies.js:42-43 | `max-age` is appended last and `expires` is deleted, and the keys stay unique |
| Cookies.CookieObjectShape | src/hitch.cookies.js:31-49 | The cookie comes first and no key appears twice. `expires` and `max-age` never both appear. `max-age` appears exactly for a truthy number other than Infinity |
| Cookies.PlainCookie | src/hitch.cookies.js:51-53 | `set(name, value)` alone writes `name=escaped` |
| Cookies.MaxAgeCookie | src/hitch.cookies.js:42-53 | A number of seconds is written as a trailing `max-age`, after the path |
| Cookies.FalsyExpiryKept | src/hitch.cookies.js:38-49 | `0` is written as `expires=0`, and `null` as an empty `expires=` |
| Cookies.FalsyExpiry | src/hitch.cookies.js:38-53 | Any falsy expiry other than `undefined` is written as it joins |
| Cookies.ExpiryConversions | src/hitch.cookies.js:38-49 | Infinity becomes the 2038 date. -Infinity becomes a `max-age`. A date becomes its GMT string. Objects and `true` are dropped |
| Cookies.ClearLineShape | src/hitch.cookies.js:58 | `clear` writes an expiry in 1970, and the path only when one is given |
| Cookies.GetAgreesWithHas | src/hitch.cookies.js:21-63 | `get` returns a value exactly for a non-empty string key that `names()` lists |
| Scaffold.StrRepeat | lib/functions.js:10-12 | The result has `times * \|s\|` characters, and none for `times <= 0` |
| Scaffold.RepeatAdd | lib/functions.js:10-12 | Repeating `a + b` times is repeating `a` times, then `b` times |
| Scaffold.RepeatChar | lib/functions.js:10-12 | Repeating one character gives only that character |
| Scaffold.CenterSplit | lib/functions.js:23-28 | The pads before and after add up to the spare room. The one after is the same or one longer |
| Scaffold.StrCenter | lib/functions.js:20 | A string at least as long as the field is returned unchanged |
| Scaffold.CenterLayout | lib/functions.js:14-31 | With a one-character pad (default blank), the result is exactly `len` long. The string starts after `floor(ws/2)` pads and is followed by the rest |
| Scaffold.BannerCentered | lib/functions.js:466 | The help banner's title sits at columns 24-47 of 73 |
| Scaffold.Cell | lib/functions.js:41-43 | A column is padded with blanks to its width. A wider column is left as it is |
| Scaffold.Cells | lib/functions.js:39-45 | The columns of one row joined, each padded with blanks to its own width (defined, no contract; see RowWidth and RowColumnStart) |
| Scaffold.FormatRow | lib/functions.js:38-46 | A row has a line exactly when every column has a width |
| Scaffold.RowWidth | lib/functions.js:38-46 | A row whose columns fit is as wide as its widths together |
| Scaffold.RowColumnStart | lib/functions.js:38-46 | In such a row, column `j` starts at the sum of the widths before it, so the columns line up |
| Scaffold.OverlongColumn | lib/functions.js:42-43 | A column longer than its width gets no padding |
| Scaffold.PrintTable | lib/functions.js:33-48 | Lines are printed row by row, each the row's formatted line, until a row with a column that has no width throws |
| Scaffold.KeyLiteral | lib/functions.js:512-516 | A `^\w+$` key bare, any other quoted (defined, no contract; see KeyQuoting) |
| Scaffold.ValueLiteral | lib/functions.js:518-535 | `resource` values as references, primitives by type, and objects through `notation`, which stands for the missing `objectToJavascriptNotation` (defined, no contract; see the lemmas below) |
| Scaffold.ConfigLiteral | lib/functions.js:500-542 | The intended literal: `{`, the entries with their separators, then `\n}` (defined, no contract; see ConfigIsJoinedEntries) |
| Scaffold.ConfigAsWritten | lib/functions.js:500-542 | The code as written: a ReferenceError when some value is an object, otherwise the literal (defined, no contract; see the next three lemmas) |
| Scaffold.NotationUnused | lib/functions.js:518-535 | Without object values, the result does not depend on `notation` |
| Scaffold.AsWrittenAgreesWithoutObjects | lib/functions.js:500-542 | The code as written returns the intended literal exactly when no value is an object, and throws the ReferenceError exactly when one is |
| Scaffold.NestedObjectThrows | lib/functions.js:518-519 | `moduleConfigurationToJavascript({child: {}})` throws the ReferenceError |
| Scaffold.ModuleConfigurationToJavascript | lib/functions.js:500-542 | The loop's result is `ConfigAsWritten`: it throws at the first object value, and otherwise returns the accumulated literal |
| Scaffold.EntryTexts | lib/functions.js:512-537 | One entry text per property, in object order |
| Scaffold.ConfigIsJoinedEntries | lib/functions.js:503-540 | The literal is `{`, then a newline and the entries joined by `,\n`, then `\n}` |
| Scaffold.EntriesAreSeparated | lib/functions.js:506-510 | The loop's entries, each with its separator, are the entry texts laid out in order |
| Scaffold.SeparatedIsJoined | lib/functions.js:508-510 | Every entry after the first is preceded by a comma |
| Scaffold.ConfigBraces | lib/functions.js:503-540 | Every literal starts with `{` and ends with `\n}`. The empty object gives `{\n}` |
| Scaffold.KeyQuoting | lib/functions.js:512-516 | Keys matching `^\w+$` are bare, and the rest (`''` included) are single-quoted |
| Scaffold.PrimitivesAsString | lib/functions.js:525-535 | Apart from strings and the `resource` key, a primitive is written as `String(value)` |
| Scaffold.ResourceReference | lib/functions.js:522-523 | Under the key `resource`, a value becomes `this.resources.<value>` |
| Scaffold.StringsAreNotEscaped | lib/functions.js:527-528 | Strings are quoted without escaping |
| Scaffold.RootWithSlash | lib/functions.js:275 | The root ends with `/`. It is either unchanged or has one `/` added, and it is unchanged when it already ends with `/` |
| Scaffold.RootIdempotent | lib/functions.js:275 | Normalising twice is normalising once |
| Scaffold.AppData.ApplyDefaults | lib/functions.js:171-181 | Falsy `resources` and `modules` become `{}`, falsy `assets` becomes `[]`, and truthy ones stay |
| Scaffold.AppData.NormalizeRoot | lib/functions.js:275 | The root becomes `RootWithSlash` of the old root |
| Scaffold.Defaulted | lib/functions.js:171-181 | A defaulted field is truthy and keeps a truthy value |
| Scaffold.EffectiveTarget | lib/functions.js:160-162 | A falsy target becomes `'all'` |
| Scaffold.BuildTarget | lib/functions.js:156-211 | Missing data throws. Otherwise the defaults are applied first, and the steps are `Plan` of the defaulted target and path |
| Scaffold.EffectivePath | lib/functions.js:164 | The given path, or the current directory when it is empty (defined, no contract; see AllOrder) |
| Scaffold.Plan | lib/functions.js:183-209 | The `switch` of `buildTarget`: each of the six targets and the error for any other (defined, no contract; see the next four lemmas) |
| Scaffold.MissingTargetIsAll | lib/functions.js:160-162 | A missing target builds everything |
| Scaffold.AllOrder | lib/functions.js:199-206 | `all` runs assets, modules, resources, main index, bootstrap and index html, in that order, on the resolved path |
| Scaffold.UnknownTargetThrows | lib/functions.js:183-209 | The invalid-target error is raised exactly for names outside the six of the `switch` |
| Scaffold.SingleTargets | lib/functions.js:184-198 | `assets` throws, `modules` and `main` each run one generator, and `targets` prints the list |
| ConsoleUtils.Accepts | lib/console_utils.js:69-73 | `accepts`: non-empty arguments whose first element is `===` the name (defined, no contract; see AcceptsOwnKey) |
| ConsoleUtils.AcceptsOwnKey | lib/console_utils.js:69-73 | A command accepts exactly the arguments whose first element is its string name |
| ConsoleUtils.NumericNamesAcceptNothing | lib/console_utils.js:71 | A numeric name never equals a string argument |
| ConsoleUtils.SplitErrno | lib/console_utils.js:29-34 | A trailing number is popped as errno. Otherwise errno is 0 and all arguments remain |
| ConsoleUtils.ErrorLine | lib/console_utils.js:27-37 | `ERROR (errno) ` and the rest joined by spaces (defined, no contract; see TrailingErrno and DefaultErrno) |
| ConsoleUtils.TrailingErrno | lib/console_utils.js:27-37 | With a trailing number the line is `ERROR (n) ` and the rest joined by spaces |
| ConsoleUtils.DefaultErrno | lib/console_utils.js:27-37 | Without one it is `ERROR (0) ` and all arguments joined by spaces |
| ConsoleUtils.RunErrorLines | lib/console_utils.js:57-59 | `run`'s two errors print `ERROR (1337) ...` and `ERROR (1338) ...` |
| ConsoleUtils.DispatchIsUnique | lib/console_utils.js:44-50 | In a consistent registry, the only handler called is the one stored under `args[0]`, with `args` minus its first element, and only when its command's name is that string |
| ConsoleUtils.Known | lib/console_utils.js:56 | `_commands[key]` is truthy: a registered command, or a member every `{}` inherits; `pushCommand` tests the same at line 19 (defined, no contract; see RunOutcome and InvalidUsageCases) |
| ConsoleUtils.Dispatches | lib/console_utils.js:44-50 | The handler calls of the `_.each` loop, in handler order (defined, no contract; see DispatchIsUnique) |
| ConsoleUtils.Fallback | lib/console_utils.js:52-62 | The default handler without arguments, error 1337 for an unknown name, error 1338 otherwise (defined, no contract; see RunFallsBack) |
| ConsoleUtils.RunEffects | lib/console_utils.js:39-63 | The handler calls of the loop, or when there are none the fallback: the default handler, error 1337 when `_commands[args[0]]` is falsy, error 1338 otherwise (defined, no contract; see the lemmas below) |
| ConsoleUtils.RunFallsBack | lib/console_utils.js:52-62 | When no command takes the arguments, `run` does exactly what its fallback branch does |
| ConsoleUtils.RunOutcome | lib/console_utils.js:39-63 | `run` does exactly one thing: call the selected handler, call the default handler for no arguments, or print error 1337 exactly when `_commands[args[0]]` is neither a registered command nor a member every `{}` inherits |
| ConsoleUtils.InvalidUsageCases | lib/console_utils.js:56-60 | Error 1338 is printed exactly when the name is registered under a command whose name is not a string, or is an inherited name such as `constructor` |
| ConsoleUtils.InheritedNameIsInvalidUsage | lib/console_utils.js:56-59 | With nothing registered, `constructor` as the first argument prints error 1338 |
| ConsoleUtils.Console.constructor | lib/console_utils.js:3-7 | Both tables start empty |
| ConsoleUtils.Console.PushCommand | lib/console_utils.js:9-25 | A non-function callback throws, and a registered or inherited name (`toString`, `__proto__`, …) throws "already registered", leaving both tables unchanged. Otherwise the command and callback are stored under the name's string form, and the registry stays consistent |
| ConsoleUtils.Console.Error | lib/console_utils.js:27-37 | Prints `ErrorLine` of the arguments |
| ConsoleUtils.Console.Run | lib/console_utils.js:39-63 | The output is that of `RunEffects` |

## Left out

- Backbone itself is not part of this model. That covers `Backbone.History`,
  event dispatch, `_routeToRegExp`, `_extractParameters`, and the
  Model/Collection/View base classes. These are parameters of `Router.Env`
  and a trace of effects.
- The DOM is not modelled (`$(selector).html`, `undelegateEvents`, `remove`).
  Neither are `formField` and `inDom` in src/hitch.helpers.js, which are DOM
  work and timer polling.
- `Model.set`'s relation wiring delegates to Backbone and is not modelled.
  The attribute hash is modelled as a value, so the in-place write to the
  caller's `attrs` object (aliasing) is not captured.
- `App`'s anonymous user is created through `ObjectId` and `Hitch.User`,
  which are not defined in hitch.js. The generated id is a parameter.
  `setName`, `setCurrentUser` and `init` are Backbone calls and are not
  modelled.
- `Models.Resource.Fetch`: the Backbone fetch that `Resource.fetch`
  overrides is not modelled. The method only rewraps `options.success`.
- The browser cookie store is abstract. So are `escape`, `unescape`,
  `toGMTString` and the parsing regexes of `get` and `names`. They are fields
  of `Cookies.Host`.
- Numbers are modelled as integers, NaN and the infinities. Fractional
  numbers are left out, and so are fractional repeat counts in `_strRepeat`.
  `Js.NumberString` writes every integer digit by digit. JavaScript writes
  magnitudes of 1e21 and above in exponent form (`String(1e21)` is
  `"1e+21"`), and it cannot hold integers above 2^53 exactly. Such numbers,
  in `tagFor` content, a cookie's `max-age`, `error`'s errno or a
  configuration literal, are left out.
- `Helpers.Upper` and `Helpers.Lower`, and the case-insensitive name check
  in `set`, cover ASCII letters only. Full Unicode case mapping is left out.
- `Router.NewRegExp`: `new RegExp(s)` keeps a non-empty `s` as its source.
  The escaping of `/` and of line terminators in the source is not modelled,
  so the patterns `"a\nb"` (with a newline) and `"a\\nb"`, which JavaScript
  both keys `/a\nb/`, get different keys here. Which strings are valid
  patterns is a parameter of `Router.Router.AddFilter`. Rebuilding a stored
  key with `new RegExp` in `_applyFilters` is assumed not to throw.
- `Js.Put` and `Js.PutAppends` add a new key last. JavaScript lists
  integer-like keys (`"0"`, `"1337"`) first, in ascending order, and the
  rest in insertion order. Objects the code receives (`tagFor`'s attributes,
  a module configuration, the object given to `Hitch.ACL`) are taken in
  their enumeration order, so the gap concerns only the tables the code
  fills. Those are the console's handlers (below) and the cookie object,
  whose one caller-chosen key, the name, comes first in either order.
  Filter keys start with `/`, and ACL permissions are a map without order.
- `Router.StringFilterNeedsSlashes` covers non-empty patterns only. The
  empty pattern's key `/(?:)/` is not a literal pattern, and
  `Router.EmptyPatternKey` states its key instead.
- `Router.Router.Dispatch`: handlers and filters are arrows of `Router.Env`
  and do not call back into the router. A handler that calls `showView`
  (closing and rendering views and changing the shared slots) or
  `addBeforeFilter`/`addAfterFilter` during a dispatch is not captured, and
  the after phase always reads the filter table from before the handler ran.
- `Router.Router.ShowView`: a selector named like an `Object.prototype`
  member (`toString`, `constructor`) finds an inherited function in
  `displaySlots` and would call its `close`. Such selectors are left out.
- `Acl.ACL.GetAccess`, `Acl.ACL.SetAccess`: principal keys named like an
  `Object.prototype` member, whose lookup finds an inherited function, are
  left out. So are `Hitch.Cookies.set` names such as `__proto__`, which an
  object does not store as an own property.
- Objects that carry their own `constructor` or numeric `length` property
  are left out. They would change `cookie.expires.constructor` or make
  `_.each` treat an object as an array.
- `ConsoleUtils.Console.Run`: the handlers are enumerated in insertion
  order. JavaScript lists integer-like keys first, but at most one handler
  accepts the arguments (`ConsoleUtils.DispatchIsUnique`), so the order does
  not change the outcome.
- `ConsoleUtils.Console.Run`: handlers and the default handler are assumed
  not to change the registry while `run` is iterating.
- `ConsoleUtils.Console.PushCommand`: a `null` command is reported as a
  TypeError message. Any object with a `name` stands for a
  `ConsoleUtils.Command`.
- `Scaffold.ValueLiteral`, `Scaffold.ConfigLiteral`: `objectToJavascriptNotation`
  is called but not defined in lib/functions.js, so the code as written
  throws a ReferenceError at the first object value
  (`Scaffold.ModuleConfigurationToJavascript` models that). The intended
  literal takes the missing function as the parameter `notation`, and
  nothing is promised about what it writes for an object.
- `Scaffold.BuildTarget`: `parseFile`, `process.cwd()` and the build steps
  are file-system and process work. The parsed data and the current
  directory are parameters, and each step is a value of `Scaffold.Step`.
  An `app.js` that fails to parse is not modelled.
- `Scaffold.PrintTable`: a column without a width makes `_.range(0, NaN)`
  throw a RangeError. The model reports that as `thrown` rather than naming
  the error.
- The remaining I/O of lib/functions.js is not modelled
  (`createFileFromTemplate`, `exists`, `buildAsset`, the `generate*`
  functions, `createApplication`, `deploy`, `showHelp`'s printing). Neither
  is bin/hitch.js, the command-line entry point.
- The example application under example/ is not part of this model.

## Findings

| source | as written | input that shows it | evidently intended | confidence | as-written member | corrected member |
|---|---|---|---|---|---|---|
| lib/functions.js:518-520 | `moduleConfigurationToJavascript` calls `objectToJavascriptNotation`, which the file never defines, so an object-valued property throws a ReferenceError | `moduleConfigurationToJavascript({child: {}})` (`Scaffold.NestedObjectThrows`) | the nested object is written as a JavaScript literal by a serialiser of that name | not executed | Scaffold.ConfigAsWritten | Scaffold.ConfigLiteral |
