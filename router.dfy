/**
 * Hitch.Router and Hitch.View.close (hitch.js).
 *
 * `displaySlots` and `_filters` are properties of Router.prototype, so every
 * router reads and writes the same two tables: they are the fields of one
 * shared `RouterPrototype` object. Backbone.history's route list and
 * everything observable (filter and handler calls, emitted events, view
 * rendering and teardown) live in one `World` object.
 *
 * Backbone's `_routeToRegExp` and `_extractParameters`, `RegExp.prototype.test`,
 * the application's filters, handlers and event listeners, and a view's
 * `beforeClose` and `render` are collaborators whose code is not part of this
 * model: they are the arrow-typed fields of `Env`, and calling one appends an
 * entry to the trace.
 */
module Router {
  import opened Common
  import opened Js

  /** A RegExp object: its source and its flags. */
  datatype RegExp = RegExp(source: string, flags: string)

  /** `String(re)`, i.e. RegExp.prototype.toString. */
  function RegExpString(re: RegExp): string
  {
    "/" + re.source + "/" + re.flags
  }

  /** The source `new RegExp` gives an empty pattern. */
  const EmptySource: string := "(?:)"

  /**
   * `new RegExp(s)` for a string `s`: no flags, the source kept verbatim except
   * that an empty pattern gets the source "(?:)".
   */
  function NewRegExp(s: string): RegExp
  {
    RegExp(if s == "" then EmptySource else s, "")
  }

  /** A route or filter pattern as the caller passes it. */
  datatype Pattern = RegExpPattern(re: RegExp) | StringPattern(s: string)

  /** The key `_addFilter` stores a filter under: the string form of the pattern made a RegExp. */
  function FilterKey(route: Pattern): (key: string)
    ensures |key| >= 2 && key[0] == '/'
  {
    match route
    case RegExpPattern(re) => RegExpString(re)
    case StringPattern(s) => RegExpString(NewRegExp(s))
  }

  /**
   * `addBeforeFilter("", f)` stores `f` under "/(?:)/", the key of the RegExp
   * `/(?:)/` itself, so the two patterns replace each other's filter.
   */
  lemma EmptyPatternKey()
    ensures FilterKey(StringPattern("")) == "/(?:)/"
    ensures FilterKey(StringPattern("")) == FilterKey(RegExpPattern(RegExp(EmptySource, "")))
  {
  }

  datatype Phase = Before | After

  /** The object a filter is bound to: the `context` argument, or the router that registered it. */
  datatype Receiver = RouterObject(router: nat) | ContextObject(obj: nat)

  /** `_.bind(filter, context || this)`. */
  datatype BoundFilter = BoundFilter(fn: nat, receiver: Receiver)

  /** One phase's table: filters keyed by stringified RegExp, in insertion order. */
  type FilterTable = seq<(string, BoundFilter)>

  /** A thrown value: a `Hitch.Error`, or anything else. */
  datatype Exception = HitchError(message: string) | OtherError(description: string)

  /** How a call ends: returning a value, or throwing. */
  datatype Completion<T> = Normal(value: T) | Thrown(error: Exception)

  /** A filter's return value, as `_applyFilters` sees it: exactly `false`, or anything else. */
  datatype FilterReturn = ReturnedFalse | ReturnedOther

  /** Events a dispatch triggers. */
  datatype Signal =
    | RouteNamed(router: nat, name: string, args: seq<string>)   // router.trigger('route:' + name, ...args)
    | HistoryRoute(router: nat, name: string, args: seq<string>) // Backbone.history.trigger('route', router, name, args)
    | RouteError(router: nat, error: Exception)                  // router.trigger('error', err)

  /** One observable step. */
  datatype Effect =
    | FilterCalled(phase: Phase, filter: BoundFilter, args: seq<string>)
    | HandlerCalled(handler: nat, args: seq<string>)
    | Emitted(signal: Signal)
    | BeforeCloseCalled(view: nat)
    | EventsUndelegated(view: nat)
    | ElementRemoved(view: nat)
    | Rendered(view: nat)
    | Inserted(selector: string, view: nat)

  /** The collaborators. */
  datatype Env = Env(
    routeToRegExp: string -> RegExp,
    extractParameters: (RegExp, string) -> seq<string>,
    test: (RegExp, string) -> bool,
    callFilter: (BoundFilter, seq<string>) -> Completion<FilterReturn>,
    callHandler: (nat, seq<string>) -> Completion<()>,
    listeners: Signal -> Completion<()>,
    beforeClose: nat -> Completion<()>,
    render: nat -> Completion<()>)

  /** A route as registered with Backbone.history: the pattern, its name and the resolved handler. */
  datatype Binding = Binding(router: nat, route: RegExp, name: string, callback: Option<nat>)

  /** A Hitch.View, as far as `close` and `showView` use it. */
  datatype View = View(id: nat, hasBeforeClose: bool)

  // ---------------------------------------------------------------- filters

  /** `_.filter(table, ...)`: the filters whose key, rebuilt as `new RegExp(key)`, tests the fragment. */
  function Matching(table: FilterTable, fragment: string, test: (RegExp, string) -> bool): (r: seq<BoundFilter>)
    ensures |r| <= |table|
    ensures r == [] <==> forall i :: 0 <= i < |table| ==> !test(NewRegExp(table[i].0), fragment)
  {
    if table == [] then []
    else
      var rest := Matching(table[1..], fragment, test);
      assert forall i :: 1 <= i < |table| ==> table[i] == table[1..][i - 1];
      (if test(NewRegExp(table[0].0), fragment) then [table[0].1] else []) + rest
  }

  /** The matching filters are exactly the table's filters whose key tests the fragment, in table order. */
  lemma {:induction false} MatchingMembers(table: FilterTable, fragment: string, test: (RegExp, string) -> bool)
    ensures forall i :: 0 <= i < |table| && test(NewRegExp(table[i].0), fragment) ==> table[i].1 in Matching(table, fragment, test)
    ensures forall f :: f in Matching(table, fragment, test) ==>
      exists i :: 0 <= i < |table| && table[i].1 == f && test(NewRegExp(table[i].0), fragment)
  {
    if table != [] {
      var rest := table[1..];
      MatchingMembers(rest, fragment, test);
      var head := if test(NewRegExp(table[0].0), fragment) then [table[0].1] else [];
      assert Matching(table, fragment, test) == head + Matching(rest, fragment, test);
      forall i | 1 <= i < |table| ensures table[i] == rest[i - 1] {
      }
    }
  }

  /** What running (part of) a phase did: the filters it invoked, in order, and its result. */
  datatype PhaseRun = PhaseRun(invoked: seq<BoundFilter>, outcome: Completion<bool>)

  /**
   * `!_.find(filters, fn)`: invoke the filters in order until one returns exactly
   * `false` (result false) or throws; true when none does.
   */
  function FindFalse(filters: seq<BoundFilter>, args: seq<string>, call: (BoundFilter, seq<string>) -> Completion<FilterReturn>): (run: PhaseRun)
    ensures |run.invoked| <= |filters| && run.invoked == filters[..|run.invoked|]
    ensures forall i :: 0 <= i < |run.invoked| - 1 ==> call(run.invoked[i], args) == Normal(ReturnedOther)
    ensures run.outcome == Normal(true) <==> run.invoked == filters && forall f :: f in filters ==> call(f, args) == Normal(ReturnedOther)
    ensures run.outcome == Normal(false) <==> |run.invoked| > 0 && call(run.invoked[|run.invoked| - 1], args) == Normal(ReturnedFalse)
    ensures run.outcome.Thrown? <==> |run.invoked| > 0 && call(run.invoked[|run.invoked| - 1], args).Thrown?
    ensures run.outcome.Thrown? ==> call(run.invoked[|run.invoked| - 1], args) == Thrown(run.outcome.error)
  {
    if filters == [] then PhaseRun([], Normal(true))
    else
      match call(filters[0], args)
      case Thrown(e) => PhaseRun([filters[0]], Thrown(e))
      case Normal(ReturnedFalse) => PhaseRun([filters[0]], Normal(false))
      case Normal(ReturnedOther) =>
        var rest := FindFalse(filters[1..], args, call);
        var invoked := [filters[0]] + rest.invoked;
        assert filters == [filters[0]] + filters[1..];
        assert invoked[0] == filters[0];
        assert forall i :: 0 < i < |invoked| ==> invoked[i] == rest.invoked[i - 1];
        PhaseRun(invoked, rest.outcome)
  }

  /** `_applyFilters(type, fragment, args)`. */
  function ApplyFilters(filters: map<Phase, FilterTable>, phase: Phase, fragment: string, args: seq<string>, env: Env): PhaseRun
  {
    if phase !in filters || |filters[phase]| == 0 then PhaseRun([], Normal(true))
    else
      var matching := Matching(filters[phase], fragment, env.test);
      if |matching| == 0 then PhaseRun([], Normal(true))
      else FindFalse(matching, args, env.callFilter)
  }

  /** The trace entries for the filters a phase invoked. */
  function Calls(phase: Phase, invoked: seq<BoundFilter>, args: seq<string>): (r: seq<Effect>)
    ensures |r| == |invoked|
    ensures forall i :: 0 <= i < |r| ==> r[i] == FilterCalled(phase, invoked[i], args)
  {
    seq(|invoked|, i requires 0 <= i < |invoked| => FilterCalled(phase, invoked[i], args))
  }

  /** A phase with no table, an empty table or no matching key passes without calling anything. */
  lemma NoMatchPasses(filters: map<Phase, FilterTable>, phase: Phase, fragment: string, args: seq<string>, env: Env)
    requires phase in filters ==> forall i :: 0 <= i < |filters[phase]| ==> !env.test(NewRegExp(filters[phase][i].0), fragment)
    ensures ApplyFilters(filters, phase, fragment, args, env) == PhaseRun([], Normal(true))
  {
    if phase in filters && |filters[phase]| != 0 {
      assert Matching(filters[phase], fragment, env.test) == [];
    }
  }

  /**
   * When no matching filter throws, a phase is false exactly when some matching
   * filter returns `false`, and the filters after the first such one are not invoked.
   */
  lemma {:induction false} FalseIffSomeFilterReturnsFalse(filters: map<Phase, FilterTable>, phase: Phase, fragment: string, args: seq<string>, env: Env)
    requires phase in filters
    requires forall f :: f in Matching(filters[phase], fragment, env.test) ==> env.callFilter(f, args).Normal?
    ensures var run := ApplyFilters(filters, phase, fragment, args, env);
      var matching := Matching(filters[phase], fragment, env.test);
      && run.outcome.Normal?
      && (run.outcome == Normal(false) <==> exists f :: f in matching && env.callFilter(f, args) == Normal(ReturnedFalse))
      && (run.outcome == Normal(false) ==>
            && run.invoked == matching[..|run.invoked|]
            && env.callFilter(run.invoked[|run.invoked| - 1], args) == Normal(ReturnedFalse)
            && forall i :: 0 <= i < |run.invoked| - 1 ==> env.callFilter(run.invoked[i], args) != Normal(ReturnedFalse))
  {
    var matching := Matching(filters[phase], fragment, env.test);
    if |filters[phase]| != 0 && |matching| != 0 {
      FindFalseIff(matching, args, env.callFilter);
    } else {
      assert matching == [];
    }
  }

  /** FalseIffSomeFilterReturnsFalse for the matching filters themselves. */
  lemma FindFalseIff(matching: seq<BoundFilter>, args: seq<string>, call: (BoundFilter, seq<string>) -> Completion<FilterReturn>)
    requires forall f :: f in matching ==> call(f, args).Normal?
    ensures var run := FindFalse(matching, args, call);
      && run.outcome.Normal?
      && (run.outcome == Normal(false) <==> exists f :: f in matching && call(f, args) == Normal(ReturnedFalse))
      && (run.outcome == Normal(false) ==>
            && run.invoked == matching[..|run.invoked|]
            && call(run.invoked[|run.invoked| - 1], args) == Normal(ReturnedFalse)
            && forall i :: 0 <= i < |run.invoked| - 1 ==> call(run.invoked[i], args) != Normal(ReturnedFalse))
  {
    var run := FindFalse(matching, args, call);
    if !run.outcome.Normal? || run.outcome == Normal(false) {
      var last := run.invoked[|run.invoked| - 1];
      assert last == matching[|run.invoked| - 1];
      assert last in matching;
    } else {
      assert run.outcome.value;
      assert forall f :: f in matching ==> call(f, args) == Normal(ReturnedOther);
    }
  }

  // ------------------------------------------- the quirk of rebuilt RegExps

  /** `sub` occurs in `s`. */
  ghost predicate Contains(s: string, sub: string)
  {
    exists i :: OccursAt(s, sub, i)
  }

  /** `sub` occurs in `s` at index `i`. */
  predicate OccursAt(s: string, sub: string, i: int)
  {
    0 <= i <= |s| - |sub| && s[i..i + |sub|] == sub
  }

  /** A pattern source without RegExp metacharacters: it matches itself literally. */
  predicate Literal(source: string)
  {
    forall i :: 0 <= i < |source| ==> source[i] !in "\\^$.|?*+()[]{}"
  }

  /** `test` behaves as RegExp.prototype.test does on literal, flag-less patterns. */
  ghost predicate LiteralTesting(test: (RegExp, string) -> bool)
  {
    forall source: string, fragment: string :: Literal(source) ==>
      (test(RegExp(source, ""), fragment) <==> Contains(fragment, source))
  }

  /**
   * A filter registered for a literal string pattern `s` is stored under "/s/",
   * and `_applyFilters` tests the fragment against `new RegExp("/s/")`: it
   * matches only fragments that contain "/s/", slashes included.
   */
  lemma StringFilterNeedsSlashes(s: string, fragment: string, test: (RegExp, string) -> bool)
    requires Literal(s) && s != ""
    requires LiteralTesting(test)
    ensures test(NewRegExp(FilterKey(StringPattern(s))), fragment) <==> Contains(fragment, "/" + s + "/")
  {
    var key := FilterKey(StringPattern(s));
    assert key == "/" + s + "/";
    assert Literal(key) by {
      forall i | 0 <= i < |key| ensures key[i] !in "\\^$.|?*+()[]{}" {
        if 0 < i < |key| - 1 {
          assert key[i] == s[i - 1];
        }
      }
    }
  }

  /**
   * Hence a phase whose filters were all registered with literal string patterns
   * never calls a filter, and passes, on a fragment without a '/' (such as "home"
   * for a filter registered on 'home').
   */
  lemma {:induction false} StringFiltersIgnoreSlashFreeFragments(filters: map<Phase, FilterTable>, phase: Phase, fragment: string, args: seq<string>, env: Env)
    requires LiteralTesting(env.test)
    requires '/' !in fragment
    requires phase in filters ==> forall i :: 0 <= i < |filters[phase]| ==> Literal(filters[phase][i].0) && '/' in filters[phase][i].0
    ensures ApplyFilters(filters, phase, fragment, args, env) == PhaseRun([], Normal(true))
  {
    if phase in filters {
      forall i | 0 <= i < |filters[phase]| ensures !env.test(NewRegExp(filters[phase][i].0), fragment) {
        var key := filters[phase][i].0;
      }
    }
    NoMatchPasses(filters, phase, fragment, args, env);
  }

  // --------------------------------------------------------------- dispatch

  /** The steps inside the route callback's `try`: their trace and what, if anything, they threw. */
  datatype Steps = Steps(effects: seq<Effect>, error: Option<Exception>)

  /** `prefix` happened before the steps `s`. */
  function Then(prefix: seq<Effect>, s: Steps): (r: Steps)
    ensures r.error == s.error && |r.effects| == |prefix| + |s.effects|
  {
    Steps(prefix + s.effects, s.error)
  }

  /** `route:<name>` on the router, then `route` on Backbone.history. */
  function EmitSteps(b: Binding, args: seq<string>, env: Env): (r: Steps)
    ensures 1 <= |r.effects| <= 2 && r.effects[0] == Emitted(RouteNamed(b.router, b.name, args))
    ensures r.error.None? ==> |r.effects| == 2
  {
    var named := RouteNamed(b.router, b.name, args);
    var history := HistoryRoute(b.router, b.name, args);
    if env.listeners(named).Thrown? then Steps([Emitted(named)], Some(env.listeners(named).error))
    else if env.listeners(history).Thrown? then Steps([Emitted(named), Emitted(history)], Some(env.listeners(history).error))
    else Steps([Emitted(named), Emitted(history)], None)
  }

  /** The after phase, whose result is ignored unless it throws, then the events. */
  function AfterSteps(filters: map<Phase, FilterTable>, b: Binding, fragment: string, args: seq<string>, env: Env): Steps
  {
    var after := ApplyFilters(filters, After, fragment, args, env);
    var afterCalls := Calls(After, after.invoked, args);
    if after.outcome.Thrown? then Steps(afterCalls, Some(after.outcome.error))
    else Then(afterCalls, EmitSteps(b, args, env))
  }

  /**
   * The `try` block: handler, after phase, `route:<name>`, history `route`;
   * the first step that throws ends the block.
   */
  function GuardedSteps(filters: map<Phase, FilterTable>, b: Binding, fragment: string, args: seq<string>, env: Env): Steps
  {
    match b.callback
    case None => AfterSteps(filters, b, fragment, args, env)
    case Some(handler) =>
      var call := HandlerCalled(handler, args);
      if env.callHandler(handler, args).Thrown? then Steps([call], Some(env.callHandler(handler, args).error))
      else Then([call], AfterSteps(filters, b, fragment, args, env))
  }

  datatype DispatchRun = DispatchRun(effects: seq<Effect>, outcome: Completion<()>)

  /** The `catch` clause: a Hitch.Error becomes an `error` event, anything else is rethrown. */
  function Settle(b: Binding, steps: Steps, env: Env): DispatchRun
  {
    match steps.error
    case None => DispatchRun(steps.effects, Normal(()))
    case Some(e) =>
      if e.HitchError? then
        var signal := RouteError(b.router, e);
        DispatchRun(steps.effects + [Emitted(signal)], env.listeners(signal))
      else DispatchRun(steps.effects, Thrown(e))
  }

  /** What the callback `route` registers does for one fragment. */
  function DispatchSpec(filters: map<Phase, FilterTable>, b: Binding, fragment: string, env: Env): DispatchRun
  {
    var args := env.extractParameters(b.route, fragment);
    var before := ApplyFilters(filters, Before, fragment, args, env);
    var beforeCalls := Calls(Before, before.invoked, args);
    if before.outcome != Normal(true) then
      DispatchRun(beforeCalls, if before.outcome.Thrown? then Thrown(before.outcome.error) else Normal(()))
    else
      var settled := Settle(b, GuardedSteps(filters, b, fragment, args, env), env);
      DispatchRun(beforeCalls + settled.effects, settled.outcome)
  }

  predicate IsHandlerCall(e: Effect) { e.HandlerCalled? }
  predicate IsEmission(e: Effect) { e.Emitted? }

  /**
   * A before phase that is false, or that throws, ends the dispatch with only the
   * before filters' calls: no handler, no after filters, no event. An exception
   * from a before filter (even a Hitch.Error) propagates.
   */
  lemma BeforePhaseGates(filters: map<Phase, FilterTable>, b: Binding, fragment: string, env: Env)
    requires var args := env.extractParameters(b.route, fragment);
      ApplyFilters(filters, Before, fragment, args, env).outcome != Normal(true)
    ensures var args := env.extractParameters(b.route, fragment);
      var before := ApplyFilters(filters, Before, fragment, args, env);
      var run := DispatchSpec(filters, b, fragment, env);
      && run.effects == Calls(Before, before.invoked, args)
      && (forall i :: 0 <= i < |run.effects| ==> run.effects[i].FilterCalled? && run.effects[i].phase == Before)
      && (before.outcome.Thrown? ==> run.outcome == Thrown(before.outcome.error))
      && (before.outcome == Normal(false) ==> run.outcome == Normal(()))
  {
  }

  /**
   * When the before phase passes and nothing throws, the trace is: before
   * filters, handler (if one was resolved), after filters, `route:<name>`,
   * history `route` -- whatever the after phase returned.
   */
  lemma DispatchCompletes(filters: map<Phase, FilterTable>, b: Binding, fragment: string, env: Env)
    requires var args := env.extractParameters(b.route, fragment);
      && ApplyFilters(filters, Before, fragment, args, env).outcome == Normal(true)
      && (b.callback.Some? ==> env.callHandler(b.callback.value, args).Normal?)
      && ApplyFilters(filters, After, fragment, args, env).outcome.Normal?
      && env.listeners(RouteNamed(b.router, b.name, args)).Normal?
      && env.listeners(HistoryRoute(b.router, b.name, args)).Normal?
    ensures var args := env.extractParameters(b.route, fragment);
      var before := ApplyFilters(filters, Before, fragment, args, env);
      var after := ApplyFilters(filters, After, fragment, args, env);
      var run := DispatchSpec(filters, b, fragment, env);
      && run.outcome == Normal(())
      && run.effects == Calls(Before, before.invoked, args)
                        + (if b.callback.Some? then [HandlerCalled(b.callback.value, args)] else [])
                        + Calls(After, after.invoked, args)
                        + [Emitted(RouteNamed(b.router, b.name, args)), Emitted(HistoryRoute(b.router, b.name, args))]
  {
    var args := env.extractParameters(b.route, fragment);
    var beforeCalls := Calls(Before, ApplyFilters(filters, Before, fragment, args, env).invoked, args);
    var handler: seq<Effect> := if b.callback.Some? then [HandlerCalled(b.callback.value, args)] else [];
    var afterCalls := Calls(After, ApplyFilters(filters, After, fragment, args, env).invoked, args);
    var events := [Emitted(RouteNamed(b.router, b.name, args)), Emitted(HistoryRoute(b.router, b.name, args))];
    assert EmitSteps(b, args, env) == Steps(events, None);
    assert AfterSteps(filters, b, fragment, args, env) == Steps(afterCalls + events, None);
    assert GuardedSteps(filters, b, fragment, args, env) == Steps(handler + (afterCalls + events), None) by {
      if b.callback.None? {
        assert handler + (afterCalls + events) == afterCalls + events;
      }
    }
    assert DispatchSpec(filters, b, fragment, env).effects == beforeCalls + (handler + (afterCalls + events));
    Regroup(beforeCalls, handler, afterCalls + events);
    Regroup(beforeCalls + handler, afterCalls, events);
  }

  /**
   * A Hitch.Error thrown by the handler becomes an `error` event and ends the
   * dispatch: no after filter runs and no route event fires. Any other
   * exception from the handler is rethrown.
   */
  lemma HandlerErrors(filters: map<Phase, FilterTable>, b: Binding, fragment: string, env: Env)
    requires b.callback.Some?
    requires var args := env.extractParameters(b.route, fragment);
      && ApplyFilters(filters, Before, fragment, args, env).outcome == Normal(true)
      && env.callHandler(b.callback.value, args).Thrown?
    ensures var args := env.extractParameters(b.route, fragment);
      var before := ApplyFilters(filters, Before, fragment, args, env);
      var e := env.callHandler(b.callback.value, args).error;
      var run := DispatchSpec(filters, b, fragment, env);
      var prefix := Calls(Before, before.invoked, args) + [HandlerCalled(b.callback.value, args)];
      && (e.HitchError? ==>
            && run.effects == prefix + [Emitted(RouteError(b.router, e))]
            && run.outcome == env.listeners(RouteError(b.router, e)))
      && (!e.HitchError? ==> run.effects == prefix && run.outcome == Thrown(e))
  {
  }

  /**
   * Wherever in the `try` block an exception arises (handler, after filter or
   * listener), a Hitch.Error ends the dispatch with one `error` event whose
   * listeners decide the outcome, and anything else propagates unchanged.
   */
  lemma CaughtOnlyHitchErrors(filters: map<Phase, FilterTable>, b: Binding, fragment: string, env: Env)
    requires var args := env.extractParameters(b.route, fragment);
      && ApplyFilters(filters, Before, fragment, args, env).outcome == Normal(true)
      && GuardedSteps(filters, b, fragment, args, env).error.Some?
    ensures var args := env.extractParameters(b.route, fragment);
      var e := GuardedSteps(filters, b, fragment, args, env).error.value;
      var run := DispatchSpec(filters, b, fragment, env);
      && (e.HitchError? ==>
            && |run.effects| > 0
            && run.effects[|run.effects| - 1] == Emitted(RouteError(b.router, e))
            && run.outcome == env.listeners(RouteError(b.router, e)))
      && (!e.HitchError? ==> run.outcome == Thrown(e))
  {
  }

  /**
   * Backbone.history's `route` event is the last step of a dispatch that
   * throws nothing, and it is reached only if the handler, the after filters
   * and the `route:<name>` listeners all returned normally.
   */
  lemma {:induction false} HistoryEventComesLast(filters: map<Phase, FilterTable>, b: Binding, fragment: string, args: seq<string>, env: Env)
    ensures var steps := GuardedSteps(filters, b, fragment, args, env);
      Emitted(HistoryRoute(b.router, b.name, args)) in steps.effects <==>
        && (b.callback.Some? ==> env.callHandler(b.callback.value, args).Normal?)
        && ApplyFilters(filters, After, fragment, args, env).outcome.Normal?
        && env.listeners(RouteNamed(b.router, b.name, args)).Normal?
    ensures var steps := GuardedSteps(filters, b, fragment, args, env);
      steps.error.None? ==> |steps.effects| >= 2 && steps.effects[|steps.effects| - 1] == Emitted(HistoryRoute(b.router, b.name, args))
  {
    var history := Emitted(HistoryRoute(b.router, b.name, args));
    var after := ApplyFilters(filters, After, fragment, args, env);
    var afterCalls := Calls(After, after.invoked, args);
    assert history !in afterCalls;
    assert history !in [Emitted(RouteNamed(b.router, b.name, args))];
    if b.callback.Some? {
      assert history !in [HandlerCalled(b.callback.value, args)];
    }
  }

  /** The handler runs, and route events fire, only when the before phase passed. */
  lemma HandlerOnlyAfterBeforePasses(filters: map<Phase, FilterTable>, b: Binding, fragment: string, env: Env)
    requires var effects := DispatchSpec(filters, b, fragment, env).effects;
      exists i :: 0 <= i < |effects| && (IsHandlerCall(effects[i]) || IsEmission(effects[i]))
    ensures ApplyFilters(filters, Before, fragment, env.extractParameters(b.route, fragment), env).outcome == Normal(true)
  {
  }

  // ------------------------------------------------------------- views

  datatype CloseRun = CloseRun(effects: seq<Effect>, outcome: Completion<()>)

  /** `view.close()`: `beforeClose` if the view has one, then `undelegateEvents`, then `remove`. */
  function CloseSpec(view: View, env: Env): (run: CloseRun)
    ensures run.outcome.Normal? ==>
      && |run.effects| >= 2
      && run.effects[|run.effects| - 2] == EventsUndelegated(view.id)
      && run.effects[|run.effects| - 1] == ElementRemoved(view.id)
    ensures run.outcome.Thrown? ==> view.hasBeforeClose && run.effects == [BeforeCloseCalled(view.id)]
    ensures !view.hasBeforeClose ==> run.outcome.Normal?
    ensures view.hasBeforeClose ==>
      run.outcome == if env.beforeClose(view.id).Thrown? then Thrown(env.beforeClose(view.id).error) else Normal(())
    ensures run.outcome.Normal? ==>
      run.effects == (if view.hasBeforeClose then [BeforeCloseCalled(view.id)] else [])
        + [EventsUndelegated(view.id), ElementRemoved(view.id)]
  {
    var hook := if view.hasBeforeClose then [BeforeCloseCalled(view.id)] else [];
    var hooked := if view.hasBeforeClose then env.beforeClose(view.id) else Normal(());
    if hooked.Thrown? then CloseRun(hook, Thrown(hooked.error))
    else CloseRun(hook + [EventsUndelegated(view.id), ElementRemoved(view.id)], Normal(()))
  }

  /** What `showView(selector, view)` does to the slots and the trace. */
  datatype ShowRun = ShowRun(effects: seq<Effect>, slots: map<string, View>, outcome: Completion<View>)

  function ShowViewSpec(slots: map<string, View>, selector: string, view: View, env: Env): ShowRun
  {
    var closing := if selector in slots then CloseSpec(slots[selector], env) else CloseRun([], Normal(()));
    if closing.outcome.Thrown? then ShowRun(closing.effects, slots, Thrown(closing.outcome.error))
    else
      var rendered := env.render(view.id);
      if rendered.Thrown? then ShowRun(closing.effects + [Rendered(view.id)], slots, Thrown(rendered.error))
      else ShowRun(closing.effects + [Rendered(view.id), Inserted(selector, view.id)], slots[selector := view], Normal(view))
  }

  /**
   * The previous occupant's teardown precedes the new view's rendering; on
   * success the slot holds the new view, the view is returned, and no other
   * slot changes.
   */
  lemma {:induction false} ShowViewReplaces(slots: map<string, View>, selector: string, view: View, env: Env)
    requires selector in slots ==> CloseSpec(slots[selector], env).outcome.Normal?
    requires env.render(view.id).Normal?
    ensures var run := ShowViewSpec(slots, selector, view, env);
      && run.outcome == Normal(view)
      && run.slots.Keys == slots.Keys + {selector}
      && run.slots[selector] == view
      && (forall s :: s in slots && s != selector ==> run.slots[s] == slots[s])
      && (selector in slots ==>
            run.effects[|run.effects| - 4] == EventsUndelegated(slots[selector].id)
            && run.effects[|run.effects| - 3] == ElementRemoved(slots[selector].id))
      && (selector !in slots ==> run.effects == [Rendered(view.id), Inserted(selector, view.id)])
      && run.effects[|run.effects| - 2] == Rendered(view.id)
      && run.effects[|run.effects| - 1] == Inserted(selector, view.id)
  {
    var run := ShowViewSpec(slots, selector, view, env);
    if selector in slots {
      var closing := CloseSpec(slots[selector], env);
      assert run.effects == closing.effects + [Rendered(view.id), Inserted(selector, view.id)];
    }
  }

  /**
   * If the old view's `close` throws, nothing is rendered and the slot still
   * holds the old view; if the new view's `render` throws, the old view has
   * been closed but stays recorded in the slot.
   */
  lemma ShowViewFailures(slots: map<string, View>, selector: string, view: View, env: Env)
    ensures var run := ShowViewSpec(slots, selector, view, env);
      run.outcome.Thrown? ==> run.slots == slots && Inserted(selector, view.id) !in run.effects
    ensures var run := ShowViewSpec(slots, selector, view, env);
      selector in slots && CloseSpec(slots[selector], env).outcome.Thrown? ==>
        Rendered(view.id) !in run.effects && run.outcome == Thrown(CloseSpec(slots[selector], env).outcome.error)
  {
  }

  // ------------------------------------------------------- adding filters

  /** What `new RegExp(s)` throws for a pattern it rejects. */
  const PatternSyntaxError: Exception := OtherError("SyntaxError")

  /**
   * A string pattern that `new RegExp` rejects; a RegExp is used as it is.
   * `parses` says which sources JavaScript's pattern grammar accepts.
   */
  predicate Unparsable(route: Pattern, parses: string -> bool)
  {
    route.StringPattern? && !parses(route.s)
  }

  /**
   * The tables after `_addFilter(phase, route, ...)`: the phase's table exists,
   * and holds `bound` under the pattern's key unless the pattern was rejected.
   */
  function AddedTables(filters: map<Phase, FilterTable>, phase: Phase, route: Pattern, bound: BoundFilter, parses: string -> bool): map<Phase, FilterTable>
  {
    var table := if phase in filters then filters[phase] else [];
    if Unparsable(route, parses) then filters[phase := table]
    else filters[phase := Put(table, FilterKey(route), bound)]
  }

  /**
   * Adding a filter touches only its own phase. An accepted pattern makes the
   * filter the one its key selects; a rejected one changes no filter, though a
   * missing table is created empty.
   */
  lemma AddedTablesEffect(filters: map<Phase, FilterTable>, phase: Phase, route: Pattern, bound: BoundFilter, parses: string -> bool)
    ensures var r := AddedTables(filters, phase, route, bound, parses);
      && r.Keys == filters.Keys + {phase}
      && (forall p :: p in filters && p != phase ==> r[p] == filters[p])
      && (!Unparsable(route, parses) ==> Get(r[phase], FilterKey(route)) == Some(bound))
      && (Unparsable(route, parses) ==> r[phase] == if phase in filters then filters[phase] else [])
  {
    var table := if phase in filters then filters[phase] else [];
    if !Unparsable(route, parses) {
      assert Get(Put(table, FilterKey(route), bound), FilterKey(route)) == Some(bound);
    }
  }

  // ------------------------------------------------------------ the state

  /** Router.prototype's shared tables. */
  class RouterPrototype {
    var displaySlots: map<string, View>
    var filters: map<Phase, FilterTable>

    ghost predicate Valid()
      reads this
    {
      forall p :: p in filters ==> UniqueKeys(filters[p])
    }

    constructor ()
      ensures Valid() && displaySlots == map[] && filters == map[]
    {
      displaySlots := map[];
      filters := map[];
    }
  }

  /** Backbone.history's registered routes, and the trace of observable steps. */
  class World {
    var history: seq<Binding>
    var trace: seq<Effect>

    constructor ()
      ensures history == [] && trace == []
    {
      history := [];
      trace := [];
    }
  }

  /** `view.close()`, appending its steps to the trace. */
  method Close(view: View, world: World, env: Env) returns (outcome: Completion<()>)
    modifies world`trace
    ensures world.trace == old(world.trace) + CloseSpec(view, env).effects
    ensures outcome == CloseSpec(view, env).outcome
  {
    if view.hasBeforeClose {
      world.trace := world.trace + [BeforeCloseCalled(view.id)];
      var hooked := env.beforeClose(view.id);
      if hooked.Thrown? {
        return Thrown(hooked.error);
      }
    }
    world.trace := world.trace + [EventsUndelegated(view.id)];
    world.trace := world.trace + [ElementRemoved(view.id)];
    outcome := Normal(());
  }

  class Router {
    const id: nat
    const proto: RouterPrototype
    const world: World
    /** The router's own properties that `this[name]` finds. */
    var methods: map<string, nat>

    constructor (id: nat, proto: RouterPrototype, world: World, methods: map<string, nat>)
      ensures this.id == id && this.proto == proto && this.world == world && this.methods == methods
    {
      this.id := id;
      this.proto := proto;
      this.world := world;
      this.methods := methods;
    }

    /** `showView(selector, view)`. */
    method ShowView(selector: string, view: View, env: Env) returns (outcome: Completion<View>)
      modifies proto`displaySlots, world`trace
      ensures var run := ShowViewSpec(old(proto.displaySlots), selector, view, env);
        && world.trace == old(world.trace) + run.effects
        && proto.displaySlots == run.slots
        && outcome == run.outcome
    {
      if selector in proto.displaySlots {
        var closed := Close(proto.displaySlots[selector], world, env);
        if closed.Thrown? {
          return Thrown(closed.error);
        }
      }
      world.trace := world.trace + [Rendered(view.id)];
      var rendered := env.render(view.id);
      if rendered.Thrown? {
        return Thrown(rendered.error);
      }
      world.trace := world.trace + [Inserted(selector, view.id)];
      proto.displaySlots := proto.displaySlots[selector := view];
      outcome := Normal(view);
    }

    /**
     * `_addFilter(type, route, filter, context)`: one filter per (phase, key); a
     * new one replaces the old. The phase's table is created first, so a string
     * pattern `new RegExp` rejects leaves it behind, empty if it was new.
     */
    method AddFilter(phase: Phase, route: Pattern, filter: nat, context: Option<nat>, parses: string -> bool) returns (outcome: Completion<()>)
      requires proto.Valid()
      modifies proto`filters
      ensures proto.Valid()
      ensures proto.filters == AddedTables(old(proto.filters), phase, route, Bound(filter, context), parses)
      ensures outcome == if Unparsable(route, parses) then Thrown(PatternSyntaxError) else Normal(())
    {
      if phase !in proto.filters {
        proto.filters := proto.filters[phase := []];
      }
      if route.StringPattern? && !parses(route.s) {
        return Thrown(PatternSyntaxError);
      }
      var receiver := if context.Some? then ContextObject(context.value) else RouterObject(id);
      proto.filters := proto.filters[phase := Put(proto.filters[phase], FilterKey(route), BoundFilter(filter, receiver))];
      outcome := Normal(());
    }

    /** `_.bind(filter, context || this)`. */
    function Bound(filter: nat, context: Option<nat>): BoundFilter
    {
      BoundFilter(filter, if context.Some? then ContextObject(context.value) else RouterObject(id))
    }

    method AddBeforeFilter(route: Pattern, filter: nat, context: Option<nat>, parses: string -> bool) returns (outcome: Completion<()>)
      requires proto.Valid()
      modifies proto`filters
      ensures proto.Valid()
      ensures proto.filters == AddedTables(old(proto.filters), Before, route, Bound(filter, context), parses)
      ensures outcome == if Unparsable(route, parses) then Thrown(PatternSyntaxError) else Normal(())
    {
      outcome := AddFilter(Before, route, filter, context, parses);
    }

    method AddAfterFilter(route: Pattern, filter: nat, context: Option<nat>, parses: string -> bool) returns (outcome: Completion<()>)
      requires proto.Valid()
      modifies proto`filters
      ensures proto.Valid()
      ensures proto.filters == AddedTables(old(proto.filters), After, route, Bound(filter, context), parses)
      ensures outcome == if Unparsable(route, parses) then Thrown(PatternSyntaxError) else Normal(())
    {
      outcome := AddFilter(After, route, filter, context, parses);
    }

    /**
     * `route(route, name, callback)`: a string route goes through `_routeToRegExp`;
     * an omitted handler is looked up as `this[name]` now, at registration.
     */
    method Route(route: Pattern, name: string, callback: Option<nat>, env: Env) returns (self: Router)
      modifies world`history
      ensures self == this
      ensures var re := if route.RegExpPattern? then route.re else env.routeToRegExp(route.s);
        var handler := if callback.Some? then callback else if name in methods then Some(methods[name]) else None;
        world.history == [Binding(id, re, name, handler)] + old(world.history)
    {
      var re := if route.RegExpPattern? then route.re else env.routeToRegExp(route.s);
      var handler := callback;
      if handler.None? {
        handler := if name in methods then Some(methods[name]) else None;
      }
      // Backbone.History.route unshifts: the latest route is tried first
      world.history := [Binding(id, re, name, handler)] + world.history;
      self := this;
    }

    /** The events at the end of the `try` block. */
    method Emit(b: Binding, args: seq<string>, env: Env) returns (error: Option<Exception>)
      modifies world`trace
      ensures var steps := EmitSteps(b, args, env);
        world.trace == old(world.trace) + steps.effects && error == steps.error
    {
      var named := RouteNamed(b.router, b.name, args);
      world.trace := world.trace + [Emitted(named)];
      var emitted := env.listeners(named);
      if emitted.Thrown? {
        return Some(emitted.error);
      }
      var history := HistoryRoute(b.router, b.name, args);
      world.trace := world.trace + [Emitted(history)];
      emitted := env.listeners(history);
      error := if emitted.Thrown? then Some(emitted.error) else None;
    }

    /** The `try` block of the route callback. */
    method RunGuarded(b: Binding, fragment: string, args: seq<string>, env: Env) returns (error: Option<Exception>)
      modifies world`trace
      ensures var steps := GuardedSteps(proto.filters, b, fragment, args, env);
        world.trace == old(world.trace) + steps.effects && error == steps.error
    {
      if b.callback.Some? {
        var call := HandlerCalled(b.callback.value, args);
        world.trace := world.trace + [call];
        var handled := env.callHandler(b.callback.value, args);
        if handled.Thrown? {
          return Some(handled.error);
        }
        error := RunAfter(b, fragment, args, env);
        Regroup(old(world.trace), [call], AfterSteps(proto.filters, b, fragment, args, env).effects);
      } else {
        error := RunAfter(b, fragment, args, env);
      }
    }

    /** The after phase and the events, inside the `try` block. */
    method RunAfter(b: Binding, fragment: string, args: seq<string>, env: Env) returns (error: Option<Exception>)
      modifies world`trace
      ensures var steps := AfterSteps(proto.filters, b, fragment, args, env);
        world.trace == old(world.trace) + steps.effects && error == steps.error
    {
      var after := ApplyFilters(proto.filters, After, fragment, args, env);
      var afterCalls := Calls(After, after.invoked, args);
      world.trace := world.trace + afterCalls;
      if after.outcome.Thrown? {
        return Some(after.outcome.error);
      }
      error := Emit(b, args, env);
      Regroup(old(world.trace), afterCalls, EmitSteps(b, args, env).effects);
    }

    /** The callback `route` hands to Backbone.history, run for one fragment. */
    method Dispatch(b: Binding, fragment: string, env: Env) returns (outcome: Completion<()>)
      requires b.router == id
      modifies world`trace
      ensures var run := DispatchSpec(proto.filters, b, fragment, env);
        world.trace == old(world.trace) + run.effects && outcome == run.outcome
    {
      var args := env.extractParameters(b.route, fragment);
      var before := ApplyFilters(proto.filters, Before, fragment, args, env);
      var beforeCalls := Calls(Before, before.invoked, args);
      world.trace := world.trace + beforeCalls;
      if before.outcome.Thrown? {
        return Thrown(before.outcome.error);
      }
      if !before.outcome.value {
        return Normal(());
      }
      outcome := RunCaught(b, fragment, args, env);
      ghost var settled := Settle(b, GuardedSteps(proto.filters, b, fragment, args, env), env);
      Regroup(old(world.trace), beforeCalls, settled.effects);
    }

    /** The `try` block with its `catch` clause. */
    method RunCaught(b: Binding, fragment: string, args: seq<string>, env: Env) returns (outcome: Completion<()>)
      requires b.router == id
      modifies world`trace
      ensures var run := Settle(b, GuardedSteps(proto.filters, b, fragment, args, env), env);
        world.trace == old(world.trace) + run.effects && outcome == run.outcome
    {
      var error := RunGuarded(b, fragment, args, env);
      if error.Some? && error.value.HitchError? {
        var signal := RouteError(id, error.value);
        world.trace := world.trace + [Emitted(signal)];
        outcome := env.listeners(signal);
      } else {
        outcome := if error.Some? then Thrown(error.value) else Normal(());
      }
    }
  }
}
