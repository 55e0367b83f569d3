/**
 * The command registry and dispatcher of the command-line tool
 * (lib/console_utils.js). Commands are registered under the string form of
 * their name; `run` hands the arguments to every handler whose command
 * accepts them and otherwise falls back to the default handler or an error
 * line. Handlers and the default handler are identified by number, and
 * their calls and the printed lines are recorded in `output`.
 */
module ConsoleUtils {
  import opened Common
  import opened Js

  /** `new ConsoleUtils.Command(name)`; the name may be any value. */
  datatype Command = Command(name: Value)

  /** `command.accepts(args)`. */
  predicate Accepts(command: Command, args: seq<string>)
  {
    |args| > 0 && command.name == Str(args[0])
  }

  /** A command accepts only arguments whose first element is its registration key. */
  lemma AcceptsOwnKey(command: Command, args: seq<string>)
    ensures Accepts(command, args) ==> |args| > 0 && ToStr(command.name) == args[0]
    ensures Accepts(command, args) <==> |args| > 0 && command.name.Str? && command.name.s == args[0]
  {
  }

  /** `!==` never holds between a number and a string, so a numeric name accepts nothing. */
  lemma NumericNamesAcceptNothing(n: int, args: seq<string>)
    ensures !Accepts(Command(Num(n)), args)
  {
  }

  /** What `run` does, in order: handler calls, the default handler, printed lines. */
  datatype Effect = Called(handler: nat, arguments: seq<string>) | DefaultCalled | Printed(line: string)

  /** Whether an operation returned normally or threw an error with this message. */
  datatype Outcome = Done | Threw(message: string)

  const CallbackMessage := "second argument must be a valid callback"
  const RegisteredMessage := "this command is already registered"
  /** Reading `.name` of a missing command. */
  const MissingCommandMessage := "TypeError: Cannot read property 'name' of undefined"

  /**
   * The registry's invariant: every handler key appears once, the two tables
   * have the same keys, and a command is stored under the string form of its
   * name.
   */
  ghost predicate Registry(handlers: seq<(string, nat)>, commands: map<string, Command>)
  {
    && UniqueKeys(handlers)
    && (forall key :: HasKey(handlers, key) <==> key in commands)
    && (forall key :: key in commands ==> ToStr(commands[key].name) == key)
  }

  /** No command is registered under a name `{}` inherits: `pushCommand` refuses those as already registered. */
  ghost predicate OwnKeysOnly(commands: map<string, Command>)
  {
    forall key :: key in commands ==> key !in InheritedNames
  }

  /**
   * `this._commands[key]` is truthy: a registered command (an object), or a
   * member every `{}` inherits from Object.prototype.
   */
  predicate Known(commands: map<string, Command>, key: string)
  {
    key in commands || key in InheritedNames
  }

  // ---------------------------------------------------------------------
  // error
  // ---------------------------------------------------------------------

  /** The error number and the remaining arguments: a trailing number is popped, otherwise 0. */
  function SplitErrno(arguments: seq<Value>): (r: (seq<Value>, Value))
    ensures IsNumber(r.1)
    ensures |arguments| > 0 && IsNumber(arguments[|arguments| - 1]) ==> r.0 + [r.1] == arguments
    ensures !(|arguments| > 0 && IsNumber(arguments[|arguments| - 1])) ==> r == (arguments, Num(0))
  {
    if |arguments| > 0 && IsNumber(arguments[|arguments| - 1]) then
      (arguments[..|arguments| - 1], arguments[|arguments| - 1])
    else (arguments, Num(0))
  }

  /** The line `error(...)` prints. */
  function ErrorLine(arguments: seq<Value>): string
  {
    var (rest, errno) := SplitErrno(arguments);
    "ERROR (" + ToStr(errno) + ") " + Join(ItemStrings(rest), " ")
  }

  /** Only the last argument is taken as the error number, and only when it is a number. */
  lemma TrailingErrno(arguments: seq<Value>, errno: Value)
    requires IsNumber(errno)
    ensures ErrorLine(arguments + [errno]) == "ERROR (" + ToStr(errno) + ") " + Join(ItemStrings(arguments), " ")
  {
    assert (arguments + [errno])[..|arguments|] == arguments;
  }

  lemma DefaultErrno(arguments: seq<Value>)
    requires arguments == [] || !IsNumber(arguments[|arguments| - 1])
    ensures ErrorLine(arguments) == "ERROR (0) " + Join(ItemStrings(arguments), " ")
  {
  }

  /** The two lines `run` can print. */
  lemma RunErrorLines(message: string)
    ensures ErrorLine([Str(message), Num(1337)]) == "ERROR (1337) " + message
    ensures ErrorLine([Str(message), Num(1338)]) == "ERROR (1338) " + message
  {
    MessageWithErrno(message, Num(1337));
    MessageWithErrno(message, Num(1338));
    ErrnoPrefixes();
  }

  /** A single message followed by an error number. */
  lemma MessageWithErrno(message: string, errno: Value)
    requires IsNumber(errno)
    ensures ErrorLine([Str(message), errno]) == "ERROR (" + ToStr(errno) + ") " + message
  {
    TrailingErrno([Str(message)], errno);
    assert [Str(message)] + [errno] == [Str(message), errno];
    assert ItemStrings([Str(message)]) == [message];
  }

  // ErrnoPrefixes, LiteralPrefix and ErrnoDigits model nothing on their own:
  // they spell out the digits of 1337 and 1338 for RunErrorLines.

  lemma ErrnoPrefixes()
    ensures "ERROR (" + ToStr(Num(1337)) + ") " == "ERROR (1337) "
    ensures "ERROR (" + ToStr(Num(1338)) + ") " == "ERROR (1338) "
  {
    ErrnoDigits();
    LiteralPrefix("1337");
    LiteralPrefix("1338");
  }

  lemma LiteralPrefix(digits: string)
    requires |digits| == 4
    ensures "ERROR (" + digits + ") " == "ERROR (" + [digits[0], digits[1], digits[2], digits[3]] + ") "
  {
    assert digits == [digits[0], digits[1], digits[2], digits[3]];
  }

  lemma ErrnoDigits()
    ensures NumberString(1337) == "1337" && NumberString(1338) == "1338"
  {
    assert DigitChar(1) == '1' && DigitChar(3) == '3' && DigitChar(7) == '7' && DigitChar(8) == '8';
    assert Digits(13) == Digits(1) + [DigitChar(3)];
    assert Digits(133) == Digits(13) + [DigitChar(3)];
    assert Digits(1337) == Digits(133) + [DigitChar(7)];
    assert Digits(1338) == Digits(133) + [DigitChar(8)];
  }

  /** The two error lines of `run` are told apart by the error number. */
  lemma ErrorLinesDiffer(a: string, b: string)
    ensures "ERROR (1337) " + a != "ERROR (1338) " + b
  {
    assert ("ERROR (1337) " + a)[10] == '7';
    assert ("ERROR (1338) " + b)[10] == '8';
  }

  // ---------------------------------------------------------------------
  // run
  // ---------------------------------------------------------------------

  /** The handler calls of `run`'s loop over `_handlers`, in enumeration order. */
  function Dispatches(handlers: seq<(string, nat)>, commands: map<string, Command>, args: seq<string>): seq<Effect>
  {
    if handlers == [] then []
    else
      var (name, handler) := handlers[0];
      (if name in commands && Accepts(commands[name], args) then [Called(handler, args[1..])] else [])
      + Dispatches(handlers[1..], commands, args)
  }

  function UnknownMessage(name: string): string
  {
    "Unknown command: \"" + name + "\". See hitch help for detailed information."
  }

  function InvalidUsageMessage(name: string): string
  {
    "Invalid usage of \"" + name + "\". See hitch help for detailed information."
  }

  /** What `run` does when no handler took the arguments. */
  function Fallback(commands: map<string, Command>, args: seq<string>): seq<Effect>
  {
    if |args| == 0 then [DefaultCalled]
    else if !Known(commands, args[0]) then [Printed(ErrorLine([Str(UnknownMessage(args[0])), Num(1337)]))]
    else [Printed(ErrorLine([Str(InvalidUsageMessage(args[0])), Num(1338)]))]
  }

  /** Everything one `run` does. */
  function RunEffects(handlers: seq<(string, nat)>, commands: map<string, Command>, args: seq<string>): seq<Effect>
  {
    var calls := Dispatches(handlers, commands, args);
    if calls != [] then calls else Fallback(commands, args)
  }

  lemma {:induction false} NoKeyNoDispatch(handlers: seq<(string, nat)>, commands: map<string, Command>, args: seq<string>)
    requires forall key :: key in commands ==> ToStr(commands[key].name) == key
    requires |args| == 0 || !HasKey(handlers, args[0])
    ensures Dispatches(handlers, commands, args) == []
    decreases |handlers|
  {
    if handlers != [] {
      if |args| > 0 {
        forall i | 0 <= i < |handlers[1..]|
          ensures handlers[1..][i].0 != args[0]
        {
          assert handlers[1..][i] == handlers[i + 1];
        }
        assert handlers[0].0 != args[0];
      }
      NoKeyNoDispatch(handlers[1..], commands, args);
    }
  }

  /**
   * In a consistent registry at most one handler runs: the handler stored
   * under `args[0]`, and only when its command's name is that very string.
   */
  lemma {:induction false} DispatchIsUnique(handlers: seq<(string, nat)>, commands: map<string, Command>, args: seq<string>)
    requires Registry(handlers, commands)
    ensures var calls := Dispatches(handlers, commands, args);
      if |args| > 0 && args[0] in commands && commands[args[0]].name == Str(args[0]) then
        calls == [Called(Get(handlers, args[0]).value, args[1..])]
      else calls == []
    decreases |handlers|
  {
    var selected := |args| > 0 && args[0] in commands && commands[args[0]].name == Str(args[0]);
    if handlers == [] {
    } else if |args| > 0 && handlers[0].0 == args[0] {
      TailKeys(handlers, args[0]);
      NoKeyNoDispatch(handlers[1..], commands, args);
      assert HasKey(handlers, args[0]);
    } else {
      var rest := handlers[1..];
      var smaller := commands - {handlers[0].0};
      RegistryTail(handlers, commands);
      DispatchIsUnique(rest, smaller, args);
      DispatchesIgnoreOtherKeys(rest, commands, smaller, args);
      if |args| > 0 && handlers[0].0 in commands {
        assert !Accepts(commands[handlers[0].0], args);
      }
    }
  }

  /** Without its first handler, a registry is consistent for the other commands. */
  lemma RegistryTail(handlers: seq<(string, nat)>, commands: map<string, Command>)
    requires Registry(handlers, commands) && handlers != []
    ensures Registry(handlers[1..], commands - {handlers[0].0})
  {
    var rest := handlers[1..];
    TailKeys(handlers, handlers[0].0);
    forall key
      ensures HasKey(rest, key) <==> key in commands - {handlers[0].0}
    {
      if key != handlers[0].0 {
        TailKeys(handlers, key);
      }
    }
  }

  /** The dispatch of handlers only looks up the handlers' own keys. */
  lemma {:induction false} DispatchesIgnoreOtherKeys(handlers: seq<(string, nat)>, commands: map<string, Command>, smaller: map<string, Command>, args: seq<string>)
    requires forall key :: HasKey(handlers, key) ==> (key in commands <==> key in smaller) && (key in smaller ==> commands[key] == smaller[key])
    ensures Dispatches(handlers, commands, args) == Dispatches(handlers, smaller, args)
    decreases |handlers|
  {
    if handlers != [] {
      assert HasKey(handlers, handlers[0].0);
      forall key | HasKey(handlers[1..], key)
        ensures HasKey(handlers, key)
      {
        var i :| 0 <= i < |handlers[1..]| && handlers[1..][i].0 == key;
        assert handlers[i + 1].0 == key;
      }
      DispatchesIgnoreOtherKeys(handlers[1..], commands, smaller, args);
    }
  }

  /**
   * The outcome of `run`: the selected handler, or the default handler for
   * no arguments, or error 1337 for a name `_commands` does not know, or
   * error 1338 for a known name that no command accepts.
   */
  lemma RunOutcome(handlers: seq<(string, nat)>, commands: map<string, Command>, args: seq<string>)
    requires Registry(handlers, commands)
    ensures var effects := RunEffects(handlers, commands, args);
      && |effects| == 1
      && (effects[0].Called? <==> |args| > 0 && args[0] in commands && commands[args[0]].name == Str(args[0]))
      && (effects[0] == DefaultCalled <==> |args| == 0)
      && (|args| > 0 ==> (effects[0] == Printed(ErrorLine([Str(UnknownMessage(args[0])), Num(1337)])) <==> !Known(commands, args[0])))
  {
    DispatchIsUnique(handlers, commands, args);
    if |args| > 0 {
      UnknownIsNotInvalid(args[0]);
    }
  }

  /**
   * Error 1338 is printed exactly when the name is registered under a command
   * whose name is not a string, or is a name every `{}` inherits, such as
   * "constructor".
   */
  lemma InvalidUsageCases(handlers: seq<(string, nat)>, commands: map<string, Command>, args: seq<string>)
    requires Registry(handlers, commands) && OwnKeysOnly(commands)
    requires |args| > 0
    ensures RunEffects(handlers, commands, args) == [Printed(ErrorLine([Str(InvalidUsageMessage(args[0])), Num(1338)]))]
      <==> (args[0] in commands && !commands[args[0]].name.Str?) || args[0] in InheritedNames
  {
    var key := args[0];
    if key in commands && commands[key].name == Str(key) {
      SelectedIsNotInvalid(handlers, commands, args);
    } else if !Known(commands, key) {
      RunFallsBack(handlers, commands, args);
      UnknownIsNotInvalid(key);
    } else {
      RunFallsBack(handlers, commands, args);
      if key in commands {
        assert ToStr(commands[key].name) == key;
      }
    }
  }

  /** A dispatched command prints nothing, and its name is an own string key. */
  lemma SelectedIsNotInvalid(handlers: seq<(string, nat)>, commands: map<string, Command>, args: seq<string>)
    requires Registry(handlers, commands) && OwnKeysOnly(commands)
    requires |args| > 0 && args[0] in commands && commands[args[0]].name == Str(args[0])
    ensures RunEffects(handlers, commands, args)[0].Called?
    ensures args[0] !in InheritedNames
  {
    DispatchIsUnique(handlers, commands, args);
  }

  /** When no command takes the arguments, `run` does what its fallback branch does. */
  lemma RunFallsBack(handlers: seq<(string, nat)>, commands: map<string, Command>, args: seq<string>)
    requires Registry(handlers, commands)
    requires |args| > 0 && !(args[0] in commands && commands[args[0]].name == Str(args[0]))
    ensures RunEffects(handlers, commands, args) == Fallback(commands, args)
  {
    DispatchIsUnique(handlers, commands, args);
  }

  /** With nothing registered, `hitch constructor` still finds `_commands.constructor` and reports invalid usage. */
  lemma InheritedNameIsInvalidUsage()
    ensures RunEffects([], map[], ["constructor"]) == [Printed(ErrorLine([Str(InvalidUsageMessage("constructor")), Num(1338)]))]
  {
    assert "constructor" in InheritedNames;
  }

  lemma UnknownIsNotInvalid(key: string)
    ensures ErrorLine([Str(UnknownMessage(key)), Num(1337)]) != ErrorLine([Str(InvalidUsageMessage(key)), Num(1338)])
  {
    RunErrorLines(UnknownMessage(key));
    RunErrorLines(InvalidUsageMessage(key));
    ErrorLinesDiffer(UnknownMessage(key), InvalidUsageMessage(key));
  }

  // ---------------------------------------------------------------------
  // The registry object
  // ---------------------------------------------------------------------

  class Console {
    /** `_defaultHandler`. */
    const defaultHandler: nat
    /** `_handlers`: callbacks by command key, in the order the keys were added. */
    var handlers: seq<(string, nat)>
    /** `_commands`: commands by key. */
    var commands: map<string, Command>
    /** What the handlers and `console.log` were given, in order. */
    var output: seq<Effect>

    ghost predicate Valid()
      reads this
    {
      Registry(handlers, commands) && OwnKeysOnly(commands)
    }

    constructor(defaultHandler: nat)
      ensures Valid()
      ensures this.defaultHandler == defaultHandler
      ensures handlers == [] && commands == map[] && output == []
    {
      this.defaultHandler := defaultHandler;
      handlers := [];
      commands := map[];
      output := [];
    }

    /**
     * `pushCommand(command, callback)`. `None` stands for a callback that is
     * not a function and for a missing command. The `instanceof` guard of the
     * source tests the boolean `!command`, which is never an instance, so no
     * command value is refused by it.
     */
    method PushCommand(command: Option<Command>, callback: Option<nat>) returns (outcome: Outcome)
      requires Valid()
      modifies this`handlers, this`commands
      ensures Valid()
      ensures callback.None? ==> outcome == Threw(CallbackMessage)
      ensures callback.Some? && command.None? ==> outcome == Threw(MissingCommandMessage)
      ensures callback.Some? && command.Some? && Known(old(commands), ToStr(command.value.name)) ==>
        outcome == Threw(RegisteredMessage)
      ensures outcome.Threw? ==> handlers == old(handlers) && commands == old(commands)
      ensures callback.Some? && command.Some? && !Known(old(commands), ToStr(command.value.name)) ==>
        && outcome == Done
        && commands == old(commands)[ToStr(command.value.name) := command.value]
        && handlers == old(handlers) + [(ToStr(command.value.name), callback.value)]
    {
      if callback.None? {
        return Threw(CallbackMessage);
      }
      if command.None? {
        return Threw(MissingCommandMessage);
      }
      var key := ToStr(command.value.name);
      if Known(commands, key) {
        return Threw(RegisteredMessage);
      }
      PutAppends(handlers, key, callback.value);
      commands := commands[key := command.value];
      handlers := Put(handlers, key, callback.value);
      outcome := Done;
      forall k
        ensures HasKey(handlers, k) <==> k in commands
      {
        if HasKey(handlers, k) && k != key {
          assert Get(handlers, k) == Get(old(handlers), k);
        }
        if k in commands && k != key {
          assert HasKey(old(handlers), k);
          assert Get(handlers, k) == Get(old(handlers), k);
        }
      }
    }

    /** `error(...)`: prints the error line. */
    method Error(arguments: seq<Value>)
      modifies this`output
      ensures output == old(output) + [Printed(ErrorLine(arguments))]
    {
      var rest := arguments;
      var errno := Num(0);
      if |rest| > 0 && IsNumber(rest[|rest| - 1]) {
        errno := rest[|rest| - 1];
        rest := rest[..|rest| - 1];
      }
      output := output + [Printed("ERROR (" + ToStr(errno) + ") " + Join(ItemStrings(rest), " "))];
    }

    /** `run()`, with `args` standing for `process.argv` after the first two entries. */
    method Run(args: seq<string>)
      requires Valid()
      modifies this`output
      ensures output == old(output) + RunEffects(handlers, commands, args)
    {
      var dispatched := false;
      var i := 0;
      while i < |handlers|
        invariant 0 <= i <= |handlers|
        invariant output == old(output) + Dispatches(handlers[..i], commands, args)
        invariant dispatched <==> Dispatches(handlers[..i], commands, args) != []
      {
        var (name, callback) := handlers[i];
        DispatchesSnoc(handlers[..i], handlers[i], commands, args);
        TakeOneMore(handlers, i);
        assert HasKey(handlers, name);
        var command := commands[name];
        if Accepts(command, args) {
          Regroup(old(output), Dispatches(handlers[..i], commands, args), [Called(callback, args[1..])]);
          output := output + [Called(callback, args[1..])];
          dispatched := true;
        }
        i := i + 1;
      }
      assert handlers[..i] == handlers;
      if !dispatched {
        if |args| == 0 {
          output := output + [DefaultCalled];
        } else if !Known(commands, args[0]) {
          Error([Str(UnknownMessage(args[0])), Num(1337)]);
        } else {
          Error([Str(InvalidUsageMessage(args[0])), Num(1338)]);
        }
      }
    }
  }

  lemma {:induction false} DispatchesSnoc(front: seq<(string, nat)>, entry: (string, nat), commands: map<string, Command>, args: seq<string>)
    ensures Dispatches(front + [entry], commands, args)
      == Dispatches(front, commands, args)
         + (if entry.0 in commands && Accepts(commands[entry.0], args) then [Called(entry.1, args[1..])] else [])
    decreases |front|
  {
    if front != [] {
      assert (front + [entry])[1..] == front[1..] + [entry];
      DispatchesSnoc(front[1..], entry, commands, args);
    }
  }
}
