/** runtimedocs/core.py: the `runtimedocs(...)` decorator factory. Its
    configuration fixes the parser tables and the logger policy; `decorate`
    attaches handlers to a named logger once, and every call of the wrapper
    logs a fixed sequence of lines around one call of the original callable,
    whose result or exception it passes through unchanged. */
module Core {
  import opened Values
  import opened Records
  import opened Helpers
  import opened Logging
  import opened Text

  /** What the wrapped callable did: returned a value or raised. */
  datatype Outcome = Ok(value: Value) | Err(exn: Exn)

  /** The callable being decorated: `__name__`, `__module__`, the rendering
      of `inspect.signature(func)`, and its behaviour on positional and
      keyword arguments (keyword arguments in call order). */
  datatype Callee = Callee(
    name: string,
    moduleName: string,
    signature: string,
    body: (seq<Value>, seq<(string, Value)>) -> Outcome)

  /** An entry of `extra_logger_handlers`: a path string or a handler object. */
  datatype HandlerSpec = PathSpec(path: string) | HandlerObject(handler: Handler)

  /** The arguments of `runtimedocs(...)`. `None` stands for Python's `None`;
      `customLoggerName` stands for a `str` argument, or `None` for any
      non-string, which the source treats alike. `commonParsers` is the
      chain of tables behind `common_types_parsers_dict`. */
  datatype Config = Config(
    forceEnable: bool,
    verbosity: int,
    timingInfo: bool,
    defaultParser: (Value, int) -> Record,
    maxStringify: int,
    prefixModuleName: bool,
    customLoggerName: Option<string>,
    extraHandlers: Option<seq<HandlerSpec>>,
    commonParsers: seq<ParserMap>,
    customParsers: Option<ParserMap>)

  /** `runtimedocs()` with every argument left at its default; `plugin` is
      the optional plugin's table, empty when the plugin is not installed. */
  function DefaultConfig(plugin: ParserMap): Config
  {
    Config(false, 0, true, DefaultTypeParser, 1000, true, None, None, CommonTypesParsers(plugin), None)
  }

  // ---------------------------------------------------------------------
  // Parser resolution: parse_arg

  /** `custom_types_parsers_dict if custom_types_parsers_dict else {}`. */
  function CustomParsers(c: Config): ParserMap
  {
    if c.customParsers.Some? then c.customParsers.value else map[]
  }

  /** `ChainMap(custom_types_parsers_dict, common_types_parsers_dict)`. */
  function TypesParsers(c: Config): seq<ParserMap>
  {
    [CustomParsers(c)] + c.commonParsers
  }

  /** `parse_arg(arg)`: the parser registered for the value's type tag, or
      the default parser bound to `max_stringify`. */
  function ParseArg(c: Config, arg: Value): Record
  {
    match ChainGet(TypesParsers(c), GetType(arg))
    case Some(p) => p(arg)
    case None => c.defaultParser(arg, c.maxStringify)
  }

  /** The three precedence tiers: a user override wins; otherwise the
      first common table (plugin before native) that knows the tag; and
      only when no table knows it, the default parser with `max_stringify`. */
  lemma ParseArgPrecedence(c: Config, arg: Value)
    ensures GetType(arg) in CustomParsers(c) ==>
              ParseArg(c, arg) == CustomParsers(c)[GetType(arg)](arg)
    ensures GetType(arg) !in CustomParsers(c) ==>
              forall i :: 0 <= i < |c.commonParsers| && GetType(arg) in c.commonParsers[i]
                          && (forall j :: 0 <= j < i ==> GetType(arg) !in c.commonParsers[j]) ==>
                ParseArg(c, arg) == c.commonParsers[i][GetType(arg)](arg)
    ensures GetType(arg) !in CustomParsers(c)
            && (forall i :: 0 <= i < |c.commonParsers| ==> GetType(arg) !in c.commonParsers[i]) ==>
              ParseArg(c, arg) == c.defaultParser(arg, c.maxStringify)
  {
    var t, chain := GetType(arg), TypesParsers(c);
    assert forall k :: 1 <= k < |chain| ==> chain[k] == c.commonParsers[k - 1];
    if t in CustomParsers(c) {
      ChainGetFirst(chain, t, 0);
    } else {
      forall i | 0 <= i < |c.commonParsers| && t in c.commonParsers[i]
                 && (forall j :: 0 <= j < i ==> t !in c.commonParsers[j])
        ensures ParseArg(c, arg) == c.commonParsers[i][t](arg)
      {
        ChainGetFirst(chain, t, i + 1);
      }
      if forall i :: 0 <= i < |c.commonParsers| ==> t !in c.commonParsers[i] {
        assert forall k :: 0 <= k < |chain| ==> t !in chain[k];
        assert ChainGet(chain, t) == None;
      }
    }
  }

  /** With the default configuration and no plugin, a value whose tag is not
      one of the three native tags gets the default record with a 1000
      character clip, and a class gets the class record. */
  lemma DefaultConfigParsing(arg: Value)
    ensures GetType(arg) !in {TypeTag, BuiltinTag, FunctionTag} ==>
              ParseArg(DefaultConfig(map[]), arg) == DefaultTypeParser(arg, 1000)
    ensures GetType(arg) == TypeTag ==> ParseArg(DefaultConfig(map[]), arg) == ClassParser(arg)
    ensures GetType(arg) in {BuiltinTag, FunctionTag} ==> ParseArg(DefaultConfig(map[]), arg) == FunctionParser(arg)
  {
    var m := NativeTypesParsers();
    if GetType(arg) in m {
      DefaultConfigNative(arg);
    } else {
      DefaultConfigOther(arg);
    }
  }

  /** A native tag under the default configuration goes to its native parser. */
  lemma DefaultConfigNative(arg: Value)
    requires GetType(arg) in NativeTypesParsers()
    ensures ParseArg(DefaultConfig(map[]), arg) == NativeTypesParsers()[GetType(arg)](arg)
  {
    ChainGetFirst(TypesParsers(DefaultConfig(map[])), GetType(arg), 2);
  }

  /** Any other tag under the default configuration goes to the default
      parser with its 1000 character clip. */
  lemma DefaultConfigOther(arg: Value)
    requires GetType(arg) !in NativeTypesParsers()
    ensures ParseArg(DefaultConfig(map[]), arg) == DefaultTypeParser(arg, 1000)
  {
    var chain := TypesParsers(DefaultConfig(map[]));
    assert forall k :: 0 <= k < |chain| ==> GetType(arg) !in chain[k];
  }

  /** `runtimedocs()` with its defaults: only the environment bypasses it;
      the logger is `runtimedocs.core.<name>`; lines carry a timestamp; and
      a decoration builds no console handler and exactly one handler, the
      log file `<logger name>.runtimedocs.log` at level INFO. */
  lemma DefaultDecoration(plugin: ParserMap, env: Option<string>, func: Callee, cands: seq<Handler>)
    ensures Bypass(DefaultConfig(plugin), env) <==> IsDisabled(env)
    ensures LoggerName(DefaultConfig(plugin), func) == CoreModuleName + "." + func.name
    ensures LineFormatter(DefaultConfig(plugin)) == Timestamped
    ensures DecorationHandlers(DefaultConfig(plugin), LoggerName(DefaultConfig(plugin), func), cands) ==>
              |cands| == 1
              && cands[0].kind == LogFile(CoreModuleName + "." + func.name + ".runtimedocs.log")
              && cands[0].level == INFO && cands[0].formatter == Some(Timestamped)
  {
  }

  // ---------------------------------------------------------------------
  // print_arg

  /** `'-' * 5`, written after every parsed value. */
  const Separator: string := Repeat('-', 5)

  /** `'\t {key} = {val}'`. */
  function FieldLine(f: Field): LogLine
  {
    InfoLine("\t " + f.key + " = " + Render(f.val))
  }

  function FieldLines(rec: Record): seq<LogLine>
  {
    if |rec| == 0 then [] else FieldLines(rec[..|rec| - 1]) + [FieldLine(rec[|rec| - 1])]
  }

  /** What `print_arg` emits for a parsed record. */
  function ArgLines(rec: Record): seq<LogLine>
  {
    FieldLines(rec) + [InfoLine(Separator)]
  }

  lemma {:induction false} FieldLinesAt(rec: Record)
    ensures |FieldLines(rec)| == |rec|
    ensures forall i :: 0 <= i < |rec| ==> FieldLines(rec)[i] == FieldLine(rec[i])
  {
    if |rec| > 0 {
      FieldLinesAt(rec[..|rec| - 1]);
    }
  }

  /** One line per field, in record order, then exactly one separator. */
  lemma ArgLinesShape(rec: Record)
    ensures |ArgLines(rec)| == |rec| + 1
    ensures forall i :: 0 <= i < |rec| ==> ArgLines(rec)[i] == FieldLine(rec[i])
    ensures ArgLines(rec)[|rec|] == InfoLine(Separator)
  {
    FieldLinesAt(rec);
  }

  /** `print_arg(arg, logger)`. */
  method PrintArg(c: Config, arg: Value, logger: Logger)
    modifies logger`lines
    ensures logger.lines == old(logger.lines) + ArgLines(ParseArg(c, arg))
  {
    var parsed := ParseArg(c, arg);
    PrintFields(parsed, logger);
    logger.Info(Separator);
  }

  /** The loop of `print_arg`: one line per field, in record order. */
  method PrintFields(parsed: Record, logger: Logger)
    modifies logger`lines
    ensures logger.lines == old(logger.lines) + FieldLines(parsed)
  {
    var i := 0;
    while i < |parsed|
      invariant 0 <= i <= |parsed|
      invariant logger.lines == old(logger.lines) + FieldLines(parsed[..i])
    {
      logger.Info("\t " + parsed[i].key + " = " + Render(parsed[i].val));
      assert parsed[..i + 1][..i] == parsed[..i];
      i := i + 1;
    }
    assert parsed[..i] == parsed;
  }


  // ---------------------------------------------------------------------
  // decorate: bypass, logger name, handlers

  /** `bool(os.environ.get('DISABLE_RUNTIMEDOCS', False))`: any non-empty
      value disables, "0" and "False" included. */
  function IsDisabled(env: Option<string>): bool
  {
    env.Some? && env.value != ""
  }

  /** Whether `decorate` hands back the original callable. */
  function Bypass(c: Config, env: Option<string>): bool
  {
    IsDisabled(env) && !c.forceEnable
  }

  /** Every non-empty setting disables, whatever its text says. */
  lemma DisabledByAnyText(c: Config, s: string)
    requires s != ""
    ensures Bypass(c, Some(s)) <==> !c.forceEnable
    ensures !Bypass(c, None) && !Bypass(c, Some(""))
  {
  }

  /** The value of `__name__` inside runtimedocs/core.py, which is what the
      source prefixes to logger names. */
  const CoreModuleName: string := "runtimedocs.core"

  function HasNameOverride(c: Config): bool
  {
    c.customLoggerName.Some? && c.customLoggerName.value != ""
  }

  /** The logger name chosen by `decorate`. */
  function LoggerName(c: Config, func: Callee): string
  {
    if !HasNameOverride(c) then
      if c.prefixModuleName then CoreModuleName + "." + func.name else func.name
    else c.customLoggerName.value
  }

  /** A non-empty override is used as-is, whatever the prefix flag and the
      callee; otherwise the name is `runtimedocs.core.<name>` with the
      prefix flag and `<name>` without it. */
  lemma LoggerNamePrecedence(c: Config, func: Callee, other: Callee, prefix: bool)
    ensures HasNameOverride(c) ==>
              LoggerName(c, func) == c.customLoggerName.value
              && LoggerName(c.(prefixModuleName := prefix), other) == LoggerName(c, func)
    ensures !HasNameOverride(c) && c.prefixModuleName ==>
              LoggerName(c, func) == CoreModuleName + "." + func.name
    ensures !HasNameOverride(c) && !c.prefixModuleName ==> LoggerName(c, func) == func.name
  {
  }

  /** The prefix is the decorator's own module, not the callee's: callees
      of the same name from different modules share one logger. */
  lemma LoggerNameIgnoresCalleeModule(c: Config, f: Callee, g: Callee)
    requires f.name == g.name
    ensures LoggerName(c, f) == LoggerName(c, g)
  {
  }

  /** `'{}.runtimedocs.log'.format(logger_name)`. */
  function LogFilePath(loggerName: string): string
  {
    loggerName + ".runtimedocs.log"
  }

  function LineFormatter(c: Config): Formatter
  {
    if c.timingInfo then Timestamped else Plain
  }

  /** `extra_logger_handlers if extra_logger_handlers else []`. */
  function Extras(c: Config): seq<HandlerSpec>
  {
    if c.extraHandlers.Some? then c.extraHandlers.value else []
  }

  /** The number of console handlers one decoration builds: one exactly
      when `verbosity > 0`. */
  function ConsoleCount(c: Config): nat
  {
    if c.verbosity > 0 then 1 else 0
  }

  /** Whether position `i` of a decoration's handler list holds a handler
      the decoration builds itself (the console handler, the log-file
      handler, or the file handler of a path entry) rather than a handler
      object of the caller. */
  predicate CreatedSlot(c: Config, i: int)
  {
    (0 <= i <= ConsoleCount(c))
    || (ConsoleCount(c) < i <= ConsoleCount(c) + |Extras(c)| && Extras(c)[i - ConsoleCount(c) - 1].PathSpec?)
  }

  /** The handlers of the first `n` extra entries follow the console and
      log-file handlers: a path becomes a file handler at level INFO with the
      shared format, a handler object is that very object. */
  predicate ExtrasAttached(c: Config, cands: seq<Handler>, n: nat)
    requires n <= |Extras(c)| && |cands| == ConsoleCount(c) + 1 + n
  {
    forall i :: 0 <= i < n ==>
      match Extras(c)[i]
      case PathSpec(p) =>
        var h := cands[ConsoleCount(c) + 1 + i];
        h.kind == LogFile(p) && h.level == INFO && h.formatter == Some(LineFormatter(c))
      case HandlerObject(obj) => cands[ConsoleCount(c) + 1 + i] == obj
  }

  /** A handler the decoration builds occurs once among its handlers. */
  predicate CreatedDistinct(c: Config, cands: seq<Handler>)
  {
    forall i, j :: 0 <= i < |cands| && 0 <= j < |cands| && i != j && CreatedSlot(c, i) ==> cands[i] != cands[j]
  }

  /** `cands` is what the first `n` steps of a decoration hand to
      `addHandler`, in order: the console handler when `verbosity > 0`, the
      log file `<logger name>.runtimedocs.log` at level INFO, then one
      handler per extra entry. */
  predicate AttachedUpTo(c: Config, loggerName: string, cands: seq<Handler>, n: nat)
  {
    var s, fmt := ConsoleCount(c), Some(LineFormatter(c));
    && n <= |Extras(c)|
    && |cands| == s + 1 + n
    && (s == 1 ==> cands[0].kind == Console && cands[0].level == 0 && cands[0].formatter == fmt)
    && cands[s].kind == LogFile(LogFilePath(loggerName)) && cands[s].level == INFO && cands[s].formatter == fmt
    && ExtrasAttached(c, cands, n)
    && CreatedDistinct(c, cands)
  }

  /** The handlers one whole decoration hands to `addHandler`. */
  predicate DecorationHandlers(c: Config, loggerName: string, cands: seq<Handler>)
  {
    AttachedUpTo(c, loggerName, cands, |Extras(c)|)
  }

  /** No handler object appears twice among the extra entries. */
  predicate ExtraObjectsDistinct(c: Config)
  {
    forall i, j :: 0 <= i < |Extras(c)| && 0 <= j < |Extras(c)| && i != j
                   && Extras(c)[i].HandlerObject? && Extras(c)[j].HandlerObject? ==>
                     Extras(c)[i].handler != Extras(c)[j].handler
  }

  /** None of the extra handler objects is already held in `hs`. */
  predicate NoneAttached(c: Config, hs: seq<Handler>)
  {
    forall i :: 0 <= i < |Extras(c)| && Extras(c)[i].HandlerObject? ==> Extras(c)[i].handler !in hs
  }

  /** With distinct extra objects, a decoration's handlers are distinct. */
  lemma DecorationHandlersDistinct(c: Config, loggerName: string, cands: seq<Handler>)
    requires DecorationHandlers(c, loggerName, cands) && ExtraObjectsDistinct(c)
    ensures Distinct(cands)
  {
    var s := ConsoleCount(c);
    forall i, j | 0 <= i < |cands| && 0 <= j < |cands| && i != j ensures cands[i] != cands[j] {
      if !CreatedSlot(c, i) && !CreatedSlot(c, j) {
        assert Extras(c)[i - s - 1].HandlerObject? && Extras(c)[j - s - 1].HandlerObject?;
        assert cands[i] == Extras(c)[i - s - 1].handler;
        assert cands[j] == Extras(c)[j - s - 1].handler;
      }
    }
  }

  /** One decoration adds `(verbosity > 0 ? 1 : 0) + 1 + |extras|` handlers,
      all of them after the ones already held, when its extra handler objects
      are distinct and none is attached yet (its own handlers are new
      objects, so they never are). A path entry and a handler object each
      add exactly one handler. */
  lemma HandlerCount(c: Config, loggerName: string, cands: seq<Handler>, hs: seq<Handler>)
    requires DecorationHandlers(c, loggerName, cands)
    requires ExtraObjectsDistinct(c) && NoneAttached(c, hs)
    requires forall i :: 0 <= i < |cands| && CreatedSlot(c, i) ==> cands[i] !in hs
    ensures AddAll(hs, cands) == hs + cands
    ensures |AddAll(hs, cands)| == |hs| + ConsoleCount(c) + 1 + |Extras(c)|
  {
    DecorationHandlersDistinct(c, loggerName, cands);
    AddAllMissing(hs, cands);
    var s := ConsoleCount(c);
    forall x | x in cands ensures x !in hs {
      var i :| 0 <= i < |cands| && cands[i] == x;
      if !CreatedSlot(c, i) {
        assert x == Extras(c)[i - s - 1].handler;
      }
    }
    MissingNone(cands, hs);
  }

  /** One step of the extras loop: the handler for entry `i` extends the
      attached prefix, given that a built handler is new and a handler
      object differs from every handler built so far. */
  lemma AttachStep(c: Config, loggerName: string, cands: seq<Handler>, i: nat, h: Handler)
    requires AttachedUpTo(c, loggerName, cands, i) && i < |Extras(c)|
    requires Extras(c)[i].PathSpec? ==>
               h.kind == LogFile(Extras(c)[i].path) && h.level == INFO
               && h.formatter == Some(LineFormatter(c)) && h !in cands
    requires Extras(c)[i].HandlerObject? ==>
               h == Extras(c)[i].handler
               && forall k :: 0 <= k < |cands| && CreatedSlot(c, k) ==> cands[k] != h
    ensures AttachedUpTo(c, loggerName, cands + [h], i + 1)
  {
    var t, s := cands + [h], ConsoleCount(c);
    assert forall k :: 0 <= k < |cands| ==> t[k] == cands[k];
    forall j | 0 <= j < i + 1
      ensures match Extras(c)[j]
              case PathSpec(p) =>
                t[s + 1 + j].kind == LogFile(p) && t[s + 1 + j].level == INFO
                && t[s + 1 + j].formatter == Some(LineFormatter(c))
              case HandlerObject(obj) => t[s + 1 + j] == obj
    {
      if j < i {
        assert t[s + 1 + j] == cands[s + 1 + j];
      }
    }
    assert ExtrasAttached(c, t, i + 1);
    forall a, b | 0 <= a < |t| && 0 <= b < |t| && a != b && CreatedSlot(c, a) ensures t[a] != t[b] {
      if a < |cands| && b < |cands| {
        assert t[a] == cands[a] && t[b] == cands[b];
      } else if a < |cands| {
        assert t[b] == h && t[a] == cands[a];
      } else {
        assert t[a] == h && t[b] == cands[b];
      }
    }
  }

  /** The handlers `decorate` always builds: the console handler when
      `verbosity > 0`, then the log-file handler, each handed to
      `addHandler`. */
  method AttachOwn(c: Config, loggerName: string, logger: Logger) returns (cands: seq<Handler>)
    modifies logger`handlers
    ensures AttachedUpTo(c, loggerName, cands, 0)
    ensures forall i :: 0 <= i < |cands| ==> fresh(cands[i])
    ensures logger.handlers == AddAll(old(logger.handlers), cands)
  {
    var fmt := Some(LineFormatter(c));
    cands := [];
    if c.verbosity > 0 {
      var console := new Handler(Console, 0, fmt);
      logger.AddHandler(console);
      cands := [console];
      assert cands[..0] == [];
    }
    assert logger.handlers == AddAll(old(logger.handlers), cands);
    var file := new Handler(LogFile(LogFilePath(loggerName)), INFO, fmt);
    logger.AddHandler(file);
    assert (cands + [file])[..|cands|] == cands;
    assert logger.handlers == AddAll(old(logger.handlers), cands + [file]);
    cands := cands + [file];
  }

  /** The handler for extra entry `i`, handed to `addHandler`: a new file
      handler at level INFO with the shared format for a path, the object
      itself otherwise. */
  method AttachExtra(c: Config, loggerName: string, logger: Logger, cands: seq<Handler>, i: nat)
    returns (h: Handler)
    requires i < |Extras(c)| && AttachedUpTo(c, loggerName, cands, i)
    requires Extras(c)[i].HandlerObject? ==>
               forall k :: 0 <= k < |cands| && CreatedSlot(c, k) ==> cands[k] != Extras(c)[i].handler
    modifies logger`handlers
    ensures AttachedUpTo(c, loggerName, cands + [h], i + 1)
    ensures Extras(c)[i].PathSpec? ==> fresh(h)
    ensures logger.handlers == AddOnce(old(logger.handlers), h)
  {
    match Extras(c)[i] {
      case PathSpec(p) =>
        h := new Handler(LogFile(p), INFO, Some(LineFormatter(c)));
      case HandlerObject(obj) =>
        h := obj;
    }
    AttachStep(c, loggerName, cands, i, h);
    logger.AddHandler(h);
  }

  /** The handler attachment of `decorate`: the handlers it always builds,
      then a file handler per path entry and each handler object as it is,
      handed to `addHandler` in that order. */
  method AttachHandlers(c: Config, loggerName: string, logger: Logger) returns (cands: seq<Handler>)
    modifies logger`handlers
    ensures DecorationHandlers(c, loggerName, cands)
    ensures forall i :: 0 <= i < |cands| && CreatedSlot(c, i) ==> fresh(cands[i])
    ensures logger.handlers == AddAll(old(logger.handlers), cands)
    ensures ExtraObjectsDistinct(c) && NoneAttached(c, old(logger.handlers)) ==>
              logger.handlers == old(logger.handlers) + cands
              && |logger.handlers| == |old(logger.handlers)| + ConsoleCount(c) + 1 + |Extras(c)|
  {
    ghost var prior := logger.handlers;
    cands := AttachOwn(c, loggerName, logger);
    var extras := Extras(c);
    var i := 0;
    while i < |extras|
      invariant 0 <= i <= |extras|
      invariant AttachedUpTo(c, loggerName, cands, i)
      invariant forall k :: 0 <= k < |cands| && CreatedSlot(c, k) ==> fresh(cands[k])
      invariant logger.handlers == AddAll(old(logger.handlers), cands)
    {
      var h := AttachExtra(c, loggerName, logger, cands, i);
      assert (cands + [h])[..|cands|] == cands;
      cands := cands + [h];
      i := i + 1;
    }
    if ExtraObjectsDistinct(c) && NoneAttached(c, prior) {
      HandlerCount(c, loggerName, cands, prior);
    }
  }

  // ---------------------------------------------------------------------
  // The per-call protocol of `wrapper`

  const Banner: string := Repeat('#', 100)
  const Rule: string := Repeat('-', 100)
  const MultiOutputBanner: string := "returned value is a tuple" + " and could be a multi output return statement:"
  const SingleOutputBanner: string := "single output return statement:"

  /** The called-signature parts: each positional argument's type tag, then
      `name=tag` for each keyword argument, in call order. */
  function SignatureParts(args: seq<Value>, kwargs: seq<(string, Value)>): (parts: seq<string>)
  {
    seq(|args|, i requires 0 <= i < |args| => GetType(args[i]))
    + seq(|kwargs|, i requires 0 <= i < |kwargs| => kwargs[i].0 + "=" + GetType(kwargs[i].1))
  }

  /** `', '.join(args_types + ['{}={}'.format(k, v) for k, v in kwargs_types])`. */
  function CalledSignature(args: seq<Value>, kwargs: seq<(string, Value)>): string
  {
    Join(SignatureParts(args, kwargs), ", ")
  }

  /** The called signature lists the positional tags first, in order, each
      followed by ", " when more parts come. */
  lemma CalledSignaturePositional(a: Value, args: seq<Value>, kwargs: seq<(string, Value)>)
    requires |args| + |kwargs| > 0
    ensures CalledSignature([a] + args, kwargs) == GetType(a) + ", " + CalledSignature(args, kwargs)
  {
    assert SignatureParts([a] + args, kwargs) == [GetType(a)] + SignatureParts(args, kwargs);
    JoinCons(GetType(a), SignatureParts(args, kwargs), ", ");
  }

  /** After the positional tags, each keyword argument renders as
      `name=tag`, in order, separated by ", ". */
  lemma CalledSignatureKeyword(k: string, v: Value, kwargs: seq<(string, Value)>)
    requires |kwargs| > 0
    ensures CalledSignature([], [(k, v)] + kwargs) == k + "=" + GetType(v) + ", " + CalledSignature([], kwargs)
  {
    assert SignatureParts([], [(k, v)] + kwargs) == [k + "=" + GetType(v)] + SignatureParts([], kwargs);
    JoinCons(k + "=" + GetType(v), SignatureParts([], kwargs), ", ");
  }

  /** The shortest cases: no arguments gives "", one positional argument
      gives its tag, one keyword argument gives `name=tag`. */
  lemma CalledSignatureSingle(a: Value, k: string, v: Value)
    ensures CalledSignature([], []) == ""
    ensures CalledSignature([a], []) == GetType(a)
    ensures CalledSignature([], [(k, v)]) == k + "=" + GetType(v)
  {
  }

  /** Its length is that of the parts plus two characters per separator. */
  lemma CalledSignatureLength(args: seq<Value>, kwargs: seq<(string, Value)>)
    requires |args| + |kwargs| > 0
    ensures |CalledSignature(args, kwargs)|
            == TotalLength(SignatureParts(args, kwargs)) + 2 * (|args| + |kwargs| - 1)
  {
    JoinLength(SignatureParts(args, kwargs), ", ");
  }

  function IndexLabel(i: nat): string
  {
    "\t#" + NatToString(i) + ":"
  }

  /** `for i, el in enumerate(vals)`: the index label, then `print_arg`. */
  function IndexedLines(c: Config, vals: seq<Value>): seq<LogLine>
  {
    if |vals| == 0 then []
    else IndexedLines(c, vals[..|vals| - 1])
         + [InfoLine(IndexLabel(|vals| - 1))] + ArgLines(ParseArg(c, vals[|vals| - 1]))
  }

  /** `for i, (arg_name, arg) in enumerate(kwargs.items())`. */
  function KeywordLines(c: Config, kwargs: seq<(string, Value)>): seq<LogLine>
  {
    if |kwargs| == 0 then []
    else KeywordLines(c, kwargs[..|kwargs| - 1])
         + [InfoLine("\t" + kwargs[|kwargs| - 1].0 + ":")] + ArgLines(ParseArg(c, kwargs[|kwargs| - 1].1))
  }

  lemma AppendAssoc<T>(a: seq<T>, b: seq<T>, c: seq<T>)
    ensures (a + b) + c == a + (b + c)
  {
  }

  lemma IndexedLinesSnoc(c: Config, vals: seq<Value>, i: nat)
    requires i < |vals|
    ensures IndexedLines(c, vals[..i + 1])
            == IndexedLines(c, vals[..i]) + ([InfoLine(IndexLabel(i))] + ArgLines(ParseArg(c, vals[i])))
  {
    assert vals[..i + 1][..i] == vals[..i];
  }

  lemma KeywordLinesSnoc(c: Config, kwargs: seq<(string, Value)>, k: nat)
    requires k < |kwargs|
    ensures KeywordLines(c, kwargs[..k + 1])
            == KeywordLines(c, kwargs[..k]) + ([InfoLine("\t" + kwargs[k].0 + ":")] + ArgLines(ParseArg(c, kwargs[k].1)))
  {
    assert kwargs[..k + 1][..k] == kwargs[..k];
  }

  /** Step 1, announce: banner, callee and its module, caller, host. */
  function AnnounceLines(func: Callee, caller: string, hostname: string): seq<LogLine>
  {
    [ InfoLine(Banner),
      InfoLine("calling [" + func.name + "] declared inside module [" + func.moduleName + "]"),
      InfoLine("caller name: [" + caller + "]"),
      InfoLine("ran inside: hostname=[" + hostname + "]"),
      InfoLine(Rule) ]
  }

  /** Step 2, declare: the declared and the called signature. */
  function DeclareLines(func: Callee, args: seq<Value>, kwargs: seq<(string, Value)>): seq<LogLine>
  {
    [ InfoLine("declared signature = " + func.name + func.signature),
      InfoLine("called   signature = " + func.name + "(" + CalledSignature(args, kwargs) + ")"),
      InfoLine(Rule) ]
  }

  /** Step 3, inspect: every positional, then every keyword argument. */
  function InspectLines(c: Config, args: seq<Value>, kwargs: seq<(string, Value)>): seq<LogLine>
  {
    [InfoLine("Number of positional paramters: " + NatToString(|args|))]
    + IndexedLines(c, args)
    + [InfoLine("Number of key word paramters: " + NatToString(|kwargs|))]
    + KeywordLines(c, kwargs)
    + [InfoLine(Rule)]
  }

  /** The success report that opens step 4 after a normal return. */
  function ReportLine(func: Callee, elapsed: string): string
  {
    "[" + func.name + "] ran successfully in [" + elapsed + "]seconds and its returned value has these specs:"
  }

  /** Step 4's two branches: the success report, with a multi-output
      section for a tuple and a single-output one otherwise; or, for an
      `Exception`, the error banner and the traceback. A `BaseException`
      that is not an `Exception` escapes `except Exception` unlogged. */
  function OutcomeLines(c: Config, func: Callee, out: Outcome, elapsed: string): seq<LogLine>
  {
    match out
    case Ok(v) =>
      [InfoLine(ReportLine(func, elapsed))]
      + (if v.items.Some? then [InfoLine(MultiOutputBanner)] + IndexedLines(c, v.items.value)
         else [InfoLine(SingleOutputBanner)] + ArgLines(ParseArg(c, v)))
    case Err(e) =>
      if e.isException then
        [ ErrorLine("!!!EXCEPTION!!! [" + func.name + "] ran into an exception before exiting:"),
          ErrorLine("\n"),
          TraceLine(e) ]
      else []
  }

  /** Everything one call of the wrapper logs, in protocol order. */
  function CallLines(c: Config, func: Callee, args: seq<Value>, kwargs: seq<(string, Value)>,
                     caller: string, hostname: string, elapsed: string): seq<LogLine>
  {
    AnnounceLines(func, caller, hostname)
    + DeclareLines(func, args, kwargs)
    + InspectLines(c, args, kwargs)
    + OutcomeLines(c, func, func.body(args, kwargs), elapsed)
  }

  /** Lines that `print_arg` and the index labels produce start with a tab
      or a dash, so they are never a banner. */
  ghost predicate Detail(l: LogLine)
  {
    l.InfoLine? && |l.msg| > 0 && (l.msg[0] == '\t' || l.msg[0] == '-')
  }

  lemma ArgLinesDetail(rec: Record)
    ensures forall l :: l in ArgLines(rec) ==> Detail(l)
  {
    ArgLinesShape(rec);
    forall l | l in ArgLines(rec) ensures Detail(l) {
      var i :| 0 <= i < |ArgLines(rec)| && ArgLines(rec)[i] == l;
      if i < |rec| {
        assert l == FieldLine(rec[i]);
        assert l.msg[0] == '\t';
      }
    }
  }

  lemma {:induction false} IndexedLinesDetail(c: Config, vals: seq<Value>)
    ensures forall l :: l in IndexedLines(c, vals) ==> Detail(l)
  {
    if |vals| > 0 {
      IndexedLinesDetail(c, vals[..|vals| - 1]);
      ArgLinesDetail(ParseArg(c, vals[|vals| - 1]));
      assert IndexLabel(|vals| - 1)[0] == '\t';
    }
  }

  /** A successful call announces a multi-output return exactly when the
      result is a tuple, and a single-output return exactly when it is not. */
  lemma MultiOutputIffTuple(c: Config, func: Callee, v: Value, elapsed: string)
    ensures InfoLine(MultiOutputBanner) in OutcomeLines(c, func, Ok(v), elapsed) <==> v.items.Some?
    ensures InfoLine(SingleOutputBanner) in OutcomeLines(c, func, Ok(v), elapsed) <==> v.items.None?
  {
    if v.items.Some? {
      TupleOutcomeBanners(c, func, v, elapsed);
    } else {
      SingleOutcomeBanners(c, func, v, elapsed);
    }
  }

  /** The tuple half of `MultiOutputIffTuple`. */
  lemma TupleOutcomeBanners(c: Config, func: Callee, v: Value, elapsed: string)
    requires v.items.Some?
    ensures InfoLine(MultiOutputBanner) in OutcomeLines(c, func, Ok(v), elapsed)
    ensures InfoLine(SingleOutputBanner) !in OutcomeLines(c, func, Ok(v), elapsed)
  {
    var report, tail := InfoLine(ReportLine(func, elapsed)), IndexedLines(c, v.items.value);
    assert report.msg[0] == '[';
    assert SingleOutputBanner[0] == 's';
    IndexedLinesDetail(c, v.items.value);
    assert !Detail(InfoLine(SingleOutputBanner));
    assert InfoLine(SingleOutputBanner) !in tail;
    assert OutcomeLines(c, func, Ok(v), elapsed) == [report, InfoLine(MultiOutputBanner)] + tail;
  }

  /** The single-value half of `MultiOutputIffTuple`. */
  lemma SingleOutcomeBanners(c: Config, func: Callee, v: Value, elapsed: string)
    requires v.items.None?
    ensures InfoLine(SingleOutputBanner) in OutcomeLines(c, func, Ok(v), elapsed)
    ensures InfoLine(MultiOutputBanner) !in OutcomeLines(c, func, Ok(v), elapsed)
  {
    var rec := ParseArg(c, v);
    var report, tail := InfoLine(ReportLine(func, elapsed)), ArgLines(rec);
    assert report.msg[0] == '[';
    assert MultiOutputBanner[0] == 'r';
    ArgLinesDetail(rec);
    assert !Detail(InfoLine(MultiOutputBanner));
    assert InfoLine(MultiOutputBanner) !in tail;
    assert OutcomeLines(c, func, Ok(v), elapsed) == [report, InfoLine(SingleOutputBanner)] + tail;
  }

  /** A separator closes each inspected value: there are exactly as many as
      values. */
  lemma {:induction false} IndexedLinesSeparators(c: Config, vals: seq<Value>)
    ensures multiset(IndexedLines(c, vals))[InfoLine(Separator)] == |vals|
  {
    if |vals| > 0 {
      IndexedLinesSeparators(c, vals[..|vals| - 1]);
      NoSeparatorInFields(ParseArg(c, vals[|vals| - 1]));
      assert IndexLabel(|vals| - 1)[0] == '\t';
    }
  }

  /** No field line is a separator: every field line starts with a tab. */
  lemma NoSeparatorInFields(rec: Record)
    ensures InfoLine(Separator) !in FieldLines(rec)
  {
    FieldLinesAt(rec);
    forall i | 0 <= i < |rec| ensures FieldLines(rec)[i] != InfoLine(Separator) {
      assert FieldLines(rec)[i].msg[0] == '\t';
    }
  }

  /** A failing call logs no success report: only error lines, ending with
      the exception and its traceback when it is an `Exception`, and nothing
      at all otherwise. */
  lemma FailureLogsOnlyErrors(c: Config, func: Callee, e: Exn, elapsed: string)
    ensures forall l :: l in OutcomeLines(c, func, Err(e), elapsed) ==> !l.InfoLine?
    ensures e.isException <==> TraceLine(e) in OutcomeLines(c, func, Err(e), elapsed)
    ensures e.isException ==> |OutcomeLines(c, func, Err(e), elapsed)| == 3
  {
  }

  /** The called-signature line is the seventh line of every call. */
  lemma CalledSignatureLine(c: Config, func: Callee, args: seq<Value>, kwargs: seq<(string, Value)>,
                            caller: string, hostname: string, elapsed: string)
    ensures CallLines(c, func, args, kwargs, caller, hostname, elapsed)[6]
            == InfoLine("called   signature = " + func.name + "(" + CalledSignature(args, kwargs) + ")")
  {
  }

  // ---------------------------------------------------------------------
  // wrapper and decorate

  /** The wrapper's loop over positional arguments, also used for the
      elements of a returned tuple: index label, then `print_arg`. */
  method LogIndexed(c: Config, vals: seq<Value>, logger: Logger)
    modifies logger`lines
    ensures logger.lines == old(logger.lines) + IndexedLines(c, vals)
  {
    var i := 0;
    while i < |vals|
      invariant 0 <= i <= |vals|
      invariant logger.lines == old(logger.lines) + IndexedLines(c, vals[..i])
    {
      ghost var prev := logger.lines;
      logger.Info(IndexLabel(i));
      PrintArg(c, vals[i], logger);
      IndexedLinesSnoc(c, vals, i);
      ghost var step := [InfoLine(IndexLabel(i))] + ArgLines(ParseArg(c, vals[i]));
      assert logger.lines == prev + step by {
        AppendAssoc(prev, [InfoLine(IndexLabel(i))], ArgLines(ParseArg(c, vals[i])));
      }
      AppendAssoc(old(logger.lines), IndexedLines(c, vals[..i]), step);
      i := i + 1;
    }
    assert vals[..i] == vals;
  }

  /** The wrapper's loop over keyword arguments: name label, then `print_arg`. */
  method LogKeywords(c: Config, kwargs: seq<(string, Value)>, logger: Logger)
    modifies logger`lines
    ensures logger.lines == old(logger.lines) + KeywordLines(c, kwargs)
  {
    var k := 0;
    while k < |kwargs|
      invariant 0 <= k <= |kwargs|
      invariant logger.lines == old(logger.lines) + KeywordLines(c, kwargs[..k])
    {
      ghost var prev := logger.lines;
      logger.Info("\t" + kwargs[k].0 + ":");
      PrintArg(c, kwargs[k].1, logger);
      KeywordLinesSnoc(c, kwargs, k);
      ghost var step := [InfoLine("\t" + kwargs[k].0 + ":")] + ArgLines(ParseArg(c, kwargs[k].1));
      assert logger.lines == prev + step by {
        AppendAssoc(prev, [InfoLine("\t" + kwargs[k].0 + ":")], ArgLines(ParseArg(c, kwargs[k].1)));
      }
      AppendAssoc(old(logger.lines), KeywordLines(c, kwargs[..k]), step);
      k := k + 1;
    }
    assert kwargs[..k] == kwargs;
  }

  /** Step 1 of the wrapper. */
  method LogAnnounce(func: Callee, caller: string, hostname: string, logger: Logger)
    modifies logger`lines
    ensures logger.lines == old(logger.lines) + AnnounceLines(func, caller, hostname)
  {
    logger.Info(Banner);
    logger.Info("calling [" + func.name + "] declared inside module [" + func.moduleName + "]");
    logger.Info("caller name: [" + caller + "]");
    logger.Info("ran inside: hostname=[" + hostname + "]");
    logger.Info(Rule);
  }

  /** Step 2 of the wrapper. */
  method LogDeclare(func: Callee, args: seq<Value>, kwargs: seq<(string, Value)>, logger: Logger)
    modifies logger`lines
    ensures logger.lines == old(logger.lines) + DeclareLines(func, args, kwargs)
  {
    var allArgs := CalledSignature(args, kwargs);
    logger.Info("declared signature = " + func.name + func.signature);
    logger.Info("called   signature = " + func.name + "(" + allArgs + ")");
    logger.Info(Rule);
  }

  /** Step 3 of the wrapper. */
  method LogInspect(c: Config, args: seq<Value>, kwargs: seq<(string, Value)>, logger: Logger)
    modifies logger`lines
    ensures logger.lines == old(logger.lines) + InspectLines(c, args, kwargs)
  {
    logger.Info("Number of positional paramters: " + NatToString(|args|));
    LogIndexed(c, args, logger);
    logger.Info("Number of key word paramters: " + NatToString(|kwargs|));
    LogKeywords(c, kwargs, logger);
    logger.Info(Rule);
    ghost var o, p, il := old(logger.lines), [InfoLine("Number of positional paramters: " + NatToString(|args|))], IndexedLines(c, args);
    ghost var k, kl, r := [InfoLine("Number of key word paramters: " + NatToString(|kwargs|))], KeywordLines(c, kwargs), [InfoLine(Rule)];
    assert logger.lines == o + p + il + k + kl + r;
    AppendAssoc(o, p, il);
    AppendAssoc(o, p + il, k);
    AppendAssoc(o, p + il + k, kl);
    AppendAssoc(o, p + il + k + kl, r);
  }

  /** Step 4 of the wrapper, after the callee has run. */
  method LogOutcome(c: Config, func: Callee, out: Outcome, elapsed: string, logger: Logger)
    modifies logger`lines
    ensures logger.lines == old(logger.lines) + OutcomeLines(c, func, out, elapsed)
  {
    match out {
      case Err(e) =>
        if e.isException {
          logger.Error("!!!EXCEPTION!!! [" + func.name + "] ran into an exception before exiting:");
          logger.Error("\n");
          logger.ErrorWithTraceback(e);
        }
      case Ok(res) =>
        logger.Info(ReportLine(func, elapsed));
        ghost var head := logger.lines;
        if res.items.Some? {
          logger.Info(MultiOutputBanner);
          LogIndexed(c, res.items.value, logger);
          AppendAssoc(head, [InfoLine(MultiOutputBanner)], IndexedLines(c, res.items.value));
        } else {
          logger.Info(SingleOutputBanner);
          PrintArg(c, res, logger);
          AppendAssoc(head, [InfoLine(SingleOutputBanner)], ArgLines(ParseArg(c, res)));
        }
        AppendAssoc(old(logger.lines), head[|old(logger.lines)|..], logger.lines[|head|..]);
    }
  }

  /** The closure `wrapper` returned by `decorate`: the configuration, the
      original callable (whose name and documentation `functools.wraps`
      copies) and the logger chosen at decoration time. */
  class Wrapper {
    const config: Config
    const func: Callee
    const logger: Logger

    constructor (config: Config, func: Callee, logger: Logger)
      ensures this.config == config && this.func == func && this.logger == logger
    {
      this.config := config;
      this.func := func;
      this.logger := logger;
    }

    /** `wrapper(*args, **kwargs)`: logs the call protocol and returns the
        callee's result, or re-raises its exception, unchanged. The caller
        identity, host name and elapsed time are supplied from outside. */
    method Call(args: seq<Value>, kwargs: seq<(string, Value)>,
                caller: string, hostname: string, elapsed: string) returns (r: Outcome)
      modifies logger`lines
      ensures r == func.body(args, kwargs)
      ensures logger.lines == old(logger.lines)
                              + CallLines(config, func, args, kwargs, caller, hostname, elapsed)
    {
      ghost var l0 := logger.lines;
      LogAnnounce(func, caller, hostname, logger);
      LogDeclare(func, args, kwargs, logger);
      LogInspect(config, args, kwargs, logger);
      r := func.body(args, kwargs);
      LogOutcome(config, func, r, elapsed, logger);
      ghost var a, d, i, o := AnnounceLines(func, caller, hostname), DeclareLines(func, args, kwargs),
                              InspectLines(config, args, kwargs), OutcomeLines(config, func, r, elapsed);
      assert logger.lines == l0 + a + d + i + o;
      AppendAssoc(l0 + a + d, i, o);
      AppendAssoc(l0 + a, d, i + o);
      AppendAssoc(l0, a, d + (i + o));
      AppendAssoc(a, d, i + o);
      AppendAssoc(a + d, i, o);
    }
  }

  /** What `decorate(func)` returns: the original callable itself, or a
      wrapper around it. */
  datatype Decorated = Unwrapped(f: Callee) | Wrapped(w: Wrapper)

  /** The handlers a name's logger already holds; none for a new name. */
  ghost function PriorHandlers(registry: Registry, name: string): seq<Handler>
    reads registry, registry.loggers.Values
  {
    if name in registry.loggers then registry.loggers[name].handlers else []
  }

  /** `logging.getLogger(name)` followed by `setLevel(logging.INFO)`: the
      registered logger of that name, or a new empty one, now at level INFO
      with its handlers and lines kept; no other logger changes. */
  method PrepareLogger(name: string, registry: Registry) returns (logger: Logger)
    requires registry.Valid()
    modifies registry, registry.loggers.Values
    ensures registry.Valid()
    ensures forall l :: l in registry.loggers.Values ==> l in old(registry.loggers.Values) || fresh(l)
    ensures name in registry.loggers && logger == registry.loggers[name]
    ensures logger.name == name && logger.level == INFO
    ensures logger.handlers == old(PriorHandlers(registry, name))
    ensures name in old(registry.loggers) ==>
              logger == old(registry.loggers[name]) && logger.lines == old(registry.loggers[name].lines)
    ensures name !in old(registry.loggers) ==> fresh(logger) && logger.lines == []
    ensures registry.loggers.Keys == old(registry.loggers).Keys + {name}
    ensures forall n :: n in old(registry.loggers) && n != name ==>
              registry.loggers[n] == old(registry.loggers[n]) && unchanged(registry.loggers[n])
    ensures forall n :: n in registry.loggers && n != name ==> registry.loggers[n] != logger
  {
    ghost var oldLoggers := registry.loggers;
    logger := registry.GetLogger(name);
    assert name in oldLoggers ==> logger in oldLoggers.Values;
    logger.SetLevel(INFO);
    assert forall n :: n in oldLoggers && n != name ==> oldLoggers[n] != logger;
  }

  /** `decorate(func)`. The disable switch is read here, once: when it is
      set and the decorator is not force-enabled, the original callable
      comes back and no logger is touched. Otherwise the named logger is
      fetched or created, set to INFO, and handed this decoration's handlers
      (`attached`) after whatever it already had; no other logger changes. */
  method Decorate(c: Config, env: Option<string>, func: Callee, registry: Registry)
    returns (d: Decorated, ghost attached: seq<Handler>)
    requires registry.Valid()
    modifies registry, registry.loggers.Values
    ensures registry.Valid()
    ensures forall l :: l in registry.loggers.Values ==> l in old(registry.loggers.Values) || fresh(l)
    ensures Bypass(c, env) ==> d == Unwrapped(func) && unchanged(registry) && unchanged(registry.loggers.Values)
    ensures !Bypass(c, env) ==>
              var name := LoggerName(c, func);
              var prior := old(PriorHandlers(registry, name));
              && d.Wrapped? && fresh(d.w)
              && d.w.config == c && d.w.func == func
              && name in registry.loggers && d.w.logger == registry.loggers[name]
              && d.w.logger.name == name
              && d.w.logger.level == INFO
              && DecorationHandlers(c, name, attached)
              && (forall i :: 0 <= i < |attached| && CreatedSlot(c, i) ==> fresh(attached[i]))
              && d.w.logger.handlers == AddAll(prior, attached)
              && (ExtraObjectsDistinct(c) && NoneAttached(c, prior) ==>
                    d.w.logger.handlers == prior + attached
                    && |d.w.logger.handlers| == |prior| + ConsoleCount(c) + 1 + |Extras(c)|)
              && (name in old(registry.loggers) ==>
                    d.w.logger == old(registry.loggers[name]) && d.w.logger.lines == old(registry.loggers[name].lines))
              && (name !in old(registry.loggers) ==> fresh(d.w.logger) && d.w.logger.lines == [])
              && registry.loggers.Keys == old(registry.loggers).Keys + {name}
              && forall n :: n in old(registry.loggers) && n != name ==>
                   registry.loggers[n] == old(registry.loggers[n])
                   && unchanged(registry.loggers[n])
  {
    if Bypass(c, env) {
      return Unwrapped(func), [];
    }
    var name := LoggerName(c, func);
    ghost var prior := PriorHandlers(registry, name);
    var logger := PrepareLogger(name, registry);
    attached := AttachHandlers(c, name, logger);
    AddAllContents(prior, attached);
    var w := new Wrapper(c, func, logger);
    d := Wrapped(w);
  }

  /** Calling what `decorate` returned behaves exactly like calling the
      original callable: the same value, or the same exception. */
  method Invoke(d: Decorated, args: seq<Value>, kwargs: seq<(string, Value)>,
                caller: string, hostname: string, elapsed: string) returns (r: Outcome)
    modifies if d.Wrapped? then {d.w.logger} else {}
    ensures r == (if d.Wrapped? then d.w.func else d.f).body(args, kwargs)
    ensures d.Wrapped? ==> d.w.logger.handlers == old(d.w.logger.handlers)
  {
    match d
    case Unwrapped(f) =>
      r := f.body(args, kwargs);
    case Wrapped(w) =>
      r := w.Call(args, kwargs, caller, hostname, elapsed);
  }

  /** What two decorations under one logger name leave on it: the union of
      both handler lists, each object once; the second decoration's own
      file handler is new; and when the first one added everything, the
      second adds exactly its own built handlers, in order. */
  lemma SecondDecoration(c: Config, name: string, prior: seq<Handler>, a1: seq<Handler>, a2: seq<Handler>)
    requires Distinct(prior)
    requires DecorationHandlers(c, name, a1) && DecorationHandlers(c, name, a2)
    requires forall i :: 0 <= i < |a1| && CreatedSlot(c, i) ==> a1[i] !in prior
    requires forall i :: 0 <= i < |a2| && CreatedSlot(c, i) ==> a2[i] !in AddAll(prior, a1)
    ensures var hs := AddAll(AddAll(prior, a1), a2);
            && Distinct(hs)
            && (forall h :: h in hs <==> h in prior || h in a1 || h in a2)
            && a1[ConsoleCount(c)] != a2[ConsoleCount(c)]
            && (ExtraObjectsDistinct(c) && NoneAttached(c, prior) ==>
                  hs == prior + a1 + Missing(a2, prior + a1)
                  && (forall i :: 0 <= i < |a2| ==> (a2[i] in Missing(a2, prior + a1) <==> CreatedSlot(c, i))))
  {
    var mid := AddAll(prior, a1);
    AddAllContents(prior, a1);
    AddAllContents(mid, a2);
    assert a1[ConsoleCount(c)] in mid;
    if ExtraObjectsDistinct(c) && NoneAttached(c, prior) {
      HandlerCount(c, name, a1, prior);
      SecondAddsCreated(c, name, mid, a1, a2);
    }
  }

  /** Once the first decoration's handlers are held, the second one adds
      exactly the handlers it built itself, in order. */
  lemma SecondAddsCreated(c: Config, name: string, mid: seq<Handler>, a1: seq<Handler>, a2: seq<Handler>)
    requires DecorationHandlers(c, name, a1) && DecorationHandlers(c, name, a2)
    requires ExtraObjectsDistinct(c)
    requires forall h :: h in a1 ==> h in mid
    requires forall i :: 0 <= i < |a2| && CreatedSlot(c, i) ==> a2[i] !in mid
    ensures AddAll(mid, a2) == mid + Missing(a2, mid)
    ensures forall i :: 0 <= i < |a2| ==> (a2[i] in Missing(a2, mid) <==> CreatedSlot(c, i))
  {
    DecorationHandlersDistinct(c, name, a2);
    AddAllMissing(mid, a2);
    MissingMembers(a2, mid);
    var s := ConsoleCount(c);
    forall i | 0 <= i < |a2| && !CreatedSlot(c, i) ensures a2[i] in mid {
      assert a2[i] == Extras(c)[i - s - 1].handler == a1[i];
    }
  }


  /** Decorating two callables under the same logger name reuses the
      logger: the second decoration's own new handlers are appended after
      the first's, while a handler object both share is not attached again,
      so no handler is held twice. */
  method DecorateTwice(c: Config, env: Option<string>, f: Callee, g: Callee, registry: Registry)
    returns (d1: Decorated, d2: Decorated, ghost a1: seq<Handler>, ghost a2: seq<Handler>)
    requires registry.Valid()
    requires LoggerName(c, f) == LoggerName(c, g)
    requires !Bypass(c, env)
    modifies registry, registry.loggers.Values
    ensures d1.Wrapped? && d2.Wrapped? && d1.w.logger == d2.w.logger
    ensures DecorationHandlers(c, LoggerName(c, f), a1) && DecorationHandlers(c, LoggerName(c, f), a2)
    ensures var prior, hs := old(PriorHandlers(registry, LoggerName(c, f))), d2.w.logger.handlers;
            && hs == AddAll(AddAll(prior, a1), a2)
            && Distinct(hs)
            && (forall h :: h in hs <==> h in prior || h in a1 || h in a2)
            && a1[ConsoleCount(c)] != a2[ConsoleCount(c)]
            && (ExtraObjectsDistinct(c) && NoneAttached(c, prior) ==>
                  hs == prior + a1 + Missing(a2, prior + a1)
                  && (forall i :: 0 <= i < |a2| ==> (a2[i] in Missing(a2, prior + a1) <==> CreatedSlot(c, i))))
  {
    ghost var name := LoggerName(c, f);
    ghost var prior := PriorHandlers(registry, name);
    d1, a1 := Decorate(c, env, f, registry);
    ghost var mid := d1.w.logger.handlers;
    assert forall i :: 0 <= i < |a1| && CreatedSlot(c, i) ==> a1[i] !in prior;
    d2, a2 := Decorate(c, env, g, registry);
    assert forall i :: 0 <= i < |a2| && CreatedSlot(c, i) ==> a2[i] !in mid;
    SecondDecoration(c, name, prior, a1, a2);
  }
}
