# runtimedocs in Dafny

runtimedocs is a Python decorator factory. `runtimedocs(...)` takes a
configuration and returns `decorate`; `decorate(func)` either hands `func`
back untouched (when the `DISABLE_RUNTIMEDOCS` environment variable is set
and the decorator is not force-enabled) or fetches a named logger, attaches
its handlers and returns `wrapper`. Every call of `wrapper` logs a fixed
sequence of lines — a banner with the callee, caller and host; the declared
and the called signature; one section per positional and keyword argument;
and after the call either the elapsed time and the parsed result or the
exception with its traceback — and then returns the callee's result, or
re-raises its exception, unchanged. Arguments and results are described by
parsers chosen by the value's type tag: user overrides first, then the
optional plugin's table, then the native table for classes and functions,
and the default parser otherwise.

The project is six modules:

- `Values` (values.dfy): the abstract runtime value (type tag, `repr`,
  optional length, optional keys, the introspection strings of callables
  and classes, the elements of a tuple) and the abstract exception.
- `Text` (text.dfy): `c * n`, `sep.join(parts)` and `str(n)`.
- `Records` (records.dfy): the ordered field records (`OrderedDict`) the
  parsers return.
- `Helpers` (helpers.dfy): runtimedocs/helpers.py — the three parsers, the
  native table and the plugin-over-native chain.
- `Logging` (logging.dfy): the part of Python's `logging` that the source
  uses. A `Handler` is a class, so handlers are compared by identity, as
  `addHandler` compares them; a `Logger` is a class whose `handlers` and
  emitted `lines` are sequences that its methods extend, `addHandler`
  skipping a handler object it already holds; a `Registry` is the
  process-wide `getLogger` table.
- `Core` (core.dfy): runtimedocs/core.py — configuration, `parse_arg`,
  `print_arg`, the bypass rule, the logger name, handler attachment,
  the `wrapper` class and its call protocol, and `decorate`.

`print_arg`, the handler loop and the wrapper's argument loops are methods
with loops, proved against specification functions and predicates
(`ArgLines`, `DecorationHandlers` with `AddAll`, `IndexedLines`,
`KeywordLines`, `CallLines`); the lemmas
beside those functions state what the source promises about them.

Where the code and its documentation disagree, the model follows the code:

- The logger-name prefix is the `__name__` of runtimedocs/core.py itself,
  that is `runtimedocs.core`, not the decorated function's module as the
  docstring says (runtimedocs/core.py:129). Same-named functions from
  different modules therefore share one logger and one log file
  (`Core.LoggerNameIgnoresCalleeModule`), and their handlers accumulate on
  it (`Core.DecorateTwice`).
- The disable switch is `bool(os.environ.get(...))`: any non-empty value
  disables, including "0" and "False", not only "True"
  (runtimedocs/core.py:124, `Core.DisabledByAnyText`).
- The log file is `<logger name>.runtimedocs.log`; the docstring's
  `rundimedocs` spelling is not what the code writes.
- The wrapper's log messages are modelled with the source's own spelling
  ("paramters"), and the exception branch only covers `Exception`
  subclasses: a `BaseException` such as `KeyboardInterrupt` leaves the
  wrapper unlogged.

## Model

| member | source | states |
|---|---|---|
| Text.Repeat | runtimedocs/core.py:119 | `c * n` has length n and every character is c (the banners, rules and the separator) |
| Text.JoinCons | runtimedocs/core.py:174 | `Join` (`sep.join`): joining one more part on the left adds that part and exactly one separator in front of the rest |
| Text.JoinLength | runtimedocs/core.py:174 | `Join`: a joined string is as long as its parts plus one separator between each two neighbours |
| Text.JoinEnds | runtimedocs/core.py:174 | `Join`: a joined string starts with the first part and ends with the last |
| Text.DigitChar | runtimedocs/core.py:190 | a digit below ten renders as one character between '0' and '9' that stands for that digit |
| Text.NatToString | runtimedocs/core.py:190 | `str(n)` of a count is non-empty and made of decimal digits only |
| Text.NatToStringRoundTrip | runtimedocs/core.py:190 | the digits `str(n)` writes denote n again, and begin with '0' only for n = 0 |
| Records.Lookup | runtimedocs/helpers.py:16-21 | a key is found exactly when some field carries it |
| Records.LookupFirst | runtimedocs/helpers.py:16-21 | lookup returns the value of the first field with the key |
| Records.RenderReadsBack | runtimedocs/core.py:118 | `Render` (the `format` of a field value): a string is written as itself, a count as decimal digits denoting it with no leading zero, a flag as `True` exactly when set and `False` exactly when not |
| Helpers.SliceTo | runtimedocs/helpers.py:21 | `s[:stop]` is a prefix of s, of length min(\|s\|, stop) for stop >= 0 and max(0, \|s\| + stop) for negative stop |
| Helpers.DefaultTypeParser | runtimedocs/helpers.py:15-22 | fields are `type`, then `len` only if the value has a length, then `keys` only if it has keys, then `value` last; `type` is the type tag, `len` the length, `keys` the keys string, `value` the clipped repr |
| Helpers.DefaultFieldsPresent | runtimedocs/helpers.py:16-21 | lookup of `len` succeeds iff the value has a length and returns it; `keys` iff it has keys; `type` and `value` always, with their values |
| Helpers.DefaultOptionalFields | runtimedocs/helpers.py:17-20 | lookup of `len` succeeds iff the value has a length and returns it, and of `keys` iff it has keys and returns them |
| Helpers.DefaultValueClipped | runtimedocs/helpers.py:21 | for a non-negative bound the `value` field is at most `max_stringify` long, a prefix of the repr, and the whole repr when that is short enough |
| Helpers.TypeFieldFirst | runtimedocs/helpers.py:12-16 | `GetType` (`get_type`): every parser's record begins with the field `type` holding the value's type tag |
| Helpers.FunctionParser | runtimedocs/helpers.py:25-32 | exactly the fields `type`, `name`, `signature`, `fullargspec`, `isbuiltin`, in that order, holding the value's type tag and introspection strings |
| Helpers.ClassParser | runtimedocs/helpers.py:34-37 | the function parser's record unchanged, with `inheritance_tree` holding the MRO appended last |
| Helpers.NativeTypesParsers | runtimedocs/helpers.py:40-44 | the native table knows exactly the tags of classes, builtins and functions, and maps the class tag to the class parser and the builtin and function tags to the function parser |
| Helpers.ChainGet | runtimedocs/core.py:110-113 | a ChainMap lookup succeeds iff some map holds the key, and then returns the entry of the first map that holds it |
| Helpers.ChainGetFirst | runtimedocs/core.py:110-113 | the first map of a ChainMap that holds the key decides the lookup, whatever later maps hold |
| Helpers.PluginOverNative | runtimedocs/helpers.py:45 | `CommonTypesParsers` (`common_types_parsers_dict`) chains the plugin's table before the native one: a tag in the plugin's table resolves to the plugin's parser, native entry or not |
| Helpers.NoPluginIsNative | runtimedocs/helpers.py:40-45 | without the plugin exactly the three native tags resolve, each to its native parser |
| Logging.Logger.constructor | runtimedocs/core.py:135 | a logger created by `getLogger` has its name, no handlers and no lines |
| Logging.Logger.SetLevel | runtimedocs/core.py:136 | the logger's level becomes the given one |
| Logging.Handler.constructor | runtimedocs/core.py:148-150 | a new handler has the given kind, level and formatter |
| Logging.Logger.AddHandler | runtimedocs/core.py:143-160 | `addHandler` appends the handler after those already held, unless that very object is already held, in which case nothing changes |
| Logging.MissingMembers | runtimedocs/core.py:143-160 | the handlers of a list that a logger does not yet hold are exactly its elements not among the logger's handlers |
| Logging.MissingDistinct | runtimedocs/core.py:143-160 | those not-yet-held handlers of a list without repeats are themselves without repeats |
| Logging.MissingNone | runtimedocs/core.py:143-160 | when no handler of a list is held yet, all of it is missing, in order |
| Logging.AddAllContents | runtimedocs/core.py:143-160 | adding a list of handlers one by one keeps the earlier handlers as a prefix, ends holding exactly the earlier ones and the list's, and never holds one object twice |
| Logging.AddAllMissing | runtimedocs/core.py:143-160 | adding a list without repeats appends exactly its not-yet-held handlers, in order |
| Logging.DuplicateAttachedOnce | runtimedocs/core.py:158-160 | handing the same new handler object to `addHandler` twice attaches it once |
| Logging.Logger.Info | runtimedocs/core.py:164-225 | `logger.info(msg)` appends one info line |
| Logging.Logger.Error | runtimedocs/core.py:208-209 | `logger.error(msg)` appends one error line |
| Logging.Logger.ErrorWithTraceback | runtimedocs/core.py:210 | `logger.error(e, exc_info=True)` appends the exception with its traceback |
| Logging.Registry.constructor | runtimedocs/core.py:135 | the logger table starts empty |
| Logging.Registry.GetLogger | runtimedocs/core.py:135 | `getLogger(name)` returns the logger already registered under the name, unchanged, or registers a new empty one; the table stays one logger per name |
| Core.ParseArgPrecedence | runtimedocs/core.py:104-114 | `ParseArg` (`parse_arg`): a tag in the custom table uses the custom parser; otherwise the first common table that knows the tag decides; only when none does, the default parser runs with `max_stringify` |
| Core.DefaultConfigParsing | runtimedocs/core.py:25-29 | with the default arguments and no plugin, a class gets the class record, a builtin or function the function record, and a non-native value the default record clipped at 1000 characters |
| Core.DefaultConfigNative | runtimedocs/core.py:112-114 | with the default arguments and no plugin, a native tag is parsed by its entry of the native table |
| Core.DefaultConfigOther | runtimedocs/core.py:112-114 | with the default arguments and no plugin, any other tag is parsed by the default parser clipped at 1000 characters |
| Core.DefaultDecoration | runtimedocs/core.py:25-29 | `DefaultConfig` (`runtimedocs()` with its defaults): only the environment bypasses it, the logger is `runtimedocs.core.<name>`, lines are timestamped, and a decoration builds exactly one handler, the log file `<logger name>.runtimedocs.log` at level INFO |
| Core.ArgLinesShape | runtimedocs/core.py:116-119 | `print_arg` output is one line `\t key = value` per record field, in record order, then exactly one `-----` |
| Core.PrintArg | runtimedocs/core.py:116-119 | appends exactly the `print_arg` lines of the value's parsed record and nothing else |
| Core.PrintFields | runtimedocs/core.py:117-118 | the loop of `print_arg` appends one `\t key = value` line per record field, in record order, and nothing else |
| Core.NoSeparatorInFields | runtimedocs/core.py:116-119 | no field line of `print_arg` can be mistaken for its closing `-----` line |
| Core.DisabledByAnyText | runtimedocs/core.py:124-125 | `IsDisabled` and `Bypass`: any non-empty setting of the disable variable bypasses exactly when not force-enabled; an unset or empty one never bypasses |
| Core.LoggerNamePrecedence | runtimedocs/core.py:127-133 | `LoggerName`: a non-empty custom name is used as-is for any callee and any prefix flag; otherwise `runtimedocs.core.<name>` with the prefix flag and `<name>` without |
| Core.LoggerNameIgnoresCalleeModule | runtimedocs/core.py:129 | callees with the same name get the same logger name whatever module they come from |
| Core.PrepareLogger | runtimedocs/core.py:135-136 | `getLogger` then `setLevel(INFO)`: the registered logger of the name, or a new empty one, now at level INFO with its handlers and lines kept; no other logger changes |
| Core.AttachOwn | runtimedocs/core.py:143-151 | hands `addHandler` a new console handler first and only when verbosity > 0, then a new file handler at `<logger name>.runtimedocs.log` at level INFO, both with the chosen format |
| Core.AttachExtra | runtimedocs/core.py:153-160 | for one extra entry, hands `addHandler` a new file handler at level INFO with the chosen format for a path, or the object itself otherwise |
| Core.AttachStep | runtimedocs/core.py:153-160 | one more extra entry extends the decoration's handler list: a path by a new file handler at level INFO with the shared format, a handler object by that very object |
| Core.DecorationHandlersDistinct | runtimedocs/core.py:143-160 | when the extra handler objects are pairwise different, one decoration's handler list holds no object twice |
| Core.HandlerCount | runtimedocs/core.py:143-160 | when the extra handler objects are pairwise different and none is held yet, one decoration adds all its handlers, `(verbosity > 0 ? 1 : 0) + 1 + \|extras\|` of them |
| Core.AttachHandlers | runtimedocs/core.py:138-160 | hands `addHandler`, in order, the console handler first and only when verbosity > 0, then the file handler at `<logger name>.runtimedocs.log` at level INFO, then one handler per extra entry (a path becoming a new file handler, an object attached as-is), all with the chosen format; the handlers it builds are new; the logger ends with what `addHandler` makes of them, which is its earlier handlers followed by all of them when the extra objects are pairwise different and not yet held |
| Core.CalledSignaturePositional | runtimedocs/core.py:171-174 | `CalledSignature`: the called signature begins with the first positional argument's type tag followed by ", " and the signature of the remaining arguments |
| Core.CalledSignatureKeyword | runtimedocs/core.py:172-174 | after the positional tags, each keyword argument renders as `name=tag`, in call order, separated by ", " |
| Core.CalledSignatureSingle | runtimedocs/core.py:171-174 | no arguments give "", one positional argument gives its tag, one keyword argument gives `name=tag` |
| Core.CalledSignatureLength | runtimedocs/core.py:174 | the called signature is as long as its parts plus two characters per separator |
| Core.CalledSignatureLine | runtimedocs/core.py:180-183 | the seventh line of every call is `called   signature = <name>(<called signature>)` |
| Core.MultiOutputIffTuple | runtimedocs/core.py:218-225 | a successful call announces a multi-output return exactly when the result is a tuple, and a single-output return exactly when it is not |
| Core.TupleOutcomeBanners | runtimedocs/core.py:218-222 | a tuple result is announced as a possible multi-output return and never as a single-output one |
| Core.SingleOutcomeBanners | runtimedocs/core.py:223-225 | any other result is announced as a single-output return and never as a multi-output one |
| Core.IndexedLinesSeparators | runtimedocs/core.py:191-193 | each inspected value closes with its own separator: as many separators as values |
| Core.FailureLogsOnlyErrors | runtimedocs/core.py:207-211 | a failed call logs no success line; the traceback is logged exactly when the exception is an `Exception`, as the third of three error lines |
| Core.LogIndexed | runtimedocs/core.py:191-193 | appends the index label and the `print_arg` lines of each value, in order |
| Core.LogKeywords | runtimedocs/core.py:196-198 | appends the name label and the `print_arg` lines of each keyword argument, in call order |
| Core.LogAnnounce | runtimedocs/core.py:164-168 | appends the banner, the callee and its module, the caller, the host and a rule |
| Core.LogDeclare | runtimedocs/core.py:170-184 | appends the declared signature, the called signature and a rule |
| Core.LogInspect | runtimedocs/core.py:186-200 | appends the positional count and sections, the keyword count and sections, and a rule |
| Core.LogOutcome | runtimedocs/core.py:203-225 | appends the success report with its tuple or single-value sections, or the error lines of an `Exception`, or nothing for another exception |
| Core.Wrapper.constructor | runtimedocs/core.py:162-163 | the wrapper holds the configuration, the original callable and the logger chosen at decoration |
| Core.Wrapper.Call | runtimedocs/core.py:163-226 | returns the callee's own result, or its own exception, unchanged, and appends exactly the announce, declare, inspect and outcome lines of this call |
| Core.Decorate | runtimedocs/core.py:121-160 | when bypassed, returns the original callable and changes no logger; otherwise returns a new wrapper whose logger is the registered one of the computed name, at level INFO, holding what `addHandler` makes of its earlier handlers and this decoration's (its earlier handlers followed by all of this decoration's when the extra objects are pairwise different and not yet held), with its lines kept; every other logger is unchanged |
| Core.Invoke | runtimedocs/core.py:124-125 | calling what `decorate` returned yields exactly what the original callable yields, in both the bypassed and the wrapped case, and attaches no handler |
| Core.SecondDecoration | runtimedocs/core.py:143-160 | after two decorations under one logger name the logger holds exactly the earlier handlers and both decorations', each object once; the second decoration's log file handler is a new one; and when the first added all of its handlers, the second adds exactly the handlers it built itself, in order, while the handler objects both share are not attached again |
| Core.SecondAddsCreated | runtimedocs/core.py:153-160 | once the first decoration's handlers are held, a second one appends only the handlers it built itself, in order; a handler object both decorations list is not attached again |
| Core.DecorateTwice | runtimedocs/core.py:135-160 | decorating twice under one logger name reuses the logger, which ends with what `addHandler` makes of the earlier handlers, then the first decoration's, then the second's, with the properties of `Core.SecondDecoration` |

## Left out

- The output of Python's `logging`: formatters, level filtering, propagation to parent loggers, and the writing of files and of standard output. A handler is an object with a kind, a level and a formatter, and a logged line is appended to the logger's `lines`; which handlers see that line is not modelled.
- Introspection (`str(type(v))`, `repr`, `len`, `keys()`, `inspect.signature`, `getfullargspec`, `isbuiltin`, `getmro`): each result is an opaque string or number carried by the abstract value, computed before the model starts. An introspection call that raises (for example `inspect.signature` on some builtins) is not modelled.
- A parser that raises, and so aborts the call before the callee runs, is not modelled: parsers are total functions.
- Core.Wrapper.Call: the callee is a pure function of its arguments, so a callee that logs through a decorated function of its own (a re-entrant or recursive call) and would add lines between this call's inspect and outcome lines is not modelled, and neither is a callee that never returns.
- Core.Wrapper.Call: the caller name, `HOSTNAME` and the rounded elapsed time are string parameters. `helpers.caller_name` is not part of this model, `platform.node()` and `time.time()` are left out, and the four-decimal rounding of floating-point time is not modelled.
- Core.Decorate: the environment variable is an `Option<string>` parameter instead of a read of `os.environ`.
- Core.Config: a non-string `custom_logger_name` is represented as `None`, which the source treats alike; a custom parser's record may repeat a key, which a Python dict cannot.
- `functools.wraps`: the wrapper keeps the callee, but copying `__doc__`, `__qualname__` and the other attributes is not modelled.
- The extra traceback frame that `raise e` adds to the re-raised exception is not modelled; the exception value itself is passed through unchanged.
- The Python 2 fallback imports of `chainmap` and `funcsigs` (runtimedocs/core.py:9-17).
- Concurrency: decoration and calls are sequential; shared-logger races are out of scope.
