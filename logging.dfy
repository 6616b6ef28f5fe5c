/** The part of Python's `logging` module that runtimedocs relies on: named
    loggers obtained from a process-wide registry, handler objects attached
    to a logger in order, and the lines a logger emits. Formatting, level
    filtering, propagation and the actual file and console output are not
    modelled, so which handlers see a given line is not modelled either. */
module Logging {
  import opened Values

  /** `logging.INFO`. */
  const INFO: nat := 20

  /** The two line formats: with a leading `asctime` timestamp, or without. */
  datatype Formatter = Timestamped | Plain

  /** Where a handler writes: the console (`StreamHandler(sys.stdout)`), a
      file opened in append mode (`FileHandler(path)`), or a destination of a
      handler object the caller built. */
  datatype HandlerKind = Console | LogFile(path: string) | Custom

  /** A handler object. Its identity matters: a logger holds each handler
      object at most once. `level` 0 stands for `NOTSET`; a caller-built
      handler's formatter is not known to the model. */
  class Handler {
    const kind: HandlerKind
    const level: nat
    const formatter: Option<Formatter>

    constructor (kind: HandlerKind, level: nat, formatter: Option<Formatter>)
      ensures this.kind == kind && this.level == level && this.formatter == formatter
    {
      this.kind := kind;
      this.level := level;
      this.formatter := formatter;
    }
  }

  /** No handler object occurs twice. */
  predicate Distinct(hs: seq<Handler>)
  {
    forall i, j :: 0 <= i < |hs| && 0 <= j < |hs| && i != j ==> hs[i] != hs[j]
  }

  /** What `addHandler(h)` does to the handler list: append `h` unless that
      very object is already there. */
  function AddOnce(hs: seq<Handler>, h: Handler): seq<Handler>
  {
    if h in hs then hs else hs + [h]
  }

  /** `addHandler` applied to each of `cs`, in order. */
  function AddAll(hs: seq<Handler>, cs: seq<Handler>): seq<Handler>
  {
    if |cs| == 0 then hs else AddOnce(AddAll(hs, cs[..|cs| - 1]), cs[|cs| - 1])
  }

  /** The elements of `cs` that are not in `hs`, in order. */
  function Missing(cs: seq<Handler>, hs: seq<Handler>): seq<Handler>
  {
    if |cs| == 0 then []
    else Missing(cs[..|cs| - 1], hs) + (if cs[|cs| - 1] in hs then [] else [cs[|cs| - 1]])
  }

  /** Dropping the last element of a distinct sequence leaves a distinct
      sequence that does not hold that element. */
  lemma DistinctInit(cs: seq<Handler>)
    requires |cs| > 0 && Distinct(cs)
    ensures Distinct(cs[..|cs| - 1]) && cs[|cs| - 1] !in cs[..|cs| - 1]
  {
    var init := cs[..|cs| - 1];
    forall i | 0 <= i < |init| ensures init[i] != cs[|cs| - 1] {
      assert init[i] == cs[i];
    }
  }

  /** Appending an element not yet present keeps a sequence distinct. */
  lemma DistinctSnoc(s: seq<Handler>, x: Handler)
    requires Distinct(s) && x !in s
    ensures Distinct(s + [x])
  {
    var t := s + [x];
    forall i, j | 0 <= i < |t| && 0 <= j < |t| && i != j ensures t[i] != t[j] {
      if i < |s| && j < |s| {
        assert t[i] == s[i] && t[j] == s[j];
      } else if i < |s| {
        assert t[i] == s[i];
      } else {
        assert t[j] == s[j];
      }
    }
  }

  lemma {:induction false} MissingMembers(cs: seq<Handler>, hs: seq<Handler>)
    ensures forall x :: x in Missing(cs, hs) <==> x in cs && x !in hs
  {
    if |cs| > 0 {
      MissingMembers(cs[..|cs| - 1], hs);
      assert cs == cs[..|cs| - 1] + [cs[|cs| - 1]];
    }
  }

  lemma {:induction false} MissingDistinct(cs: seq<Handler>, hs: seq<Handler>)
    requires Distinct(cs)
    ensures Distinct(Missing(cs, hs))
  {
    if |cs| > 0 {
      var init, last := cs[..|cs| - 1], cs[|cs| - 1];
      DistinctInit(cs);
      MissingDistinct(init, hs);
      MissingMembers(init, hs);
      if last !in hs {
        DistinctSnoc(Missing(init, hs), last);
      }
    }
  }

  lemma {:induction false} MissingNone(cs: seq<Handler>, hs: seq<Handler>)
    requires forall x :: x in cs ==> x !in hs
    ensures Missing(cs, hs) == cs
  {
    if |cs| > 0 {
      var init, last := cs[..|cs| - 1], cs[|cs| - 1];
      assert cs == init + [last];
      MissingNone(init, hs);
    }
  }

  /** Attaching handlers keeps what was there, in front, adds exactly the
      handlers not yet present, and never attaches one object twice. */
  lemma {:induction false} AddAllContents(hs: seq<Handler>, cs: seq<Handler>)
    ensures hs <= AddAll(hs, cs)
    ensures forall x :: x in AddAll(hs, cs) <==> x in hs || x in cs
    ensures Distinct(hs) ==> Distinct(AddAll(hs, cs))
  {
    if |cs| > 0 {
      var init, last := cs[..|cs| - 1], cs[|cs| - 1];
      AddAllContents(hs, init);
      assert cs == init + [last];
    }
  }

  /** When the handlers to attach are pairwise distinct objects, attaching
      them appends exactly those not yet attached, in order. */
  lemma {:induction false} AddAllMissing(hs: seq<Handler>, cs: seq<Handler>)
    requires Distinct(cs)
    ensures AddAll(hs, cs) == hs + Missing(cs, hs)
  {
    if |cs| > 0 {
      var init, last := cs[..|cs| - 1], cs[|cs| - 1];
      DistinctInit(cs);
      AddAllMissing(hs, init);
      MissingMembers(init, hs);
      var m := Missing(init, hs);
      assert AddAll(hs, cs) == AddOnce(hs + m, last);
      if last in hs {
        assert Missing(cs, hs) == m;
      } else {
        assert last !in hs + m;
        assert Missing(cs, hs) == m + [last];
        assert AddAll(hs, cs) == (hs + m) + [last];
      }
    }
  }

  /** The same object listed twice is attached once. */
  lemma DuplicateAttachedOnce(hs: seq<Handler>, h: Handler)
    requires h !in hs
    ensures AddAll(hs, [h, h]) == hs + [h]
  {
    assert [h, h][..1] == [h];
    assert [h][..0] == [];
    assert AddAll(hs, [h]) == hs + [h];
    assert (hs + [h])[|hs|] == h;
  }

  /** One emitted record: `logger.info(msg)`, `logger.error(msg)`, or
      `logger.error(e, exc_info=True)`, which renders `str(e)` followed by its
      traceback. */
  datatype LogLine = InfoLine(msg: string) | ErrorLine(msg: string) | TraceLine(exn: Exn)

  class Logger {
    const name: string
    var level: nat
    var handlers: seq<Handler>
    var lines: seq<LogLine>

    /** A logger that `getLogger` creates on first use of a name. */
    constructor (name: string)
      ensures this.name == name
      ensures level == 0 && handlers == [] && lines == []
    {
      this.name := name;
      level := 0;
      handlers := [];
      lines := [];
    }

    /** `logger.setLevel(l)`. */
    method SetLevel(l: nat)
      modifies this`level
      ensures level == l
    {
      level := l;
    }

    /** `logger.addHandler(h)`: appends `h` unless that object is already
        attached. */
    method AddHandler(h: Handler)
      modifies this`handlers
      ensures handlers == AddOnce(old(handlers), h)
    {
      if h !in handlers {
        handlers := handlers + [h];
      }
    }

    /** `logger.info(msg)`. */
    method Info(msg: string)
      modifies this`lines
      ensures lines == old(lines) + [InfoLine(msg)]
    {
      lines := lines + [InfoLine(msg)];
    }

    /** `logger.error(msg)`. */
    method Error(msg: string)
      modifies this`lines
      ensures lines == old(lines) + [ErrorLine(msg)]
    {
      lines := lines + [ErrorLine(msg)];
    }

    /** `logger.error(e, exc_info=True)`. */
    method ErrorWithTraceback(e: Exn)
      modifies this`lines
      ensures lines == old(lines) + [TraceLine(e)]
    {
      lines := lines + [TraceLine(e)];
    }
  }

  /** The process-wide table behind `logging.getLogger`: one logger per
      name, each holding every handler object at most once. */
  class Registry {
    var loggers: map<string, Logger>

    ghost predicate Valid()
      reads this, loggers.Values
    {
      forall n :: n in loggers ==> loggers[n].name == n && Distinct(loggers[n].handlers)
    }

    constructor ()
      ensures Valid() && loggers == map[]
    {
      loggers := map[];
    }

    /** `logging.getLogger(name)`: the logger already registered under
        `name`, or a new empty one, registered from now on. */
    method GetLogger(name: string) returns (l: Logger)
      requires Valid()
      modifies this
      ensures Valid()
      ensures l.name == name && name in loggers && loggers[name] == l
      ensures name in old(loggers) ==> l == old(loggers[name]) && loggers == old(loggers)
      ensures name !in old(loggers) ==> fresh(l) && l.handlers == [] && l.lines == []
                                        && loggers == old(loggers)[name := l]
    {
      if name in loggers {
        l := loggers[name];
      } else {
        l := new Logger(name);
        loggers := loggers[name := l];
      }
    }
  }
}
