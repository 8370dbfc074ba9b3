/** The context-scoped logger (pkg/logger/logger.go): a global list of handlers, copies of
    it derived per request by `WithAttrs` and `WithGroup` and carried in the request's
    context, and the log calls that hand a record to each enabled handler. Which handler is
    enabled at which level is an oracle; handlers are known by how they were derived. */
module Logging {
  import opened Wrappers
  import opened Strings
  import opened Errors
  import opened Slog
  import LoggerSetup

  /** A slog handler: one that was registered, or one derived from another. */
  datatype Handler =
    | Registered(id: nat)
    | WithAttrsOf(inner: Handler, attrs: seq<Attr>)
    | WithGroupOf(inner: Handler, name: string)

  /** `logger`: its list of handlers. */
  class Logger {
    var handlers: seq<Handler>

    constructor(hs: seq<Handler>)
      ensures handlers == hs
    {
      handlers := hs;
    }

    /** `clone`: a new logger with the same handlers; the clipped slice means appending to
        one never shows in the other, as with separate lists here. */
    method Clone() returns (c: Logger)
      ensures fresh(c) && c.handlers == handlers
    {
      c := new Logger(handlers);
    }
  }

  /** What a request's context carries for the logger package: its own logger, if one was
      attached. */
  datatype Ctx = Ctx(logger: Option<Logger>)

  /** `RegisterHandler`: appends to the global logger's handlers. */
  method RegisterHandler(global: Logger, handler: Handler)
    modifies global
    ensures global.handlers == old(global.handlers) + [handler]
  {
    global.handlers := global.handlers + [handler];
  }

  /** `loggerFromContext`: the context's logger, or the global one when none is attached. */
  function LoggerFromContext(ctx: Ctx, global: Logger): (l: Logger)
    ensures ctx.logger.None? ==> l == global
    ensures ctx.logger.Some? ==> l == ctx.logger.value
  {
    if ctx.logger.Some? then ctx.logger.value else global
  }

  /** The handlers a derived logger holds: the i-th one derived from the i-th original. */
  function Derived(hs: seq<Handler>, derive: Handler -> Handler): (r: seq<Handler>)
    ensures |r| == |hs|
    ensures forall i :: 0 <= i < |hs| ==> r[i] == derive(hs[i])
  {
    seq(|hs|, i requires 0 <= i < |hs| => derive(hs[i]))
  }

  /** The loop shared by `WithAttrs` and `WithGroup`: a fresh slice of the same length,
      filled entry by entry. */
  method DeriveAll(hs: seq<Handler>, derive: Handler -> Handler) returns (newHandlers: array<Handler>)
    ensures fresh(newHandlers)
    ensures newHandlers[..] == Derived(hs, derive)
  {
    newHandlers := new Handler[|hs|](i => Registered(0));
    for i := 0 to |hs|
      invariant forall j :: 0 <= j < i ==> newHandlers[j] == derive(hs[j])
    {
      newHandlers[i] := derive(hs[i]);
    }
  }

  /** `WithAttrs`: no attributes leave the context as it is; otherwise the context gets a
      new logger whose handlers carry the attributes. The logger it started from, global or
      not, is left unchanged. */
  method WithAttrs(ctx: Ctx, global: Logger, attrs: seq<Attr>) returns (r: Ctx)
    ensures attrs == [] ==> r == ctx
    ensures attrs != [] ==>
      r.logger.Some? && fresh(r.logger.value) &&
      r.logger.value.handlers == Derived(LoggerFromContext(ctx, global).handlers, h => WithAttrsOf(h, attrs))
  {
    if |attrs| == 0 {
      return ctx;
    }
    var logger := LoggerFromContext(ctx, global).Clone();
    var newHandlers := DeriveAll(logger.handlers, h => WithAttrsOf(h, attrs));
    logger.handlers := newHandlers[..];
    r := Ctx(Some(logger));
  }

  /** `WithGroup`: always a new logger, whose handlers open the group. */
  method WithGroup(ctx: Ctx, global: Logger, name: string) returns (r: Ctx)
    ensures r.logger.Some? && fresh(r.logger.value)
    ensures r.logger.value.handlers == Derived(LoggerFromContext(ctx, global).handlers, h => WithGroupOf(h, name))
  {
    var logger := LoggerFromContext(ctx, global).Clone();
    var newHandlers := DeriveAll(logger.handlers, h => WithGroupOf(h, name));
    logger.handlers := newHandlers[..];
    r := Ctx(Some(logger));
  }

  /** The handlers of `hs` enabled at `level`, in list order. */
  function EnabledAt(hs: seq<Handler>, level: int, enabled: (Handler, int) -> bool): seq<Handler>
    decreases |hs|
  {
    if hs == [] then []
    else (if enabled(hs[0], level) then [hs[0]] else []) + EnabledAt(hs[1..], level, enabled)
  }

  /** Exactly the enabled handlers of the list receive a record, never one twice more than
      it occurs. */
  lemma {:induction false} EnabledAtExact(hs: seq<Handler>, level: int, enabled: (Handler, int) -> bool, h: Handler)
    ensures h in EnabledAt(hs, level, enabled) <==> h in hs && enabled(h, level)
    ensures |EnabledAt(hs, level, enabled)| <= |hs|
    ensures multiset(EnabledAt(hs, level, enabled))[h] == if enabled(h, level) then multiset(hs)[h] else 0
    decreases |hs|
  {
    if hs != [] {
      EnabledAtExact(hs[1..], level, enabled, h);
      assert hs == [hs[0]] + hs[1..];
      assert h in hs <==> h == hs[0] || h in hs[1..];
    }
  }

  /** One handler further down the list. */
  lemma EnabledAtStep(hs: seq<Handler>, i: nat, level: int, enabled: (Handler, int) -> bool)
    requires i < |hs|
    ensures EnabledAt(hs[i..], level, enabled) ==
      (if enabled(hs[i], level) then [hs[i]] else []) + EnabledAt(hs[i + 1..], level, enabled)
  {
    assert hs[i..][1..] == hs[i + 1..];
  }

  /** `handle`: a logger without handlers sends the record to slog's default handler;
      otherwise each enabled handler gets it, in list order. The answer is who received it. */
  method Handle(l: Logger, level: int, defaultHandler: Handler, enabled: (Handler, int) -> bool)
    returns (received: seq<Handler>)
    ensures |l.handlers| == 0 ==> received == [defaultHandler]
    ensures |l.handlers| > 0 ==> received == EnabledAt(l.handlers, level, enabled)
  {
    if |l.handlers| == 0 {
      return [defaultHandler];
    }
    var hs := l.handlers;
    received := [];
    var i := 0;
    while i < |hs|
      invariant 0 <= i <= |hs|
      invariant received + EnabledAt(hs[i..], level, enabled) == EnabledAt(hs, level, enabled)
    {
      var handler := hs[i];
      EnabledAtStep(hs, i, level, enabled);
      if enabled(handler, level) {
        received := received + [handler];
      }
      i := i + 1;
    }
  }

  /** `logAttrsWrapped`: nothing is logged unless slog's default logger is enabled at the
      level, whatever the context's own handlers say; otherwise a record of the level,
      message and attributes goes to the context's logger. */
  method LogAttrsWrapped(ctx: Ctx, global: Logger, level: int, msg: string, attrs: seq<Attr>,
                         defaultHandler: Handler, enabled: (Handler, int) -> bool)
    returns (rec: Option<Record>, received: seq<Handler>)
    ensures !enabled(defaultHandler, level) ==> rec == None && received == []
    ensures enabled(defaultHandler, level) ==>
      rec == Some(Record(level, msg, attrs)) &&
      var hs := LoggerFromContext(ctx, global).handlers;
      received == if hs == [] then [defaultHandler] else EnabledAt(hs, level, enabled)
  {
    var logger := LoggerFromContext(ctx, global);
    if !enabled(defaultHandler, level) {
      return None, [];
    }
    rec := Some(Record(level, msg, attrs));
    received := Handle(logger, level, defaultHandler, enabled);
  }

  /** The message and attributes `Error`, `EchoError`, `Critical` and `EchoCritical` log,
      or a panic of `err.Error()`. */
  datatype ErrorEntry = Entry(message: string, attrs: seq<Attr>) | EntryPanics

  /** How `%s` prints the error argument; a nil one prints as "%!s(<nil>)". */
  function ErrorEntryFor(msg: string, err: Option<Error>, attrs: seq<Attr>): (r: ErrorEntry)
    ensures err.Some? && !Formattable(err.value) ==> r == EntryPanics
    ensures err.None? ==> r == Entry(msg + ": %!s(<nil>)", attrs)
    ensures err.Some? && Formattable(err.value) ==>
      r == Entry(msg + ": " + Text(err.value), attrs + [Attr("error", VString(Text(err.value)))])
  {
    if err.Some? then
      if !Formattable(err.value) then EntryPanics
      else Entry(msg + ": " + Text(err.value), attrs + [Attr("error", VString(Text(err.value)))])
    else Entry(msg + ": %!s(<nil>)", attrs)
  }

  /** An error that wraps an unprintable record with `fmt.Errorf`, such as the update
      handler's "failed to parse row: " error, is logged with fmt's panic text inside; only
      the record itself panics. */
  lemma WrappedErrorLogged(msg: string, context: string, field: string, message: string, attrs: seq<Attr>)
    ensures var inner := ValidationError(field, message, None);
      ErrorEntryFor(msg, Some(Formatted(context, inner)), attrs) ==
        Entry(msg + ": " + context + PanicText('s'), attrs + [Attr("error", VString(context + PanicText('s')))])
    ensures ErrorEntryFor(msg, Some(ValidationError(field, message, None)), attrs) == EntryPanics
  {
    var e := Formatted(context, ValidationError(field, message, None));
    assert Text(e) == context + PanicText('s');
  }

  /** `Error` and `EchoError` at the error level, `Critical` and `EchoCritical` at the
      critical one. */
  method LogError(ctx: Ctx, global: Logger, critical: bool, msg: string, err: Option<Error>, attrs: seq<Attr>,
                  defaultHandler: Handler, enabled: (Handler, int) -> bool)
    returns (rec: Option<Record>, received: seq<Handler>, panicked: bool)
    ensures panicked <==> ErrorEntryFor(msg, err, attrs).EntryPanics?
    ensures panicked ==> rec == None && received == []
    ensures var level := if critical then LevelCritical else LevelError;
      var entry := ErrorEntryFor(msg, err, attrs);
      !panicked ==>
        (enabled(defaultHandler, level) ==> rec == Some(Record(level, entry.message, entry.attrs))) &&
        (!enabled(defaultHandler, level) ==> rec == None)
    ensures var level := if critical then LevelCritical else LevelError;
      var hs := LoggerFromContext(ctx, global).handlers;
      !panicked ==>
        received == if !enabled(defaultHandler, level) then []
                    else if hs == [] then [defaultHandler]
                    else EnabledAt(hs, level, enabled)
  {
    var entry := ErrorEntryFor(msg, err, attrs);
    if entry.EntryPanics? {
      return None, [], true;
    }
    var level := if critical then LevelCritical else LevelError;
    rec, received := LogAttrsWrapped(ctx, global, level, entry.message, entry.attrs, defaultHandler, enabled);
    panicked := false;
  }

  /** An error attribute is added exactly for a non-nil error, so the Cloud Logging handler
      attaches an exception exactly then (for callers that pass no "error" or "exception"
      attribute of their own). */
  lemma ErrorAttributeRule(msg: string, err: Option<Error>, attrs: seq<Attr>, level: int, trace: string, stack: string)
    requires !HasKey(attrs, "error") && !HasKey(attrs, "exception")
    requires ErrorEntryFor(msg, err, attrs).Entry?
    ensures var e := ErrorEntryFor(msg, err, attrs);
      HasKey(e.attrs, "error") <==> err.Some?
    ensures var e := ErrorEntryFor(msg, err, attrs);
      var out := LoggerSetup.CloudRecord(trace, Record(level, e.message, e.attrs), stack);
      HasKey(out.attrs, "exception") <==> err.Some?
  {
    var e := ErrorEntryFor(msg, err, attrs);
    if err.Some? {
      assert e.attrs[|attrs|].key == "error";
      assert e.attrs == attrs + [Attr("error", VString(Text(err.value)))];
      forall k | 0 <= k < |e.attrs|
        ensures e.attrs[k].key != "exception"
      {
        if k < |attrs| {
          assert e.attrs[k] == attrs[k];
        }
      }
    }
  }
}
