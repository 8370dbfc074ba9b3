/** The Google Cloud logging setup (pkg/logger/setup.go): the trace id a request carries,
    the renaming of slog's built-in keys to the ones Cloud Logging reads, the handler that
    adds the trace and an exception to records, the init-once guards, and what the request
    logger writes. The JSON encoding, stack traces and echo's middleware internals are not
    modelled; a stack trace is a parameter. */
module LoggerSetup {
  import opened Wrappers
  import opened Strings
  import opened Errors
  import opened Slog

  // ----- the trace id -----

  /** The trace `withCloudTraceContext` stores for a request whose X-Cloud-Trace-Context
      header is `header`: the text before the first "/", named under the project, or "" when
      that text is empty. */
  function TraceOf(projectId: string, header: string): string {
    var traceParts := Split(header, '/');
    if |traceParts| > 0 && |traceParts[0]| > 0 then "projects/" + projectId + "/traces/" + traceParts[0]
    else ""
  }

  /** A header "<id>/<span>…" gives the trace of `<id>`; a header that is empty or starts
      with "/" gives none. */
  lemma TraceOfHeader(projectId: string, id: string, rest: string, header: string)
    requires '/' !in id
    ensures TraceOf(projectId, id + "/" + rest) == if id == "" then "" else "projects/" + projectId + "/traces/" + id
    ensures TraceOf(projectId, header) == "" <==> header == "" || header[0] == '/'
  {
    SplitFirst(id + "/" + rest, '/');
    assert id + "/" + rest == id + ['/'] + rest;
    TakeUntilFirst(id, '/', rest);
    SplitFirst(header, '/');
  }

  /** `traceFromContext`: "" when no trace was stored. */
  function TraceFromContext(trace: Option<string>): (r: string)
    ensures trace.None? ==> r == ""
    ensures trace.Some? ==> r == trace.value
  {
    if trace.None? then "" else trace.value
  }

  // ----- renaming slog's built-in keys -----

  const TraceKey: string := "logging.googleapis.com/trace"
  const SourceLocationKey: string := "logging.googleapis.com/sourceLocation"

  /** What `ReplaceAttr` gives: the attribute to write, or a panic of its type assertion. */
  datatype Replaced = Replaced(attr: Attr) | ReplacePanics

  /** `ReplaceAttr` as written: "msg" becomes "message", "source" the source-location key,
      "level" becomes "severity" with "CRITICAL" for the critical level. The groups are not
      consulted, and the level value is asserted to be a `slog.Level` without a check. */
  function ReplaceAttr(groups: seq<string>, a: Attr): (r: Replaced)
    ensures a.key == "msg" ==> r == Replaced(Attr("message", a.value))
    ensures a.key == "source" ==> r == Replaced(Attr(SourceLocationKey, a.value))
    ensures a.key == "level" && a.value.VLevel? ==>
      r == Replaced(Attr("severity", if a.value.level == LevelCritical then VString("CRITICAL") else a.value))
    ensures a.key != "msg" && a.key != "source" && a.key != "level" ==> r == Replaced(a)
  {
    if a.key == "msg" then Replaced(Attr("message", a.value))
    else if a.key == "source" then Replaced(Attr(SourceLocationKey, a.value))
    else if a.key == "level" then
      match a.value
      case VLevel(level) => Replaced(Attr("severity", if level == LevelCritical then VString("CRITICAL") else a.value))
      case _ => ReplacePanics
    else Replaced(a)
  }

  /** An attribute the caller names "level" reaches `ReplaceAttr` like the built-in one,
      and unless its value is a `slog.Level` the handler panics. */
  lemma UserLevelAttrPanics(groups: seq<string>)
    ensures ReplaceAttr(groups, Attr("level", VString("debug"))) == ReplacePanics
    ensures ReplaceAttr(groups, Attr("level", VInt(3))) == ReplacePanics
  {
  }

  /** `ReplaceAttr` with the level asserted by the comma-ok form: an attribute called
      "level" that holds no `slog.Level` is renamed and keeps its value. */
  function ReplaceAttrChecked(groups: seq<string>, a: Attr): (r: Attr)
    ensures a.key == "level" ==>
      r == Attr("severity", if a.value == VLevel(LevelCritical) then VString("CRITICAL") else a.value)
    ensures a.key != "level" ==> ReplaceAttr(groups, a).Replaced? && r == ReplaceAttr(groups, a).attr
  {
    if a.key == "level" && !a.value.VLevel? then Attr("severity", a.value)
    else ReplaceAttr(groups, a).attr
  }

  /** The checked form never panics and agrees with `ReplaceAttr` wherever that one does
      not panic; the built-in keys of every record are renamed, none left behind. */
  lemma ReplaceAttrCheckedAgrees(groups: seq<string>, a: Attr)
    ensures ReplaceAttr(groups, a).Replaced? ==> ReplaceAttrChecked(groups, a) == ReplaceAttr(groups, a).attr
    ensures a.key in {"msg", "source", "level"} ==> ReplaceAttrChecked(groups, a).key !in {"msg", "source", "level"}
    ensures a.key !in {"msg", "source", "level"} ==> ReplaceAttrChecked(groups, a) == a
  {
  }

  /** The attributes the JSON handler writes for a record: its level and message as the
      built-in "level" and "msg" attributes, then its own, each passed through the checked
      `ReplaceAttr`. */
  function Written(rec: Record): (out: seq<Attr>)
    ensures |out| == 2 + |rec.attrs|
  {
    var all := [Attr("level", VLevel(rec.level)), Attr("msg", VString(rec.message))] + rec.attrs;
    seq(|all|, i requires 0 <= i < |all| => ReplaceAttrChecked([], all[i]))
  }

  /** Cloud Logging reads the severity first and the message second; a critical record's
      severity is "CRITICAL", every other level keeps its slog value. */
  lemma WrittenSeverity(rec: Record)
    ensures Written(rec)[0] == Attr("severity", if rec.level == LevelCritical then VString("CRITICAL") else VLevel(rec.level))
    ensures Written(rec)[1] == Attr("message", VString(rec.message))
  {
  }

  // ----- looking up attributes of a record -----

  /** `recordContainsAttr`: walks the attributes until one has the key. */
  method RecordContainsAttr(rec: Record, key: string) returns (result: bool)
    ensures result <==> HasKey(rec.attrs, key)
  {
    result := false;
    var i := 0;
    while i < |rec.attrs|
      invariant 0 <= i <= |rec.attrs|
      invariant forall j :: 0 <= j < i ==> rec.attrs[j].key != key
    {
      if rec.attrs[i].key == key {
        result := true;
        return;
      }
      i := i + 1;
    }
  }

  /** `recordContainsAttrWithValue`: compares `value` with the text of the first attribute
      with the key, or with "" when there is none. */
  method RecordContainsAttrWithValue(rec: Record, key: string, value: string) returns (matches: bool)
    ensures matches <==> FirstValue(rec.attrs, key) == value
  {
    var result := "";
    var i := 0;
    while i < |rec.attrs|
      invariant 0 <= i <= |rec.attrs|
      invariant FirstValue(rec.attrs, key) == FirstValue(rec.attrs[i..], key)
    {
      if rec.attrs[i].key == key {
        result := ValueText(rec.attrs[i].value);
        break;
      }
      assert rec.attrs[i..][1..] == rec.attrs[i + 1..];
      i := i + 1;
    }
    return result == value;
  }

  /** The value found is that of the first attribute with the key, so an absent key and a
      key holding "" cannot be told apart. */
  lemma {:induction false} FirstValueFound(attrs: seq<Attr>, key: string)
    ensures !HasKey(attrs, key) ==> FirstValue(attrs, key) == ""
    ensures forall i :: 0 <= i < |attrs| && attrs[i].key == key && (forall j :: 0 <= j < i ==> attrs[j].key != key) ==>
      FirstValue(attrs, key) == ValueText(attrs[i].value)
    decreases |attrs|
  {
    if attrs != [] {
      FirstValueFound(attrs[1..], key);
      if attrs[0].key != key {
        assert HasKey(attrs[1..], key) ==> HasKey(attrs, key) by {
          if HasKey(attrs[1..], key) {
            var k :| 0 <= k < |attrs[1..]| && attrs[1..][k].key == key;
            assert attrs[k + 1].key == key;
          }
        }
        forall i | 0 <= i < |attrs| && attrs[i].key == key && (forall j :: 0 <= j < i ==> attrs[j].key != key)
          ensures FirstValue(attrs, key) == ValueText(attrs[i].value)
        {
          assert attrs[1..][i - 1] == attrs[i];
          assert forall j :: 0 <= j < i - 1 ==> attrs[1..][j].key != key by {
            forall j | 0 <= j < i - 1 ensures attrs[1..][j].key != key {
              assert attrs[1..][j] == attrs[j + 1];
            }
          }
        }
      }
    }
  }

  // ----- the Cloud Logging handler -----

  /** The record `CloudLoggingHandler.Handle` passes on: the trace attribute after the
      record's own when a trace is known, then an "exception" holding the message and the
      stack when the record has an "error" attribute. */
  function CloudRecord(trace: string, rec: Record, stack: string): (out: Record)
    ensures out.level == rec.level && out.message == rec.message
    ensures |rec.attrs| <= |out.attrs| && out.attrs[..|rec.attrs|] == rec.attrs
    ensures (exists i :: |rec.attrs| <= i < |out.attrs| && out.attrs[i] == Attr(TraceKey, VString(trace))) <==> trace != ""
    ensures HasKey(out.attrs, "exception") <==> HasKey(rec.attrs, "error") || HasKey(rec.attrs, "exception")
  {
    var withTrace := if trace != "" then rec.attrs + [Attr(TraceKey, VString(trace))] else rec.attrs;
    var exception := if HasKey(rec.attrs, "error") then [Attr("exception", VString(rec.message + ":\n" + stack))] else [];
    var out := Record(rec.level, rec.message, withTrace + exception);
    assert out.attrs[..|rec.attrs|] == rec.attrs;
    assert TraceKey != "exception" by { assert |TraceKey| != |"exception"|; }
    assert trace != "" ==> out.attrs[|rec.attrs|] == Attr(TraceKey, VString(trace));
    assert HasKey(out.attrs, "exception") <==> HasKey(rec.attrs, "error") || HasKey(rec.attrs, "exception") by {
      if HasKey(out.attrs, "exception") {
        var k :| 0 <= k < |out.attrs| && out.attrs[k].key == "exception";
        if k < |rec.attrs| {
          assert rec.attrs[k] == out.attrs[k];
        }
      }
      if HasKey(rec.attrs, "exception") {
        var k :| 0 <= k < |rec.attrs| && rec.attrs[k].key == "exception";
        assert out.attrs[k] == rec.attrs[k];
      }
      if HasKey(rec.attrs, "error") {
        assert out.attrs[|withTrace|].key == "exception";
      }
    }
    out
  }

  /** `CloudLoggingHandler.Handle`, up to the JSON handler it delegates to. */
  method Handle(trace: Option<string>, rec: Record, stack: string) returns (out: Record)
    ensures out == CloudRecord(TraceFromContext(trace), rec, stack)
  {
    var t := TraceFromContext(trace);
    out := rec;
    if t != "" {
      out := Record(out.level, out.message, out.attrs + [Attr(TraceKey, VString(t))]);
    }
    var hasError := RecordContainsAttr(out, "error");
    assert HasKey(out.attrs, "error") <==> HasKey(rec.attrs, "error") by {
      if HasKey(out.attrs, "error") {
        var k :| 0 <= k < |out.attrs| && out.attrs[k].key == "error";
        assert k < |rec.attrs| && rec.attrs[k] == out.attrs[k];
      }
      if HasKey(rec.attrs, "error") {
        var k :| 0 <= k < |rec.attrs| && rec.attrs[k].key == "error";
        assert out.attrs[k] == rec.attrs[k];
      }
    }
    if hasError {
      out := Record(out.level, out.message, out.attrs + [Attr("exception", VString(out.message + ":\n" + stack))]);
    }
  }

  // ----- initialisation -----

  /** The middleware `SetupEchoGoogleCloudLogger` installs, in order. */
  datatype Middleware = CloudTraceContext(projectId: string) | Recover | RequestLogger

  /** The package's global state: whether `InitGoogleCloudLogger` ran, whether slog's
      default logger is the Cloud Logging one, and the middleware installed on the server. */
  class Setup {
    var didInitGoogleCloud: bool
    var cloudDefault: bool
    var middleware: seq<Middleware>

    constructor()
      ensures !didInitGoogleCloud && !cloudDefault && middleware == []
    {
      didInitGoogleCloud := false;
      cloudDefault := false;
      middleware := [];
    }

    /** `InitGoogleCloudLogger`: the first call installs the Cloud Logging handler as slog's
        default; any later call panics and changes nothing. */
    method InitGoogleCloudLogger() returns (panicked: Option<string>)
      modifies this
      ensures old(didInitGoogleCloud) ==>
        panicked == Some("double call to InitGoogleCloudLogger") &&
        didInitGoogleCloud && cloudDefault == old(cloudDefault) && middleware == old(middleware)
      ensures !old(didInitGoogleCloud) ==>
        panicked == None && didInitGoogleCloud && cloudDefault && middleware == old(middleware)
    {
      if didInitGoogleCloud {
        return Some("double call to InitGoogleCloudLogger");
      }
      cloudDefault := true;
      didInitGoogleCloud := true;
      panicked := None;
    }

    /** `SetupEchoGoogleCloudLogger`: panics unless the logger was initialised; otherwise
        adds the trace, recover and request-logger middleware. */
    method SetupEchoGoogleCloudLogger(projectId: string) returns (panicked: Option<string>)
      modifies this
      ensures !old(didInitGoogleCloud) ==>
        panicked == Some("cannot setup echo google cloud logger, InitGoogleCloudLogger should be called first") &&
        middleware == old(middleware)
      ensures old(didInitGoogleCloud) ==>
        panicked == None && middleware == old(middleware) + [CloudTraceContext(projectId), Recover, RequestLogger]
      ensures didInitGoogleCloud == old(didInitGoogleCloud) && cloudDefault == old(cloudDefault)
    {
      if !didInitGoogleCloud {
        return Some("cannot setup echo google cloud logger, InitGoogleCloudLogger should be called first");
      }
      middleware := middleware + [CloudTraceContext(projectId), Recover, RequestLogger];
      panicked := None;
    }
  }

  // ----- what the middleware logs -----

  /** A log call's effect: the record handed to the logger, or a panic of `err.Error()`. */
  datatype LogOutcome = Logged(rec: Record) | LogPanics

  /** The request logger's `LogValuesFunc`: a failed request is logged at error level unless
      its status is 404; everything else at info level. */
  function RequestLog(uri: string, status: int, err: Option<Error>): (r: LogOutcome)
    ensures r.Logged? && r.rec.level == LevelError <==> err.Some? && status != 404 && Formattable(err.value)
    ensures r == LogPanics <==> err.Some? && status != 404 && !Formattable(err.value)
    ensures r.Logged? && r.rec.level == LevelError ==>
      r.rec.message == "Request failed: " + Text(err.value) &&
      r.rec.attrs == [Attr("uri", VString(uri)), Attr("status", VInt(status)), Attr("error", VString(Text(err.value)))]
    ensures r.Logged? && r.rec.level != LevelError ==>
      r.rec == Record(LevelInfo, "Request successful", [Attr("uri", VString(uri)), Attr("status", VInt(status))])
  {
    if err.Some? && status != 404 then
      if !Formattable(err.value) then LogPanics
      else Logged(Record(LevelError, "Request failed: " + Text(err.value),
        [Attr("uri", VString(uri)), Attr("status", VInt(status)), Attr("error", VString(Text(err.value)))]))
    else Logged(Record(LevelInfo, "Request successful", [Attr("uri", VString(uri)), Attr("status", VInt(status))]))
  }

  /** A logged failure always reaches Cloud Logging with an exception; a success never. */
  lemma FailedRequestsCarryException(uri: string, status: int, err: Option<Error>, trace: string, stack: string)
    requires RequestLog(uri, status, err).Logged?
    ensures var rec := RequestLog(uri, status, err).rec;
      HasKey(CloudRecord(trace, rec, stack).attrs, "exception") <==> rec.level == LevelError
  {
    var rec := RequestLog(uri, status, err).rec;
    if rec.level == LevelError {
      assert rec.attrs[2].key == "error";
    } else {
      assert !HasKey(rec.attrs, "error") && !HasKey(rec.attrs, "exception") by {
        assert forall i :: 0 <= i < |rec.attrs| ==> rec.attrs[i].key in {"uri", "status"};
      }
    }
  }

  /** The recover middleware's log record for a panic, at the critical level. */
  function RecoverLog(uri: string, errText: string, stack: string): (rec: Record)
    ensures rec.level == LevelCritical && rec.message == "Recovered from panic: " + errText
    ensures FirstValue(rec.attrs, "error") == errText && FirstValue(rec.attrs, "uri") == uri
    ensures HasKey(rec.attrs, "error") && HasKey(rec.attrs, "stack_trace")
  {
    var attrs := [Attr("uri", VString(uri)), Attr("error", VString(errText)), Attr("stack_trace", VString(stack))];
    assert attrs[2].key == "stack_trace" && attrs[1].key == "error";
    assert |"uri"| != |"stack_trace"| && |"error"| != |"stack_trace"| && |"uri"| != |"error"|;
    Record(LevelCritical, "Recovered from panic: " + errText, attrs)
  }
}
