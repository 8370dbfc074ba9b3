/** The response helpers every handler uses (handler_utils.go): toasts, template rendering,
    server-sent events, htmx redirects and pagination parameters. Rendering is an oracle
    from a component to what it writes and whether it failed. */
module HandlerUtils {
  import opened Wrappers
  import opened GoInt
  import opened Strings
  import opened Errors
  import opened Json
  import Sse
  import opened Http

  /** The components the handlers render; the resource a resource component is drawn for is
      fixed per handler and left implicit. */
  datatype Component<T> =
    | Layout(currentTab: string, children: seq<Component<T>>)
    | ResourceOverview(rows: seq<T>)
    | ResourceView(row: Option<T>, errors: Option<map<string, string>>)
    | ResourceCreate(row: Option<T>, errors: Option<map<string, string>>)
    | TableRows(rows: seq<T>)
    | NotFound(backUrl: string)
    | Toast(message: string, variant: int)
    | SessionExpired
    | ServerFailure(backUrl: string)

  /** What rendering one component writes, its error if it failed, and how `%+v` prints it. */
  datatype Rendered = Rendered(output: string, err: Option<Error>, printed: string)

  /** `templateInLayout`: the components inside the layout for `currentTab`. */
  function InLayout<T>(currentTab: string, children: seq<Component<T>>): (c: Component<T>)
    ensures c.Layout? && c.currentTab == currentTab && c.children == children
  {
    Layout(currentTab, children)
  }

  const ToastInfo: int := 0
  const ToastSuccess: int := 1
  const ToastError: int := 2

  /** `toastVariant.String`. */
  function VariantString(v: int): (s: string)
    ensures s == "error" <==> v == ToastError
    ensures s == "success" <==> v == ToastSuccess
    ensures s == "info" <==> v != ToastError && v != ToastSuccess
  {
    if v == ToastError then "error" else if v == ToastSuccess then "success" else "info"
  }

  /** `ToastConfig`; the duration is a Go `int`. */
  datatype ToastConfig = ToastConfig(message: string, durationMs: Int64, variant: int)

  const ToastTarget: string := "#toast-container"

  /** The `show-toast` object, with its keys in the order `json.Marshal` writes a map's keys. */
  function ToastPayload(t: ToastConfig): (j: Json)
    ensures j.JObject?
    ensures |j.members| == if t.durationMs > 0 then 4 else 3
    ensures t.durationMs > 0 ==> j.members[0] == ("durationMs", JInt(t.durationMs))
    ensures j.members[|j.members| - 3] == ("message", JString(t.message))
    ensures j.members[|j.members| - 2] == ("target", JString(ToastTarget))
    ensures j.members[|j.members| - 1] == ("variant", JString(VariantString(t.variant)))
  {
    var always := [("message", JString(t.message)), ("target", JString(ToastTarget)),
                   ("variant", JString(VariantString(t.variant)))];
    JObject(if t.durationMs > 0 then [("durationMs", JInt(t.durationMs))] + always else always)
  }

  /** The payload's keys are in the order `json.Marshal` writes the keys of a map. */
  lemma PayloadSorted(t: ToastConfig)
    ensures SortedKeys(ToastPayload(t).members)
  {
    var m := ToastPayload(t).members;
    var k0 := |m| - 3;
    assert m[k0].0 == "message" && m[k0 + 1].0 == "target" && m[k0 + 2].0 == "variant";
    assert "message"[0] == 'm' && "target"[0] == 't' && "variant"[0] == 'v' && "durationMs"[0] == 'd';
    forall k | 0 <= k < |m| ensures |m[k].0| > 0 {
      assert k == k0 - 1 || k == k0 || k == k0 + 1 || k == k0 + 2;
    }
    forall k | 0 <= k < |m| - 1 ensures m[k].0[0] < m[k + 1].0[0] {
      assert k == k0 - 1 || k == k0 || k == k0 + 1;
    }
    FirstCharsSorted(m);
  }

  /** Keys whose first characters increase are in key order. */
  lemma FirstCharsSorted(m: seq<(string, Json)>)
    requires forall k :: 0 <= k < |m| ==> |m[k].0| > 0
    requires forall k :: 0 <= k < |m| - 1 ==> m[k].0[0] < m[k + 1].0[0]
    ensures SortedKeys(m)
  {
    forall i, j | 0 <= i < j < |m| ensures KeyLess(m[i].0, m[j].0) {
      FirstCharsIncrease(m, i, j);
      assert m[i].0[..0] == m[j].0[..0];
    }
  }

  lemma {:induction false} FirstCharsIncrease(m: seq<(string, Json)>, i: nat, j: nat)
    requires forall k :: 0 <= k < |m| ==> |m[k].0| > 0
    requires forall k :: 0 <= k < |m| - 1 ==> m[k].0[0] < m[k + 1].0[0]
    requires i < j < |m|
    ensures m[i].0[0] < m[j].0[0]
    decreases j - i
  {
    if i + 1 < j {
      FirstCharsIncrease(m, i + 1, j);
    }
  }

  /** The value `triggerToast` gives the HX-Trigger header. */
  function ToastHeader(t: ToastConfig): string {
    Marshal(JObject([("show-toast", ToastPayload(t))]))
  }

  /** The three members every toast has, as written. */
  function AlwaysText(t: ToastConfig): string {
    MemberText("message", Quote(t.message)) + "," +
    (MemberText("target", Quote(ToastTarget)) + "," +
     MemberText("variant", Quote(VariantString(t.variant))))
  }

  lemma AlwaysMembers(t: ToastConfig)
    ensures var p := ToastPayload(t); MarshalMembers(p, |p.members| - 3) == AlwaysText(t)
  {
    var p := ToastPayload(t);
    var k := |p.members| - 3;
    var s2 := MemberText("variant", Quote(VariantString(t.variant)));
    var s1 := MemberText("target", Quote(ToastTarget)) + "," + s2;
    var s0 := MemberText("message", Quote(t.message)) + "," + s1;
    assert MarshalMembers(p, k + 2) == s2 by { MembersStep(p, k + 2); }
    assert MarshalMembers(p, k + 1) == s1 by { MembersStep(p, k + 1); }
    assert MarshalMembers(p, k) == s0 by { MembersStep(p, k); }
  }

  /** The payload as written: members in key order, the duration only when positive. */
  lemma PayloadText(t: ToastConfig)
    ensures Marshal(ToastPayload(t)) == "{" + (DurationText(t) + AlwaysText(t)) + "}"
  {
    PayloadMembers(t);
  }

  lemma PayloadMembers(t: ToastConfig)
    ensures MarshalMembers(ToastPayload(t), 0) == DurationText(t) + AlwaysText(t)
  {
    var p := ToastPayload(t);
    AlwaysMembers(t);
    if t.durationMs > 0 {
      MembersStep(p, 0);
    } else {
      assert DurationText(t) + AlwaysText(t) == AlwaysText(t);
    }
  }

  /** The duration member and its comma, present only for a positive duration. */
  function DurationText(t: ToastConfig): string {
    if t.durationMs > 0 then MemberText("durationMs", IntToString(t.durationMs)) + "," else ""
  }

  /** The header is the JSON text of `{"show-toast": payload}`; the message in it is a
      string literal, which reads back as the message by `Json.EscapeRoundTrip`. */
  lemma ToastHeaderText(t: ToastConfig)
    ensures ToastHeader(t) ==
      "{" + MemberText("show-toast", "{" + (DurationText(t) + AlwaysText(t)) + "}") + "}"
  {
    OuterText(t);
    PayloadText(t);
  }

  lemma OuterText(t: ToastConfig)
    ensures ToastHeader(t) == "{" + MemberText("show-toast", Marshal(ToastPayload(t))) + "}"
  {
    var outer := JObject([("show-toast", ToastPayload(t))]);
    assert MarshalMembers(outer, 0) == MemberText("show-toast", Marshal(ToastPayload(t))) by {
      MembersStep(outer, 0);
    }
  }

  /** `triggerToast`: sets HX-Trigger to the toast's JSON; marshalling strings and integers
      cannot fail, so the error is always nil. */
  method TriggerToast(r: Response, t: ToastConfig) returns (err: Option<Error>)
    modifies r
    ensures err == None
    ensures r.header == old(r.header)[CanonicalKey(HxTrigger) := ToastHeader(t)]
    ensures r.status == old(r.status) && r.committed == old(r.committed)
    ensures r.sentHeader == old(r.sentHeader) && r.body == old(r.body) && r.flushed == old(r.flushed)
  {
    r.SetHeader(HxTrigger, ToastHeader(t));
    err := None;
  }

  /** What rendering `comps` in order writes, and the error that stops it: the first failing
      component's error, wrapped with how that component prints. */
  function RenderAll<T>(render: Component<T> -> Rendered, comps: seq<Component<T>>): (string, Option<Error>)
    decreases |comps|
  {
    if comps == [] then ("", None)
    else
      var first := render(comps[0]);
      if first.err.Some? then
        (first.output, Some(Wrapped("failed to render template `" + first.printed + "`: ", first.err.value)))
      else
        var rest := RenderAll(render, comps[1..]);
        (first.output + rest.0, rest.1)
  }

  /** The outputs of the first `n` components, one after the other. */
  function Outputs<T>(render: Component<T> -> Rendered, comps: seq<Component<T>>, n: nat): string
    requires n <= |comps|
  {
    if n == 0 then "" else Outputs(render, comps, n - 1) + render(comps[n - 1]).output
  }

  lemma {:induction false} OutputsShift<T>(render: Component<T> -> Rendered, comps: seq<Component<T>>, n: nat)
    requires 0 < n <= |comps|
    ensures Outputs(render, comps, n) == render(comps[0]).output + Outputs(render, comps[1..], n - 1)
  {
    if n > 1 {
      OutputsShift(render, comps, n - 1);
      assert comps[1..][n - 2] == comps[n - 1];
    }
  }

  /** No component before index `k` fails. */
  predicate FirstErrorAt<T>(render: Component<T> -> Rendered, comps: seq<Component<T>>, k: nat)
    requires k <= |comps|
  {
    forall i :: 0 <= i < k ==> render(comps[i]).err.None?
  }

  /** When no component fails, every output is written and there is no error. */
  lemma {:induction false} RenderAllNoError<T>(render: Component<T> -> Rendered, comps: seq<Component<T>>)
    requires FirstErrorAt(render, comps, |comps|)
    ensures RenderAll(render, comps) == (Outputs(render, comps, |comps|), None)
    decreases |comps|
  {
    if comps != [] {
      var tail := comps[1..];
      assert render(comps[0]).err.None?;
      assert FirstErrorAt(render, tail, |tail|) by {
        forall i | 0 <= i < |tail| ensures render(tail[i]).err.None? {
          assert tail[i] == comps[i + 1];
        }
      }
      RenderAllNoError(render, tail);
      OutputsShift(render, comps, |comps|);
    }
  }

  /** Rendering stops at the first failing component, after writing its partial output,
      and reports that component's error wrapped with how it prints. */
  lemma {:induction false} RenderAllFirstError<T>(render: Component<T> -> Rendered, comps: seq<Component<T>>, k: nat)
    requires k < |comps| && render(comps[k]).err.Some? && FirstErrorAt(render, comps, k)
    ensures RenderAll(render, comps) == (Outputs(render, comps, k + 1),
      Some(Wrapped("failed to render template `" + render(comps[k]).printed + "`: ",
                   render(comps[k]).err.value)))
    decreases k
  {
    OutputsShift(render, comps, k + 1);
    if k == 0 {
      assert Outputs(render, comps, 1) == render(comps[0]).output;
    } else {
      var tail := comps[1..];
      assert render(comps[0]).err.None?;
      assert tail[k - 1] == comps[k];
      assert FirstErrorAt(render, tail, k - 1) by {
        forall i | 0 <= i < k - 1 ensures render(tail[i]).err.None? {
          assert tail[i] == comps[i + 1];
        }
      }
      RenderAllFirstError(render, tail, k - 1);
    }
  }

  /** Rendering the components from index `i` on: the first one, then the rest. */
  lemma RenderAllStep<T>(render: Component<T> -> Rendered, comps: seq<Component<T>>, i: nat)
    requires i < |comps|
    ensures var first := render(comps[i]);
      RenderAll(render, comps[i..]) ==
        if first.err.Some? then
          (first.output, Some(Wrapped("failed to render template `" + first.printed + "`: ", first.err.value)))
        else
          (first.output + RenderAll(render, comps[i + 1..]).0, RenderAll(render, comps[i + 1..]).1)
  {
    assert comps[i..][0] == comps[i];
    assert comps[i..][1..] == comps[i + 1..];
  }

  lemma Assoc<X>(a: seq<X>, b: seq<X>, c: seq<X>)
    ensures a + b + c == a + (b + c)
  {
  }

  const HtmlContentType: string := "text/html; charset=utf-8"

  /** The names of the response headers the helpers set, as the handlers spell them. */
  const ContentType: string := "Content-Type"
  const CacheControl: string := "Cache-Control"
  const HxTrigger: string := "HX-Trigger"
  const HxLocation: string := "HX-Location"

  /** `template`: sets the HTML content type, sends `code` (unless already sent), then
      renders each component in order into the body, stopping at the first failure. */
  method Template<T>(r: Response, code: int, comps: seq<Component<T>>, render: Component<T> -> Rendered)
    returns (err: Option<Error>)
    modifies r
    ensures r.header == old(r.header)[CanonicalKey(ContentType) := HtmlContentType]
    ensures r.committed
    ensures r.status == if old(r.committed) then old(r.status) else code
    ensures !old(r.committed) ==> r.sentHeader == r.header
    ensures r.body == old(r.body) + RenderAll(render, comps).0
    ensures err == RenderAll(render, comps).1
    ensures r.flushed == old(r.flushed)
  {
    r.SetHeader(ContentType, HtmlContentType);
    r.WriteHeader(code);
    var i := 0;
    while i < |comps|
      invariant 0 <= i <= |comps|
      invariant r.committed && r.header == old(r.header)[CanonicalKey(ContentType) := HtmlContentType]
      invariant r.status == if old(r.committed) then old(r.status) else code
      invariant !old(r.committed) ==> r.sentHeader == r.header
      invariant r.flushed == old(r.flushed)
      invariant r.body + RenderAll(render, comps[i..]).0 == old(r.body) + RenderAll(render, comps).0
      invariant RenderAll(render, comps[i..]).1 == RenderAll(render, comps).1
    {
      var out := render(comps[i]);
      RenderAllStep(render, comps, i);
      Assoc(r.body, out.output, RenderAll(render, comps[i + 1..]).0);
      r.Write(out.output);
      if out.err.Some? {
        return Some(Wrapped("failed to render template `" + out.printed + "`: ", out.err.value));
      }
      i := i + 1;
    }
    return None;
  }

  /** `startSseStream`: no caching, the event-stream content type, and status 200. */
  method StartSseStream(r: Response)
    modifies r
    ensures r.header == old(r.header)[CanonicalKey(CacheControl) := "no-store"]
                                     [CanonicalKey(ContentType) := "text/event-stream"]
    ensures r.committed && (!old(r.committed) ==> r.status == 200 && r.sentHeader == r.header)
    ensures old(r.committed) ==> r.status == old(r.status)
    ensures r.body == old(r.body) && r.flushed == old(r.flushed)
  {
    r.SetHeader(CacheControl, "no-store");
    r.SetHeader(ContentType, "text/event-stream");
    r.WriteHeader(200);
  }

  /** `sendSseEvent`: one frame, flushed at once. */
  method SendSseEvent(r: Response, name: string, data: string)
    modifies r
    ensures r.body == old(r.body) + Sse.Frame(name, data) && r.flushed == |r.body|
    ensures r.committed && r.status == old(r.status) && r.header == old(r.header)
    ensures old(r.committed) ==> r.sentHeader == old(r.sentHeader)
  {
    r.Write("event: " + name + "\ndata: " + data + "\n\n");
    r.Flush();
  }

  /** `templateEvent`: a frame whose data is the component's rendering, flushed at once;
      a render error is ignored and whatever was written stays. */
  method TemplateEvent<T>(r: Response, name: string, c: Component<T>, render: Component<T> -> Rendered)
    modifies r
    ensures r.body == old(r.body) + Sse.Frame(name, render(c).output) && r.flushed == |r.body|
    ensures r.committed && r.status == old(r.status) && r.header == old(r.header)
    ensures old(r.committed) ==> r.sentHeader == old(r.sentHeader)
  {
    r.Write("event: " + name + "\ndata: ");
    r.Write(render(c).output);
    r.Write("\n\n");
    r.Flush();
  }

  /** `htmxRedirect`: HX-Location names the target and the answer is 204 with no body. */
  method HtmxRedirect(r: Response, location: string) returns (err: Option<Error>)
    modifies r
    ensures err == None
    ensures r.header == old(r.header)[CanonicalKey(HxLocation) := location]
    ensures r.committed && (!old(r.committed) ==> r.status == 204 && r.sentHeader == r.header)
    ensures old(r.committed) ==> r.status == old(r.status)
    ensures r.body == old(r.body) && r.flushed == old(r.flushed)
  {
    r.SetHeader(HxLocation, location);
    r.WriteHeader(204);
    err := None;
  }

  /** `c.QueryParam(name)`: the first value, or "" when absent. */
  function QueryParam(query: map<string, string>, name: string): string {
    if name in query then query[name] else ""
  }

  /** One `Int(name, &dest)` step of echo's fail-fast query binder: an empty value leaves
      the destination as it is, anything else must be a 64-bit decimal integer. */
  function BindInt(query: map<string, string>, name: string, current: Int64): (r: Result<Int64, string>)
    ensures r.Err? ==> r.error == name
    ensures QueryParam(query, name) == "" ==> r == Ok(current)
  {
    var v := QueryParam(query, name);
    if v == "" then Ok(current)
    else match ParseInt(v)
      case None => Err(name)
      case Some(n) => Ok(n)
  }

  /** `paginationParams`: page and page size, 0 and 20 by default; the error names the
      first parameter that failed to bind. */
  function PaginationParams(query: map<string, string>): (r: Result<(Int64, Int64), string>)
    ensures QueryParam(query, "page") == "" && QueryParam(query, "pageSize") == "" ==> r == Ok((0, 20))
    ensures r.Err? <==>
      (QueryParam(query, "page") != "" && ParseInt(QueryParam(query, "page")).None?) ||
      (QueryParam(query, "pageSize") != "" && ParseInt(QueryParam(query, "pageSize")).None?)
    ensures r.Err? && QueryParam(query, "page") != "" && ParseInt(QueryParam(query, "page")).None? ==>
      r.error == "page"
  {
    match BindInt(query, "page", 0)
    case Err(e) => Err(e)
    case Ok(page) =>
      match BindInt(query, "pageSize", 20)
      case Err(e) => Err(e)
      case Ok(pageSize) => Ok((page, pageSize))
  }

  /** Any 64-bit page and page size written in decimal bind back to themselves: there is no
      range check, so negative values get through. */
  lemma PaginationRoundTrip(page: Int64, pageSize: Int64)
    ensures PaginationParams(map["page" := IntToString(page), "pageSize" := IntToString(pageSize)])
      == Ok((page, pageSize))
  {
    ParseIntRoundTrip(page);
    ParseIntRoundTrip(pageSize);
    var q := map["page" := IntToString(page), "pageSize" := IntToString(pageSize)];
    assert QueryParam(q, "page") == IntToString(page);
    assert QueryParam(q, "pageSize") == IntToString(pageSize);
  }
}
