/** The streamed index (handlers.go, `HandleResourceIndexStream`): rows are sent as
    server-sent events, one "row" event per page, at most two pages of 50, then an "end"
    event. The request context's cancellation is an oracle saying, for each page, whether
    the context was found done after that page was fetched. */
module HandlersStream {
  import opened Wrappers
  import opened Strings
  import opened Errors
  import opened Resources
  import opened Http
  import opened HandlerUtils
  import Sse

  const PageSize: int := 50
  const MaxPages: nat := 2

  /** The error `c.Error` reports for a request that does not accept an event stream; the
      message prints the header with `%s`, so nothing is wrapped. */
  function WrongAccept(accept: string): Error {
    Opaque("*errors.errorString", "stream requested with wront accept header: " + accept)
  }

  /** The events the loop sends from `page` on, and the error it returns: a fetch error
      ends the stream without an "end" event (silently for a cancelled context), a done
      context ends it silently, and leaving the loop sends "end". */
  function StreamFrom<T>(res: Resource<T>, doneAfter: nat -> bool, render: Component<T> -> Rendered,
                         page: nat, hasNextPage: bool): (r: (seq<Sse.Event>, Option<Error>))
    decreases MaxPages - page
  {
    if !(hasNextPage && page < MaxPages) then ([Sse.Event("end", "")], None)
    else
      var p := res.fetchPage(page, PageSize);
      if p.err.Some? then
        ([], if Is(p.err.value, Canceled) then None else Some(Wrapped("failed to fetch page: ", p.err.value)))
      else if doneAfter(page) then ([], None)
      else
        var rest := StreamFrom(res, doneAfter, render, page + 1, |p.rows| == PageSize);
        ([Sse.Event("row", render(TableRows(p.rows)).output)] + rest.0, rest.1)
  }

  /** The whole stream of one request. */
  function Stream<T>(res: Resource<T>, doneAfter: nat -> bool, render: Component<T> -> Rendered): (seq<Sse.Event>, Option<Error>) {
    StreamFrom(res, doneAfter, render, 0, true)
  }

  /** One turn of the loop, in terms of the frames written. */
  lemma StreamStep<T>(res: Resource<T>, doneAfter: nat -> bool, render: Component<T> -> Rendered, page: nat, hasNextPage: bool)
    requires hasNextPage && page < MaxPages
    requires res.fetchPage(page, PageSize).err.None? && !doneAfter(page)
    ensures var p := res.fetchPage(page, PageSize);
      var rest := StreamFrom(res, doneAfter, render, page + 1, |p.rows| == PageSize);
      Sse.Frames(StreamFrom(res, doneAfter, render, page, hasNextPage).0) ==
        Sse.Frame("row", render(TableRows(p.rows)).output) + Sse.Frames(rest.0) &&
      StreamFrom(res, doneAfter, render, page, hasNextPage).1 == rest.1
  {
    var p := res.fetchPage(page, PageSize);
    var rest := StreamFrom(res, doneAfter, render, page + 1, |p.rows| == PageSize);
    var events := [Sse.Event("row", render(TableRows(p.rows)).output)] + rest.0;
    assert events[1..] == rest.0;
  }

  /** Sending the page's "row" frame keeps the body on course for the whole stream. */
  lemma StreamKeeps<T>(res: Resource<T>, doneAfter: nat -> bool, render: Component<T> -> Rendered,
                       page: nat, hasNextPage: bool, body: string, target: string)
    requires hasNextPage && page < MaxPages
    requires res.fetchPage(page, PageSize).err.None? && !doneAfter(page)
    requires body + Sse.Frames(StreamFrom(res, doneAfter, render, page, hasNextPage).0) == target
    ensures var p := res.fetchPage(page, PageSize);
      var rest := StreamFrom(res, doneAfter, render, page + 1, |p.rows| == PageSize);
      body + Sse.Frame("row", render(TableRows(p.rows)).output) + Sse.Frames(rest.0) == target &&
      StreamFrom(res, doneAfter, render, page, hasNextPage).1 == rest.1
  {
    var p := res.fetchPage(page, PageSize);
    var rest := StreamFrom(res, doneAfter, render, page + 1, |p.rows| == PageSize);
    StreamStep(res, doneAfter, render, page, hasNextPage);
    Assoc(body, Sse.Frame("row", render(TableRows(p.rows)).output), Sse.Frames(rest.0));
  }

  /** A failed fetch or a done context: nothing more is sent. */
  lemma StreamStops<T>(res: Resource<T>, doneAfter: nat -> bool, render: Component<T> -> Rendered, page: nat, hasNextPage: bool)
    requires hasNextPage && page < MaxPages
    requires res.fetchPage(page, PageSize).err.Some? || doneAfter(page)
    ensures Sse.Frames(StreamFrom(res, doneAfter, render, page, hasNextPage).0) == ""
    ensures var e := res.fetchPage(page, PageSize).err;
      StreamFrom(res, doneAfter, render, page, hasNextPage).1 ==
        if e.Some? && !Is(e.value, Canceled) then Some(Wrapped("failed to fetch page: ", e.value)) else None
  {
  }

  /** Leaving the loop: only the "end" frame is left. */
  lemma StreamEnds<T>(res: Resource<T>, doneAfter: nat -> bool, render: Component<T> -> Rendered, page: nat, hasNextPage: bool)
    requires !(hasNextPage && page < MaxPages)
    ensures Sse.Frames(StreamFrom(res, doneAfter, render, page, hasNextPage).0) == Sse.Frame("end", "")
    ensures StreamFrom(res, doneAfter, render, page, hasNextPage).1 == None
  {
    var events := StreamFrom(res, doneAfter, render, page, hasNextPage).0;
    assert events == [Sse.Event("end", "")];
    assert events[1..] == [];
  }

  /** `HandleResourceIndexStream`. A request that does not accept an event stream is
      handed to `c.Error`, whose HTTP error handler writes the reply; the stream itself
      writes nothing. Otherwise the stream is started
      and the body receives exactly the frames of `Stream`. */
  method HandleResourceIndexStream<T>(r: Response, accept: string, res: Resource<T>,
                                      doneAfter: nat -> bool, render: Component<T> -> Rendered)
    returns (reported: Option<Error>, err: Option<Error>)
    modifies r
    ensures !HasPrefix(accept, "text/event-stream") ==>
      reported == Some(WrongAccept(accept)) && err == None &&
      r.header == old(r.header) && r.body == old(r.body) && r.committed == old(r.committed) && r.status == old(r.status)
    ensures HasPrefix(accept, "text/event-stream") ==>
      reported == None &&
      r.header == old(r.header)[CanonicalKey(CacheControl) := "no-store"][CanonicalKey(ContentType) := "text/event-stream"] &&
      r.committed && (!old(r.committed) ==> r.status == 200) &&
      r.body == old(r.body) + Sse.Frames(Stream(res, doneAfter, render).0) &&
      err == Stream(res, doneAfter, render).1
  {
    if !HasPrefix(accept, "text/event-stream") {
      return Some(WrongAccept(accept)), None;
    }
    reported := None;
    StartSseStream(r);
    err := SendPages(r, res, doneAfter, render);
  }

  /** The loop of `HandleResourceIndexStream` on a started stream: the body receives the
      frames of `Stream`, and the error returned is the one `Stream` ends with. */
  method SendPages<T>(r: Response, res: Resource<T>, doneAfter: nat -> bool, render: Component<T> -> Rendered)
    returns (err: Option<Error>)
    modifies r
    requires r.committed
    ensures r.header == old(r.header) && r.committed && r.status == old(r.status)
    ensures r.body == old(r.body) + Sse.Frames(Stream(res, doneAfter, render).0)
    ensures err == Stream(res, doneAfter, render).1
  {
    ghost var goal := old(r.body) + Sse.Frames(Stream(res, doneAfter, render).0);
    ghost var goalErr := Stream(res, doneAfter, render).1;
    var hasNextPage := true;
    var page := 0;
    while hasNextPage && page < MaxPages
      invariant 0 <= page <= MaxPages
      invariant r.header == old(r.header) && r.committed && r.status == old(r.status)
      invariant r.body + Sse.Frames(StreamFrom(res, doneAfter, render, page, hasNextPage).0) == goal
      invariant StreamFrom(res, doneAfter, render, page, hasNextPage).1 == goalErr
      decreases MaxPages - page
    {
      var p := res.fetchPage(page, PageSize);
      if p.err.Some? || doneAfter(page) {
        StreamStops(res, doneAfter, render, page, hasNextPage);
        if p.err.Some? && !Is(p.err.value, Canceled) {
          return Some(Wrapped("failed to fetch page: ", p.err.value));
        }
        return None;
      }
      StreamKeeps(res, doneAfter, render, page, hasNextPage, r.body, goal);
      TemplateEvent(r, "row", TableRows(p.rows), render);
      page := page + 1;
      hasNextPage := |p.rows| == PageSize;
    }
    StreamEnds(res, doneAfter, render, page, hasNextPage);
    SendSseEvent(r, "end", "");
    err := None;
  }

  /** Pages are requested from 0 on and never past the second: the stream holds at most two
      "row" events, and after them either "end" or nothing. */
  lemma {:induction false} StreamShape<T>(res: Resource<T>, doneAfter: nat -> bool, render: Component<T> -> Rendered,
                                          page: nat, hasNextPage: bool)
    requires page <= MaxPages
    ensures var events := StreamFrom(res, doneAfter, render, page, hasNextPage).0;
      |events| <= MaxPages - page + 1 &&
      (forall i :: 0 <= i < |events| - 1 ==> events[i].eventType == "row") &&
      (events != [] && events[|events| - 1].eventType == "end" ==> StreamFrom(res, doneAfter, render, page, hasNextPage).1.None?)
    decreases MaxPages - page
  {
    if hasNextPage && page < MaxPages {
      var p := res.fetchPage(page, PageSize);
      if p.err.None? && !doneAfter(page) {
        var rest := StreamFrom(res, doneAfter, render, page + 1, |p.rows| == PageSize);
        StreamShape(res, doneAfter, render, page + 1, |p.rows| == PageSize);
        var events := [Sse.Event("row", render(TableRows(p.rows)).output)] + rest.0;
        assert forall i :: 1 <= i < |events| ==> events[i] == rest.0[i - 1];
      }
    }
  }

  /** A first page shorter than 50 rows is the only one: one "row" event, then "end". */
  lemma ShortFirstPage<T>(res: Resource<T>, doneAfter: nat -> bool, render: Component<T> -> Rendered)
    requires res.fetchPage(0, PageSize).err.None? && |res.fetchPage(0, PageSize).rows| != PageSize
    requires !doneAfter(0)
    ensures Stream(res, doneAfter, render) ==
      ([Sse.Event("row", render(TableRows(res.fetchPage(0, PageSize).rows)).output), Sse.Event("end", "")], None)
  {
    var p := res.fetchPage(0, PageSize);
    var rest := StreamFrom(res, doneAfter, render, 1, false);
    assert rest == ([Sse.Event("end", "")], None);
    var row := Sse.Event("row", render(TableRows(p.rows)).output);
    assert [row] + rest.0 == [row, Sse.Event("end", "")];
  }

  /** Two full pages give two "row" events and "end"; a third page is never requested. */
  lemma TwoFullPages<T>(res: Resource<T>, doneAfter: nat -> bool, render: Component<T> -> Rendered)
    requires forall page :: 0 <= page < MaxPages ==>
      res.fetchPage(page, PageSize).err.None? && |res.fetchPage(page, PageSize).rows| == PageSize && !doneAfter(page)
    ensures Stream(res, doneAfter, render) ==
      ([Sse.Event("row", render(TableRows(res.fetchPage(0, PageSize).rows)).output),
        Sse.Event("row", render(TableRows(res.fetchPage(1, PageSize).rows)).output),
        Sse.Event("end", "")], None)
  {
    var p0 := res.fetchPage(0, PageSize);
    var p1 := res.fetchPage(1, PageSize);
    assert p0.err.None? && |p0.rows| == PageSize && !doneAfter(0);
    assert p1.err.None? && |p1.rows| == PageSize && !doneAfter(1);
    var last := StreamFrom(res, doneAfter, render, 2, true);
    assert last == ([Sse.Event("end", "")], None);
    var row0 := Sse.Event("row", render(TableRows(p0.rows)).output);
    var row1 := Sse.Event("row", render(TableRows(p1.rows)).output);
    var second := StreamFrom(res, doneAfter, render, 1, true);
    assert second == ([row1] + last.0, None);
    assert [row0] + ([row1] + last.0) == [row0, row1, Sse.Event("end", "")];
  }

  /** A cancelled first fetch, or a context found done after it, ends the stream with no
      event and no error. */
  lemma CancelledStreamIsEmpty<T>(res: Resource<T>, doneAfter: nat -> bool, render: Component<T> -> Rendered, context: string)
    requires res.fetchPage(0, PageSize).err == Some(Canceled) ||
      res.fetchPage(0, PageSize).err == Some(Wrapped(context, Canceled)) ||
      (res.fetchPage(0, PageSize).err.None? && doneAfter(0))
    ensures Stream(res, doneAfter, render) == ([], None)
  {
    assert 0 < MaxPages;
    if res.fetchPage(0, PageSize).err == Some(Wrapped(context, Canceled)) {
      assert Is(Wrapped(context, Canceled), Canceled);
    }
  }

  /** A page whose rendering has no line break. */
  predicate PageOnOneLine<T>(render: Component<T> -> Rendered, rows: seq<T>) {
    Sse.OneLine(render(TableRows(rows)).output)
  }

  /** An event-stream reader receives exactly the events sent, provided each rendered page
      fits on one line. */
  lemma {:induction false} ClientReadsStream<T>(res: Resource<T>, doneAfter: nat -> bool, render: Component<T> -> Rendered,
                                                page: nat, hasNextPage: bool)
    requires page <= MaxPages
    requires forall rows :: PageOnOneLine(render, rows)
    ensures var events := StreamFrom(res, doneAfter, render, page, hasNextPage).0;
      Sse.Parse(Sse.Frames(events), Sse.Empty, []) == events
    decreases MaxPages - page
  {
    var events := StreamFrom(res, doneAfter, render, page, hasNextPage).0;
    forall i | 0 <= i < |events| ensures Sse.Plain(events[i]) {
      StreamPlain(res, doneAfter, render, page, hasNextPage, i);
    }
    Sse.FramesDecode(events, []);
  }

  lemma {:induction false} StreamPlain<T>(res: Resource<T>, doneAfter: nat -> bool, render: Component<T> -> Rendered,
                                          page: nat, hasNextPage: bool, i: nat)
    requires page <= MaxPages
    requires forall rows :: PageOnOneLine(render, rows)
    requires i < |StreamFrom(res, doneAfter, render, page, hasNextPage).0|
    ensures Sse.Plain(StreamFrom(res, doneAfter, render, page, hasNextPage).0[i])
    decreases MaxPages - page
  {
    var events := StreamFrom(res, doneAfter, render, page, hasNextPage).0;
    if !(hasNextPage && page < MaxPages) {
      assert events[i] == Sse.Event("end", "");
      assert Sse.OneLine("end");
    } else {
      var p := res.fetchPage(page, PageSize);
      var rest := StreamFrom(res, doneAfter, render, page + 1, |p.rows| == PageSize);
      if i == 0 {
        assert events[0] == Sse.Event("row", render(TableRows(p.rows)).output);
        assert Sse.OneLine("row");
        assert PageOnOneLine(render, p.rows);
      } else {
        assert events[i] == rest.0[i - 1];
        StreamPlain(res, doneAfter, render, page + 1, |p.rows| == PageSize, i - 1);
      }
    }
  }
}
