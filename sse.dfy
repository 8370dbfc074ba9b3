/** Server-sent event framing, as the stream handler writes it and as a browser reads it
    back under section 9.2 of the WHATWG HTML Living Standard. */
module Sse {
  import opened Strings

  /** What `sendSseEvent` writes, and what `templateEvent` writes around a rendered component. */
  function Frame(name: string, data: string): string {
    "event: " + name + "\ndata: " + data + "\n\n"
  }

  /** An event as the reader dispatches it. */
  datatype Event = Event(eventType: string, data: string)

  /** The reader's event type and data buffers. */
  datatype Buffers = Buffers(eventType: string, data: string)

  const Empty: Buffers := Buffers("", "")

  predicate IsLineBreak(c: char) { c == '\n' || c == '\r' }

  predicate OneLine(s: string) { forall i :: 0 <= i < |s| ==> !IsLineBreak(s[i]) }

  /** The length of the first line of `s`: up to its first CR or LF. */
  function LineEnd(s: string): (k: nat)
    ensures k <= |s|
    decreases |s|
  {
    if s == [] || IsLineBreak(s[0]) then 0 else 1 + LineEnd(s[1..])
  }

  /** The value of a field line: what follows the first colon, less one leading space. */
  function FieldValue(line: string, field: string): string
    requires |field| <= |line|
  {
    if |field| == |line| then ""
    else
      var v := line[|field| + 1..];
      if |v| > 0 && v[0] == ' ' then v[1..] else v
  }

  /** Processing one line: a blank line dispatches (only when data was given, and without the
      data's last line feed), a line starting with a colon is a comment, `event` sets the type,
      `data` appends a line of data, and every other field is ignored here. */
  function ProcessLine(line: string, b: Buffers, out: seq<Event>): (Buffers, seq<Event>) {
    if line == [] then
      if b.data == "" then (Empty, out)
      else
        var d := if b.data[|b.data| - 1] == '\n' then b.data[..|b.data| - 1] else b.data;
        (Empty, out + [Event(if b.eventType == "" then "message" else b.eventType, d)])
    else if line[0] == ':' then (b, out)
    else
      var field := TakeUntil(line, ':');
      var value := FieldValue(line, field);
      if field == "event" then (b.(eventType := value), out)
      else if field == "data" then (b.(data := b.data + value + "\n"), out)
      else (b, out)
  }

  /** The events a reader dispatches for `s`, after those in `out`. A line ends at CR, LF or
      CRLF; an unterminated last line and any undispatched data are dropped. */
  function Parse(s: string, b: Buffers, out: seq<Event>): seq<Event>
    decreases |s|
  {
    var k := LineEnd(s);
    if k == |s| then out
    else
      var skip := if s[k] == '\r' && k + 1 < |s| && s[k + 1] == '\n' then k + 2 else k + 1;
      var (b1, out1) := ProcessLine(s[..k], b, out);
      Parse(s[skip..], b1, out1)
  }

  /** All frames of `events`, one after the other. */
  function Frames(events: seq<Event>): string
    decreases |events|
  {
    if events == [] then "" else Frame(events[0].eventType, events[0].data) + Frames(events[1..])
  }

  lemma {:induction false} LineEndAt(a: string, rest: string)
    requires OneLine(a)
    ensures LineEnd(a + "\n" + rest) == |a|
    decreases |a|
  {
    if a != [] {
      assert (a + "\n" + rest)[1..] == a[1..] + "\n" + rest;
      LineEndAt(a[1..], rest);
    }
  }

  /** Reading one line that ends in LF from the front of `s`. */
  lemma ReadLine(a: string, rest: string, b: Buffers, out: seq<Event>)
    requires OneLine(a)
    ensures Parse(a + "\n" + rest, b, out) ==
      var (b1, out1) := ProcessLine(a, b, out); Parse(rest, b1, out1)
  {
    var s := a + "\n" + rest;
    LineEndAt(a, rest);
    assert s[..|a|] == a;
    assert s[|a| + 1..] == rest;
  }

  lemma FieldLine(field: string, value: string)
    requires ':' !in field
    ensures var line := field + ": " + value;
      TakeUntil(line, ':') == field && FieldValue(line, field) == value
  {
    var line := field + ": " + value;
    assert line == field + [':'] + (" " + value);
    TakeUntilFirst(field, ':', " " + value);
    assert line[|field| + 1..] == " " + value;
  }

  /** One frame, read from the front of a stream in its initial state, dispatches one event
      with the frame's name and data, and leaves the reader in its initial state. */
  lemma FrameDecodes(name: string, data: string, rest: string, out: seq<Event>)
    requires name != "" && OneLine(name) && OneLine(data)
    ensures Parse(Frame(name, data) + rest, Empty, out) == Parse(rest, Empty, out + [Event(name, data)])
  {
    var l1 := "event: " + name;
    var l2 := "data: " + data;
    assert l1 == "event" + ": " + name;
    assert l2 == "data" + ": " + data;
    assert OneLine(l1) by { assert forall i :: 7 <= i < |l1| ==> l1[i] == name[i - 7]; }
    assert OneLine(l2) by { assert forall i :: 6 <= i < |l2| ==> l2[i] == data[i - 6]; }
    var r2 := "" + "\n" + rest;
    var r1 := l2 + "\n" + r2;
    assert Frame(name, data) + rest == l1 + "\n" + r1;
    FieldLine("event", name);
    var b1 := Buffers(name, "");
    assert ProcessLine(l1, Empty, out) == (b1, out);
    ReadLine(l1, r1, Empty, out);
    FieldLine("data", data);
    var b2 := Buffers(name, data + "\n");
    assert l2 != [] && l2[0] == 'd';
    assert b1.data + data + "\n" == data + "\n";
    assert ProcessLine(l2, b1, out) == (b2, out);
    ReadLine(l2, r2, b1, out);
    assert (data + "\n")[..|data|] == data;
    assert ProcessLine("", b2, out) == (Empty, out + [Event(name, data)]);
    ReadLine("", rest, b2, out);
  }

  /** An event whose frame carries it intact: a non-empty name, and name and data on one line. */
  predicate Plain(e: Event) {
    e.eventType != "" && OneLine(e.eventType) && OneLine(e.data)
  }

  /** A stream made of frames whose names and data are single non-empty lines reads back as
      exactly those events, in order. */
  lemma {:induction false} FramesDecode(events: seq<Event>, out: seq<Event>)
    requires forall i :: 0 <= i < |events| ==> Plain(events[i])
    ensures Parse(Frames(events), Empty, out) == out + events
    decreases |events|
  {
    if events == [] {
      assert Frames(events) == "";
      assert LineEnd("") == 0;
    } else {
      var e := events[0];
      var tail := events[1..];
      assert Plain(e);
      FrameStep(events, out);
      assert forall i :: 0 <= i < |tail| ==> Plain(tail[i]) by {
        forall i | 0 <= i < |tail| ensures Plain(tail[i]) { assert tail[i] == events[i + 1]; }
      }
      FramesDecode(tail, out + [e]);
      AppendFirst(out, events);
    }
  }


  lemma FrameStep(events: seq<Event>, out: seq<Event>)
    requires events != [] && Plain(events[0])
    ensures Parse(Frames(events), Empty, out) == Parse(Frames(events[1..]), Empty, out + [events[0]])
  {
    var e := events[0];
    var t := Frames(events[1..]);
    assert Frames(events) == Frame(e.eventType, e.data) + t;
    FrameDecodes(e.eventType, e.data, t, out);
  }

  lemma AppendFirst<X>(front: seq<X>, xs: seq<X>)
    requires xs != []
    ensures front + [xs[0]] + xs[1..] == front + xs
  {
    assert xs == [xs[0]] + xs[1..];
  }
}
