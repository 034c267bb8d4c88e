/** Server-sent event frames, and the reading a client gives them under the
    event-stream format of the WHATWG HTML Living Standard: lines as in
    section 9.2.5 ("Parsing an event stream"), fields and dispatch as in
    section 9.2.6 ("Interpreting an event stream"). Lines end with LF only here. */
module EventStream {

  /** A dispatched event: its type and its data. */
  datatype Event = Event(kind: string, data: string)

  predicate LineFree(s: string) {
    '\n' !in s && '\r' !in s
  }

  /** An event one frame can carry: a named type, no line break in either part. */
  predicate Framable(e: Event) {
    e.kind != "" && LineFree(e.kind) && LineFree(e.data)
  }

  /** The frame the server yields: `event: <type>\ndata: <payload>\n\n`. */
  function Render(e: Event): string {
    "event: " + e.kind + "\ndata: " + e.data + "\n\n"
  }

  /** What the subscriber receives: the frames one after the other. */
  function Wire(events: seq<Event>): string {
    if events == [] then "" else Render(events[0]) + Wire(events[1..])
  }

  /** Concatenation of the chunks a generator yields. */
  function Join(chunks: seq<string>): string {
    if chunks == [] then "" else chunks[0] + Join(chunks[1..])
  }

  /** Yielding each frame's text sends the wire form of the frames. */
  lemma {:induction false} JoinRendered(chunks: seq<string>, events: seq<Event>)
    requires |chunks| == |events|
    requires forall i :: 0 <= i < |chunks| ==> chunks[i] == Render(events[i])
    ensures Join(chunks) == Wire(events)
  {
    if chunks != [] {
      JoinRendered(chunks[1..], events[1..]);
    }
  }

  // ---------------------------------------------------------------------------
  // The client side.

  /** Index of the first `c` in `s`, or `|s|` when there is none. */
  function IndexOf(s: string, c: char): (k: nat)
    ensures k <= |s| && c !in s[..k]
    ensures k < |s| ==> s[k] == c
  {
    if s == [] then 0
    else if s[0] == c then 0
    else 1 + IndexOf(s[1..], c)
  }

  /** The complete (LF-terminated) lines of a stream; an unterminated last
      line is not yet a line. */
  function Lines(s: string): seq<string>
    decreases |s|
  {
    var k := IndexOf(s, '\n');
    if k == |s| then [] else [s[..k]] + Lines(s[k + 1..])
  }

  /** Splits a field line at its first colon; one leading space of the value
      is dropped. A line without a colon is a field with an empty value. */
  function FieldOf(line: string): (string, string) {
    var k := IndexOf(line, ':');
    if k == |line| then (line, "")
    else
      var value := line[k + 1..];
      (line[..k], if value != [] && value[0] == ' ' then value[1..] else value)
  }

  /** The parser's state: the event type buffer and the data buffer. */
  datatype Buffers = Buffers(kind: string, data: string)

  /** Processes one line: the new buffers and the events dispatched (none or one). */
  function Step(line: string, b: Buffers): (Buffers, seq<Event>) {
    if line == "" then
      // dispatch: nothing when the data buffer is empty; else drop its final LF
      if b.data == "" then (Buffers("", ""), [])
      else
        (Buffers("", ""),
         [Event(if b.kind == "" then "message" else b.kind,
                if b.data[|b.data| - 1] == '\n' then b.data[..|b.data| - 1] else b.data)])
    else if line[0] == ':' then (b, [])  // comment
    else
      var field := FieldOf(line);
      if field.0 == "event" then (b.(kind := field.1), [])
      else if field.0 == "data" then (b.(data := b.data + field.1 + "\n"), [])
      else (b, [])  // id, retry and unknown fields
  }

  /** Processes lines in order from the given buffers. */
  function Interpret(lines: seq<string>, b: Buffers): seq<Event>
    decreases |lines|
  {
    if lines == [] then []
    else
      var next := Step(lines[0], b);
      next.1 + Interpret(lines[1..], next.0)
  }

  const Initial: Buffers := Buffers("", "")

  /** The events a client dispatches on receiving `s`. */
  function Parse(s: string): seq<Event> {
    Interpret(Lines(s), Initial)
  }

  // ---------------------------------------------------------------------------
  // Round trip: a client reads back exactly the events the server framed.

  lemma {:induction false} IndexOfFirst(a: string, c: char, b: string)
    requires c !in a
    ensures IndexOf(a + [c] + b, c) == |a|
  {
    if a != [] {
      assert (a + [c] + b)[1..] == a[1..] + [c] + b;
      IndexOfFirst(a[1..], c, b);
    }
  }

  lemma LinesCons(a: string, b: string)
    requires '\n' !in a
    ensures Lines(a + "\n" + b) == [a] + Lines(b)
  {
    IndexOfFirst(a, '\n', b);
    var s := a + "\n" + b;
    assert s[..|a|] == a;
    assert s[|a| + 1..] == b;
  }

  lemma FieldOfPrefixed(name: string, value: string)
    requires ':' !in name
    ensures FieldOf(name + ": " + value) == (name, value)
  {
    var line := name + ": " + value;
    assert line == name + [':'] + (" " + value);
    IndexOfFirst(name, ':', " " + value);
    assert line[..|name|] == name;
    assert line[|name| + 1..] == " " + value;
  }

  lemma RenderSplit(e: Event, rest: string)
    ensures Render(e) + rest ==
            ("event: " + e.kind) + "\n" + (("data: " + e.data) + "\n" + ("" + "\n" + rest))
  {
  }

  /** One frame is three lines: the type field, the data field, the blank line. */
  lemma RenderLines(e: Event, rest: string)
    requires Framable(e)
    ensures Lines(Render(e) + rest) == ["event: " + e.kind, "data: " + e.data, ""] + Lines(rest)
  {
    var l1, l2 := "event: " + e.kind, "data: " + e.data;
    var s3 := "" + "\n" + rest;
    var s2 := l2 + "\n" + s3;
    calc {
      Lines(Render(e) + rest);
    == { RenderSplit(e, rest); }
      Lines(l1 + "\n" + s2);
    == { LinesCons(l1, s2); }
      [l1] + Lines(s2);
    == { LinesCons(l2, s3); }
      [l1] + ([l2] + Lines(s3));
    == { LinesCons("", rest); }
      [l1] + ([l2] + ([""] + Lines(rest)));
    ==
      [l1, l2, ""] + Lines(rest);
    }
  }

  lemma InterpretCons(line: string, lines: seq<string>, b: Buffers)
    ensures Interpret([line] + lines, b) == Step(line, b).1 + Interpret(lines, Step(line, b).0)
  {
  }

  /** Reading a frame's three lines from the initial state dispatches its event
      and returns to the initial state. */
  lemma InterpretFrame(e: Event, rest: seq<string>)
    requires Framable(e)
    ensures Interpret(["event: " + e.kind, "data: " + e.data, ""] + rest, Initial) ==
            [e] + Interpret(rest, Initial)
  {
    var l1, l2 := "event: " + e.kind, "data: " + e.data;
    FieldOfPrefixed("event", e.kind);
    FieldOfPrefixed("data", e.data);
    assert l1 == "event" + ": " + e.kind && l1[0] == 'e';
    assert l2 == "data" + ": " + e.data && l2[0] == 'd';
    var b1 := Buffers(e.kind, "");
    var b2 := Buffers(e.kind, "" + e.data + "\n");
    assert Step(l1, Initial) == (b1, []);
    assert Step(l2, b1) == (b2, []);
    assert b2.data[|b2.data| - 1] == '\n' && b2.data[..|b2.data| - 1] == e.data;
    assert Step("", b2) == (Initial, [e]);
    calc {
      Interpret([l1, l2, ""] + rest, Initial);
    == { assert [l1, l2, ""] + rest == [l1] + ([l2] + ([""] + rest)); }
      Interpret([l1] + ([l2] + ([""] + rest)), Initial);
    == { InterpretCons(l1, [l2] + ([""] + rest), Initial); }
      Interpret([l2] + ([""] + rest), b1);
    == { InterpretCons(l2, [""] + rest, b1); }
      Interpret([""] + rest, b2);
    == { InterpretCons("", rest, b2); }
      [e] + Interpret(rest, Initial);
    }
  }

  /** A client reads back exactly the events written, in order. */
  lemma {:induction false} ParseWire(events: seq<Event>)
    requires forall i :: 0 <= i < |events| ==> Framable(events[i])
    ensures Parse(Wire(events)) == events
  {
    if events != [] {
      RenderLines(events[0], Wire(events[1..]));
      InterpretFrame(events[0], Lines(Wire(events[1..])));
      ParseWire(events[1..]);
    }
  }
}
