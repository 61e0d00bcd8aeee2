// From the lines of a response body to the events in it: the part of the two line handlers
// that internal/proxies/openai/usage.go and internal/proxies/anthropic/usage.go have in common.

module EventLines {
  import opened Common
  import opened SseScan
  import opened Text

  function TrimLeft(s: string): string {
    if s != [] && IsSpace(s[0]) then TrimLeft(s[1..]) else s
  }

  function TrimRight(s: string): string {
    if s != [] && IsSpace(s[|s| - 1]) then TrimRight(s[..|s| - 1]) else s
  }

  /** The payload of a data line, unless it is empty or the end marker. */
  function Payload(line: string): Option<string> {
    if !("data:" <= line) then None
    else
      var payload := TrimRight(TrimLeft(line[5..]));
      if payload == "" || payload == "[DONE]" then None else Some(payload)
  }

  /** The events of a sequence of lines; decode is json.Unmarshal, None for its errors. */
  function EventsOf<E>(lines: seq<string>, decode: string -> Option<E>): seq<E> {
    if lines == [] then []
    else
      var e := EventOf(lines[|lines| - 1], decode);
      EventsOf(lines[..|lines| - 1], decode) + (if e.Some? then [e.value] else [])
  }

  function EventOf<E>(line: string, decode: string -> Option<E>): Option<E> {
    if Payload(line).Some? then decode(Payload(line).value) else None
  }

  lemma EventsSnoc<E>(lines: seq<string>, line: string, decode: string -> Option<E>)
    ensures EventOf(line, decode).None? ==> EventsOf(lines + [line], decode) == EventsOf(lines, decode)
    ensures EventOf(line, decode).Some? ==>
      EventsOf(lines + [line], decode) == EventsOf(lines, decode) + [EventOf(line, decode).value]
  {}

  // ---------------------------------------------------------------- what a line carries

  predicate Blank(w: string) {
    forall c <- w :: IsSpace(c)
  }

  /** Text that begins and ends with something other than white space. */
  predicate Trimmed(p: string) {
    p != "" && !IsSpace(p[0]) && !IsSpace(p[|p| - 1])
  }

  /** A data line with p in it, between white space. */
  predicate DataLine(line: string, w: string, p: string, w': string) {
    Blank(w) && Blank(w') && line == "data:" + w + p + w'
  }

  lemma {:induction false} TrimLeftDrops(w: string, s: string)
    requires Blank(w) && (s == "" || !IsSpace(s[0]))
    ensures TrimLeft(w + s) == s
    decreases |w|
  {
    if w == "" {
      assert w + s == s;
    } else {
      assert (w + s)[1..] == w[1..] + s;
      assert w[0] in w && forall c <- w[1..] :: c in w;
      TrimLeftDrops(w[1..], s);
    }
  }

  lemma {:induction false} TrimRightDrops(s: string, w: string)
    requires Blank(w) && (s == "" || !IsSpace(s[|s| - 1]))
    ensures TrimRight(s + w) == s
    decreases |w|
  {
    if w == "" {
      assert s + w == s;
    } else {
      var init := w[..|w| - 1];
      assert (s + w)[..|s + w| - 1] == s + init;
      assert w[|w| - 1] in w && forall c <- init :: c in w;
      TrimRightDrops(s, init);
    }
  }

  lemma {:induction false} TrimLeftSplits(s: string) returns (w: string)
    ensures Blank(w) && s == w + TrimLeft(s)
    ensures TrimLeft(s) == "" || !IsSpace(TrimLeft(s)[0])
  {
    if s != "" && IsSpace(s[0]) {
      var rest := TrimLeftSplits(s[1..]);
      w := [s[0]] + rest;
      Assoc([s[0]], rest, TrimLeft(s));
      assert s == [s[0]] + s[1..];
    } else {
      w := "";
    }
  }

  lemma {:induction false} TrimRightSplits(s: string) returns (w: string)
    ensures Blank(w) && s == TrimRight(s) + w
    ensures TrimRight(s) == "" || !IsSpace(TrimRight(s)[|TrimRight(s)| - 1])
  {
    if s != "" && IsSpace(s[|s| - 1]) {
      var rest := TrimRightSplits(s[..|s| - 1]);
      w := rest + [s[|s| - 1]];
      assert s == s[..|s| - 1] + [s[|s| - 1]];
    } else {
      w := "";
    }
  }

  lemma TrimmedBetween(w: string, p: string, w': string)
    requires Blank(w) && Blank(w') && (p == "" || Trimmed(p))
    ensures TrimRight(TrimLeft(w + p + w')) == p
  {
    if p == "" {
      assert Blank(w + w') && w + p + w' == (w + w') + "";
      TrimLeftDrops(w + w', "");
    } else {
      assert w + p + w' == w + (p + w');
      TrimLeftDrops(w, p + w');
      TrimRightDrops(p, w');
    }
  }

  lemma PayloadOfDataLine(line: string, w: string, p: string, w': string)
    requires DataLine(line, w, p, w') && (p == "" || Trimmed(p))
    ensures Payload(line) == if p == "" || p == "[DONE]" then None else Some(p)
  {
    assert line[5..] == w + p + w';
    TrimmedBetween(w, p, w');
  }

  /** What trimming takes away on either side. */
  lemma TrimSplits(s: string) returns (w: string, w': string)
    ensures Blank(w) && Blank(w') && s == w + TrimRight(TrimLeft(s)) + w'
    ensures TrimRight(TrimLeft(s)) == "" || Trimmed(TrimRight(TrimLeft(s)))
  {
    var left := TrimLeft(s);
    var p := TrimRight(left);
    w := TrimLeftSplits(s);
    w' := TrimRightSplits(left);
    Assoc(w, p, w');
    if p != "" {
      assert p[0] == left[0];
    }
  }

  /** A data line, taken apart. */
  lemma DataLineOf(line: string, p: string) returns (w: string, w': string)
    requires "data:" <= line && p == TrimRight(TrimLeft(line[5..]))
    ensures DataLine(line, w, p, w') && (p == "" || Trimmed(p))
  {
    var rest := line[5..];
    w, w' := TrimSplits(rest);
    assert line == "data:" + rest;
    DataLineFrom(line, rest, w, p, w');
  }

  lemma DataLineOfPayload(line: string)
    requires Payload(line).Some?
    ensures Trimmed(Payload(line).value) && exists w, w' :: DataLine(line, w, Payload(line).value, w')
  {
    var w, w' := DataLineOf(line, Payload(line).value);
  }

  lemma DataLineFrom(line: string, rest: string, w: string, p: string, w': string)
    requires Blank(w) && Blank(w') && line == "data:" + rest && rest == w + p + w'
    ensures DataLine(line, w, p, w')
  {
    assert "data:" + (w + p + w') == "data:" + w + p + w';
  }

  /**
   * A line carries p if and only if it is "data:" and p with white space around it, where p
   * is not empty, not "[DONE]" and has no white space at its ends.
   */
  lemma PayloadIff(line: string, p: string)
    ensures Payload(line) == Some(p)
       <==> Trimmed(p) && p != "[DONE]" && exists w, w' :: DataLine(line, w, p, w')
  {
    if Payload(line) == Some(p) {
      DataLineOfPayload(line);
    }
    if Trimmed(p) && exists w, w' :: DataLine(line, w, p, w') {
      var w, w' :| DataLine(line, w, p, w');
      PayloadOfDataLine(line, w, p, w');
    }
  }

  /** The event of a data line is what its text decodes to; "[DONE]" is none. */
  lemma EventOfDataLine<E>(line: string, w: string, p: string, w': string, decode: string -> Option<E>)
    requires DataLine(line, w, p, w') && Trimmed(p)
    ensures EventOf(line, decode) == if p == "[DONE]" then None else decode(p)
  {
    PayloadOfDataLine(line, w, p, w');
  }

  /** A line of another kind, and a data line without text, has no event. */
  lemma NoEvent<E>(line: string, decode: string -> Option<E>)
    requires !("data:" <= line) || Blank(line[5..])
    ensures EventOf(line, decode) == None
  {
    if "data:" <= line {
      assert DataLine(line, line[5..], "", "");
      PayloadOfDataLine(line, line[5..], "", "");
    }
  }

  // ---------------------------------------------------------------- what a body carries

  /** One server-sent event: its name and its data. */
  datatype Message = Message(name: string, data: string)

  /** Sent as an event line, a data line and an empty line. */
  function Wire(m: Message): string {
    "event: " + m.name + "\n" + ("data: " + m.data + "\n" + "\n")
  }

  function Body(ms: seq<Message>): string {
    if ms == [] then "" else Body(ms[..|ms| - 1]) + Wire(ms[|ms| - 1])
  }

  /** Both texts fit on a line, and the data has no white space around it. */
  predicate Sendable(m: Message) {
    Clean(m.name) && Clean(m.data) && Trimmed(m.data)
  }

  /** The messages that decode, in order; the end marker is none. */
  function Decoded<E>(ms: seq<Message>, decode: string -> Option<E>): seq<E> {
    if ms == [] then []
    else
      var last := ms[|ms| - 1];
      Decoded(ms[..|ms| - 1], decode)
      + (if last.data != "[DONE]" && decode(last.data).Some? then [decode(last.data).value] else [])
  }

  lemma FirstLine(x: string, rest: string)
    requires Clean(x)
    ensures CompleteLines(x + "\n" + rest) == [x] + CompleteLines(rest)
    ensures Remainder(x + "\n" + rest) == Remainder(rest)
  {
    NoNewlineExtends([], x);
    assert [] + x == x;
    assert x + "\n" + rest == x + ("\n" + rest);
    ReadOn([], x, "\n" + rest);
    TrimClean(x);
    assert ("\n" + rest)[1..] == rest;
  }

  lemma LinesOfWire(m: Message)
    requires Clean(m.name) && Clean(m.data)
    ensures CompleteLines(Wire(m)) == ["event: " + m.name, "data: " + m.data, ""]
    ensures Remainder(Wire(m)) == ""
  {
    FirstLine("event: " + m.name, "data: " + m.data + "\n" + "\n");
    FirstLine("data: " + m.data, "\n");
    assert "" + "\n" + "" == "\n";
    FirstLine("", "");
  }

  lemma {:induction false} EventsAppend<E>(a: seq<string>, b: seq<string>, decode: string -> Option<E>)
    ensures EventsOf(a + b, decode) == EventsOf(a, decode) + EventsOf(b, decode)
    decreases |b|
  {
    if b == [] {
      assert a + b == a;
    } else {
      var init, last := b[..|b| - 1], b[|b| - 1];
      assert a + b == (a + init) + [last] && b == init + [last];
      EventsAppend(a, init, decode);
      EventsSnoc(a + init, last, decode);
      EventsSnoc(init, last, decode);
    }
  }

  lemma EventsOfWire<E>(m: Message, decode: string -> Option<E>)
    requires Sendable(m)
    ensures EventsOf(CompleteLines(Wire(m)), decode) == Decoded([m], decode)
  {
    LinesOfWire(m);
    var name, data := "event: " + m.name, "data: " + m.data;
    assert name[0] == 'e' && !("data:" <= name);
    NoEvent(name, decode);
    assert DataLine(data, " ", m.data, "");
    EventOfDataLine(data, " ", m.data, "", decode);
    NoEvent("", decode);
    assert [name, data, ""] == [name] + [data] + [""];
    assert [name] == [] + [name];
    EventsSnoc([], name, decode);
    EventsSnoc([name], data, decode);
    EventsSnoc([name] + [data], "", decode);
    assert [m][..0] == [];
  }

  /**
   * A body sent message by message yields exactly the messages that decode, in order, and
   * leaves nothing over, so that the end of the body adds no event.
   */
  lemma {:induction false} BodyYieldsItsMessages<E>(ms: seq<Message>, decode: string -> Option<E>)
    requires forall m <- ms :: Sendable(m)
    ensures EventsOf(CompleteLines(Body(ms)), decode) == Decoded(ms, decode)
    ensures Remainder(Body(ms)) == "" && BatchLines(Body(ms)) == CompleteLines(Body(ms))
  {
    if ms != [] {
      var init, last := ms[..|ms| - 1], ms[|ms| - 1];
      assert last in ms && forall m <- init :: m in ms;
      BodyYieldsItsMessages(init, decode);
      ScanInTwoParts(Body(init), Wire(last));
      assert "" + Wire(last) == Wire(last);
      LinesOfWire(last);
      EventsOfWire(last, decode);
      EventsAppend(CompleteLines(Body(init)), CompleteLines(Wire(last)), decode);
    }
    BatchIsCompleteAndRest([], Body(ms));
  }
}
