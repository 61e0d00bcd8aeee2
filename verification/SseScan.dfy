// The incremental line scanner of the usage proxies: ScanSSELines and SSEInterceptor
// (internal/proxies/proxycommon/usage.go, interceptor.go). A body is a string of bytes.

module SseScan {
  import opened Common

  const LF: char := '\n'
  const CR: char := '\r'

  /** strings.TrimRight(s, "\r\n"): every trailing CR and LF goes. */
  function TrimEol(s: string): string {
    if s != [] && (s[|s| - 1] == CR || s[|s| - 1] == LF) then TrimEol(s[..|s| - 1]) else s
  }

  // The reference reads a body byte by byte; cur is the line begun and not yet ended.

  /** The newline-terminated lines, trimmed. */
  function Complete(cur: string, b: string): seq<string>
    decreases |b|
  {
    if b == [] then []
    else if b[0] == LF then [TrimEol(cur)] + Complete([], b[1..])
    else Complete(cur + [b[0]], b[1..])
  }

  /** What follows the last newline. */
  function Rest(cur: string, b: string): string
    decreases |b|
  {
    if b == [] then cur
    else if b[0] == LF then Rest([], b[1..])
    else Rest(cur + [b[0]], b[1..])
  }

  /** All lines of a whole body; a final unterminated line counts if it is not empty. */
  function Batch(cur: string, b: string): seq<string>
    decreases |b|
  {
    if b == [] then LastLine(cur)
    else if b[0] == LF then [TrimEol(cur)] + Batch([], b[1..])
    else Batch(cur + [b[0]], b[1..])
  }

  function LastLine(rest: string): seq<string> {
    if rest == [] then [] else [rest]
  }

  function CompleteLines(b: string): seq<string> { Complete([], b) }
  function Remainder(b: string): string { Rest([], b) }
  function BatchLines(b: string): seq<string> { Batch([], b) }

  lemma {:induction false} BatchIsCompleteAndRest(cur: string, b: string)
    ensures Batch(cur, b) == Complete(cur, b) + LastLine(Rest(cur, b))
    decreases |b|
  {
    if b != [] {
      if b[0] == LF {
        BatchIsCompleteAndRest([], b[1..]);
        Assoc([TrimEol(cur)], Complete([], b[1..]), LastLine(Rest([], b[1..])));
      } else {
        BatchIsCompleteAndRest(cur + [b[0]], b[1..]);
      }
    }
  }

  lemma {:induction false} RestHasNoNewline(cur: string, b: string)
    requires LF !in cur
    ensures LF !in Rest(cur, b)
    decreases |b|
  {
    if b != [] {
      RestHasNoNewline(if b[0] == LF then [] else cur + [b[0]], b[1..]);
    }
  }

  /** Reading on after a part of the body needs nothing of that part but its rest. */
  lemma {:induction false} ReadOn(cur: string, a: string, b: string)
    ensures Complete(cur, a + b) == Complete(cur, a) + Complete(Rest(cur, a), b)
    ensures Rest(cur, a + b) == Rest(Rest(cur, a), b)
    decreases |a|
  {
    if a == [] {
      assert a + b == b;
    } else {
      assert (a + b)[1..] == a[1..] + b;
      if a[0] == LF {
        ReadOn([], a[1..], b);
        Assoc([TrimEol(cur)], Complete([], a[1..]), Complete(Rest([], a[1..]), b));
      } else {
        ReadOn(cur + [a[0]], a[1..], b);
      }
    }
  }

  /** Bytes without a newline only extend the line begun. */
  lemma {:induction false} NoNewlineExtends(cur: string, b: string)
    requires LF !in b
    ensures Complete(cur, b) == [] && Rest(cur, b) == cur + b && Batch(cur, b) == LastLine(cur + b)
    decreases |b|
  {
    if b != [] {
      assert b[0] in b && (forall c <- b[1..] :: c in b);
      NoNewlineExtends(cur + [b[0]], b[1..]);
      assert cur + [b[0]] + b[1..] == cur + b;
    } else {
      assert cur + b == cur;
    }
  }

  /** Buffering the rest and scanning it again with more bytes loses and repeats nothing. */
  lemma ScanInTwoParts(a: string, b: string)
    ensures CompleteLines(a + b) == CompleteLines(a) + CompleteLines(Remainder(a) + b)
    ensures Remainder(a + b) == Remainder(Remainder(a) + b)
  {
    var r := Remainder(a);
    ReadOn([], a, b);
    ReadOn([], r, b);
    RestHasNoNewline([], a);
    NoNewlineExtends([], r);
    assert [] + r == r;
  }

  /** Between reads the buffer is exactly the bytes after the last newline. */
  lemma RemainderIsAfterLastNewline(b: string) returns (before: string)
    ensures b == before + Remainder(b) && LF !in Remainder(b)
    ensures before == [] || before[|before| - 1] == LF
    decreases |b|
  {
    RestHasNoNewline([], b);
    if LF in b {
      var k := LastNewline(b);
      before := b[..k + 1];
      var tail := b[k + 1..];
      assert b == before + tail && before == b[..k] + [LF];
      ReadOn([], before, tail);
      ReadOn([], b[..k], [LF]);
      assert [LF][1..] == [];
      NoNewlineExtends([], tail);
      assert [] + tail == tail;
    } else {
      before := [];
      NoNewlineExtends([], b);
      assert [] + b == b;
    }
  }

  lemma {:induction false} LastNewline(b: string) returns (k: nat)
    requires LF in b
    ensures k < |b| && b[k] == LF && LF !in b[k + 1..]
    decreases |b|
  {
    if b[|b| - 1] == LF {
      k := |b| - 1;
    } else {
      var init := b[..|b| - 1];
      assert b == init + [b[|b| - 1]];
      k := LastNewline(init);
      assert b[k + 1..] == init[k + 1..] + [b[|b| - 1]];
    }
  }

  // ---------------------------------------------------------------- the interceptor

  /** buf, the onLine calls made so far, and whether and how often onClose was called. */
  datatype Scanner = Scanner(buf: string, delivered: seq<string>, flushed: bool, closes: nat)

  const FRESH := Scanner([], [], false, 0)

  /** One Read: the bytes it yielded and whether it returned io.EOF. */
  datatype Chunk = Chunk(bytes: string, eof: bool)

  /** What scanning leaves: complete lines go out; at the end of the body so does the rest. */
  function Scanned(s: Scanner, eof: bool): Scanner {
    if eof then s.(buf := [], delivered := s.delivered + BatchLines(s.buf))
    else s.(buf := Remainder(s.buf), delivered := s.delivered + CompleteLines(s.buf))
  }

  function AfterRead(s: Scanner, c: Chunk): Scanner {
    var s1 := if c.bytes != [] then Scanned(s.(buf := s.buf + c.bytes), false) else s;
    if c.eof then Scanned(s1, true) else s1
  }

  function AfterReads(s: Scanner, cs: seq<Chunk>): Scanner {
    if cs == [] then s else AfterRead(AfterReads(s, cs[..|cs| - 1]), cs[|cs| - 1])
  }

  function Bytes(cs: seq<Chunk>): string {
    if cs == [] then [] else Bytes(cs[..|cs| - 1]) + cs[|cs| - 1].bytes
  }

  /**
   * Streaming equals batch: however a body is split into reads, what was delivered so far is
   * the complete lines of what was read so far, and the buffer is what follows the last newline.
   */
  lemma {:induction false} StreamingEqualsBatch(cs: seq<Chunk>)
    requires forall c <- cs :: !c.eof
    ensures AfterReads(FRESH, cs).delivered == CompleteLines(Bytes(cs))
    ensures AfterReads(FRESH, cs).buf == Remainder(Bytes(cs))
  {
    if cs != [] {
      var init, last := cs[..|cs| - 1], cs[|cs| - 1];
      StreamingEqualsBatch(init);
      ScanInTwoParts(Bytes(init), last.bytes);
      if last.bytes == [] {
        assert Bytes(cs) == Bytes(init);
      }
    }
  }

  /**
   * At end of file the delivered lines are the lines of the whole body, whether the final
   * bytes come with the EOF or before it, and further empty EOF reads deliver nothing.
   */
  lemma {:induction false} WholeBodyDelivered(cs: seq<Chunk>, last: Chunk, extra: nat)
    requires (forall c <- cs :: !c.eof) && last.eof
    ensures var again := seq(extra, _ => Chunk([], true));
      && AfterReads(FRESH, cs + [last] + again).delivered == BatchLines(Bytes(cs) + last.bytes)
      && AfterReads(FRESH, cs + [last] + again).buf == []
    decreases extra
  {
    var all := cs + [last];
    if extra == 0 {
      assert all + seq(0, _ => Chunk([], true)) == all;
      assert all[..|all| - 1] == cs;
      StreamingEqualsBatch(cs);
      ScanInTwoParts(Bytes(cs), last.bytes);
      var body := Bytes(cs) + last.bytes;
      BatchIsCompleteAndRest([], body);
      RestHasNoNewline([], body);
      NoNewlineExtends([], Remainder(body));
      assert [] + Remainder(body) == Remainder(body);
      assert last.bytes == [] ==> Bytes(cs) + last.bytes == Bytes(cs);
    } else {
      var again, fewer := seq(extra, _ => Chunk([], true)), seq(extra - 1, _ => Chunk([], true));
      assert (all + again)[..|all + again| - 1] == all + fewer;
      assert (all + again)[|all + again| - 1] == Chunk([], true);
      WholeBodyDelivered(cs, last, extra - 1);
      assert BatchLines([]) == [];
    }
  }

  /** bytes.IndexByte(b, '\n'), with the length for "not found". */
  function FirstLF(b: string): (i: nat)
    ensures i <= |b|
  {
    if b == [] || b[0] == LF then 0 else 1 + FirstLF(b[1..])
  }

  /** Cutting the buffer at its first newline is what the reference does byte by byte. */
  lemma {:induction false} CutAtNewline(cur: string, b: string)
    requires FirstLF(b) < |b|
    ensures var i := FirstLF(b);
      && b[i] == LF
      && Complete(cur, b) == [TrimEol(cur + b[..i + 1])] + Complete([], b[i + 1..])
      && Batch(cur, b) == [TrimEol(cur + b[..i + 1])] + Batch([], b[i + 1..])
      && Rest(cur, b) == Rest([], b[i + 1..])
    decreases |b|
  {
    if b[0] == LF {
      assert b[..1] == [LF];
      TrimAfter(cur, LF);
    } else {
      CutAtNewline(cur + [b[0]], b[1..]);
      var i := FirstLF(b);
      assert b[1..][i..] == b[i + 1..];
      assert cur + [b[0]] + b[1..][..i] == cur + b[..i + 1];
    }
  }

  lemma {:induction false} NotFound(b: string)
    requires FirstLF(b) == |b|
    ensures LF !in b
  {
    if b != [] {
      NotFound(b[1..]);
      assert b == [b[0]] + b[1..];
    }
  }

  class SseInterceptor {
    var buf: string
    var delivered: seq<string>
    var flushed: bool
    var closes: nat

    constructor ()
      ensures State() == FRESH
    {
      buf, delivered, flushed, closes := [], [], false, 0;
    }

    function State(): Scanner
      reads this
    {
      Scanner(buf, delivered, flushed, closes)
    }

    /** ScanSSELines: hand out complete lines, and at eof the unterminated rest. */
    method Scan(eof: bool)
      modifies this`buf, this`delivered
      ensures State() == Scanned(old(State()), eof)
    {
      ghost var body, before := buf, delivered;
      ghost var taken: seq<string> := [];
      while true
        invariant taken + CompleteLines(buf) == CompleteLines(body) && taken + BatchLines(buf) == BatchLines(body)
        invariant delivered == before + taken && Remainder(buf) == Remainder(body)
        decreases |buf|
      {
        var idx := FirstLF(buf);
        if idx == |buf| {
          NotFound(buf);
          NoNewlineExtends([], buf);
          assert [] + buf == buf;
          if !eof || |buf| == 0 {
            assert taken + [] == taken;
            return;
          }
          var line := buf;
          buf := [];
          delivered := delivered + [line];
          Assoc(before, taken, [line]);
          return;
        }
        var raw := buf[..idx + 1];
        CutAtNewline([], buf);
        assert [] + raw == raw;
        Assoc(taken, [TrimEol(raw)], CompleteLines(buf[idx + 1..]));
        Assoc(taken, [TrimEol(raw)], BatchLines(buf[idx + 1..]));
        Assoc(before, taken, [TrimEol(raw)]);
        buf := buf[idx + 1..];
        delivered := delivered + [TrimEol(raw)];
        taken := taken + [TrimEol(raw)];
      }
    }

    /** One Read of the upstream body. */
    method Read(c: Chunk)
      modifies this`buf, this`delivered
      ensures State() == AfterRead(old(State()), c)
    {
      if |c.bytes| > 0 {
        buf := buf + c.bytes;
        Scan(false);
      }
      if c.eof {
        Scan(true);
      }
    }

    /** onClose runs on the first Close only; bytes still buffered are not scanned. */
    method Close()
      modifies this`flushed, this`closes
      ensures flushed && closes == old(closes) + (if old(flushed) then 0 else 1)
    {
      if !flushed {
        flushed := true;
        closes := closes + 1;
      }
    }
  }

  // ---------------------------------------------------------------- the line rule of the standard

  predicate IsEol(c: char) {
    c == CR || c == LF
  }

  /** Lines ended by CRLF, LF or CR, as section 9.2.5 of the WHATWG HTML standard has them. */
  function Standard(cur: string, b: string): seq<string>
    decreases |b|
  {
    if b == [] then LastLine(cur)
    else if b[0] == CR && |b| > 1 && b[1] == LF then [cur] + Standard([], b[2..])
    else if IsEol(b[0]) then [cur] + Standard([], b[1..])
    else Standard(cur + [b[0]], b[1..])
  }

  function StandardLines(b: string): seq<string> { Standard([], b) }

  /** Every CR is the first half of a CRLF. */
  predicate NoLoneCR(b: string)
    decreases |b|
  {
    b == []
    || (if b[0] == CR then |b| > 1 && b[1] == LF && NoLoneCR(b[2..]) else NoLoneCR(b[1..]))
  }

  predicate Clean(s: string) {
    CR !in s && LF !in s
  }

  lemma TrimAfter(x: string, c: char)
    ensures IsEol(c) ==> TrimEol(x + [c]) == TrimEol(x)
    ensures !IsEol(c) ==> TrimEol(x + [c]) == x + [c]
  {}

  lemma TrimClean(x: string)
    requires Clean(x)
    ensures TrimEol(x) == x
  {}

  /** How many lines follow depends on the line begun only through its being empty. */
  lemma {:induction false} CountIgnoresText(x: string, y: string, b: string)
    requires x == [] <==> y == []
    ensures |Batch(x, b)| == |Batch(y, b)| && |Standard(x, b)| == |Standard(y, b)|
    decreases |b|
  {
    if b != [] && !IsEol(b[0]) {
      CountIgnoresText(x + [b[0]], y + [b[0]], b[1..]);
    } else if b != [] && b[0] == CR {
      CountIgnoresText(x + [CR], y + [CR], b[1..]);
    }
  }

  /** The standard splits at least as finely; a CR waiting for its LF is already a line to it. */
  lemma {:induction false} StandardIsFiner(cur: string, b: string)
    ensures |Standard(cur, b)| >= |Batch(cur, b)|
    decreases |b|, 0
  {
    if b != [] {
      if b[0] == CR {
        assert [CR] + b[1..] == b;
        CRIsALine(cur, b[1..]);
      } else if b[0] == LF {
        StandardIsFiner([], b[1..]);
      } else {
        StandardIsFiner(cur + [b[0]], b[1..]);
      }
    }
  }

  lemma {:induction false} CRIsALine(cur: string, t: string)
    ensures |Standard(cur, [CR] + t)| >= |Batch(cur + [CR], t)|
    decreases |t|, 1
  {
    var b := [CR] + t;
    assert b[1..] == t;
    if t != [] {
      if t[0] == LF {
        assert b[2..] == t[1..];
        StandardIsFiner([], t[1..]);
      } else if t[0] == CR {
        assert [CR] + t[1..] == t;
        CRIsALine([], t[1..]);
        CountIgnoresText(cur + [CR] + [CR], [] + [CR], t[1..]);
      } else {
        StandardIsFiner([t[0]], t[1..]);
        CountIgnoresText(cur + [CR] + [t[0]], [t[0]], t[1..]);
        assert [] + [t[0]] == [t[0]];
      }
    }
  }

  lemma {:induction false} StandardHasNoCR(cur: string, b: string)
    requires CR !in cur
    ensures forall line <- Standard(cur, b) :: CR !in line
    decreases |b|
  {
    if b != [] {
      if b[0] == CR && |b| > 1 && b[1] == LF {
        StandardHasNoCR([], b[2..]);
      } else if IsEol(b[0]) {
        StandardHasNoCR([], b[1..]);
      } else {
        StandardHasNoCR(cur + [b[0]], b[1..]);
      }
    }
  }

  /** A CR with other text after it stays in its line. */
  lemma {:induction false} InnerCRStays(x: string, c: char, y: string, b: string)
    requires CR in x && !IsEol(c)
    ensures |Batch(x + [c] + y, b)| > 0 && CR in Batch(x + [c] + y, b)[0]
    decreases |b|
  {
    var k :| 0 <= k < |x| && x[k] == CR;
    if b == [] {
      assert (x + [c] + y)[k] == CR;
    } else if b[0] == LF {
      TrimKeepsPrefix(x + [c], y);
      assert TrimEol(x + [c] + y)[k] == (x + [c])[k] == CR;
    } else {
      assert x + [c] + y + [b[0]] == x + [c] + (y + [b[0]]);
      InnerCRStays(x, c, y + [b[0]], b[1..]);
    }
  }

  lemma {:induction false} TrimKeepsPrefix(x: string, y: string)
    requires x != [] && !IsEol(x[|x| - 1])
    ensures x <= TrimEol(x + y)
    decreases |y|
  {
    if y == [] {
      assert x + y == x;
    } else {
      var init := y[..|y| - 1];
      assert x + y == (x + init) + [y[|y| - 1]];
      TrimAfter(x + init, y[|y| - 1]);
      TrimKeepsPrefix(x, init);
    }
  }

  /** A second CR in a row is one more line to the standard and none to the scanner. */
  lemma CRRunDiffers(x: string, t: string)
    ensures |Standard([], [CR] + t)| >= |Batch(x + [CR, CR], t)|
    decreases |t|
  {
    CRIsALine([], t);
    CountIgnoresText(x + [CR, CR], [] + [CR], t);
  }

  /** A CR that no LF follows makes the two differ, in a line's text or in the number of lines. */
  lemma LoneCRDiffers(cur: string, t: string)
    requires Clean(cur) && (t == [] || t[0] != LF)
    ensures Batch(cur, [CR] + t) != Standard(cur, [CR] + t)
  {
    var b := [CR] + t;
    assert b[1..] == t;
    StandardHasNoCR(cur, b);
    assert Batch(cur, b) == Batch(cur + [CR], t);
    assert Standard(cur, b) == [cur] + Standard([], t);
    if t == [] {
      assert CR in cur + [CR] && cur + [CR] in Batch(cur, b);
    } else if t[0] == CR {
      assert cur + [CR] + [CR] == cur + [CR, CR];
      CRRunDiffers(cur, t[1..]);
      assert [CR] + t[1..] == t;
    } else {
      assert CR in cur + [CR];
      InnerCRStays(cur + [CR], t[0], [], t[1..]);
      assert cur + [CR] + [t[0]] + [] == cur + [CR] + [t[0]];
      assert Batch(cur, b)[0] in Batch(cur, b);
    }
  }

  lemma SameHead(x: string, a: seq<string>, b: seq<string>)
    ensures [x] + a == [x] + b <==> a == b
  {
    assert ([x] + a)[1..] == a && ([x] + b)[1..] == b;
  }

  lemma {:induction false} AgreeIffNoLoneCR(cur: string, b: string)
    requires Clean(cur)
    ensures Batch(cur, b) == Standard(cur, b) <==> NoLoneCR(b)
    decreases |b|
  {
    if b != [] {
      if b[0] == LF {
        TrimClean(cur);
        AgreeIffNoLoneCR([], b[1..]);
        SameHead(cur, Batch([], b[1..]), Standard([], b[1..]));
      } else if b[0] != CR {
        AgreeIffNoLoneCR(cur + [b[0]], b[1..]);
      } else if |b| > 1 && b[1] == LF {
        TrimClean(cur);
        TrimAfter(cur, CR);
        assert b[1..][0] == LF && b[1..][1..] == b[2..];
        AgreeIffNoLoneCR([], b[2..]);
        SameHead(cur, Batch([], b[2..]), Standard([], b[2..]));
      } else {
        assert b == [CR] + b[1..];
        LoneCRDiffers(cur, b[1..]);
      }
    }
  }

  /** The scanner agrees with the standard exactly on the bodies in which no CR stands alone. */
  lemma StandardLinesIffNoLoneCR(b: string)
    ensures BatchLines(b) == StandardLines(b) <==> NoLoneCR(b)
  {
    AgreeIffNoLoneCR([], b);
  }
}
