/** Sending payloads as server-sent events and decoding them again, whatever the chunks. */
module EventFraming {
  import opened EventStream

  /** A payload and whether its lines end in CRLF (WHATWG HTML, section 9.2). */
  datatype Frame = Frame(payload: string, crlf: bool)

  function Eol(crlf: bool): string {
    if crlf then "\r\n" else "\n"
  }

  /** Every line of the payload becomes a `data: ` line of its own. */
  function Escape(payload: string, crlf: bool): string {
    if payload == "" then ""
    else (if payload[0] == '\n' then Eol(crlf) + "data: " else [payload[0]]) + Escape(payload[1..], crlf)
  }

  function FrameText(f: Frame): string {
    "data: " + Escape(f.payload, f.crlf) + Eol(f.crlf) + Eol(f.crlf)
  }

  function Wire(frames: seq<Frame>): string {
    if frames == [] then "" else FrameText(frames[0]) + Wire(frames[1..])
  }

  function Payloads(frames: seq<Frame>): seq<string> {
    if frames == [] then [] else [frames[0].payload] + Payloads(frames[1..])
  }

  /** Payloads that server-sent events can carry through this decoder. */
  predicate Carried(payload: string) {
    payload != "" && '\r' !in payload && payload[0] != '\n' && payload != "[DONE]"
  }

  function Trim(s: string): string {
    if s != "" && s[0] == '\n' then Trim(s[1..]) else s
  }

  // ---- Carriage returns vanish

  lemma StripEol(crlf: bool)
    ensures StripCr(Eol(crlf)) == "\n"
  {
    StripAppend("\r", "\n");
    assert "\r" + "\n" == "\r\n";
  }

  lemma StripChar(c: char)
    ensures StripCr([c]) == if c == '\r' then "" else [c]
  {
    assert [c][1..] == "";
  }

  lemma {:induction false} StripEscape(payload: string, crlf: bool)
    ensures StripCr(Escape(payload, crlf)) == Escape(StripCr(payload), false)
  {
    if payload != "" {
      StripEscape(payload[1..], crlf);
      if payload[0] == '\n' {
        StripEscapedNewline(payload[1..], crlf);
      } else {
        StripPlain(payload[0], payload[1..], crlf);
      }
      assert payload == [payload[0]] + payload[1..];
    }
  }

  function Head(c: char, crlf: bool): string {
    if c == '\n' then Eol(crlf) + "data: " else [c]
  }

  lemma EscapeHead(c: char, rest: string, crlf: bool)
    ensures Escape([c] + rest, crlf) == Head(c, crlf) + Escape(rest, crlf)
  {
    assert ([c] + rest)[1..] == rest;
  }

  lemma StripEscapedNewline(rest: string, crlf: bool)
    requires StripCr(Escape(rest, crlf)) == Escape(StripCr(rest), false)
    ensures StripCr(Escape(['\n'] + rest, crlf)) == Escape(StripCr(['\n'] + rest), false)
  {
    EscapeHead('\n', rest, crlf);
    EscapeHead('\n', StripCr(rest), false);
    StripAppend(Head('\n', crlf), Escape(rest, crlf));
    StripAppend(Eol(crlf), "data: ");
    StripEol(crlf);
    StripStripped("data: ");
    StripAppend(['\n'], rest);
    StripChar('\n');
  }

  lemma StripPlain(c: char, rest: string, crlf: bool)
    requires c != '\n' && StripCr(Escape(rest, crlf)) == Escape(StripCr(rest), false)
    ensures StripCr(Escape([c] + rest, crlf)) == Escape(StripCr([c] + rest), false)
  {
    EscapeHead(c, rest, crlf);
    EscapeHead(c, StripCr(rest), false);
    StripAppend([c], Escape(rest, crlf));
    StripAppend([c], rest);
    StripChar(c);
    assert "" + StripCr(rest) == StripCr(rest) && "" + Escape(StripCr(rest), false) == Escape(StripCr(rest), false);
  }

  /** The block that the decoder sees for a payload without carriage returns. */
  function Body(payload: string): string {
    "data: " + Escape(payload, false)
  }

  lemma StripParts(a: string, b: string, c: string, d: string)
    ensures StripCr(a + b + c + d) == StripCr(a) + StripCr(b) + StripCr(c) + StripCr(d)
  {
    StripAppend(a + b + c, d);
    StripAppend(a + b, c);
    StripAppend(a, b);
  }

  lemma StripPrefix()
    ensures StripCr("data: ") == "data: "
  {
    StripStripped("data: ");
  }

  lemma TwoNewlines(body: string)
    ensures body + "\n" + "\n" == body + "\n\n"
  {
  }

  lemma StripFrame(f: Frame)
    ensures StripCr(FrameText(f)) == Body(StripCr(f.payload)) + "\n\n"
  {
    var eol := Eol(f.crlf);
    StripParts("data: ", Escape(f.payload, f.crlf), eol, eol);
    StripPrefix();
    StripEscape(f.payload, f.crlf);
    StripEol(f.crlf);
    TwoNewlines(Body(StripCr(f.payload)));
  }

  // ---- The block ends where the payload ends

  lemma BoundarySkip(c: char, s: string)
    requires c != '\n' || (s != "" && s[0] != '\n')
    requires Boundary(s) >= 0
    ensures Boundary([c] + s) == 1 + Boundary(s)
  {
    assert ([c] + s)[1..] == s;
  }

  lemma {:induction false} BoundaryBehind(line: string, s: string)
    requires '\n' !in line && Boundary(s) >= 0
    ensures Boundary(line + s) == |line| + Boundary(s)
  {
    if line == "" {
      assert line + s == s;
    } else {
      BoundaryBehind(line[1..], s);
      BoundarySkip(line[0], line[1..] + s);
      assert line + s == [line[0]] + (line[1..] + s);
    }
  }

  /** What the decoder still sees from some character of the payload on. */
  function Ahead(payload: string, tail: string): string {
    Escape(payload, false) + "\n\n" + tail
  }

  lemma AheadOf(c: char, rest: string, tail: string)
    ensures Ahead([c] + rest, tail) == Head(c, false) + Ahead(rest, tail)
  {
    EscapeHead(c, rest, false);
    var head, e := Head(c, false), Escape(rest, false);
    assert head + e + "\n\n" + tail == head + (e + "\n\n" + tail);
  }

  lemma {:induction false} BoundaryOfEscape(payload: string, tail: string)
    ensures Boundary(Ahead(payload, tail)) == |Escape(payload, false)|
  {
    if payload == "" {
      assert Ahead(payload, tail) == "\n\n" + tail;
    } else {
      var c, rest := payload[0], Ahead(payload[1..], tail);
      assert payload == [c] + payload[1..];
      BoundaryOfEscape(payload[1..], tail);
      AheadOf(c, payload[1..], tail);
      EscapeHead(c, payload[1..], false);
      BoundaryOfHead(c, rest);
    }
  }

  lemma BoundaryOfHead(c: char, rest: string)
    requires Boundary(rest) >= 0
    ensures Boundary(Head(c, false) + rest) == |Head(c, false)| + Boundary(rest)
  {
    if c == '\n' {
      BoundaryBehind("data: ", rest);
      BoundarySkip('\n', "data: " + rest);
      assert Head(c, false) + rest == ['\n'] + ("data: " + rest);
    } else {
      BoundarySkip(c, rest);
    }
  }

  lemma BlocksOfBody(payload: string, tail: string)
    ensures Blocks(Body(payload) + "\n\n" + tail) == [Body(payload)] + Blocks(tail)
  {
    var p := Body(payload) + "\n\n" + tail;
    BoundaryOfEscape(payload, tail);
    BoundaryBehind("data: ", Ahead(payload, tail));
    assert p == "data: " + Ahead(payload, tail);
    DrainFirst(p);
    assert p[..|Body(payload)|] == Body(payload) && p[|Body(payload)| + 2..] == tail;
  }

  // ---- The data of a block

  lemma {:induction false} EscapeSplit(payload: string)
    ensures var n := LineEnd(payload);
            Escape(payload, false) ==
            payload[..n] + if n == |payload| then "" else "\n" + Body(payload[n + 1..])
  {
    if payload != "" && payload[0] != '\n' {
      EscapeSplit(payload[1..]);
      assert payload[..LineEnd(payload)] == [payload[0]] + payload[1..][..LineEnd(payload[1..])];
    }
  }

  lemma {:induction false} LineEndAppend(a: string, b: string)
    requires '\n' !in a
    ensures LineEnd(a + b) == |a| + LineEnd(b)
  {
    if a == "" {
      assert a + b == b;
    } else {
      LineEndAppend(a[1..], b);
      assert (a + b)[1..] == a[1..] + b;
    }
  }

  lemma OneLine(line: string)
    requires line != "" && '\n' !in line
    ensures Lines(line) == [line]
  {
    LineEndAppend(line, "");
    assert line + "" == line && line[..|line|] == line;
  }

  lemma AroundNewline(line: string, rest: string)
    ensures var s := line + ("\n" + rest); s[..|line|] == line && s[|line| + 1..] == rest
  {
  }

  lemma LinesFirst(s: string, n: nat)
    requires s != "" && n == LineEnd(s) < |s|
    ensures Lines(s) == [s[..n]] + Lines(s[n + 1..])
  {
  }

  lemma LinesSplit(line: string, rest: string)
    requires '\n' !in line
    ensures Lines(line + ("\n" + rest)) == [line] + Lines(rest)
  {
    LineEndAppend(line, "\n" + rest);
    AroundNewline(line, rest);
    LinesFirst(line + ("\n" + rest), |line|);
  }

  lemma DataLine(l: string)
    requires '\n' !in l
    ensures var line := "data: " + l;
            line != "" && '\n' !in line && IsData(line) && Value(line) == l
  {
  }

  lemma LinesOfLast(payload: string)
    requires '\n' !in payload
    ensures Lines(Body(payload)) == ["data: " + payload]
  {
    EscapeSplit(payload);
    LineEndAppend(payload, "");
    assert payload + "" == payload && payload[..|payload|] == payload;
    DataLine(payload);
    OneLine("data: " + payload);
  }

  lemma LinesBehind(prefix: string, line: string, rest: string)
    requires '\n' !in prefix && '\n' !in line
    ensures Lines(prefix + (line + ("\n" + rest))) == [prefix + line] + Lines(rest)
  {
    Regroup(prefix, line, "\n" + rest);
    LinesSplit(prefix + line, rest);
  }

  lemma LinesOfFirst(lines: string -> seq<string>, payload: string)
    requires LineEnd(payload) < |payload|
    requires forall line: string, rest: string | '\n' !in line ::
               lines("data: " + (line + ("\n" + rest))) == ["data: " + line] + lines(rest)
    ensures var n := LineEnd(payload);
            lines(Body(payload)) == ["data: " + payload[..n]] + lines(Body(payload[n + 1..]))
  {
    var n := LineEnd(payload);
    EscapeSplit(payload);
    assert lines("data: " + (payload[..n] + ("\n" + Body(payload[n + 1..]))))
        == ["data: " + payload[..n]] + lines(Body(payload[n + 1..]));
  }

  lemma JoinStep(data: string, l: string, lines: seq<string>)
    requires '\n' !in l
    ensures Join(data, ["data: " + l] + lines) == Join(Joined(data, l), lines)
  {
    DataLine(l);
    var all := ["data: " + l] + lines;
    assert all[0] == "data: " + l && all[1..] == lines;
  }

  function Joined(data: string, piece: string): string {
    (if data == "" then "" else data + "\n") + piece
  }

  lemma JoinedTwice(data: string, head: string, rest: string)
    requires data != "" || head != ""
    ensures Joined(data, head) + "\n" + rest == Joined(data, head + "\n" + rest)
  {
  }

  lemma JoinOfLast(data: string, payload: string)
    requires '\n' !in payload
    ensures Join(data, Lines(Body(payload))) == Joined(data, payload)
  {
    LinesOfLast(payload);
    JoinStep(data, payload, []);
    assert ["data: " + payload] + [] == ["data: " + payload];
  }

  lemma JoinOfFirst(data: string, payload: string)
    requires LineEnd(payload) < |payload|
    ensures var n := LineEnd(payload);
            Join(data, Lines(Body(payload))) == Join(Joined(data, payload[..n]), Lines(Body(payload[n + 1..])))
  {
    var n := LineEnd(payload);
    forall line: string, rest: string | '\n' !in line
      ensures Lines("data: " + (line + ("\n" + rest))) == ["data: " + line] + Lines(rest)
    {
      LinesBehind("data: ", line, rest);
    }
    LinesOfFirst(Lines, payload);
    JoinStep(data, payload[..n], Lines(Body(payload[n + 1..])));
  }

  lemma TrimLine(s: string)
    requires '\n' !in s
    ensures Trim(s) == s
  {
  }

  /** What joins a payload line by line joins it as a whole. */
  lemma {:induction false} JoinsUp(join: (string, string) -> string, data: string, payload: string)
    requires forall d: string, p: string | '\n' !in p :: join(d, p) == Joined(d, p)
    requires forall d: string, p: string | LineEnd(p) < |p| ::
               join(d, p) == join(Joined(d, p[..LineEnd(p)]), p[LineEnd(p) + 1..])
    ensures join(data, payload) == if data == "" then Trim(payload) else Joined(data, payload)
    decreases |payload|
  {
    var n := LineEnd(payload);
    if n == |payload| {
      assert payload[..n] == payload;
      TrimLine(payload);
    } else {
      JoinsUp(join, Joined(data, payload[..n]), payload[n + 1..]);
      JoinedSplit(data, payload);
    }
  }

  lemma JoinOfBody(data: string, payload: string)
    ensures Join(data, Lines(Body(payload))) == if data == "" then Trim(payload) else Joined(data, payload)
  {
    var join := (d: string, p: string) => Join(d, Lines(Body(p)));
    forall d: string, p: string | '\n' !in p ensures join(d, p) == Joined(d, p) {
      JoinOfLast(d, p);
    }
    forall d: string, p: string | LineEnd(p) < |p|
      ensures join(d, p) == join(Joined(d, p[..LineEnd(p)]), p[LineEnd(p) + 1..])
    {
      JoinOfFirst(d, p);
    }
    JoinsUp(join, data, payload);
  }

  lemma JoinedSplit(data: string, payload: string)
    requires LineEnd(payload) < |payload|
    ensures var n := LineEnd(payload);
            var joined, rest := Joined(data, payload[..n]), payload[n + 1..];
            (if joined == "" then Trim(rest) else Joined(joined, rest)) ==
            if data == "" then Trim(payload) else Joined(data, payload)
  {
    var n := LineEnd(payload);
    assert payload == payload[..n] + "\n" + payload[n + 1..];
    if data == "" && n == 0 {
      assert payload[1..] == payload[n + 1..];
    } else {
      JoinedTwice(data, payload[..n], payload[n + 1..]);
    }
  }

  // ---- Round trip

  /** A framed payload comes back without its carriage returns and leading newlines, and not at all if that is empty. */
  lemma {:induction false} DecodeWire(frames: seq<Frame>, wants: string -> bool)
    ensures Decode(Receiver(EventTexts, wants), Wire(frames)) == Received(frames)
  {
    if frames != [] {
      var f, r := frames[0], Receiver(EventTexts, wants);
      var rest := Wire(frames[1..]);
      DecodeWire(frames[1..], wants);
      StripAppend(FrameText(f), rest);
      StripFrame(f);
      BlocksOfBody(StripCr(f.payload), StripCr(rest));
      JoinOfBody("", StripCr(f.payload));
      var blocks := Blocks(StripCr(Wire(frames)));
      assert blocks == [Body(StripCr(f.payload))] + Blocks(StripCr(rest));
      assert blocks[0] == Body(StripCr(f.payload)) && blocks[1..] == Blocks(StripCr(rest));
    }
  }

  function Received(frames: seq<Frame>): seq<string> {
    if frames == [] then [] else Emitted(Trim(StripCr(frames[0].payload))) + Received(frames[1..])
  }

  lemma {:induction false} CarriedIsReceived(frames: seq<Frame>)
    requires forall f | f in frames :: Carried(f.payload)
    ensures Received(frames) == Payloads(frames)
  {
    if frames != [] {
      StripStripped(frames[0].payload);
      CarriedIsReceived(frames[1..]);
    }
  }

  lemma {:induction false} TrimHead(s: string)
    ensures Trim(s) == "" || Trim(s)[0] != '\n'
  {
    if s != "" && s[0] == '\n' {
      TrimHead(s[1..]);
    }
  }

  /** A payload is decoded to itself exactly when it is non-empty, CR-free, starts no line, and is not `[DONE]`. */
  lemma SurvivesExactly(payload: string, crlf: bool, wants: string -> bool)
    ensures Decode(Receiver(EventTexts, wants), FrameText(Frame(payload, crlf))) == [payload] <==> Carried(payload)
  {
    var f := Frame(payload, crlf);
    DecodeWire([f], wants);
    assert Wire([f]) == FrameText(f) + "" == FrameText(f);
    assert Received([f]) == Emitted(Trim(StripCr(payload))) + [] == Emitted(Trim(StripCr(payload)));
    TrimHead(StripCr(payload));
    if Carried(payload) {
      StripStripped(payload);
    }
    TrimKeepsChars(StripCr(payload));
  }

  lemma {:induction false} TrimKeepsChars(s: string)
    requires '\r' !in s
    ensures '\r' !in Trim(s)
  {
    if s != "" && s[0] == '\n' {
      TrimKeepsChars(s[1..]);
    }
  }

  /** Any list of carried payloads, framed with LF or CRLF and cut into chunks anywhere, is delivered as it was sent. */
  lemma FramesSurviveChunking(frames: seq<Frame>, chunks: seq<string>, wants: string -> bool)
    requires Concat(chunks) == Wire(frames)
    requires forall f | f in frames :: Carried(f.payload)
    requires !AnyWanted(wants, Payloads(frames))
    ensures FedAll(Receiver(EventTexts, wants), Start, chunks).delivered == Payloads(frames)
  {
    DecodeWire(frames, wants);
    CarriedIsReceived(frames);
    StoppedStreamIsAPrefix(Receiver(EventTexts, wants), chunks);
  }

  // ---- After a stop is requested, the chunking does matter

  lemma DecodeOne(f: Frame, wants: string -> bool)
    requires Carried(f.payload)
    ensures Decode(Receiver(EventTexts, wants), FrameText(f)) == [f.payload]
  {
    SurvivesExactly(f.payload, f.crlf, wants);
  }

  lemma WireOfTwo(f: Frame, g: Frame)
    ensures Wire([f, g]) == FrameText(f) + FrameText(g)
    ensures Payloads([f, g]) == [f.payload] + [g.payload]
  {
    assert [f, g][1..] == [g] && [g][1..] == [];
    assert Wire([g]) == FrameText(g) + "" == FrameText(g);
    assert Payloads([g]) == [g.payload] + [] == [g.payload];
  }

  lemma DecodeTwo(f: Frame, g: Frame, wants: string -> bool)
    requires Carried(f.payload) && Carried(g.payload)
    ensures Decode(Receiver(EventTexts, wants), FrameText(f) + FrameText(g)) == [f.payload] + [g.payload]
  {
    WireOfTwo(f, g);
    DecodeWire([f, g], wants);
    CarriedIsReceived([f, g]);
  }

  /** The first chunk is delivered whole; what comes after a stop is not. */
  lemma FedOnce(r: Receiver, chunk: string, rest: seq<string>)
    ensures var p := Fed(r, Start, chunk);
            && FedAll(r, Start, [chunk] + rest) == FedAll(r, p, rest)
            && p.delivered == Decode(r, chunk) && (p.stop <==> AnyWanted(r.wants, Decode(r, chunk)))
            && (p.stop ==> FedAll(r, p, rest) == p)
  {
    EmptyTracks(r);
    FedTracks(r, Start, "", chunk);
    assert "" + chunk == chunk;
    assert ([chunk] + rest)[0] == chunk && ([chunk] + rest)[1..] == rest;
    TakenIsPrefix(r, Fed(r, Start, chunk), rest);
  }

  /** Both events come in the chunk that asks for the stop. */
  lemma StopsLate(f: Frame, g: Frame, wants: string -> bool)
    requires Carried(f.payload) && Carried(g.payload)
    ensures FedAll(Receiver(EventTexts, wants), Start, [FrameText(f) + FrameText(g)]).delivered
         == [f.payload] + [g.payload]
  {
    var r, chunk := Receiver(EventTexts, wants), FrameText(f) + FrameText(g);
    DecodeTwo(f, g, wants);
    FedOnce(r, chunk, []);
    assert [chunk] == [chunk] + [];
    assert FedAll(r, Fed(r, Start, chunk), []) == Fed(r, Start, chunk);
  }

  /** The second event comes in a chunk of its own, after the stop. */
  lemma StopsAtOnce(f: Frame, g: Frame, wants: string -> bool)
    requires Carried(f.payload) && wants(f.payload)
    ensures FedAll(Receiver(EventTexts, wants), Start, [FrameText(f), FrameText(g)]).delivered == [f.payload]
  {
    var r := Receiver(EventTexts, wants);
    DecodeOne(f, wants);
    OneWanted(wants, f.payload);
    FedOnce(r, FrameText(f), [FrameText(g)]);
    assert [FrameText(f), FrameText(g)] == [FrameText(f)] + [FrameText(g)];
  }

  lemma ConcatOfTwo(a: string, b: string)
    ensures Concat([a + b]) == Concat([a, b]) == a + b
  {
    assert [a, b][1..] == [b] && Concat([b]) == b + "" == b;
    assert Concat([a + b]) == a + b + "" == a + b;
  }

  /** An event that asks for the stop keeps the next one out exactly when that comes in a later chunk. */
  lemma StopDependsOnChunking(f: Frame, g: Frame, wants: string -> bool)
    requires Carried(f.payload) && Carried(g.payload) && wants(f.payload)
    ensures Concat([FrameText(f) + FrameText(g)]) == Concat([FrameText(f), FrameText(g)])
    ensures FedAll(Receiver(EventTexts, wants), Start, [FrameText(f) + FrameText(g)]).delivered
         == [f.payload] + [g.payload]
    ensures FedAll(Receiver(EventTexts, wants), Start, [FrameText(f), FrameText(g)]).delivered == [f.payload]
  {
    ConcatOfTwo(FrameText(f), FrameText(g));
    StopsLate(f, g, wants);
    StopsAtOnce(f, g, wants);
  }
}
