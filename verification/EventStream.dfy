/** Server-sent events: the incremental decoder of `streamCall`, and the whole-stream decoder it refines. */
module EventStream {

  // ---- The whole-stream decoder

  function Kept(c: char): string {
    if c == '\r' then "" else [c]
  }

  function StripCr(s: string): (r: string)
    ensures '\r' !in r
  {
    if s == "" then "" else Kept(s[0]) + StripCr(s[1..])
  }

  /** Where the first blank line starts, as `find("\n\n")` reports it; -1 when there is none. */
  function Boundary(p: string): (b: int)
    ensures b == -1 || 0 <= b <= |p| - 2
  {
    if |p| < 2 then -1
    else if p[0] == '\n' && p[1] == '\n' then 0
    else
      var b := Boundary(p[1..]);
      if b < 0 then -1 else b + 1
  }

  /** The complete event blocks of a text, and what follows the last of them. */
  function Blocks(p: string): seq<string>
    decreases |p|
  {
    var b := Boundary(p);
    if b < 0 then [] else [p[..b]] + Blocks(p[b + 2..])
  }

  function Rest(p: string): string
    decreases |p|
  {
    var b := Boundary(p);
    if b < 0 then p else Rest(p[b + 2..])
  }

  function LineEnd(s: string): (n: nat)
    ensures n <= |s| && '\n' !in s[..n] && (n < |s| ==> s[n] == '\n')
  {
    if s == "" || s[0] == '\n' then 0 else 1 + LineEnd(s[1..])
  }

  /** The lines that `getline` yields: an end of line at the very end opens no further line. */
  function Lines(s: string): seq<string>
    decreases |s|, 1
  {
    if s == "" then [] else [s[..LineEnd(s)]] + LinesAfter(s, LineEnd(s))
  }

  function LinesAfter(s: string, n: nat): seq<string>
    requires n <= |s|
    decreases |s|, 0
  {
    if n == |s| then [] else Lines(s[n + 1..])
  }

  function IsData(line: string): bool {
    "data:" <= line
  }

  function Value(line: string): string
    requires IsData(line)
  {
    line[if |line| > 5 && line[5] == ' ' then 6 else 5..]
  }

  /** Data lines are joined by newlines; a newline is only put after something. */
  function Join(data: string, lines: seq<string>): string
    decreases lines
  {
    if lines == [] then data
    else if !IsData(lines[0]) then Join(data, lines[1..])
    else Join((if data == "" then "" else data + "\n") + Value(lines[0]), lines[1..])
  }

  function Data(block: string): string {
    Join("", Lines(block))
  }

  function Emitted(data: string): seq<string> {
    if data == "" || data == "[DONE]" then [] else [data]
  }

  function FlatMap(f: string -> seq<string>, blocks: seq<string>): seq<string> {
    if blocks == [] then [] else f(blocks[0]) + FlatMap(f, blocks[1..])
  }

  function EventTexts(block: string): seq<string> {
    Emitted(Data(block))
  }

  /** How a receiver reads a block, and after which texts it asks the stream to stop. */
  datatype Receiver = Receiver(texts: string -> seq<string>, wants: string -> bool)

  function Decode(r: Receiver, stream: string): seq<string> {
    FlatMap(r.texts, Blocks(StripCr(stream)))
  }

  // ---- The incremental decoder

  class Decoder {
    const wants: string -> bool
    var pending: string
    var delivered: seq<string>
    var stop: bool

    function State(): Progress
      reads this
    {
      Progress(pending, delivered, stop)
    }

    function Reader(): Receiver {
      Receiver(EventTexts, wants)
    }

    /** Somebody else asks the stream to stop. */
    method RequestStop()
      modifies this`stop
      ensures State() == old(State()).(stop := true)
    {
      stop := true;
    }

    constructor (wants: string -> bool)
      ensures this.wants == wants && State() == Start
    {
      this.wants := wants;
      pending, delivered, stop := "", [], false;
    }

    /** Takes one chunk, delivers every event it completes, and says whether to go on. */
    method Consume(chunk: string) returns (more: bool)
      modifies this
      ensures State() == Fed(Reader(), old(State()), chunk)
      ensures more == !stop
    {
      if stop {
        return false;
      }
      pending := StripCr(pending + chunk);
      Drain();
      return !stop;
    }

    /** Delivers the complete blocks of `pending`, first to last, and keeps the rest. */
    method Drain()
      requires !stop
      modifies this
      ensures pending == Rest(old(pending))
      ensures delivered == old(delivered) + FlatMap(EventTexts, Blocks(old(pending)))
      ensures stop <==> AnyWanted(wants, FlatMap(EventTexts, Blocks(old(pending))))
    {
      ghost var all, left := FlatMap(EventTexts, Blocks(pending)), FlatMap(EventTexts, Blocks(pending));
      NoneWanted(wants);
      var boundary := Boundary(pending);
      while boundary >= 0
        invariant boundary == Boundary(pending) && Rest(pending) == Rest(old(pending))
        invariant left == FlatMap(EventTexts, Blocks(pending))
        invariant delivered + left == old(delivered) + all
        invariant stop || AnyWanted(wants, left) <==> AnyWanted(wants, all)
        decreases |pending|
      {
        var event := pending[..boundary];
        DrainOne(EventTexts, pending);
        pending := pending[boundary + 2..];
        left := FlatMap(EventTexts, Blocks(pending));
        WantedAppend(wants, EventTexts(event), left);
        Regroup(delivered, EventTexts(event), left);
        Deliver(event);
        boundary := Boundary(pending);
      }
      assert left == [];
    }

    method Deliver(event: string)
      modifies this`delivered, this`stop
      ensures delivered == old(delivered) + EventTexts(event)
      ensures stop <==> old(stop) || AnyWanted(wants, EventTexts(event))
    {
      var data := BlockData(event);
      EventEffect(wants, event);
      if data != "" && data != "[DONE]" {
        delivered := delivered + [data];
        if wants(data) {
          stop := true;
        }
      }
    }

    method BlockData(event: string) returns (data: string)
      ensures data == Data(event)
    {
      data := "";
      var lines := Lines(event);
      for i := 0 to |lines|
        invariant Join(data, lines[i..]) == Data(event)
      {
        var line := lines[i];
        if IsData(line) {
          if data != "" {
            data := data + "\n";
          }
          data := data + Value(line);
        }
        assert lines[i..][1..] == lines[i + 1..];
      }
    }
  }

  // ---- What a list of chunks delivers

  datatype Progress = Progress(pending: string, delivered: seq<string>, stop: bool)

  const Start := Progress("", [], false)

  ghost predicate AnyWanted(wants: string -> bool, texts: seq<string>) {
    exists t | t in texts :: wants(t)
  }

  lemma NoneWanted(wants: string -> bool)
    ensures !AnyWanted(wants, [])
  {
  }

  lemma OneWanted(wants: string -> bool, text: string)
    ensures AnyWanted(wants, [text]) <==> wants(text)
  {
    assert text in [text];
  }

  lemma WantedAppend(wants: string -> bool, a: seq<string>, b: seq<string>)
    ensures AnyWanted(wants, a + b) <==> AnyWanted(wants, a) || AnyWanted(wants, b)
  {
    assert forall t :: t in a + b <==> t in a || t in b;
  }

  lemma EventEffect(wants: string -> bool, event: string)
    ensures var data := Data(event);
            if data == "" || data == "[DONE]" then EventTexts(event) == [] && !AnyWanted(wants, EventTexts(event))
            else EventTexts(event) == [data] && (AnyWanted(wants, EventTexts(event)) <==> wants(data))
  {
    OneWanted(wants, Data(event));
  }

  /** One call of `consume`. */
  ghost function Fed(r: Receiver, p: Progress, chunk: string): Progress {
    if p.stop then p
    else
      var text := StripCr(p.pending + chunk);
      var texts := FlatMap(r.texts, Blocks(text));
      Progress(Rest(text), p.delivered + texts, AnyWanted(r.wants, texts))
  }

  ghost function FedAll(r: Receiver, p: Progress, chunks: seq<string>): Progress
    decreases |chunks|
  {
    if chunks == [] then p else FedAll(r, Fed(r, p, chunks[0]), chunks[1..])
  }

  function Concat(chunks: seq<string>): string {
    if chunks == [] then "" else chunks[0] + Concat(chunks[1..])
  }

  /** The text of the chunks that are taken before a stop is requested. */
  ghost function Taken(r: Receiver, p: Progress, chunks: seq<string>): string
    decreases |chunks|
  {
    if chunks == [] || p.stop then "" else chunks[0] + Taken(r, Fed(r, p, chunks[0]), chunks[1..])
  }

  lemma {:induction false} StripAppend(a: string, b: string)
    ensures StripCr(a + b) == StripCr(a) + StripCr(b)
  {
    if a == "" {
      assert a + b == b;
    } else {
      StripAppend(a[1..], b);
      StripFirst(a, b);
      Regroup(Kept(a[0]), StripCr(a[1..]), StripCr(b));
    }
  }

  lemma StripFirst(a: string, b: string)
    requires a != ""
    ensures StripCr(a + b) == Kept(a[0]) + StripCr(a[1..] + b)
  {
    assert (a + b)[0] == a[0] && (a + b)[1..] == a[1..] + b;
  }

  lemma {:induction false} StripStripped(s: string)
    requires '\r' !in s
    ensures StripCr(s) == s
  {
    if s != "" {
      StripStripped(s[1..]);
    }
  }

  lemma {:induction false} BoundaryAppend(p: string, q: string)
    requires Boundary(p) >= 0
    ensures Boundary(p + q) == Boundary(p)
  {
    assert (p + q)[0] == p[0] && (p + q)[1] == p[1];
    if Boundary(p) > 0 {
      BoundaryAppend(p[1..], q);
      assert (p + q)[1..] == p[1..] + q;
    }
  }

  lemma DrainFirst(p: string)
    ensures var b := Boundary(p);
            if b < 0 then Blocks(p) == [] && Rest(p) == p
            else Blocks(p) == [p[..b]] + Blocks(p[b + 2..]) && Rest(p) == Rest(p[b + 2..])
  {
  }

  lemma DrainFirstOf(p: string, q: string)
    requires Boundary(p) >= 0
    ensures var b := Boundary(p);
            && Blocks(p + q) == [p[..b]] + Blocks(p[b + 2..] + q)
            && Rest(p + q) == Rest(p[b + 2..] + q)
  {
    var b := Boundary(p);
    BoundaryAppend(p, q);
    DrainFirst(p + q);
    assert (p + q)[..b] == p[..b] && (p + q)[b + 2..] == p[b + 2..] + q;
  }

  lemma NothingBefore(blocks: seq<string>)
    ensures [] + blocks == blocks
  {
  }

  /** Draining a prefix first changes nothing: the heart of the refinement. */
  lemma {:induction false} DrainAppend(p: string, q: string)
    ensures Blocks(p + q) == Blocks(p) + Blocks(Rest(p) + q)
    ensures Rest(p + q) == Rest(Rest(p) + q)
    decreases |p|
  {
    var b := Boundary(p);
    DrainFirst(p);
    if b < 0 {
      NothingBefore(Blocks(p + q));
    } else {
      var tail := p[b + 2..];
      DrainFirstOf(p, q);
      DrainAppend(tail, q);
      Regroup([p[..b]], Blocks(tail), Blocks(Rest(tail) + q));
    }
  }

  lemma {:induction false} FlatMapAppend(f: string -> seq<string>, a: seq<string>, b: seq<string>)
    ensures FlatMap(f, a + b) == FlatMap(f, a) + FlatMap(f, b)
  {
    if a == [] {
      assert a + b == b;
    } else {
      FlatMapAppend(f, a[1..], b);
      FlatMapFirst(f, a, b);
      Regroup(f(a[0]), FlatMap(f, a[1..]), FlatMap(f, b));
    }
  }

  lemma FlatMapFirst(f: string -> seq<string>, a: seq<string>, b: seq<string>)
    requires a != []
    ensures FlatMap(f, a + b) == f(a[0]) + FlatMap(f, a[1..] + b)
  {
    assert (a + b)[0] == a[0] && (a + b)[1..] == a[1..] + b;
  }

  lemma DrainOne(f: string -> seq<string>, p: string)
    requires Boundary(p) >= 0
    ensures FlatMap(f, Blocks(p)) == f(p[..Boundary(p)]) + FlatMap(f, Blocks(p[Boundary(p) + 2..]))
    ensures Rest(p) == Rest(p[Boundary(p) + 2..])
  {
  }

  lemma {:induction false} RestHasNoCr(p: string)
    requires '\r' !in p
    ensures '\r' !in Rest(p)
    decreases |p|
  {
    var b := Boundary(p);
    if b >= 0 {
      RestHasNoCr(p[b + 2..]);
    }
  }

  /** The decoder stands where the whole-stream decoder stands after the text `taken`. */
  ghost predicate Tracks(r: Receiver, p: Progress, taken: string) {
    && p.delivered == Decode(r, taken) && p.pending == Rest(StripCr(taken))
    && (p.stop <==> AnyWanted(r.wants, p.delivered))
  }

  lemma FedTracks(r: Receiver, p: Progress, taken: string, chunk: string)
    requires Tracks(r, p, taken) && !p.stop
    ensures Tracks(r, Fed(r, p, chunk), taken + chunk)
  {
    FeedExtends(r, taken, chunk);
    WantedAppend(r.wants, p.delivered, FlatMap(r.texts, Blocks(StripCr(p.pending + chunk))));
  }

  lemma EmptyTracks(r: Receiver)
    ensures Tracks(r, Start, "")
  {
    NoneWanted(r.wants);
    assert StripCr("") == "" && Blocks("") == [] && Rest("") == "";
  }

  lemma {:induction false} FedAllTracks(r: Receiver, p: Progress, text: string, chunks: seq<string>)
    requires Tracks(r, p, text)
    ensures Tracks(r, FedAll(r, p, chunks), text + Taken(r, p, chunks))
    decreases |chunks|
  {
    if chunks == [] {
      assert text + "" == text;
    } else if p.stop {
      FedAllTracks(r, p, text, chunks[1..]);
      assert text + "" == text && Fed(r, p, chunks[0]) == p;
    } else {
      var p', rest := Fed(r, p, chunks[0]), chunks[1..];
      FedTracks(r, p, text, chunks[0]);
      FedAllTracks(r, p', text + chunks[0], rest);
      Regroup(text, chunks[0], Taken(r, p', rest));
    }
  }

  lemma Regroup<T>(a: seq<T>, b: seq<T>, c: seq<T>)
    ensures a + b + c == a + (b + c)
  {
  }

  lemma {:induction false} TakenIsPrefix(r: Receiver, p: Progress, chunks: seq<string>)
    ensures Taken(r, p, chunks) <= Concat(chunks)
    ensures if p.stop then FedAll(r, p, chunks) == p
            else !FedAll(r, p, chunks).stop ==> Taken(r, p, chunks) == Concat(chunks)
    decreases |chunks|
  {
    if chunks != [] {
      TakenIsPrefix(r, Fed(r, p, chunks[0]), chunks[1..]);
    }
  }

  /** What is delivered is the whole-stream decoding of the chunks taken before the stop. */
  lemma DecoderRefinesWholeStream(r: Receiver, chunks: seq<string>)
    ensures var p, taken := FedAll(r, Start, chunks), Taken(r, Start, chunks);
            && p.delivered == Decode(r, taken) && p.pending == Rest(StripCr(taken))
            && (p.stop <==> AnyWanted(r.wants, p.delivered))
            && taken <= Concat(chunks) && (!p.stop ==> taken == Concat(chunks))
  {
    EmptyTracks(r);
    FedAllTracks(r, Start, "", chunks);
    TakenIsPrefix(r, Start, chunks);
    assert "" + Taken(r, Start, chunks) == Taken(r, Start, chunks);
  }

  lemma WantedInPrefix(wants: string -> bool, part: seq<string>, whole: seq<string>)
    requires part <= whole
    ensures AnyWanted(wants, part) ==> AnyWanted(wants, whole)
  {
    WantedAppend(wants, part, whole[|part|..]);
    assert whole == part + whole[|part|..];
  }

  lemma DecodeGrows(r: Receiver, a: string, b: string)
    requires a <= b
    ensures Decode(r, a) <= Decode(r, b)
  {
    assert b == a + b[|a|..];
    FeedExtends(r, a, b[|a|..]);
  }

  /**
   * A stream that is stopped delivers a prefix of what the whole stream holds, with a text that asked for the stop
   * in it; a stream is stopped exactly when it holds such a text.
   */
  lemma StoppedStreamIsAPrefix(r: Receiver, chunks: seq<string>)
    ensures var p, whole := FedAll(r, Start, chunks), Decode(r, Concat(chunks));
            && p.delivered <= whole && (p.stop <==> AnyWanted(r.wants, whole))
            && (if p.stop then AnyWanted(r.wants, p.delivered) else p.delivered == whole)
  {
    var p, whole := FedAll(r, Start, chunks), Decode(r, Concat(chunks));
    DecoderRefinesWholeStream(r, chunks);
    DecodeGrows(r, Taken(r, Start, chunks), Concat(chunks));
    WantedInPrefix(r.wants, p.delivered, whole);
  }

  lemma {:induction false} ConcatAppend(a: seq<string>, b: seq<string>)
    ensures Concat(a + b) == Concat(a) + Concat(b)
  {
    if a == [] {
      assert a + b == b;
    } else {
      ConcatAppend(a[1..], b);
      assert (a + b)[0] == a[0] && (a + b)[1..] == a[1..] + b;
      Regroup(a[0], Concat(a[1..]), Concat(b));
    }
  }

  /** A stop from outside between two chunks keeps what was delivered, a prefix of the whole, and admits no more. */
  lemma OutsideStopIsAPrefix(r: Receiver, a: seq<string>, b: seq<string>)
    ensures var p := FedAll(r, Start, a).(stop := true);
            FedAll(r, p, b) == p && p.delivered <= Decode(r, Concat(a + b))
  {
    StoppedStreamIsAPrefix(r, a);
    ConcatAppend(a, b);
    DecodeGrows(r, Concat(a), Concat(a + b));
    TakenIsPrefix(r, FedAll(r, Start, a).(stop := true), b);
  }

  /** While nothing asks to stop, only the concatenation matters: any two chunkings deliver the same. */
  lemma ChunkingDoesNotMatter(r: Receiver, a: seq<string>, b: seq<string>)
    requires Concat(a) == Concat(b) && !AnyWanted(r.wants, Decode(r, Concat(a)))
    ensures FedAll(r, Start, a).delivered == FedAll(r, Start, b).delivered == Decode(r, Concat(a))
  {
    StoppedStreamIsAPrefix(r, a);
    StoppedStreamIsAPrefix(r, b);
  }

  lemma FeedExtends(r: Receiver, taken: string, chunk: string)
    ensures var text := StripCr(Rest(StripCr(taken)) + chunk);
            && Decode(r, taken + chunk) == Decode(r, taken) + FlatMap(r.texts, Blocks(text))
            && Rest(StripCr(taken + chunk)) == Rest(text)
  {
    var stripped := StripCr(taken);
    StripAppend(taken, chunk);
    RestHasNoCr(stripped);
    StripAppend(Rest(stripped), chunk);
    StripStripped(Rest(stripped));
    DrainAppend(stripped, StripCr(chunk));
    FlatMapAppend(r.texts, Blocks(stripped), Blocks(Rest(stripped) + StripCr(chunk)));
  }
}
