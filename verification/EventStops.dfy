/** Exactly when the cutting into chunks shows after a stop was requested. */
module EventStops {
  import opened EventStream
  import opened EventFraming

  /** No text before the last asks to stop. */
  ghost predicate StopsOnlyAtEnd(wants: string -> bool, texts: seq<string>) {
    texts == [] || !AnyWanted(wants, texts[..|texts| - 1])
  }

  lemma ProperPrefix(wants: string -> bool, part: seq<string>, whole: seq<string>)
    ensures part < whole && AnyWanted(wants, part) ==> !StopsOnlyAtEnd(wants, whole)
  {
    if part < whole {
      WantedInPrefix(wants, part, whole[..|whole| - 1]);
    }
  }

  lemma LateStopDeliversAll(r: Receiver, chunks: seq<string>)
    requires StopsOnlyAtEnd(r.wants, Decode(r, Concat(chunks)))
    ensures FedAll(r, Start, chunks).delivered == Decode(r, Concat(chunks))
  {
    StoppedStreamIsAPrefix(r, chunks);
    ProperPrefix(r.wants, FedAll(r, Start, chunks).delivered, Decode(r, Concat(chunks)));
  }

  // ---- One more character completes at most one event

  lemma {:induction false} RestHasNoBoundary(p: string)
    ensures Boundary(Rest(p)) < 0
    decreases |p|
  {
    DrainFirst(p);
    if Boundary(p) >= 0 {
      RestHasNoBoundary(p[Boundary(p) + 2..]);
    }
  }

  lemma {:induction false} BoundaryAtEnd(p: string, c: char)
    requires Boundary(p) < 0
    ensures Boundary(p + [c]) < 0 || Boundary(p + [c]) == |p| - 1
  {
    if |p| > 1 {
      BoundaryAtEnd(p[1..], c);
      assert (p + [c])[1..] == p[1..] + [c];
    }
  }

  lemma AtMostOneBlock(p: string, c: char)
    requires Boundary(p) < 0
    ensures |Blocks(p + [c])| <= 1
  {
    BoundaryAtEnd(p, c);
    DrainFirst(p + [c]);
    var b := Boundary(p + [c]);
    if b >= 0 {
      assert (p + [c])[b + 2..] == "";
      DrainFirst("");
    }
  }

  lemma AtMostOneText(blocks: seq<string>)
    requires |blocks| <= 1
    ensures |FlatMap(EventTexts, blocks)| <= 1
  {
    if blocks != [] {
      assert blocks[1..] == [];
      assert FlatMap(EventTexts, blocks) == EventTexts(blocks[0]) + FlatMap(EventTexts, []);
    }
  }

  lemma OneMoreCharacter(wants: string -> bool, text: string, c: char)
    ensures var r := Receiver(EventTexts, wants); |Decode(r, text + [c])| <= |Decode(r, text)| + 1
  {
    var r := Receiver(EventTexts, wants);
    var rest := Rest(StripCr(text));
    FeedExtends(r, text, [c]);
    RestHasNoBoundary(StripCr(text));
    RestHasNoCr(StripCr(text));
    StripAppend(rest, [c]);
    StripStripped(rest);
    if c == '\r' {
      assert StripCr([c]) == "" && rest + "" == rest;
      DrainFirst(rest);
    } else {
      assert StripCr([c]) == [c];
      AtMostOneBlock(rest, c);
    }
    AtMostOneText(Blocks(StripCr(rest + [c])));
  }

  // ---- Cutting right behind the first stop

  /** The shortest prefix of the stream whose events ask to stop. */
  lemma {:induction false} FirstStop(r: Receiver, text: string, n: nat) returns (k: nat)
    requires n <= |text| && AnyWanted(r.wants, Decode(r, text[..n]))
    ensures 0 < k <= n && AnyWanted(r.wants, Decode(r, text[..k])) && !AnyWanted(r.wants, Decode(r, text[..k - 1]))
    decreases n
  {
    EmptyTracks(r);
    NoneWanted(r.wants);
    assert text[..0] == "" && Decode(r, "") == [];
    if n == 0 {
      assert false;
    } else if AnyWanted(r.wants, Decode(r, text[..n - 1])) {
      k := FirstStop(r, text, n - 1);
    } else {
      k := n;
    }
  }

  lemma OneMoreText(wants: string -> bool, before: seq<string>, whole: seq<string>)
    requires before <= whole && !AnyWanted(wants, before)
    ensures |whole| <= |before| + 1 ==> StopsOnlyAtEnd(wants, whole)
  {
    if whole != [] && |whole| <= |before| + 1 {
      WantedInPrefix(wants, whole[..|whole| - 1], before);
    }
  }

  lemma ConcatTwo(text: string, k: nat)
    requires k <= |text|
    ensures Concat([text[..k]] + [text[k..]]) == text
  {
    var chunks := [text[..k]] + [text[k..]];
    assert chunks[1..] == [text[k..]] && Concat([text[k..]]) == text[k..];
    assert text == text[..k] + text[k..];
  }

  lemma EarlyStopLosesTexts(wants: string -> bool, text: string) returns (chunks: seq<string>)
    requires !StopsOnlyAtEnd(wants, Decode(Receiver(EventTexts, wants), text))
    ensures Concat(chunks) == text
    ensures FedAll(Receiver(EventTexts, wants), Start, chunks).delivered != Decode(Receiver(EventTexts, wants), text)
  {
    var r := Receiver(EventTexts, wants);
    var whole := Decode(r, text);
    WantedInPrefix(wants, whole[..|whole| - 1], whole);
    assert text[..|text|] == text;
    var k := FirstStop(r, text, |text|);
    chunks := [text[..k]] + [text[k..]];
    ConcatTwo(text, k);
    FedOnce(r, text[..k], [text[k..]]);
    StopIsLast(wants, text, k);
    DecodeGrows(r, text[..k - 1], text);
    OneMoreText(wants, Decode(r, text[..k - 1]), whole);
  }

  lemma StopIsLast(wants: string -> bool, text: string, k: nat)
    requires 0 < k <= |text|
    ensures var r := Receiver(EventTexts, wants); |Decode(r, text[..k])| <= |Decode(r, text[..k - 1])| + 1
  {
    OneMoreCharacter(wants, text[..k - 1], text[k - 1]);
    assert text[..k - 1] + [text[k - 1]] == text[..k];
  }

  /** Every cutting of a stream delivers all of its events if and only if no event but the last asks to stop. */
  lemma ChunkingMattersExactly(wants: string -> bool, text: string)
    ensures var r := Receiver(EventTexts, wants);
            (forall chunks | Concat(chunks) == text :: FedAll(r, Start, chunks).delivered == Decode(r, text))
            <==> StopsOnlyAtEnd(wants, Decode(r, text))
  {
    var r := Receiver(EventTexts, wants);
    if StopsOnlyAtEnd(wants, Decode(r, text)) {
      forall chunks | Concat(chunks) == text ensures FedAll(r, Start, chunks).delivered == Decode(r, text) {
        LateStopDeliversAll(r, chunks);
      }
    } else {
      var chunks := EarlyStopLosesTexts(wants, text);
    }
  }
}
