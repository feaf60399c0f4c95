/** Query building for the REST binding, and the parsing that undoes it (sections 2.1 and 2.3 of RFC 3986). */
module Query {
  import opened Common

  /** Texts are bytes; a byte is written as the character with that code. */
  type Byte = c: char | c as int < 256

  type Text = seq<Byte>

  /** A query value: null, a string, or another value by its non-empty printed form. */
  datatype Value = Null | Str(text: Text) | Printed(text: Text)

  datatype Param = Param(key: Text, value: Value)

  // ---- Percent-encoding

  predicate Unreserved(c: Byte) {
    'a' <= c <= 'z' || 'A' <= c <= 'Z' || '0' <= c <= '9' || c == '-' || c == '_' || c == '.' || c == '~'
  }

  function Hex(n: int): Byte
    requires 0 <= n < 16
  {
    if n < 10 then ('0' as int + n) as char else ('A' as int + n - 10) as char
  }

  function EncodedByte(c: Byte): Text {
    if Unreserved(c) then [c] else ['%', Hex(c as int / 16), Hex(c as int % 16)]
  }

  function Encoded(value: Text): Text {
    if value == [] then [] else EncodedByte(value[0]) + Encoded(value[1..])
  }

  lemma EncodeNext(value: Text, i: nat, out: Text)
    requires i < |value|
    ensures out + Encoded(value[i..]) == out + EncodedByte(value[i]) + Encoded(value[i + 1..])
  {
    assert value[i..][1..] == value[i + 1..];
    assert out + (EncodedByte(value[i]) + Encoded(value[i + 1..]))
        == out + EncodedByte(value[i]) + Encoded(value[i + 1..]);
  }

  method UrlEncode(value: Text) returns (out: Text)
    ensures out == Encoded(value)
  {
    out := [];
    var i := 0;
    assert value[0..] == value && [] + Encoded(value) == Encoded(value);
    while i < |value|
      invariant i <= |value|
      invariant out + Encoded(value[i..]) == Encoded(value)
    {
      var c := value[i];
      EncodeNext(value, i, out);
      if Unreserved(c) {
        out := out + [c];
      } else {
        var high, low := Hex(c as int / 16), Hex(c as int % 16);
        assert out + ['%', high, low] == out + ['%'] + [high] + [low];
        out := out + ['%'];
        out := out + [high];
        out := out + [low];
      }
      i := i + 1;
    }
    assert value[i..] == [] && out + [] == out;
  }

  // ---- Adding to a query

  /** The text that a value contributes; an empty one is left out. */
  function TextOf(value: Value): Text {
    match value
    case Null => []
    case Str(text) => text
    case Printed(text) => text
  }

  function Piece(key: Text, text: Text): Text {
    Encoded(key) + ['='] + Encoded(text)
  }

  function Added(path: Text, key: Text, text: Text): Text {
    if text == [] then path else path + [if '?' in path then '&' else '?'] + Piece(key, text)
  }

  method AddQuery(path: Text, key: Text, value: Value) returns (out: Text)
    ensures out == Added(path, key, TextOf(value))
  {
    out := path;
    if value.Null? {
      return;
    }
    var text := value.text;
    if text == [] {
      return;
    }
    out := out + [if '?' in out then '&' else '?'];
    var encodedKey := UrlEncode(key);
    var encodedText := UrlEncode(text);
    out := out + (encodedKey + ['='] + encodedText);
  }

  function Built(base: Text, params: seq<Param>): Text {
    if params == [] then base
    else
      var last := params[|params| - 1];
      Added(Built(base, params[..|params| - 1]), last.key, TextOf(last.value))
  }

  method BuildQuery(base: Text, params: seq<Param>) returns (path: Text)
    ensures path == Built(base, params)
  {
    path := base;
    for i := 0 to |params|
      invariant path == Built(base, params[..i])
    {
      path := AddQuery(path, params[i].key, params[i].value);
      assert params[..i + 1][..i] == params[..i];
    }
    assert params[..|params|] == params;
  }

  // ---- A parser for such texts

  function HexValue(c: Byte): Option<int> {
    if '0' <= c <= '9' then Some(c as int - '0' as int)
    else if 'A' <= c <= 'F' then Some(c as int - 'A' as int + 10)
    else if 'a' <= c <= 'f' then Some(c as int - 'a' as int + 10)
    else None
  }

  function Escape(high: Byte, low: Byte): Option<Byte> {
    match (HexValue(high), HexValue(low))
    case (Some(h), Some(l)) => Some((h * 16 + l) as char)
    case _ => None
  }

  function PrependByte(c: Option<Byte>, rest: Option<Text>): Option<Text> {
    if c.Some? && rest.Some? then Some([c.value] + rest.value) else None
  }

  /** Percent-decoding; none for a percent sign without two hexadecimal digits. */
  function Decoded(text: Text): Option<Text>
    decreases |text|
  {
    if text == [] then Some([])
    else if text[0] != '%' then PrependByte(Some(text[0]), Decoded(text[1..]))
    else if |text| < 3 then None
    else PrependByte(Escape(text[1], text[2]), Decoded(text[3..]))
  }

  /** The text before the first separator and, if there is one, the text after it. */
  datatype Halves = Halves(before: Text, after: Option<Text>)

  function Cut(text: Text, separator: Byte): Halves {
    if text == [] then Halves([], None)
    else if text[0] == separator then Halves([], Some(text[1..]))
    else
      var rest := Cut(text[1..], separator);
      rest.(before := [text[0]] + rest.before)
  }

  function Split(text: Text, separator: Byte): (pieces: seq<Text>)
    ensures pieces != []
  {
    if text == [] then [[]]
    else
      var rest := Split(text[1..], separator);
      if text[0] == separator then [[]] + rest else [[text[0]] + rest[0]] + rest[1..]
  }

  datatype Pair = Pair(key: Text, text: Text)

  function ParsePiece(piece: Text): Option<Pair> {
    var halves := Cut(piece, '=');
    var key := Decoded(halves.before);
    var text := Decoded(halves.after.GetOr([]));
    if key.Some? && text.Some? then Some(Pair(key.value, text.value)) else None
  }

  datatype Parsed = Parsed(path: Text, pairs: seq<Option<Pair>>)

  function ParsePieces(pieces: seq<Text>): seq<Option<Pair>> {
    seq(|pieces|, i requires 0 <= i < |pieces| => ParsePiece(pieces[i]))
  }

  function Parse(text: Text): Parsed {
    var halves := Cut(text, '?');
    match halves.after
    case None => Parsed(text, [])
    case Some(query) => Parsed(halves.before, ParsePieces(Split(query, '&')))
  }

  function KeptOne(param: Param): seq<Option<Pair>> {
    var text := TextOf(param.value);
    if text == [] then [] else [Some(Pair(param.key, text))]
  }

  /** The pairs with a non-empty value, in order. */
  function Kept(params: seq<Param>): seq<Option<Pair>> {
    if params == [] then []
    else Kept(params[..|params| - 1]) + KeptOne(params[|params| - 1])
  }

  // ---- Parsing undoes building

  predicate Plain(c: Byte) {
    c != '?' && c != '&' && c != '='
  }

  lemma PlainByte(c: Byte)
    ensures forall x | x in EncodedByte(c) :: Plain(x)
  {
  }

  lemma {:induction false} EncodedIsPlain(value: Text)
    ensures forall x | x in Encoded(value) :: Plain(x)
  {
    if value != [] {
      PlainByte(value[0]);
      EncodedIsPlain(value[1..]);
    }
  }

  /** The unreserved characters by their codes, as in section 2.3 of RFC 3986. */
  predicate NeedsNoEscape(c: Byte) {
    var code := c as int;
    || 0x41 <= code <= 0x5A || 0x61 <= code <= 0x7A || 0x30 <= code <= 0x39
    || code == 0x2D || code == 0x2E || code == 0x5F || code == 0x7E
  }

  lemma EscapeExactly(c: Byte)
    ensures NeedsNoEscape(c) ==> EncodedByte(c) == [c]
    ensures !NeedsNoEscape(c) ==> |EncodedByte(c)| == 3
    ensures forall x | x in EncodedByte(c) :: NeedsNoEscape(x) || x == '%'
  {
  }

  /** Nothing but unreserved characters and percent signs is left: no `#`, `+`, `/` or blank gets into a query. */
  lemma {:induction false} EncodedIsUnreserved(value: Text)
    ensures forall c | c in Encoded(value) :: NeedsNoEscape(c) || c == '%'
  {
    if value != [] {
      EscapeExactly(value[0]);
      EncodedIsUnreserved(value[1..]);
    }
  }

  /** A text is left as it is if and only if it holds no other characters; otherwise it grows. */
  lemma {:induction false} KeptExactly(value: Text)
    ensures if forall c | c in value :: NeedsNoEscape(c) then Encoded(value) == value else |Encoded(value)| > |value|
  {
    if value != [] {
      EscapeExactly(value[0]);
      KeptExactly(value[1..]);
      assert value == [value[0]] + value[1..];
    }
  }

  lemma HexRoundTrip(c: Byte)
    ensures Escape(Hex(c as int / 16), Hex(c as int % 16)) == Some(c)
  {
    HexDigitRoundTrip(c as int / 16);
    HexDigitRoundTrip(c as int % 16);
    assert c as int / 16 * 16 + c as int % 16 == c as int;
  }

  lemma HexDigitRoundTrip(n: int)
    requires 0 <= n < 16
    ensures HexValue(Hex(n)) == Some(n)
  {
  }

  lemma DecodeByte(c: Byte, rest: Text)
    ensures Decoded(EncodedByte(c) + rest) == PrependByte(Some(c), Decoded(rest))
  {
    var text := EncodedByte(c) + rest;
    if Unreserved(c) {
      assert text[0] == c && text[1..] == rest;
    } else {
      HexRoundTrip(c);
      assert text[0] == '%' && text[3..] == rest;
    }
  }

  lemma {:induction false} DecodeUndoesEncode(value: Text)
    ensures Decoded(Encoded(value)) == Some(value)
  {
    if value != [] {
      DecodeByte(value[0], Encoded(value[1..]));
      DecodeUndoesEncode(value[1..]);
      assert value == [value[0]] + value[1..];
    }
  }

  lemma {:induction false} CutAbsent(text: Text, separator: Byte)
    requires separator !in text
    ensures Cut(text, separator) == Halves(text, None)
  {
    if text != [] {
      CutAbsent(text[1..], separator);
      assert text == [text[0]] + text[1..];
    }
  }

  lemma {:induction false} CutAt(before: Text, separator: Byte, after: Text)
    requires separator !in before
    ensures Cut(before + [separator] + after, separator) == Halves(before, Some(after))
  {
    var text := before + [separator] + after;
    if before == [] {
      assert text[1..] == after;
    } else {
      CutAt(before[1..], separator, after);
      assert text[1..] == before[1..] + [separator] + after;
      assert before == [before[0]] + before[1..];
    }
  }

  lemma {:induction false} CutPresent(text: Text, separator: Byte)
    requires separator in text
    ensures var halves := Cut(text, separator);
            && halves.after.Some? && separator !in halves.before
            && text == halves.before + [separator] + halves.after.value
  {
    assert text == [text[0]] + text[1..];
    if text[0] != separator {
      CutPresent(text[1..], separator);
    }
  }

  lemma {:induction false} SplitAbsent(text: Text, separator: Byte)
    requires separator !in text
    ensures Split(text, separator) == [text]
  {
    if text != [] {
      SplitAbsent(text[1..], separator);
      assert text == [text[0]] + text[1..];
    }
  }

  lemma {:induction false} SplitLast(text: Text, separator: Byte, piece: Text)
    requires separator !in piece
    ensures Split(text + [separator] + piece, separator) == Split(text, separator) + [piece]
  {
    var whole := text + [separator] + piece;
    if text == [] {
      assert whole[1..] == piece;
      SplitAbsent(piece, separator);
    } else {
      SplitLast(text[1..], separator, piece);
      assert whole[1..] == text[1..] + [separator] + piece;
    }
  }

  lemma ParseOne(key: Text, text: Text)
    ensures ParsePiece(Piece(key, text)) == Some(Pair(key, text))
    ensures '&' !in Piece(key, text)
  {
    EncodedIsPlain(key);
    EncodedIsPlain(text);
    CutAt(Encoded(key), '=', Encoded(text));
    DecodeUndoesEncode(key);
    DecodeUndoesEncode(text);
  }

  lemma ParseFirst(path: Text, piece: Text)
    requires '?' !in path && '&' !in piece
    ensures Parse(path) == Parsed(path, [])
    ensures Parse(path + ['?'] + piece) == Parsed(path, [ParsePiece(piece)])
  {
    CutAbsent(path, '?');
    CutAt(path, '?', piece);
    SplitAbsent(piece, '&');
  }

  lemma ParseNext(path: Text, piece: Text)
    requires '?' in path && '&' !in piece
    ensures Parse(path + ['&'] + piece) == Parse(path).(pairs := Parse(path).pairs + [ParsePiece(piece)])
  {
    CutPresent(path, '?');
    var halves := Cut(path, '?');
    var query := halves.after.value;
    assert path + ['&'] + piece == halves.before + ['?'] + (query + ['&'] + piece);
    CutAt(halves.before, '?', query + ['&'] + piece);
    SplitLast(query, '&', piece);
    assert ParsePieces(Split(query, '&') + [piece]) == ParsePieces(Split(query, '&')) + [ParsePiece(piece)];
  }

  lemma ParseAdded(path: Text, param: Param)
    ensures Parse(Added(path, param.key, TextOf(param.value)))
         == Parse(path).(pairs := Parse(path).pairs + KeptOne(param))
  {
    var text := TextOf(param.value);
    if text == [] {
      assert Parse(path).pairs + [] == Parse(path).pairs;
    } else {
      ParseOne(param.key, text);
      if '?' in path {
        ParseNext(path, Piece(param.key, text));
      } else {
        ParseFirst(path, Piece(param.key, text));
      }
    }
  }

  lemma BuiltNext(base: Text, params: seq<Param>, last: Param)
    ensures Built(base, params + [last]) == Added(Built(base, params), last.key, TextOf(last.value))
    ensures Kept(params + [last]) == Kept(params) + KeptOne(last)
  {
    assert (params + [last])[..|params|] == params;
  }

  /** What gains the kept pair of each parameter gains the kept pairs of all of them. */
  lemma {:induction false} PairsAccumulate(parse: seq<Param> -> Parsed, params: seq<Param>)
    requires forall rest: seq<Param>, last: Param ::
               parse(rest + [last]) == parse(rest).(pairs := parse(rest).pairs + KeptOne(last))
    ensures parse(params) == parse([]).(pairs := parse([]).pairs + Kept(params))
  {
    if params == [] {
      assert parse([]).pairs + [] == parse([]).pairs;
    } else {
      var rest, last := params[..|params| - 1], params[|params| - 1];
      assert params == rest + [last];
      PairsAccumulate(parse, rest);
      Regroup(parse([]).pairs, Kept(rest), KeptOne(last));
    }
  }

  lemma Regroup(a: seq<Option<Pair>>, b: seq<Option<Pair>>, c: seq<Option<Pair>>)
    ensures a + b + c == a + (b + c)
  {
  }

  /** Whatever the base already asks for stays; the pairs with a non-empty value follow it. */
  lemma ParseUndoesBuild(base: Text, params: seq<Param>)
    ensures Parse(Built(base, params)) == Parse(base).(pairs := Parse(base).pairs + Kept(params))
  {
    var parse := (ps: seq<Param>) => Parse(Built(base, ps));
    forall rest: seq<Param>, last: Param
      ensures parse(rest + [last]) == parse(rest).(pairs := parse(rest).pairs + KeptOne(last))
    {
      BuiltNext(base, rest, last);
      ParseAdded(Built(base, rest), last);
    }
    PairsAccumulate(parse, params);
  }

  /** A base without a question mark is the path, and the pairs are exactly those with a non-empty value. */
  lemma ParseGivesTheParams(base: Text, params: seq<Param>)
    requires '?' !in base
    ensures Parse(Built(base, params)) == Parsed(base, Kept(params))
  {
    ParseUndoesBuild(base, params);
    CutAbsent(base, '?');
    assert [] + Kept(params) == Kept(params);
  }
}
