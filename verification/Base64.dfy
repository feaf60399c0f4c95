/** Base64 decoding with a 32-bit accumulator, as artifact parts are decoded (section 4 of RFC 4648). */
module Base64 {
  import opened Common

  type Byte = b: int | 0 <= b < 256
  type Sextet = v: int | 0 <= v < 64

  // ---- What a text stands for

  predicate IsSpace(c: char) {
    c == ' ' || ('\t' <= c <= '\r')
  }

  /** The value of a letter of the alphabet, -1 for every other character. */
  function ValueOf(c: char): (v: int)
    ensures -1 <= v < 64
  {
    if 'A' <= c <= 'Z' then c as int - 'A' as int
    else if 'a' <= c <= 'z' then c as int - 'a' as int + 26
    else if '0' <= c <= '9' then c as int - '0' as int + 52
    else if c == '+' then 62
    else if c == '/' then 63
    else -1
  }

  function Letter(v: Sextet): char {
    if v < 26 then ('A' as int + v) as char
    else if v < 52 then ('a' as int + v - 26) as char
    else if v < 62 then ('0' as int + v - 52) as char
    else if v == 62 then '+' else '/'
  }

  lemma LetterRoundTrip(v: Sextet)
    ensures ValueOf(Letter(v)) == v && !IsSpace(Letter(v)) && Letter(v) != '='
  {
  }

  /** Table 1 of RFC 4648, in three parts. */
  const Upper := "ABCDEFGHIJKLMNOPQRSTUVWXYZ"
  const Lower := "abcdefghijklmnopqrstuvwxyz"
  const Others := "0123456789+/"

  /** The value of a letter is its place in the table. */
  lemma ValuesFollowTheTable(v: Sextet)
    ensures ValueOf(if v < 26 then Upper[v] else if v < 52 then Lower[v - 26] else Others[v - 52]) == v
  {
    if v < 26 {
      UpperPlaces(v);
    } else if v < 52 {
      LowerPlaces(v - 26);
    } else {
      OtherPlaces(v - 52);
    }
  }

  lemma UpperPlaces(v: nat)
    requires v < 26
    ensures ValueOf(Upper[v]) == v
  {
  }

  lemma LowerPlaces(v: nat)
    requires v < 26
    ensures ValueOf(Lower[v]) == v + 26
  {
  }

  lemma OtherPlaces(v: nat)
    requires v < 12
    ensures ValueOf(Others[v]) == v + 52
  {
  }

  lemma ValuesAreUnique(c: char, d: char)
    ensures ValueOf(c) == ValueOf(d) >= 0 ==> c == d
  {
  }

  function RemoveSpace(text: string): string {
    if text == "" then "" else (if IsSpace(text[0]) then "" else [text[0]]) + RemoveSpace(text[1..])
  }

  function Prepend(v: seq<Sextet>, o: Option<seq<Sextet>>): Option<seq<Sextet>> {
    match o
    case None => None
    case Some(rest) => Some(v + rest)
  }

  /** The values of the letters before the first `=`; none when another character comes first. */
  function Sextets(text: string): Option<seq<Sextet>> {
    if text == "" || text[0] == '=' then Some([])
    else if IsSpace(text[0]) then Sextets(text[1..])
    else if ValueOf(text[0]) < 0 then None
    else
      Prepend([ValueOf(text[0])], Sextets(text[1..]))
  }

  function First(a: Sextet, b: Sextet): Byte {
    var n: int := a;
    n * 4 + b / 16
  }

  function Second(b: Sextet, c: Sextet): Byte {
    var n: int := b;
    n % 16 * 16 + c / 4
  }

  function Third(c: Sextet, d: Sextet): Byte {
    var n: int := c;
    n % 4 * 64 + d
  }

  /** How neighbouring sextets make the three bytes of a group. */
  datatype Packing = Packing(
    first: (Sextet, Sextet) -> Byte, second: (Sextet, Sextet) -> Byte, third: (Sextet, Sextet) -> Byte)

  const Packed := Packing(First, Second, Third)

  function Group(p: Packing, a: Sextet, b: Sextet, c: Sextet, d: Sextet): seq<Byte> {
    [p.first(a, b), p.second(b, c), p.third(c, d)]
  }

  /** Four sextets are three bytes; a shorter last group gives its complete bytes. */
  function BytesOf(p: Packing, v: seq<Sextet>): seq<Byte>
    decreases |v|
  {
    if |v| < 2 then []
    else if |v| == 2 then [p.first(v[0], v[1])]
    else if |v| == 3 then [p.first(v[0], v[1]), p.second(v[1], v[2])]
    else Group(p, v[0], v[1], v[2], v[3]) + BytesOf(p, v[4..])
  }

  function Decoded(text: string): Option<seq<Byte>> {
    match Sextets(text)
    case None => None
    case Some(v) => Some(BytesOf(Packed, v))
  }

  // ---- The accumulator

  /** Two's complement, 32 bits wide. */
  function Wrap32(x: int): int {
    (x + 0x8000_0000) % 0x1_0000_0000 - 0x8000_0000
  }

  /** `val >> bits & 0xff`. */
  function Extract(val: int, bits: int): Byte
    requires bits == 0 || bits == 2 || bits == 4
  {
    (if bits == 0 then val else if bits == 2 then val / 4 else val / 16) % 256
  }

  lemma Division4096(z: int, q: int, r: int)
    requires z == q * 4096 + r && 0 <= r < 4096
    ensures z % 4096 == r
  {
    var d, rest := z / 4096, z % 4096;
    assert z == d * 4096 + rest && 0 <= rest < 4096;
    assert d == q;
  }

  lemma Division256(z: int, q: int, r: int)
    requires z == q * 256 + r && 0 <= r < 256
    ensures z % 256 == r
  {
    var d, rest := z / 256, z % 256;
    assert z == d * 256 + rest && 0 <= rest < 256;
    assert d == q;
  }

  lemma WrapKeepsLowBits(x: int)
    ensures Wrap32(x) % 4096 == x % 4096
  {
    var q := (x + 0x8000_0000) / 0x1_0000_0000;
    assert Wrap32(x) == x - q * 0x1_0000_0000;
    Division4096(Wrap32(x), x / 4096 - q * 1048576, x % 4096);
  }

  lemma LowSextet(val: int, last: int, next: int)
    requires 0 <= last < 64 && 0 <= next < 64 && val % 4096 == last * 64 + next
    ensures val % 64 == next
  {
    assert val == (val / 4096 * 64 + last) * 64 + next;
  }

  lemma ExtractFirst(val: int, last: int, next: int)
    requires 0 <= last < 64 && 0 <= next < 64 && val % 4096 == last * 64 + next
    ensures val / 16 % 256 == last * 4 + next / 16
  {
    assert val / 16 == val / 4096 * 256 + last * 4 + next / 16;
  }

  lemma ExtractSecond(val: int, last: int, next: int)
    requires 0 <= last < 64 && 0 <= next < 64 && val % 4096 == last * 64 + next
    ensures val / 4 % 256 == last % 16 * 16 + next / 4
  {
    assert val / 4 == val / 4096 * 1024 + last * 16 + next / 4;
    assert last == last / 16 * 16 + last % 16;
    Division256(val / 4, val / 4096 * 4 + last / 16, last % 16 * 16 + next / 4);
  }

  lemma ExtractThird(val: int, last: int, next: int)
    requires 0 <= last < 64 && 0 <= next < 64 && val % 4096 == last * 64 + next
    ensures val % 256 == last % 4 * 64 + next
  {
    assert val == val / 4096 * 4096 + last * 64 + next;
    assert last == last / 4 * 4 + last % 4;
    Division256(val, val / 4096 * 16 + last / 4, last % 4 * 64 + next);
  }

  lemma LowBits(val: int, last: Sextet, next: Sextet)
    requires val % 4096 == last * 64 + next
    ensures val % 64 == next
    ensures Extract(val, 4) == First(last, next)
    ensures Extract(val, 2) == Second(last, next)
    ensures Extract(val, 0) == Third(last, next)
  {
    LowSextet(val, last, next);
    ExtractFirst(val, last, next);
    ExtractSecond(val, last, next);
    ExtractThird(val, last, next);
  }

  /** Only the last two sextets matter for the next byte, and the wrap-around never reaches them. */
  lemma ShiftIn(val: int, last: Sextet, next: Sextet)
    requires val % 64 == last
    ensures var val' := Wrap32(Wrap32(val * 64) + next);
            && val' % 64 == next
            && Extract(val', 4) == First(last, next)
            && Extract(val', 2) == Second(last, next)
            && Extract(val', 0) == Third(last, next)
  {
    var shifted: int := Wrap32(val * 64);
    WrapKeepsLowBits(val * 64);
    Division4096(val * 64, val / 64, last * 64);
    Division4096(shifted + next, shifted / 4096, last * 64 + next);
    WrapKeepsLowBits(shifted + next);
    LowBits(Wrap32(Wrap32(val * 64) + next), last, next);
  }

  /** `bits` after `k` letters: -8, -2, -4, -6 and round again. */
  function BitsAfter(k: nat): int {
    match k % 4
    case 0 => -8
    case 1 => -2
    case 2 => -4
    case _ => -6
  }

  /** The byte that one more letter completes, after `k` letters of which `last` was the last. */
  function Completed(p: Packing, k: nat, last: Sextet, next: Sextet): seq<Byte> {
    match k % 4
    case 0 => []
    case 1 => [p.first(last, next)]
    case 2 => [p.second(last, next)]
    case _ => [p.third(last, next)]
  }

  function Last(v: seq<Sextet>): Sextet {
    if v == [] then 0 else v[|v| - 1]
  }

  lemma {:induction false} BytesExtend(p: Packing, v: seq<Sextet>, next: Sextet)
    ensures BytesOf(p, v + [next]) == BytesOf(p, v) + Completed(p, |v|, Last(v), next)
    decreases |v|
  {
    if |v| < 4 {
      ShortExtend(p, v, next);
    } else {
      BytesExtend(p, v[4..], next);
      SameLast(p, v, next);
      GroupFirst(p, v);
      GroupFirst(p, v + [next]);
      assert (v + [next])[4..] == v[4..] + [next];
    }
  }

  lemma SameLast(p: Packing, v: seq<Sextet>, next: Sextet)
    requires |v| >= 4
    ensures Completed(p, |v[4..]|, Last(v[4..]), next) == Completed(p, |v|, Last(v), next)
  {
    assert (|v| - 4) % 4 == |v| % 4;
    assert |v| > 4 ==> Last(v[4..]) == Last(v);
  }

  lemma GroupFirst(p: Packing, v: seq<Sextet>)
    requires |v| >= 4
    ensures BytesOf(p, v) == Group(p, v[0], v[1], v[2], v[3]) + BytesOf(p, v[4..])
  {
  }

  lemma ShortExtend(p: Packing, v: seq<Sextet>, next: Sextet)
    requires |v| < 4
    ensures BytesOf(p, v + [next]) == BytesOf(p, v) + Completed(p, |v|, Last(v), next)
  {
    if |v| == 3 {
      GroupFirst(p, v + [next]);
      assert (v + [next])[4..] == [];
    }
  }

  /** `bits` says which byte, if any, the next letter completes. */
  lemma BitsSelectByte(p: Packing, k: nat, val: int, last: Sextet, next: Sextet)
    requires Extract(val, 4) == p.first(last, next)
    requires Extract(val, 2) == p.second(last, next)
    requires Extract(val, 0) == p.third(last, next)
    ensures var bits := BitsAfter(k) + 6;
            && BitsAfter(k + 1) == (if bits >= 0 then bits - 8 else bits)
            && Completed(p, k, last, next) == if bits >= 0 then [Extract(val, bits)] else []
  {
    NextPhase(k);
  }

  lemma NextPhase(k: nat)
    ensures (k + 1) % 4 == if k % 4 == 3 then 0 else k % 4 + 1
  {
  }

  lemma ExtendBy(p: Packing, v: seq<Sextet>, val: int, last: Sextet, next: Sextet)
    requires v != [] ==> last == Last(v)
    requires Extract(val, 4) == p.first(last, next)
    requires Extract(val, 2) == p.second(last, next)
    requires Extract(val, 0) == p.third(last, next)
    ensures var bits := BitsAfter(|v|) + 6;
            && BitsAfter(|v| + 1) == (if bits >= 0 then bits - 8 else bits)
            && BytesOf(p, v + [next]) == BytesOf(p, v) + if bits >= 0 then [Extract(val, bits)] else []
  {
    BitsSelectByte(p, |v|, val, last, next);
    BytesExtend(p, v, next);
  }

  /** One round of the loop: the accumulator and `bits` yield the byte that the letters complete. */
  lemma Accumulate(v: seq<Sextet>, val: int, next: Sextet)
    requires v != [] ==> val % 64 == Last(v)
    ensures var val', bits := Wrap32(Wrap32(val * 64) + next), BitsAfter(|v|) + 6;
            && val' % 64 == next
            && BitsAfter(|v| + 1) == (if bits >= 0 then bits - 8 else bits)
            && BytesOf(Packed, v + [next])
               == BytesOf(Packed, v) + if bits >= 0 then [Extract(val', bits)] else []
  {
    ShiftIn(val, val % 64, next);
    ExtendBy(Packed, v, Wrap32(Wrap32(val * 64) + next), val % 64, next);
  }

  lemma PrependOne(v: seq<Sextet>, next: Sextet, o: Option<seq<Sextet>>)
    ensures Prepend(v, Prepend([next], o)) == Prepend(v + [next], o)
  {
    match o
    case None =>
    case Some(rest) => assert v + ([next] + rest) == v + [next] + rest;
  }

  lemma PrependNone(o: Option<seq<Sextet>>)
    ensures Prepend([], o) == o
  {
    assert o.Some? ==> [] + o.value == o.value;
  }

  method DecodeBase64(input: string) returns (out: Option<seq<Byte>>)
    ensures out == Decoded(input)
  {
    var bytes: seq<Byte> := [];
    var val, bits, i := 0, -8, 0;
    ghost var v: seq<Sextet> := [];
    assert input[0..] == input;
    PrependNone(Sextets(input));
    while i < |input|
      invariant i <= |input|
      invariant Sextets(input) == Prepend(v, Sextets(input[i..]))
      invariant bytes == BytesOf(Packed, v) && bits == BitsAfter(|v|)
      invariant v != [] ==> val % 64 == Last(v)
    {
      var c := input[i];
      assert input[i..][0] == c && input[i..][1..] == input[i + 1..];
      i := i + 1;
      if c == '=' {
        assert v + [] == v;
        return Some(bytes);
      }
      if IsSpace(c) {
        continue;
      }
      var next := ValueOf(c);
      if next < 0 {
        return None;
      }
      PrependOne(v, next, Sextets(input[i..]));
      Accumulate(v, val, next);
      val := Wrap32(Wrap32(val * 64) + next);
      bits := bits + 6;
      if bits >= 0 {
        bytes := bytes + [Extract(val, bits)];
        bits := bits - 8;
      }
      v := v + [next];
    }
    assert input[i..] == "" && v + [] == v;
    return Some(bytes);
  }

  // ---- Encoding

  function OnlyFirst(a: Byte): Sextet {
    var n: int := a;
    n / 4
  }

  function FirstToSecond(a: Byte, b: Byte): Sextet {
    var m: int, n: int := a, b;
    m % 4 * 16 + n / 16
  }

  function SecondToThird(b: Byte, c: Byte): Sextet {
    var m: int, n: int := b, c;
    m % 16 * 4 + n / 64
  }

  function OnlyThird(c: Byte): Sextet {
    var n: int := c;
    n % 64
  }

  /** How the bytes of a group are spread over its four sextets. */
  datatype Spreading = Spreading(
    first: Byte -> Sextet, second: (Byte, Byte) -> Sextet, third: (Byte, Byte) -> Sextet, fourth: Byte -> Sextet)

  const Spread := Spreading(OnlyFirst, FirstToSecond, SecondToThird, OnlyThird)

  /** The sextets of a byte sequence, the last group filled up with zero bits. */
  function SextetsOf(q: Spreading, b: seq<Byte>): seq<Sextet>
    decreases |b|
  {
    if |b| == 0 then []
    else if |b| == 1 then [q.first(b[0]), q.second(b[0], 0)]
    else if |b| == 2 then [q.first(b[0]), q.second(b[0], b[1]), q.third(b[1], 0)]
    else [q.first(b[0]), q.second(b[0], b[1]), q.third(b[1], b[2]), q.fourth(b[2])] + SextetsOf(q, b[3..])
  }

  function LettersOf(letter: Sextet -> char, v: seq<Sextet>): string {
    if v == [] then "" else [letter(v[0])] + LettersOf(letter, v[1..])
  }

  /** The encoding without padding. */
  function Encoded(b: seq<Byte>): string {
    LettersOf(Letter, SextetsOf(Spread, b))
  }

  /** Packing puts together what spreading took apart. */
  ghost predicate Rejoins(p: Packing, q: Spreading) {
    && (forall a: Byte, b: Byte :: p.first(q.first(a), q.second(a, b)) == a)
    && (forall a: Byte, b: Byte, c: Byte :: p.second(q.second(a, b), q.third(b, c)) == b)
    && (forall b: Byte, c: Byte :: p.third(q.third(b, c), q.fourth(c)) == c)
  }

  lemma PartsRejoin()
    ensures Rejoins(Packed, Spread)
  {
    forall a: Byte, b: Byte ensures Packed.first(Spread.first(a), Spread.second(a, b)) == a {
      FirstRejoins(a, b);
    }
    forall a: Byte, b: Byte, c: Byte ensures Packed.second(Spread.second(a, b), Spread.third(b, c)) == b {
      SecondRejoins(a, b, c);
    }
    forall b: Byte, c: Byte ensures Packed.third(Spread.third(b, c), Spread.fourth(c)) == c {
      ThirdRejoins(b, c);
    }
  }

  lemma FirstRejoins(a: Byte, b: Byte)
    ensures First(OnlyFirst(a), FirstToSecond(a, b)) == a
  {
  }

  lemma LowNibble(x: int, h: int)
    requires 0 <= h < 16
    ensures (x * 16 + h) % 16 == h
  {
  }

  lemma HighNibble(l: int, t: int)
    requires 0 <= t < 4
    ensures (l * 4 + t) / 4 == l
  {
  }

  lemma SecondRejoins(a: Byte, b: Byte, c: Byte)
    ensures Second(FirstToSecond(a, b), SecondToThird(b, c)) == b
  {
    var h, l := b / 16, b % 16;
    var t := c / 64;
    assert FirstToSecond(a, b) == a % 4 * 16 + h && SecondToThird(b, c) == l * 4 + t;
    LowNibble(a % 4, h);
    HighNibble(l, t);
    assert b == h * 16 + l;
  }

  lemma ThirdRejoins(b: Byte, c: Byte)
    ensures Third(SecondToThird(b, c), OnlyThird(c)) == c
  {
  }

  lemma {:induction false} BytesRoundTrip(p: Packing, q: Spreading, b: seq<Byte>)
    requires Rejoins(p, q)
    ensures BytesOf(p, SextetsOf(q, b)) == b
    decreases |b|
  {
    if |b| == 1 {
      assert p.first(q.first(b[0]), q.second(b[0], 0)) == b[0];
      assert b == [b[0]];
    } else if |b| == 2 {
      TwoBytes(p, q, b);
    } else if |b| >= 3 {
      GroupRoundTrip(p, q, b);
      BytesRoundTrip(p, q, b[3..]);
      assert b == [b[0], b[1], b[2]] + b[3..];
    }
  }

  lemma TwoBytes(p: Packing, q: Spreading, b: seq<Byte>)
    requires Rejoins(p, q) && |b| == 2
    ensures BytesOf(p, SextetsOf(q, b)) == b
  {
    assert p.first(q.first(b[0]), q.second(b[0], b[1])) == b[0];
    assert p.second(q.second(b[0], b[1]), q.third(b[1], 0)) == b[1];
    assert b == [b[0], b[1]];
  }

  lemma GroupRoundTrip(p: Packing, q: Spreading, b: seq<Byte>)
    requires Rejoins(p, q) && |b| >= 3
    ensures BytesOf(p, SextetsOf(q, b)) == [b[0], b[1], b[2]] + BytesOf(p, SextetsOf(q, b[3..]))
  {
    var v := SextetsOf(q, b);
    GroupFirst(p, v);
    assert v[4..] == SextetsOf(q, b[3..]);
    assert Group(p, v[0], v[1], v[2], v[3]) == [b[0], b[1], b[2]];
  }

  lemma {:induction false} SextetsIgnoreSpace(text: string)
    ensures Sextets(text) == Sextets(RemoveSpace(text))
  {
    if text != "" {
      SextetsIgnoreSpace(text[1..]);
      if IsSpace(text[0]) {
        assert RemoveSpace(text) == RemoveSpace(text[1..]);
      } else {
        assert RemoveSpace(text)[0] == text[0] && RemoveSpace(text)[1..] == RemoveSpace(text[1..]);
      }
    }
  }

  lemma FirstLetter(text: string, v: Sextet)
    requires text != "" && text[0] == Letter(v)
    ensures Sextets(text) == Prepend([v], Sextets(text[1..]))
  {
    LetterRoundTrip(v);
  }

  lemma TextTail(c: char, rest: string, padding: string)
    ensures ([c] + rest + padding)[0] == c
    ensures ([c] + rest + padding)[1..] == rest + padding
  {
    assert [c] + rest + padding == [c] + (rest + padding);
  }

  lemma {:induction false} SextetsOfLetters(v: seq<Sextet>, padding: string)
    requires padding == "" || padding[0] == '='
    ensures Sextets(LettersOf(Letter, v) + padding) == Some(v)
  {
    if v == [] {
      assert LettersOf(Letter, v) + padding == padding;
    } else {
      assert LettersOf(Letter, v) == [Letter(v[0])] + LettersOf(Letter, v[1..]);
      TextTail(Letter(v[0]), LettersOf(Letter, v[1..]), padding);
      FirstLetter(LettersOf(Letter, v) + padding, v[0]);
      SextetsOfLetters(v[1..], padding);
      assert [v[0]] + v[1..] == v;
    }
  }

  /** Decoding undoes encoding for any bytes, with or without padding and with white space anywhere. */
  lemma DecodeUndoesEncode(b: seq<Byte>, padding: string, text: string)
    requires padding == "" || padding[0] == '='
    requires RemoveSpace(text) == Encoded(b) + padding
    ensures Decoded(text) == Some(b)
  {
    SextetsIgnoreSpace(text);
    SextetsOfLetters(SextetsOf(Spread, b), padding);
    PartsRejoin();
    BytesRoundTrip(Packed, Spread, b);
  }

  /** A character that is neither white space nor a letter, with no `=` before it. */
  ghost predicate BadAt(text: string, i: nat) {
    i < |text| && !IsSpace(text[i]) && ValueOf(text[i]) < 0 && '=' !in text[..i + 1]
  }

  lemma BadLater(text: string, i: nat)
    requires text != "" && text[0] != '='
    ensures BadAt(text, i + 1) <==> BadAt(text[1..], i)
  {
    if i + 1 < |text| {
      assert text[..i + 2] == [text[0]] + text[1..][..i + 1];
    }
  }

  lemma {:induction false} SextetsRejectExactly(text: string)
    ensures Sextets(text).None? <==> exists i: nat :: BadAt(text, i)
  {
    if text == "" {
    } else if text[0] == '=' {
      forall i: nat | i < |text| ensures !BadAt(text, i) {
        assert text[..i + 1][0] == '=';
      }
    } else {
      SextetsRejectExactly(text[1..]);
      if Sextets(text[1..]).None? {
        var i: nat :| BadAt(text[1..], i);
        BadLater(text, i);
        assert BadAt(text, i + 1);
      }
      if i: nat :| BadAt(text, i) && i > 0 {
        BadLater(text, i - 1);
        assert BadAt(text[1..], i - 1);
      }
      BadFirst(text);
    }
  }

  lemma BadFirst(text: string)
    requires text != "" && text[0] != '='
    ensures BadAt(text, 0) <==> !IsSpace(text[0]) && ValueOf(text[0]) < 0
  {
    assert text[..1] == [text[0]];
  }

  /** Decoding fails exactly when another character comes before the first `=`. */
  lemma RejectsExactly(text: string)
    ensures Decoded(text).None? <==> exists i: nat :: BadAt(text, i)
  {
    SextetsRejectExactly(text);
  }
}
