/** The hash-chained, append-only log. */
module Audit {
  import opened Records

  // ---- Decimal text of a timestamp

  function Digits(n: nat): (s: string)
    ensures forall i | 0 <= i < |s| :: '0' <= s[i] <= '9'
    ensures |s| > 0
  {
    var last := [('0' as int + n % 10) as char];
    if n < 10 then last else Digits(n / 10) + last
  }

  function Decimal(n: int): string {
    if n < 0 then "-" + Digits(-n) else Digits(n)
  }

  lemma {:induction false} DigitsInjective(m: nat, n: nat)
    requires Digits(m) == Digits(n)
    ensures m == n
  {
    var a, b := Digits(m), Digits(n);
    assert a[|a| - 1] == ('0' as int + m % 10) as char;
    assert b[|b| - 1] == ('0' as int + n % 10) as char;
    if m >= 10 && n >= 10 {
      assert a[..|a| - 1] == Digits(m / 10) && b[..|b| - 1] == Digits(n / 10);
      DigitsInjective(m / 10, n / 10);
    }
  }

  lemma DecimalInjective(m: int, n: int)
    requires Decimal(m) == Decimal(n)
    ensures m == n
  {
    assert Decimal(m)[0] == Decimal(n)[0];
    if m < 0 {
      assert Digits(-m) == Decimal(m)[1..] == Decimal(n)[1..] == Digits(-n);
      DigitsInjective(-m, -n);
    } else {
      DigitsInjective(m, n);
    }
  }

  // ---- The text that is hashed for a row

  function Frame(previous: string, time: int, body: string): string {
    previous + "\n" + Decimal(time) + "\n" + body
  }

  lemma FirstNewline(a: string, x: string)
    requires '\n' !in a
    ensures (a + "\n" + x)[|a|] == '\n'
    ensures forall i | 0 <= i < |a| :: (a + "\n" + x)[i] != '\n'
  {
  }

  lemma SplitAtNewline(a: string, x: string, b: string, y: string)
    requires '\n' !in a && '\n' !in b
    requires a + "\n" + x == b + "\n" + y
    ensures a == b && x == y
  {
    FirstNewline(a, x);
    FirstNewline(b, y);
    assert a == (a + "\n" + x)[..|a|] && b == (b + "\n" + y)[..|b|];
    assert x == (a + "\n" + x)[|a| + 1..] && y == (b + "\n" + y)[|b| + 1..];
  }

  lemma FrameParts(previous: string, time: int, body: string)
    ensures Frame(previous, time, body) == previous + "\n" + (Decimal(time) + "\n" + body)
  {
  }

  lemma DecimalHasNoNewline(n: int)
    ensures '\n' !in Decimal(n)
  {
  }

  /** The framing is injective as long as the previous hash holds no newline. */
  lemma FrameInjective(p: string, s: int, x: string, q: string, t: int, y: string)
    requires '\n' !in p && '\n' !in q
    requires Frame(p, s, x) == Frame(q, t, y)
    ensures p == q && s == t && x == y
  {
    FrameParts(p, s, x);
    FrameParts(q, t, y);
    SplitAtNewline(p, Decimal(s) + "\n" + x, q, Decimal(t) + "\n" + y);
    DecimalHasNoNewline(s);
    DecimalHasNoNewline(t);
    SplitAtNewline(Decimal(s), x, Decimal(t), y);
    DecimalInjective(s, t);
  }

  /** Every hash is a digest: of the framed row, or of the dumped request. */
  function Sha256World(digest: string -> string, dumpRequest: Request -> string, dumpEvent: Event -> string): World {
    World((previous, time, event) => digest(Frame(previous, time, dumpEvent(event))),
          request => digest(dumpRequest(request)))
  }

  // ---- The chain

  function Head(log: seq<Row>): string {
    if log == [] then "" else log[|log| - 1].hash
  }

  function NextRow(w: World, previous: string, event: Event, time: int): Row {
    Row(time, event, previous, w.rowHash(previous, time, event))
  }

  function Append(w: World, log: seq<Row>, event: Event, time: int): (r: seq<Row>)
    ensures |r| == |log| + 1 && r[..|log|] == log
    ensures r[|log|].event == event && r[|log|].time == time
  {
    log + [NextRow(w, Head(log), event, time)]
  }

  /** Row `i` is linked to the row before it and carries the hash of its own columns. */
  predicate Linked(w: World, log: seq<Row>, i: nat)
    requires i < |log|
  {
    log[i].previousHash == Head(log[..i]) && log[i].hash == w.rowHash(log[i].previousHash, log[i].time, log[i].event)
  }

  predicate Chained(w: World, log: seq<Row>) {
    forall i | 0 <= i < |log| :: Linked(w, log, i)
  }

  lemma AppendKeepsChain(w: World, log: seq<Row>, event: Event, time: int)
    requires Chained(w, log)
    ensures Chained(w, Append(w, log, event, time))
  {
    var r := Append(w, log, event, time);
    forall i | 0 <= i < |r| ensures Linked(w, r, i) {
      assert r[..i] == log[..i];
      if i < |log| {
        assert Linked(w, log, i);
      } else {
        assert log[..i] == log;
      }
    }
  }

  lemma PrefixOfChain(w: World, log: seq<Row>, n: nat)
    requires Chained(w, log) && n <= |log|
    ensures Chained(w, log[..n])
  {
    forall i | 0 <= i < n ensures Linked(w, log[..n], i) {
      assert log[..n][..i] == log[..i];
      assert Linked(w, log, i);
    }
  }

  // ---- What the head commits to

  /** SHA-256 in hexadecimal: some text without a newline. */
  ghost predicate HexDigest(digest: string -> string) {
    forall x :: digest(x) != "" && '\n' !in digest(x)
  }

  function RowText(dumpEvent: Event -> string, row: Row): string {
    Frame(row.previousHash, row.time, dumpEvent(row.event))
  }

  /** The two rows hash to the same value although different texts were hashed. */
  ghost predicate Collide(digest: string -> string, dumpEvent: Event -> string, r: Row, s: Row) {
    && RowText(dumpEvent, r) != RowText(dumpEvent, s)
    && digest(RowText(dumpEvent, r)) == digest(RowText(dumpEvent, s))
  }

  /** The stored columns of two rows agree. */
  ghost predicate SameColumns(dumpEvent: Event -> string, r: Row, s: Row) {
    && r.time == s.time && r.previousHash == s.previousHash && r.hash == s.hash
    && dumpEvent(r.event) == dumpEvent(s.event)
  }

  /** Both logs hold the same rows. */
  ghost predicate SameHistory(dumpEvent: Event -> string, a: seq<Row>, b: seq<Row>) {
    |a| == |b| && forall i | 0 <= i < |a| :: SameColumns(dumpEvent, a[i], b[i])
  }

  /** A row of the first log and a row of the second are a collision of the digest. */
  ghost predicate ShowCollision(digest: string -> string, dumpEvent: Event -> string, a: seq<Row>, b: seq<Row>) {
    exists i, j | 0 <= i < |a| && 0 <= j < |b| :: Collide(digest, dumpEvent, a[i], b[j])
  }

  /**
   * The head commits to the whole history: two verified logs with the same head have the same rows,
   * unless one row of the first and one row of the second are a collision of the digest.
   */
  lemma {:induction false} HeadCommitsToHistory(digest: string -> string, dumpRequest: Request -> string,
                                                dumpEvent: Event -> string, a: seq<Row>, b: seq<Row>)
    requires HexDigest(digest) && Head(a) == Head(b)
    requires Chained(Sha256World(digest, dumpRequest, dumpEvent), a)
    requires Chained(Sha256World(digest, dumpRequest, dumpEvent), b)
    ensures SameHistory(dumpEvent, a, b) || ShowCollision(digest, dumpEvent, a, b)
    decreases |a|
  {
    var w := Sha256World(digest, dumpRequest, dumpEvent);
    if a != [] {
      LastHash(digest, dumpRequest, dumpEvent, a);
    }
    if b != [] {
      LastHash(digest, dumpRequest, dumpEvent, b);
    }
    if a != [] && b != [] {
      var i, j := |a| - 1, |b| - 1;
      if RowText(dumpEvent, a[i]) != RowText(dumpEvent, b[j]) {
        assert Collide(digest, dumpEvent, a[i], b[j]);
      } else {
        FrameInjective(a[i].previousHash, a[i].time, dumpEvent(a[i].event),
                       b[j].previousHash, b[j].time, dumpEvent(b[j].event));
        PrefixOfChain(w, a, i);
        PrefixOfChain(w, b, j);
        HeadCommitsToHistory(digest, dumpRequest, dumpEvent, a[..i], b[..j]);
        ExtendByRow(digest, dumpEvent, a, b);
      }
    }
  }

  lemma ExtendByRow(digest: string -> string, dumpEvent: Event -> string, a: seq<Row>, b: seq<Row>)
    requires a != [] && b != [] && SameColumns(dumpEvent, a[|a| - 1], b[|b| - 1])
    requires || SameHistory(dumpEvent, a[..|a| - 1], b[..|b| - 1])
             || ShowCollision(digest, dumpEvent, a[..|a| - 1], b[..|b| - 1])
    ensures SameHistory(dumpEvent, a, b) || ShowCollision(digest, dumpEvent, a, b)
  {
    var p, q := a[..|a| - 1], b[..|b| - 1];
    if ShowCollision(digest, dumpEvent, p, q) {
      var i, j :| 0 <= i < |p| && 0 <= j < |q| && Collide(digest, dumpEvent, p[i], q[j]);
      assert Collide(digest, dumpEvent, a[i], b[j]);
    } else {
      forall k | 0 <= k < |a| ensures SameColumns(dumpEvent, a[k], b[k]) {
        assert k < |p| ==> SameColumns(dumpEvent, p[k], q[k]);
      }
    }
  }

  /** The last row of a verified log: what its hash digests, and that its link holds no newline. */
  lemma LastHash(digest: string -> string, dumpRequest: Request -> string, dumpEvent: Event -> string, log: seq<Row>)
    requires HexDigest(digest) && log != []
    requires Chained(Sha256World(digest, dumpRequest, dumpEvent), log)
    ensures var row := log[|log| - 1];
            && row.hash == digest(RowText(dumpEvent, row)) && '\n' !in row.previousHash
            && row.previousHash == Head(log[..|log| - 1])
  {
    var w := Sha256World(digest, dumpRequest, dumpEvent);
    var n := |log| - 1;
    assert Linked(w, log, n);
    if n > 0 {
      assert Linked(w, log, n - 1);
      assert log[n].previousHash == log[n - 1].hash == digest(RowText(dumpEvent, log[n - 1]));
    }
  }
}
