/** The order of `ORDER BY id`: ids compare byte by byte. */
module Ordering {

  predicate Less(a: string, b: string) {
    && |b| > 0
    && (|a| == 0 || a[0] < b[0] || (a[0] == b[0] && Less(a[1..], b[1..])))
  }

  lemma {:induction false} LessTotal(a: string, b: string)
    ensures Less(a, b) || a == b || Less(b, a)
    ensures !(Less(a, b) && Less(b, a))
    ensures !Less(a, a)
  {
    if |a| > 0 && |b| > 0 && a[0] == b[0] {
      LessTotal(a[1..], b[1..]);
      assert a == [a[0]] + a[1..] && b == [b[0]] + b[1..];
    }
    if |a| > 0 {
      LessIrreflexive(a);
    }
  }

  lemma {:induction false} LessIrreflexive(a: string)
    ensures !Less(a, a)
  {
    if |a| > 0 {
      LessIrreflexive(a[1..]);
    }
  }

  lemma {:induction false} LessTransitive(a: string, b: string, c: string)
    requires Less(a, b) && Less(b, c)
    ensures Less(a, c)
  {
    if |a| > 0 && a[0] == b[0] && b[0] == c[0] {
      LessTransitive(a[1..], b[1..], c[1..]);
    }
  }

  /** Up to `k` both are the same; there `a` ends, or has the smaller character. */
  predicate ComesFirst(a: string, b: string, k: nat) {
    && k <= |a| && k < |b| && a[..k] == b[..k]
    && (k == |a| || a[k] < b[k])
  }

  /** One id comes before another if it is a proper prefix, or has the smaller character where they first differ. */
  lemma {:induction false} LessExactly(a: string, b: string)
    ensures Less(a, b) <==> exists k :: ComesFirst(a, b, k)
  {
    if |b| > 0 && (|a| == 0 || a[0] < b[0]) {
      assert ComesFirst(a, b, 0);
    } else if |a| > 0 && |b| > 0 {
      LessExactly(a[1..], b[1..]);
      if k: nat :| ComesFirst(a, b, k) {
        assert k > 0 && a[0] == a[..k][0] == b[..k][0] == b[0];
        assert a[1..][..k - 1] == a[..k][1..] == b[..k][1..] == b[1..][..k - 1];
        assert ComesFirst(a[1..], b[1..], k - 1);
      }
      if Less(a, b) {
        var k: nat :| ComesFirst(a[1..], b[1..], k);
        assert a[..k + 1] == [a[0]] + a[1..][..k] == [b[0]] + b[1..][..k] == b[..k + 1];
        assert ComesFirst(a, b, k + 1);
      }
    }
  }

  ghost predicate Increasing(s: seq<string>) {
    forall i, j | 0 <= i < j < |s| :: Less(s[i], s[j])
  }

  ghost predicate IsLeast(m: string, keys: set<string>) {
    m in keys && forall k | k in keys :: k == m || Less(m, k)
  }

  lemma {:induction false} LeastExists(keys: set<string>) returns (m: string)
    requires keys != {}
    ensures IsLeast(m, keys)
    decreases |keys|
  {
    var k :| k in keys;
    if keys == {k} {
      m := k;
    } else {
      var rest := keys - {k};
      assert rest != {};
      var r := LeastExists(rest);
      LessTotal(k, r);
      m := if Less(k, r) then k else r;
      forall x | x in keys ensures x == m || Less(m, x) {
        if x != k && x != r && m == k {
          LessTransitive(k, r, x);
        }
      }
    }
  }

  /** The ids of a set in increasing order: what a query that ends in `ORDER BY id` lists. */
  ghost function Ascending(keys: set<string>): (s: seq<string>)
    ensures Increasing(s)
    ensures forall k :: k in s <==> k in keys
    decreases |keys|
  {
    if keys == {} then
      []
    else
      assert exists m :: IsLeast(m, keys) by {
        var m := LeastExists(keys);
      }
      var m :| IsLeast(m, keys);
      var rest := Ascending(keys - {m});
      assert forall i | 0 <= i < |rest| :: rest[i] in rest && Less(m, rest[i]);
      [m] + rest
  }
}
