/** Named shares of a total: sums over maps, and the one order every display
    lists them in (internal/cardrun/report.go, buckets). */
module Tallies {

  // ----- Sums over a map -----

  function Get<K>(m: map<K, real>, k: K): real {
    if k in m then m[k] else 0.0
  }

  ghost function Sum<K>(m: map<K, real>): real
    decreases |m|
  {
    if m == map[] then 0.0
    else
      var k :| k in m;
      m[k] + Sum(m - {k})
  }

  /** Any key may be taken out first. */
  lemma {:induction false} SumRemove<K>(m: map<K, real>, k: K)
    requires k in m
    ensures Sum(m) == m[k] + Sum(m - {k})
    decreases |m|
  {
    var j :| j in m && Sum(m) == m[j] + Sum(m - {j});
    if j != k {
      SumRemove(m - {j}, k);
      SumRemove(m - {k}, j);
      assert m - {j} - {k} == m - {k} - {j};
    }
  }

  /** Adding to one share adds as much to the sum. */
  lemma SumAdd<K>(m: map<K, real>, k: K, x: real)
    ensures Sum(m[k := Get(m, k) + x]) == Sum(m) + x
  {
    var n := m[k := Get(m, k) + x];
    SumRemove(n, k);
    assert n - {k} == m - {k};
    if k in m {
      SumRemove(m, k);
    } else {
      assert m - {k} == m;
    }
  }

  /** Shares none of which is negative sum to zero only when all are zero. */
  lemma {:induction false} SumIsZeroIff<K>(m: map<K, real>)
    requires forall k :: k in m ==> m[k] >= 0.0
    ensures Sum(m) >= 0.0
    ensures Sum(m) == 0.0 <==> forall k :: k in m ==> m[k] == 0.0
    decreases |m|
  {
    if m != map[] {
      var k :| k in m;
      SumRemove(m, k);
      SumIsZeroIff(m - {k});
      assert forall j :: j in m ==> j == k || j in m - {k};
    }
  }

  // ----- Byte order on names -----

  predicate LexLess(a: string, b: string) {
    b != "" && (a == "" || a[0] < b[0] || (a[0] == b[0] && LexLess(a[1..], b[1..])))
  }

  /** Byte order: at the first place where the two differ the lesser has the lesser
      byte, or has ended. */
  lemma {:induction false} LexLessIff(a: string, b: string)
    ensures LexLess(a, b) <==> exists n: nat :: DiffersAt(a, b, n) && n < |b| && (n == |a| || a[n] < b[n])
  {
    if a == "" || b == "" || a[0] != b[0] {
      if LexLess(a, b) { assert DiffersAt(a, b, 0); }
    } else {
      LexLessIff(a[1..], b[1..]);
      if LexLess(a[1..], b[1..]) {
        var n: nat :| DiffersAt(a[1..], b[1..], n) && n < |b[1..]| && (n == |a[1..]| || a[1..][n] < b[1..][n]);
        DiffersLater(a, b, n);
      }
      if n: nat :| DiffersAt(a, b, n) && n < |b| && (n == |a| || a[n] < b[n]) {
        assert n > 0;
        DiffersLater(a, b, n - 1);
      }
    }
  }

  /** The two agree up to n. */
  predicate DiffersAt(a: string, b: string, n: nat) {
    n <= |a| && n <= |b| && a[..n] == b[..n]
  }

  lemma DiffersLater(a: string, b: string, n: nat)
    requires a != "" && b != "" && a[0] == b[0]
    ensures DiffersAt(a, b, n + 1) <==> DiffersAt(a[1..], b[1..], n)
    ensures n < |a| - 1 ==> a[n + 1] == a[1..][n]
    ensures n < |b| - 1 ==> b[n + 1] == b[1..][n]
  {
    if n + 1 <= |a| && n + 1 <= |b| {
      assert a[..n + 1] == [a[0]] + a[1..][..n] && b[..n + 1] == [b[0]] + b[1..][..n];
    }
  }

  lemma {:induction false} LexTotal(a: string, b: string)
    ensures LexLess(a, b) || a == b || LexLess(b, a)
    ensures !(LexLess(a, b) && LexLess(b, a))
  {
    if a != "" && b != "" {
      LexTotal(a[1..], b[1..]);
      assert a == [a[0]] + a[1..] && b == [b[0]] + b[1..];
    }
  }

  lemma {:induction false} LexTransitive(a: string, b: string, c: string)
    requires LexLess(a, b) && LexLess(b, c)
    ensures LexLess(a, c)
  {
    if a != "" && a[0] == b[0] == c[0] { LexTransitive(a[1..], b[1..], c[1..]); }
  }

  // ----- Buckets -----

  datatype Bucket = Bucket(name: string, credits: real)

  /** Larger first, ties by name. */
  predicate Before(a: Bucket, b: Bucket) {
    a.credits > b.credits || (a.credits == b.credits && LexLess(a.name, b.name))
  }

  lemma BeforeTransitive(a: Bucket, b: Bucket, c: Bucket)
    requires Before(a, b) && Before(b, c)
    ensures Before(a, c)
  {
    if a.credits == b.credits == c.credits { LexTransitive(a.name, b.name, c.name); }
  }

  predicate Listed(bs: seq<Bucket>) {
    forall i, j :: 0 <= i < j < |bs| ==> Before(bs[i], bs[j])
  }

  /** The buckets of a map: one per name, largest first. */
  ghost predicate IsBuckets(bs: seq<Bucket>, m: map<string, real>) {
    && Listed(bs)
    && (forall i :: 0 <= i < |bs| ==> bs[i].name in m && m[bs[i].name] == bs[i].credits)
    && (forall k :: k in m ==> Bucket(k, m[k]) in bs)
  }

  function BucketTotal(bs: seq<Bucket>): real {
    if bs == [] then 0.0 else BucketTotal(bs[..|bs| - 1]) + bs[|bs| - 1].credits
  }

  function InsertBucket(bs: seq<Bucket>, b: Bucket): (r: seq<Bucket>)
    ensures |r| == |bs| + 1
    ensures r[0] == b || (bs != [] && r[0] == bs[0])
  {
    if bs == [] || Before(b, bs[0]) then [b] + bs else [bs[0]] + InsertBucket(bs[1..], b)
  }

  lemma {:induction false} InsertBucketLists(bs: seq<Bucket>, b: Bucket)
    requires Listed(bs) && forall i :: 0 <= i < |bs| ==> bs[i].name != b.name
    ensures Listed(InsertBucket(bs, b))
    ensures forall x :: x in InsertBucket(bs, b) <==> x in bs || x == b
  {
    if bs == [] {
    } else if Before(b, bs[0]) {
      forall i | 0 <= i < |bs| ensures Before(b, bs[i]) {
        if i > 0 { BeforeTransitive(b, bs[0], bs[i]); }
      }
    } else {
      LexTotal(b.name, bs[0].name);
      var rest := bs[1..];
      assert forall i :: 0 <= i < |rest| ==> rest[i] == bs[i + 1];
      InsertBucketLists(rest, b);
      var r := InsertBucket(rest, b);
      forall i | 0 <= i < |r| ensures Before(bs[0], r[i]) {
        assert r[i] in r;
        if r[i] != b {
          var j :| 0 <= j < |rest| && rest[j] == r[i];
        }
      }
      assert bs == [bs[0]] + rest;
    }
  }

  /** The order never wobbles: whatever order the map is walked in, the list is
      the same. */
  lemma {:induction false} BucketsAreUnique(a: seq<Bucket>, b: seq<Bucket>, m: map<string, real>)
    requires IsBuckets(a, m) && IsBuckets(b, m)
    ensures a == b
  {
    forall x ensures x in a <==> x in b {
      if x in a { var i :| 0 <= i < |a| && a[i] == x; }
      if x in b { var i :| 0 <= i < |b| && b[i] == x; }
    }
    SameListed(a, b);
  }

  lemma {:induction false} SameListed(a: seq<Bucket>, b: seq<Bucket>)
    requires Listed(a) && Listed(b) && forall x :: x in a <==> x in b
    ensures a == b
  {
    assert |b| > 0 ==> b[0] in b;
    if a != [] {
      assert a[0] in a;
      var i :| 0 <= i < |b| && b[i] == a[0];
      var j :| 0 <= j < |a| && a[j] == b[0];
      BeforeAsymmetric(a[0], b[0]);
      forall x ensures x in a[1..] <==> x in b[1..] {
        RestMembers(a, x);
        RestMembers(b, x);
      }
      SameListed(a[1..], b[1..]);
    }
  }

  lemma BeforeAsymmetric(a: Bucket, b: Bucket)
    ensures !(Before(a, b) && Before(b, a))
  {
    LexTotal(a.name, b.name);
  }

  lemma RestMembers(a: seq<Bucket>, x: Bucket)
    requires Listed(a) && a != []
    ensures x in a[1..] <==> x in a && x != a[0]
  {
    LexTotal(a[0].name, a[0].name);
    assert a == [a[0]] + a[1..];
  }

  lemma {:induction false} InsertTotal(bs: seq<Bucket>, b: Bucket)
    ensures BucketTotal(InsertBucket(bs, b)) == BucketTotal(bs) + b.credits
  {
    if bs == [] || Before(b, bs[0]) {
      ConsTotal(b, bs);
    } else {
      InsertTotal(bs[1..], b);
      ConsTotal(bs[0], InsertBucket(bs[1..], b));
      ConsTotal(bs[0], bs[1..]);
      assert bs == [bs[0]] + bs[1..];
    }
  }

  lemma {:induction false} ConsTotal(b: Bucket, bs: seq<Bucket>)
    ensures BucketTotal([b] + bs) == b.credits + BucketTotal(bs)
  {
    var all := [b] + bs;
    if bs == [] {
      assert all[..0] == [];
    } else {
      ConsTotal(b, bs[..|bs| - 1]);
      assert all[..|all| - 1] == [b] + bs[..|bs| - 1];
    }
  }

  /** Walks the map in no particular order. */
  method Buckets(m: map<string, real>) returns (out: seq<Bucket>)
    ensures IsBuckets(out, m)
    ensures BucketTotal(out) == Sum(m)
  {
    out := [];
    var left := m;
    while left != map[]
      invariant forall k :: k in left ==> k in m && left[k] == m[k]
      invariant Listed(out)
      invariant forall i :: 0 <= i < |out| ==> out[i].name in m && out[i].name !in left && m[out[i].name] == out[i].credits
      invariant forall k :: k in m && k !in left ==> Bucket(k, m[k]) in out
      invariant BucketTotal(out) + Sum(left) == Sum(m)
      decreases |left|
    {
      var k :| k in left;
      SumRemove(left, k);
      InsertBucketLists(out, Bucket(k, left[k]));
      InsertTotal(out, Bucket(k, left[k]));
      var grown := InsertBucket(out, Bucket(k, left[k]));
      forall i | 0 <= i < |grown|
        ensures grown[i].name in m && grown[i].name !in left - {k} && m[grown[i].name] == grown[i].credits
      {
        assert grown[i] in grown;
      }
      out := grown;
      left := left - {k};
    }
  }
}
