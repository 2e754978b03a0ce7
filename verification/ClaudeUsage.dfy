/** The usage a claude result reports, folded onto one name per model
    (internal/agent/claudemodelid.go). */
module ClaudeUsage {

  function Largest(a: int, b: int): int { if a >= b then a else b }

  /** What a result reports of one model: counts, a cost and a context window. */
  datatype ModelUsage = ModelUsage(input: int, output: int, cacheRead: int, cacheWrite: int, cost: real, window: int) {
    function Tokens(): int { input + output + cacheRead + cacheWrite }

    function Plus(o: ModelUsage): ModelUsage {
      ModelUsage(input + o.input, output + o.output, cacheRead + o.cacheRead, cacheWrite + o.cacheWrite,
                 cost + o.cost, Largest(window, o.window))
    }
  }

  const NO_USAGE := ModelUsage(0, 0, 0, 0, 0.0, 0)

  type Usages = map<string, ModelUsage>

  predicate Dated(model: string) {
    |model| >= 9 && model[|model| - 9] == '-'
    && forall i :: |model| - 8 <= i < |model| ==> '0' <= model[i] <= '9'
  }

  /** The one name a model is metered under: its release date dropped. */
  function ModelKey(model: string): string {
    if Dated(model) then model[..|model| - 9] else model
  }

  /** A model's dated and undated spellings share a key. */
  lemma DatedSpellingSharesKey(model: string, date: string)
    requires |date| == 8 && (forall i :: 0 <= i < 8 ==> '0' <= date[i] <= '9') && !Dated(model)
    ensures ModelKey(model + "-" + date) == ModelKey(model) == model
  {
    var dated := model + "-" + date;
    assert dated[|dated| - 9] == '-';
    assert forall i :: |dated| - 8 <= i < |dated| ==> dated[i] == date[i - |model| - 1];
    assert dated[..|dated| - 9] == model;
  }

  // ----- Sums -----

  ghost function Total(m: Usages): ModelUsage
    decreases |m|
  {
    if m == map[] then NO_USAGE
    else
      var k :| k in m;
      m[k].Plus(Total(m - {k}))
  }

  lemma PlusCommutes(a: ModelUsage, b: ModelUsage, c: ModelUsage)
    ensures a.Plus(b.Plus(c)) == b.Plus(a.Plus(c))
  {
  }

  lemma {:induction false} TotalRemove(m: Usages, k: string)
    requires k in m
    ensures Total(m) == m[k].Plus(Total(m - {k}))
    decreases |m|
  {
    var j :| j in m && Total(m) == m[j].Plus(Total(m - {j}));
    if j != k {
      TotalRemove(m - {j}, k);
      TotalRemove(m - {k}, j);
      assert m - {j} - {k} == m - {k} - {j};
      PlusCommutes(m[j], m[k], Total(m - {j} - {k}));
    }
  }

  /** The entries metered under key k. */
  function Under(m: Usages, k: string): Usages {
    map x | x in m && ModelKey(x) == k :: m[x]
  }

  /** The fold: each key holds the sums of its entries, and the largest of their
      windows. */
  ghost predicate FoldedByKey(out: Usages, m: Usages) {
    && (forall k :: k in out <==> exists x :: x in m && ModelKey(x) == k)
    && (forall k :: k in out ==> out[k] == Total(Under(m, k)))
  }

  lemma UnderGrows(done: Usages, x: string, u: ModelUsage, k: string)
    requires x !in done
    ensures Total(Under(done[x := u], k)) == if ModelKey(x) == k then u.Plus(Total(Under(done, k))) else Total(Under(done, k))
  {
    var after := Under(done[x := u], k);
    if ModelKey(x) == k {
      TotalRemove(after, x);
      assert after - {x} == Under(done, k);
    } else {
      assert after == Under(done, k);
    }
  }

  function AddTo(out: Usages, k: string, u: ModelUsage): Usages {
    out[k := (if k in out then out[k] else NO_USAGE).Plus(u)]
  }

  lemma NothingFolded()
    ensures FoldedByKey(map[], map[])
  {
  }

  lemma FoldGrows(out: Usages, done: Usages, x: string, u: ModelUsage)
    requires FoldedByKey(out, done) && x !in done
    ensures var k := ModelKey(x);
            FoldedByKey(AddTo(out, k, u), done[x := u])
  {
    var k := ModelKey(x);
    var grown, all := AddTo(out, k, u), done[x := u];
    forall j ensures (j in grown <==> exists y :: y in all && ModelKey(y) == j) && (j in grown ==> grown[j] == Total(Under(all, j))) {
      KeyNamed(out, done, x, u, j);
      if j in grown { KeyTotal(out, done, x, u, j); }
    }
  }

  lemma KeyNamed(out: Usages, done: Usages, x: string, u: ModelUsage, j: string)
    requires FoldedByKey(out, done) && x !in done
    ensures j in AddTo(out, ModelKey(x), u) <==> exists y :: y in done[x := u] && ModelKey(y) == j
  {
    var all := done[x := u];
    if j in out {
      var y :| y in done && ModelKey(y) == j;
      assert y in all;
    }
    if j == ModelKey(x) { assert x in all; }
  }

  lemma KeyTotal(out: Usages, done: Usages, x: string, u: ModelUsage, j: string)
    requires FoldedByKey(out, done) && x !in done && j in AddTo(out, ModelKey(x), u)
    ensures AddTo(out, ModelKey(x), u)[j] == Total(Under(done[x := u], j))
  {
    var k := ModelKey(x);
    UnderGrows(done, x, u, j);
    if j == k {
      if k !in out {
        assert Under(done, k) == map[];
      }
      PlusSymmetric(u, Total(Under(done, k)));
    }
  }

  lemma PlusSymmetric(a: ModelUsage, b: ModelUsage)
    ensures a.Plus(b) == b.Plus(a)
  {
  }

  lemma FoldNext(out: Usages, m: Usages, left: set<string>, x: string)
    requires left <= m.Keys && x in left && FoldedByKey(out, m - left)
    ensures FoldedByKey(AddTo(out, ModelKey(x), m[x]), m - (left - {x}))
  {
    FoldGrows(out, m - left, x, m[x]);
    MoveOne(m, left, x);
  }

  lemma MoveOne(m: Usages, left: set<string>, x: string)
    requires left <= m.Keys && x in left
    ensures (m - left)[x := m[x]] == m - (left - {x})
  {
  }

  lemma {:induction false} TotalPut(out: Usages, k: string, u: ModelUsage)
    ensures Total(AddTo(out, k, u)) == u.Plus(Total(out))
  {
    var grown := AddTo(out, k, u);
    TotalWindow(out);
    TotalRemove(grown, k);
    assert grown - {k} == out - {k};
    if k in out {
      TotalRemove(out, k);
      PlusRegroup(out[k], u, Total(out - {k}));
    } else {
      assert out - {k} == out;
      PlusSymmetric(NO_USAGE, u);
      PlusNothing(u, Total(out));
    }
  }

  lemma PlusRegroup(a: ModelUsage, b: ModelUsage, c: ModelUsage)
    ensures a.Plus(b).Plus(c) == b.Plus(a.Plus(c))
  {
  }

  /** Counts and costs add to nothing as they are; so does a window that is no
      less than none. */
  lemma PlusNothing(u: ModelUsage, t: ModelUsage)
    requires t.window >= 0
    ensures NO_USAGE.Plus(u).Plus(t) == u.Plus(t)
  {
  }

  lemma {:induction false} TotalWindow(m: Usages)
    ensures Total(m).window >= 0
    decreases |m|
  {
    if m != map[] {
      var k :| k in m;
      TotalRemove(m, k);
      TotalWindow(m - {k});
    }
  }

  /** Walks the report in no particular order. */
  method UsageByKey(m: Usages) returns (out: Usages)
    ensures FoldedByKey(out, m)
  {
    out := map[];
    NothingFolded();
    var left := m.Keys;
    assert m - m.Keys == map[];
    while left != {}
      invariant left <= m.Keys
      invariant FoldedByKey(out, m - left)
      decreases |left|
    {
      var x :| x in left;
      FoldNext(out, m, left, x);
      out := AddTo(out, ModelKey(x), m[x]);
      left := left - {x};
    }
    assert m - {} == m;
  }

  /** The fold adds up to the report. */
  lemma {:induction false} FoldTotals(out: Usages, m: Usages)
    requires FoldedByKey(out, m)
    ensures Total(out) == Total(m)
    decreases |m|
  {
    if m == map[] {
      assert out.Keys == {};
      assert out == map[];
    } else {
      var x :| x in m;
      var folded := FoldOf(m - {x});
      FoldTotals(folded, m - {x});
      FoldTotalsNext(out, m, x, m - {x}, folded);
    }
  }

  lemma FoldTotalsNext(out: Usages, m: Usages, x: string, rest: Usages, folded: Usages)
    requires x in m && rest == m - {x} && FoldedByKey(out, m) && FoldedByKey(folded, rest) && Total(folded) == Total(rest)
    ensures Total(out) == Total(m)
  {
    var grown := AddTo(folded, ModelKey(x), m[x]);
    FoldGrowsTo(folded, rest, x, m, grown);
    FoldIsUnique(out, grown, m);
    TotalsNext(folded, rest, m, x);
  }

  lemma FoldGrowsTo(out: Usages, done: Usages, x: string, m: Usages, grown: Usages)
    requires FoldedByKey(out, done) && x in m && done == m - {x} && grown == AddTo(out, ModelKey(x), m[x])
    ensures FoldedByKey(grown, m)
  {
    PutBack(m, x);
    FoldGrows(out, done, x, m[x]);
    SameReport(grown, done[x := m[x]], m);
  }

  lemma PutBack(m: Usages, x: string)
    requires x in m
    ensures (m - {x})[x := m[x]] == m
  {
  }

  lemma SameReport(out: Usages, a: Usages, b: Usages)
    requires a == b && FoldedByKey(out, a)
    ensures FoldedByKey(out, b)
  {
  }

  lemma TotalsNext(folded: Usages, rest: Usages, m: Usages, x: string)
    requires x in m && rest == m - {x} && Total(folded) == Total(rest)
    ensures Total(AddTo(folded, ModelKey(x), m[x])) == Total(m)
  {
    TotalPut(folded, ModelKey(x), m[x]);
    TotalRemove(m, x);
  }

  ghost function FoldOf(m: Usages): (out: Usages)
    ensures FoldedByKey(out, m)
  {
    var keys := set x | x in m :: ModelKey(x);
    map k | k in keys :: Total(Under(m, k))
  }

  /** However the report is walked, the fold is the same. */
  lemma FoldIsUnique(a: Usages, b: Usages, m: Usages)
    requires FoldedByKey(a, m) && FoldedByKey(b, m)
    ensures a == b
  {
    assert a.Keys == b.Keys;
  }
}
