/** Interval algebra on a card's record (internal/cardrun/spans.go).

    Times are nanoseconds since the zero instant, which Go's zero `time.Time`
    denotes; a span whose end is the zero instant is still open.  What a list of
    spans means is the set of instants it covers, and every duration is a count
    of instants. */
module Spans {

  type Time = nat

  const NO_TIME: Time := 0

  datatype Span = Span(from: Time, to: Time)

  predicate Contains(s: Span, t: Time) {
    s.from <= t && (s.to == NO_TIME || t < s.to)
  }

  ghost predicate Covers(ss: seq<Span>, t: Time) {
    exists i :: 0 <= i < |ss| && Contains(ss[i], t)
  }

  ghost predicate SameInstants(a: seq<Span>, b: seq<Span>) {
    forall t: Time :: Covers(a, t) <==> Covers(b, t)
  }

  /** A span that holds at least one instant. */
  predicate Proper(s: Span) {
    s.to == NO_TIME || s.from < s.to
  }

  predicate AllProper(ss: seq<Span>) {
    forall i :: 0 <= i < |ss| ==> Proper(ss[i])
  }

  /** Every span is closed, holds an instant and lies inside [lo,hi]. */
  predicate Within(ss: seq<Span>, lo: Time, hi: Time) {
    forall i :: 0 <= i < |ss| ==> lo <= ss[i].from < ss[i].to <= hi
  }

  /** Strictly separated: each span closes before the next one begins, so no
      two overlap or even touch, and only the last may be open. */
  predicate Separated(ss: seq<Span>) {
    forall i, j :: 0 <= i < j < |ss| ==> ss[i].to != NO_TIME && ss[i].to < ss[j].from
  }

  predicate Canonical(ss: seq<Span>) {
    AllProper(ss) && Separated(ss)
  }

  predicate SortedByFrom(ss: seq<Span>) {
    forall i, j :: 0 <= i < j < |ss| ==> ss[i].from <= ss[j].from
  }

  // ----- Canonical lists -----

  lemma CoversSnoc(ss: seq<Span>, s: Span, t: Time)
    ensures Covers(ss + [s], t) <==> Covers(ss, t) || Contains(s, t)
  {
    if Covers(ss, t) {
      var i :| 0 <= i < |ss| && Contains(ss[i], t);
      assert (ss + [s])[i] == ss[i];
    }
    if Contains(s, t) {
      assert (ss + [s])[|ss|] == s;
    }
  }

  lemma CoversCons(ss: seq<Span>, t: Time)
    requires ss != []
    ensures Covers(ss, t) <==> Contains(ss[0], t) || Covers(ss[1..], t)
  {
    if Covers(ss, t) {
      var i :| 0 <= i < |ss| && Contains(ss[i], t);
      if i > 0 { assert ss[1..][i - 1] == ss[i]; }
    }
    if Covers(ss[1..], t) {
      var i :| 0 <= i < |ss[1..]| && Contains(ss[1..][i], t);
      assert ss[i + 1] == ss[1..][i];
    }
  }

  /** What the first span of a canonical list is, read off its instants alone. */
  lemma HeadIsFirstStretch(a: seq<Span>, b: seq<Span>)
    requires Canonical(a) && Canonical(b) && SameInstants(a, b) && a != []
    ensures b != [] && b[0].from <= a[0].from
    ensures b[0].from == a[0].from ==> a[0].to == NO_TIME || (b[0].to != NO_TIME && b[0].to <= a[0].to)
  {
    assert Contains(a[0], a[0].from);
    assert Covers(b, a[0].from);
    var i :| 0 <= i < |b| && Contains(b[i], a[0].from);
    if b[0].from == a[0].from && a[0].to != NO_TIME {
      var e := a[0].to;
      forall k | 0 <= k < |a| ensures !Contains(a[k], e) {
        assert k > 0 ==> a[0].to < a[k].from;
      }
      assert !Covers(a, e);
      assert !Contains(b[0], e);
    }
  }

  lemma TailSameInstants(a: seq<Span>, b: seq<Span>)
    requires Canonical(a) && Canonical(b) && SameInstants(a, b)
    requires a != [] && b != [] && a[0] == b[0]
    ensures SameInstants(a[1..], b[1..])
  {
    forall t: Time ensures Covers(a[1..], t) <==> Covers(b[1..], t) {
      CoversCons(a, t);
      CoversCons(b, t);
      if Contains(a[0], t) {
        TailMissesHead(a, t);
        TailMissesHead(b, t);
      }
    }
  }

  lemma TailMissesHead(a: seq<Span>, t: Time)
    requires Canonical(a) && a != [] && Contains(a[0], t)
    ensures !Covers(a[1..], t)
  {
    forall i | 0 <= i < |a[1..]| ensures !Contains(a[1..][i], t) {
      assert a[1..][i] == a[i + 1];
    }
  }

  lemma CanonicalTail(a: seq<Span>)
    requires Canonical(a) && a != []
    ensures Canonical(a[1..])
  {
    var r := a[1..];
    assert forall i :: 0 <= i < |r| ==> r[i] == a[i + 1];
  }

  /** A canonical list is determined by the instants it covers. */
  lemma {:induction false} CanonicalIsUnique(a: seq<Span>, b: seq<Span>)
    requires Canonical(a) && Canonical(b) && SameInstants(a, b)
    ensures a == b
    decreases |a|
  {
    if a == [] {
      if b != [] { HeadIsFirstStretch(b, a); }
    } else {
      HeadIsFirstStretch(a, b);
      HeadIsFirstStretch(b, a);
      TailSameInstants(a, b);
      CanonicalTail(a);
      CanonicalTail(b);
      CanonicalIsUnique(a[1..], b[1..]);
      assert a == [a[0]] + a[1..] && b == [b[0]] + b[1..];
    }
  }

  // ----- Union -----

  function InsertByFrom(ss: seq<Span>, s: Span): (r: seq<Span>)
    requires SortedByFrom(ss)
    ensures SortedByFrom(r) && r != []
    ensures r[0] == if ss == [] || s.from < ss[0].from then s else ss[0]
  {
    if ss == [] then [s]
    else if s.from < ss[0].from then [s] + ss
    else [ss[0]] + InsertByFrom(ss[1..], s)
  }

  lemma {:induction false} InsertKeepsSpans(ss: seq<Span>, s: Span)
    requires SortedByFrom(ss)
    ensures multiset(InsertByFrom(ss, s)) == multiset(ss) + multiset{s}
  {
    if ss != [] {
      assert ss == [ss[0]] + ss[1..];
      if s.from >= ss[0].from { InsertKeepsSpans(ss[1..], s); }
    }
  }

  /** The sorted order of a list of spans. */
  function SortByFrom(ss: seq<Span>): (r: seq<Span>)
    ensures SortedByFrom(r)
  {
    if ss == [] then [] else InsertByFrom(SortByFrom(ss[1..]), ss[0])
  }

  lemma {:induction false} SortKeepsSpans(ss: seq<Span>)
    ensures multiset(SortByFrom(ss)) == multiset(ss)
  {
    if ss != [] {
      assert ss == [ss[0]] + ss[1..];
      SortKeepsSpans(ss[1..]);
      InsertKeepsSpans(SortByFrom(ss[1..]), ss[0]);
    }
  }

  /** The library sort, in place. */
  method SortInPlace(a: array<Span>)
    modifies a
    ensures a[..] == SortByFrom(old(a[..]))
  {
    var sorted := SortByFrom(a[..]);
    SortKeepsSpans(a[..]);
    assert |sorted| == |multiset(sorted)| == |multiset(a[..])| == a.Length;
    forall i | 0 <= i < a.Length {
      a[i] := sorted[i];
    }
  }

  lemma PermutationSameInstants(a: seq<Span>, b: seq<Span>)
    requires multiset(a) == multiset(b)
    ensures SameInstants(a, b) && (AllProper(a) ==> AllProper(b))
  {
    forall s ensures s in a <==> s in b {
      assert s in a <==> s in multiset(a);
      assert s in b <==> s in multiset(b);
    }
    forall i | 0 <= i < |b| ensures b[i] in a { assert b[i] in b; }
    forall t: Time ensures Covers(a, t) <==> Covers(b, t) {
      if Covers(a, t) {
        var i :| 0 <= i < |a| && Contains(a[i], t);
        assert a[i] in b;
      }
      if Covers(b, t) {
        var i :| 0 <= i < |b| && Contains(b[i], t);
        assert b[i] in a;
      }
    }
  }

  /** The later of two span ends, an open one being later than any. */
  function SpanLater(a: Time, b: Time): Time {
    if a == NO_TIME || b == NO_TIME then NO_TIME else if a > b then a else b
  }

  /** One turn of the merging loop: s joins the last span or starts a new one. */
  function Absorb(out: seq<Span>, s: Span): seq<Span> {
    if out == [] then [s]
    else
      var cur := out[|out| - 1];
      if cur.to != NO_TIME && s.from > cur.to then out + [s]
      else out[|out| - 1 := cur.(to := SpanLater(cur.to, s.to))]
  }

  function MergeSorted(ss: seq<Span>): seq<Span> {
    if ss == [] then [] else Absorb(MergeSorted(ss[..|ss| - 1]), ss[|ss| - 1])
  }

  lemma AbsorbCovers(out: seq<Span>, s: Span, t: Time)
    requires out != [] ==> out[|out| - 1].from <= s.from
    ensures Covers(Absorb(out, s), t) <==> Covers(out, t) || Contains(s, t)
  {
    if out == [] {
      assert [] + [s] == [s];
      CoversSnoc([], s, t);
    } else {
      var init, cur := out[..|out| - 1], out[|out| - 1];
      assert out == init + [cur];
      CoversSnoc(init, cur, t);
      if cur.to != NO_TIME && s.from > cur.to {
        CoversSnoc(out, s, t);
      } else {
        var joined := Span(cur.from, SpanLater(cur.to, s.to));
        assert Absorb(out, s) == init + [joined];
        CoversSnoc(init, joined, t);
      }
    }
  }

  lemma AbsorbSameInstants(out: seq<Span>, init: seq<Span>, s: Span)
    requires SameInstants(out, init) && (out != [] ==> out[|out| - 1].from <= s.from)
    ensures SameInstants(Absorb(out, s), init + [s])
  {
    forall t: Time ensures Covers(Absorb(out, s), t) <==> Covers(init + [s], t) {
      AbsorbCovers(out, s, t);
      CoversSnoc(init, s, t);
    }
  }

  lemma AbsorbKeepsCanonical(out: seq<Span>, s: Span)
    requires Canonical(out) && Proper(s)
    requires out != [] ==> out[|out| - 1].from <= s.from
    ensures Canonical(Absorb(out, s))
  {
  }

  lemma SortedPrefix(ss: seq<Span>, n: nat)
    requires SortedByFrom(ss) && n <= |ss|
    ensures SortedByFrom(ss[..n])
    ensures AllProper(ss) ==> AllProper(ss[..n])
  {
  }

  /** The merging loop keeps every instant, and leaves a canonical list of a
      sorted list of proper spans. */
  lemma {:induction false} MergeSortedMeaning(ss: seq<Span>)
    requires SortedByFrom(ss)
    ensures SameInstants(MergeSorted(ss), ss)
    ensures ss != [] ==> MergeSorted(ss) != [] && MergeSorted(ss)[|MergeSorted(ss)| - 1].from <= ss[|ss| - 1].from
    ensures AllProper(ss) ==> Canonical(MergeSorted(ss))
  {
    if ss != [] {
      var init, s := ss[..|ss| - 1], ss[|ss| - 1];
      SortedPrefix(ss, |ss| - 1);
      MergeSortedMeaning(init);
      LastBefore(ss);
      AbsorbMeaning(MergeSorted(init), init, s, ss);
    }
  }

  lemma LastBefore(ss: seq<Span>)
    requires SortedByFrom(ss) && ss != []
    ensures var init := ss[..|ss| - 1]; init != [] ==> init[|init| - 1].from <= ss[|ss| - 1].from
  {
  }

  lemma AbsorbMeaning(out: seq<Span>, init: seq<Span>, s: Span, ss: seq<Span>)
    requires ss == init + [s] && SameInstants(out, init) && (AllProper(init) ==> Canonical(out))
    requires out != [] ==> out[|out| - 1].from <= s.from
    ensures SameInstants(Absorb(out, s), ss) && Absorb(out, s) != [] && Absorb(out, s)[|Absorb(out, s)| - 1].from <= s.from
    ensures AllProper(ss) ==> Canonical(Absorb(out, s))
  {
    AbsorbSameInstants(out, init, s);
    if AllProper(ss) {
      assert ss[|ss| - 1] == s;
      forall i | 0 <= i < |init| ensures init[i] == ss[i] {}
      AbsorbKeepsCanonical(out, s);
    }
  }

  /** The merge of overlapping and touching spans. */
  function Union(ss: seq<Span>): seq<Span> {
    MergeSorted(SortByFrom(ss))
  }

  lemma UnionMeaning(ss: seq<Span>)
    ensures SameInstants(Union(ss), ss)
    ensures AllProper(ss) ==> Canonical(Union(ss))
  {
    SortKeepsSpans(ss);
    PermutationSameInstants(ss, SortByFrom(ss));
    MergeSortedMeaning(SortByFrom(ss));
  }

  /** The union is a canonical form: two lists of proper spans have the same
      union exactly when they cover the same instants. */
  lemma UnionIsCanonicalForm(a: seq<Span>, b: seq<Span>)
    requires AllProper(a) && AllProper(b)
    ensures Union(a) == Union(b) <==> SameInstants(a, b)
  {
    UnionMeaning(a);
    UnionMeaning(b);
    if SameInstants(a, b) {
      CanonicalIsUnique(Union(a), Union(b));
    }
  }

  /** The library sort is not stable; whichever sorted order of the spans it
      leaves, the merge is the same. */
  lemma UnionIgnoresSortOrder(ss: seq<Span>, sorted: seq<Span>)
    requires AllProper(ss)
    requires SortedByFrom(sorted) && multiset(sorted) == multiset(ss)
    ensures MergeSorted(sorted) == Union(ss)
  {
    PermutationSameInstants(ss, sorted);
    MergeSortedMeaning(sorted);
    UnionMeaning(ss);
    CanonicalIsUnique(MergeSorted(sorted), Union(ss));
  }

  /** A list already canonical is its own union. */
  lemma UnionOfCanonical(ss: seq<Span>)
    requires Canonical(ss)
    ensures Union(ss) == ss
  {
    UnionMeaning(ss);
    CanonicalIsUnique(Union(ss), ss);
  }

  /** One span into the merged list, its last span extended in place. */
  method AbsorbInto(out: seq<Span>, s: Span) returns (grown: seq<Span>)
    ensures grown == Absorb(out, s)
  {
    if |out| == 0 {
      return out + [s];
    }
    var cur := out[|out| - 1];
    if cur.to != NO_TIME && s.from > cur.to {
      return out + [s];
    }
    cur := cur.(to := SpanLater(cur.to, s.to));
    grown := out[|out| - 1 := cur];
  }

  method UnionSpans(a: array<Span>) returns (out: seq<Span>)
    modifies a
    ensures a[..] == SortByFrom(old(a[..]))
    ensures out == Union(old(a[..]))
    ensures SameInstants(out, old(a[..]))
    ensures AllProper(old(a[..])) ==> Canonical(out)
  {
    UnionMeaning(a[..]);
    SortInPlace(a);
    ghost var sorted := a[..];
    out := [];
    var i := 0;
    while i < a.Length
      invariant 0 <= i <= a.Length && a[..] == sorted
      invariant out == MergeSorted(sorted[..i])
    {
      assert sorted[..i + 1][..i] == sorted[..i] && sorted[..i + 1][i] == a[i];
      out := AbsorbInto(out, a[i]);
      i := i + 1;
    }
    assert sorted[..a.Length] == sorted;
  }

  // ----- Clamping -----

  function ClampOne(s: Span, first: Time, last: Time): seq<Span> {
    var from := if s.from < first then first else s.from;
    var to := if s.to == NO_TIME || s.to > last then last else s.to;
    if to > from then [Span(from, to)] else []
  }

  function Clamp(ss: seq<Span>, first: Time, last: Time): seq<Span> {
    if ss == [] then [] else Clamp(ss[..|ss| - 1], first, last) + ClampOne(ss[|ss| - 1], first, last)
  }

  /** Clamping keeps exactly the instants of the window. */
  lemma {:induction false} ClampMeaning(ss: seq<Span>, first: Time, last: Time)
    ensures Within(Clamp(ss, first, last), first, last)
    ensures forall t: Time :: Covers(Clamp(ss, first, last), t) <==> first <= t < last && Covers(ss, t)
  {
    if ss != [] {
      var init, s := ss[..|ss| - 1], ss[|ss| - 1];
      ClampMeaning(init, first, last);
      assert ss == init + [s];
      var c := ClampOne(s, first, last);
      forall t: Time
        ensures Covers(Clamp(ss, first, last), t) <==> first <= t < last && Covers(ss, t)
      {
        CoversSnoc(init, s, t);
        if c != [] {
          CoversSnoc(Clamp(init, first, last), c[0], t);
        } else {
          assert Clamp(ss, first, last) == Clamp(init, first, last);
        }
      }
    }
  }

  /** Clamping keeps the separation, so a clamped union needs no second merge. */
  lemma {:induction false} ClampKeepsCanonical(ss: seq<Span>, first: Time, last: Time)
    requires Canonical(ss)
    ensures Canonical(Clamp(ss, first, last))
    ensures var c := Clamp(ss, first, last);
            c != [] ==> ss[|ss| - 1].to == NO_TIME || c[|c| - 1].to <= ss[|ss| - 1].to
  {
    ClampMeaning(ss, first, last);
    if ss != [] {
      var init := ss[..|ss| - 1];
      ClampKeepsCanonical(init, first, last);
      ClampMeaning(init, first, last);
      var c := Clamp(init, first, last);
      if init != [] { assert init[|init| - 1] == ss[|ss| - 2]; }
      assert forall i :: 0 <= i < |c| ==> c[i].to <= c[|c| - 1].to;
    }
  }

  method ClampSpans(spans: seq<Span>, first: Time, last: Time) returns (out: seq<Span>)
    ensures out == Clamp(spans, first, last)
    ensures Within(out, first, last)
    ensures forall t: Time :: Covers(out, t) <==> first <= t < last && Covers(spans, t)
  {
    out := [];
    var i := 0;
    while i < |spans|
      invariant 0 <= i <= |spans|
      invariant out == Clamp(spans[..i], first, last)
    {
      assert spans[..i + 1][..i] == spans[..i];
      var s := spans[i];
      var from, to := s.from, s.to;
      if from < first {
        from := first;
      }
      if to == NO_TIME || to > last {
        to := last;
      }
      if to > from {
        out := out + [Span(from, to)];
      }
      i := i + 1;
    }
    assert spans[..|spans|] == spans;
    ClampMeaning(spans, first, last);
  }

  // ----- Durations as counts of instants -----

  /** How many instants of [a,b) the spans cover. */
  ghost function CoveredIn(ss: seq<Span>, a: Time, b: Time): nat
    decreases b
  {
    if b <= a then 0 else CoveredIn(ss, a, b - 1) + (if Covers(ss, b - 1) then 1 else 0)
  }

  /** How many instants of [a,b) the spans leave uncovered. */
  ghost function UncoveredIn(ss: seq<Span>, a: Time, b: Time): nat
    decreases b
  {
    if b <= a then 0 else UncoveredIn(ss, a, b - 1) + (if Covers(ss, b - 1) then 0 else 1)
  }

  lemma {:induction false} CoveredAndUncovered(ss: seq<Span>, a: Time, b: Time)
    requires a <= b
    ensures CoveredIn(ss, a, b) + UncoveredIn(ss, a, b) == b - a
    decreases b
  {
    if a < b { CoveredAndUncovered(ss, a, b - 1); }
  }

  lemma {:induction false} CoveredSplit(ss: seq<Span>, a: Time, m: Time, b: Time)
    requires a <= m <= b
    ensures CoveredIn(ss, a, b) == CoveredIn(ss, a, m) + CoveredIn(ss, m, b)
    decreases b
  {
    if m < b { CoveredSplit(ss, a, m, b - 1); }
  }

  lemma {:induction false} UncoveredSplit(ss: seq<Span>, a: Time, m: Time, b: Time)
    requires a <= m <= b
    ensures UncoveredIn(ss, a, b) == UncoveredIn(ss, a, m) + UncoveredIn(ss, m, b)
    decreases b
  {
    if m < b { UncoveredSplit(ss, a, m, b - 1); }
  }

  /** Covering more instants of a window counts more of it. */
  lemma {:induction false} CoveredMonotone(x: seq<Span>, y: seq<Span>, a: Time, b: Time)
    requires forall t: Time :: a <= t < b && Covers(x, t) ==> Covers(y, t)
    ensures CoveredIn(x, a, b) <= CoveredIn(y, a, b)
    ensures UncoveredIn(y, a, b) <= UncoveredIn(x, a, b)
    decreases b
  {
    if a < b { CoveredMonotone(x, y, a, b - 1); }
  }

  lemma CoveredCongruent(x: seq<Span>, y: seq<Span>, a: Time, b: Time)
    requires forall t: Time :: a <= t < b ==> (Covers(x, t) <==> Covers(y, t))
    ensures CoveredIn(x, a, b) == CoveredIn(y, a, b)
    ensures UncoveredIn(x, a, b) == UncoveredIn(y, a, b)
  {
    CoveredMonotone(x, y, a, b);
    CoveredMonotone(y, x, a, b);
  }

  lemma {:induction false} NoneCovered(ss: seq<Span>, a: Time, b: Time)
    requires forall t: Time :: a <= t < b ==> !Covers(ss, t)
    ensures CoveredIn(ss, a, b) == 0
    decreases b
  {
    if a < b { NoneCovered(ss, a, b - 1); }
  }

  lemma {:induction false} AllCovered(ss: seq<Span>, a: Time, b: Time)
    requires a <= b
    requires forall t: Time :: a <= t < b ==> Covers(ss, t)
    ensures CoveredIn(ss, a, b) == b - a
    decreases b
  {
    if a < b { AllCovered(ss, a, b - 1); }
  }

  /** The plain sum of the spans' lengths. */
  function TotalLength(ss: seq<Span>): int {
    if ss == [] then 0 else TotalLength(ss[..|ss| - 1]) + (ss[|ss| - 1].to - ss[|ss| - 1].from)
  }

  /** Separated spans do not count an instant twice. */
  lemma {:induction false} TotalLengthCounts(ss: seq<Span>, a: Time, b: Time)
    requires a <= b && Separated(ss) && Within(ss, a, b)
    ensures TotalLength(ss) == CoveredIn(ss, a, b)
    decreases |ss|
  {
    if ss == [] {
      NoneCovered(ss, a, b);
    } else {
      var init, s := ss[..|ss| - 1], ss[|ss| - 1];
      assert ss == init + [s];
      assert Within(init, a, s.from);
      TotalLengthCounts(init, a, s.from);
      forall t: Time ensures Covers(ss, t) <==> Covers(init, t) || Contains(s, t) {
        CoversSnoc(init, s, t);
      }
      CoveredCongruent(ss, init, a, s.from);
      AllCovered(ss, s.from, s.to);
      NoneCovered(ss, s.to, b);
      CoveredSplit(ss, a, s.from, b);
      CoveredSplit(ss, s.from, s.to, b);
    }
  }

  /** Merging first counts each instant of overlapping spans once. */
  lemma UnionLengthCounts(ss: seq<Span>, a: Time, b: Time)
    requires a <= b && Within(ss, a, b)
    ensures TotalLength(Union(ss)) == CoveredIn(ss, a, b)
  {
    UnionMeaning(ss);
    var u := Union(ss);
    forall i | 0 <= i < |u| ensures a <= u[i].from < u[i].to <= b {
      UnionStaysWithin(ss, u, i, a, b);
    }
    TotalLengthCounts(u, a, b);
    CoveredCongruent(u, ss, a, b);
  }

  lemma UnionStaysWithin(ss: seq<Span>, u: seq<Span>, i: nat, a: Time, b: Time)
    requires Within(ss, a, b) && SameInstants(u, ss) && AllProper(u) && i < |u|
    ensures a <= u[i].from < u[i].to <= b
  {
    assert Contains(u[i], u[i].from);
    assert Covers(u, u[i].from);
    var last: Time := if u[i].to == NO_TIME then u[i].from + b else u[i].to - 1;
    assert Contains(u[i], last);
    assert Covers(u, last);
  }

  method UnionDuration(a: array<Span>) returns (total: int)
    modifies a
    ensures total == TotalLength(Union(old(a[..])))
    ensures forall lo: Time, hi: Time :: lo <= hi && Within(old(a[..]), lo, hi) ==> total == CoveredIn(old(a[..]), lo, hi)
  {
    var u := UnionSpans(a);
    total := 0;
    var i := 0;
    while i < |u|
      invariant 0 <= i <= |u|
      invariant total == TotalLength(u[..i])
    {
      assert u[..i + 1][..i] == u[..i];
      total := total + (u[i].to - u[i].from);
      i := i + 1;
    }
    assert u[..|u|] == u;
    forall lo: Time, hi: Time | lo <= hi && Within(old(a[..]), lo, hi)
      ensures total == CoveredIn(old(a[..]), lo, hi)
    {
      UnionLengthCounts(old(a[..]), lo, hi);
    }
  }

  // ----- Working time -----

  lemma ClampedUnionCounts(asks: seq<Span>, from: Time, to: Time)
    requires from <= to
    ensures TotalLength(Union(Clamp(asks, from, to))) == CoveredIn(asks, from, to)
  {
    ClampMeaning(asks, from, to);
    UnionLengthCounts(Clamp(asks, from, to), from, to);
    CoveredCongruent(Clamp(asks, from, to), asks, from, to);
  }

  /** The time of [from,to) spent in no ask: exactly the instants no ask
      covers.  The caller's list is left as it was. */
  method WorkingTime(from: Time, to: Time, asks: seq<Span>) returns (d: int)
    ensures d == UncoveredIn(asks, from, to)
  {
    if !(to > from) {
      return 0;
    }
    var clamped := ClampSpans(asks, from, to);
    var a := new Span[|clamped|](i requires 0 <= i < |clamped| => clamped[i]);
    assert a[..] == clamped;
    var asked := UnionDuration(a);
    d := to - from - asked;
    ClampedUnionCounts(asks, from, to);
    CoveredAndUncovered(asks, from, to);
    if d < 0 {
      return 0;
    }
  }

  /** The floor at zero in WorkingTime is never needed. */
  lemma WorkingTimeFloorIsDead(from: Time, to: Time, asks: seq<Span>)
    requires to > from
    ensures (to - from) - TotalLength(Union(Clamp(asks, from, to))) >= 0
  {
    ClampedUnionCounts(asks, from, to);
    CoveredAndUncovered(asks, from, to);
  }

  /** Asking one more question never adds working time. */
  lemma WorkingTimeNeverGrows(from: Time, to: Time, asks: seq<Span>, ask: Span)
    ensures UncoveredIn(asks + [ask], from, to) <= UncoveredIn(asks, from, to)
  {
    forall t: Time ensures Covers(asks, t) ==> Covers(asks + [ask], t) {
      CoversSnoc(asks, ask, t);
    }
    CoveredMonotone(asks, asks + [ask], from, to);
  }

  /** The stretches of [from,to) outside every ask. */
  ghost predicate IsRemainder(out: seq<Span>, from: Time, to: Time, asks: seq<Span>) {
    && Canonical(out)
    && Within(out, from, to)
    && forall t: Time :: Covers(out, t) <==> from <= t < to && !Covers(asks, t)
  }

  /** The asks as WorkingSpans walks them: merged, inside the interval. */
  method ClampedUnion(asks: seq<Span>, from: Time, to: Time) returns (u: seq<Span>)
    ensures Canonical(u) && Within(u, from, to)
    ensures forall t: Time :: Covers(u, t) <==> from <= t < to && Covers(asks, t)
  {
    var clamped := ClampSpans(asks, from, to);
    var a := new Span[|clamped|](i requires 0 <= i < |clamped| => clamped[i]);
    assert a[..] == clamped;
    u := UnionSpans(a);
    forall i | 0 <= i < |u| ensures from <= u[i].from < u[i].to <= to {
      UnionStaysWithin(clamped, u, i, from, to);
    }
  }

  method WorkingSpans(from: Time, to: Time, asks: seq<Span>) returns (out: seq<Span>)
    ensures IsRemainder(out, from, to, asks)
  {
    out := [];
    if !(to > from) {
      return;
    }
    var u := ClampedUnion(asks, from, to);
    var cur := from;
    var i := 0;
    while i < |u|
      invariant 0 <= i <= |u|
      invariant cur == if i == 0 then from else u[i - 1].to
      invariant IsRemainder(out, from, cur, u)
      invariant out != [] ==> out[|out| - 1].to < cur || i == 0
    {
      var sp := u[i];
      GapUncovered(u, i, cur);
      RemainderGrows(out, from, cur, u, sp.from);
      if sp.from > cur {
        out := out + [Span(cur, sp.from)];
      }
      AskedStretch(out, from, u, i);
      if sp.to > cur {
        cur := sp.to;
      }
      i := i + 1;
    }
    TailUncovered(u, cur, to);
    RemainderGrows(out, from, cur, u, to);
    if to > cur {
      out := out + [Span(cur, to)];
    }
  }

  /** Appending a gap no ask covers extends the remainder over it. */
  lemma RemainderGrows(out: seq<Span>, from: Time, cur: Time, u: seq<Span>, next: Time)
    requires from <= cur <= next && IsRemainder(out, from, cur, u)
    requires out != [] && cur < next ==> out[|out| - 1].to < cur
    requires forall t: Time :: cur <= t < next ==> !Covers(u, t)
    ensures IsRemainder(if next > cur then out + [Span(cur, next)] else out, from, next, u)
  {
    if next > cur {
      forall t: Time
        ensures Covers(out + [Span(cur, next)], t) <==> from <= t < next && !Covers(u, t)
      {
        CoversSnoc(out, Span(cur, next), t);
      }
    }
  }

  /** Passing over an asked stretch leaves the remainder as it is. */
  lemma AskedStretch(out: seq<Span>, from: Time, u: seq<Span>, i: nat)
    requires Canonical(u) && i < |u| && u[i].to != NO_TIME
    requires from <= u[i].from && IsRemainder(out, from, u[i].from, u)
    ensures IsRemainder(out, from, u[i].to, u)
  {
    forall t: Time | u[i].from <= t < u[i].to ensures Covers(u, t) {
      assert Contains(u[i], t);
    }
  }

  lemma TailUncovered(u: seq<Span>, cur: Time, to: Time)
    requires Canonical(u)
    requires u != [] ==> cur == u[|u| - 1].to && cur != NO_TIME
    ensures forall t: Time :: cur <= t < to ==> !Covers(u, t)
  {
    forall t: Time, k | cur <= t < to && 0 <= k < |u| ensures !Contains(u[k], t) {
      assert k < |u| - 1 ==> u[k].to < u[|u| - 1].from;
    }
  }

  lemma GapUncovered(u: seq<Span>, i: nat, cur: Time)
    requires Canonical(u) && i < |u|
    requires i > 0 ==> cur == u[i - 1].to
    requires i == 0 ==> cur <= u[0].from
    ensures cur <= u[i].from
    ensures forall t: Time :: cur <= t < u[i].from ==> !Covers(u, t)
  {
    forall t: Time, k | cur <= t < u[i].from && 0 <= k < |u| ensures !Contains(u[k], t) {
      assert k > i ==> u[i].to < u[k].from;
      assert k < i - 1 ==> u[k].to < u[i - 1].from;
    }
  }

  /** The stretches that remain sum to the working time: the drawn figure and
      the summed one agree. */
  lemma WorkingSpansSumToWorkingTime(out: seq<Span>, from: Time, to: Time, asks: seq<Span>)
    requires IsRemainder(out, from, to, asks) && from <= to
    ensures TotalLength(out) == UncoveredIn(asks, from, to)
  {
    TotalLengthCounts(out, from, to);
    RemainderCounts(out, from, to, asks, to);
  }

  lemma {:induction false} RemainderCounts(out: seq<Span>, from: Time, to: Time, asks: seq<Span>, b: Time)
    requires IsRemainder(out, from, to, asks) && b <= to
    ensures CoveredIn(out, from, b) == UncoveredIn(asks, from, b)
    decreases b
  {
    if from < b { RemainderCounts(out, from, to, asks, b - 1); }
  }
}
