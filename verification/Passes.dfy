/** The passes of a card: the stage boundaries of its log, one entry per run of
    one stage (internal/cardrun/report.go). */
module Passes {
  import opened Spans
  import opened CardLog

  datatype Spend = Spend(credits: real, estimated: real, input: int, cached: int, output: int) {
    function Plus(other: Spend): Spend {
      Spend(credits + other.credits, estimated + other.estimated, input + other.input,
            cached + other.cached, output + other.output)
    }
  }

  const NO_SPEND := Spend(0.0, 0.0, 0, 0, 0)

  datatype Session = Session(
    stage: string, role: string, flavor: string,
    started: Time, ended: Time, closed: bool, endInferred: bool, exitCredits: real,
    key: string, spent: Spend, reconstructed: bool,
    redo: bool, redoReason: string)

  function Fresh(stage: string, role: string, flavor: string, started: Time): Session {
    Session(stage, role, flavor, started, NO_TIME, false, false, 0.0, "", NO_SPEND, false, false, "")
  }

  // ----- What the passes of a log are -----

  predicate IsBoundary(ev: Event) {
    ev.body.StageEnter? || ev.body.StageExit?
  }

  /** The first boundary in evs[j..n], n if there is none. */
  function NextBoundary(evs: seq<Event>, j: nat, n: nat): (k: nat)
    requires j <= n <= |evs|
    ensures j <= k <= n
    ensures k < n ==> IsBoundary(evs[k])
    ensures forall i :: j <= i < k ==> !IsBoundary(evs[i])
    decreases n - j
  {
    if j == n || IsBoundary(evs[j]) then j else NextBoundary(evs, j + 1, n)
  }

  /** The pass entered at evs[k], seen from the first n events: it runs to the
      first boundary after it, recorded when that is an exit and inferred when
      it is the next pass's entry. */
  function PassAt(evs: seq<Event>, k: nat, n: nat): Session
    requires k < n <= |evs| && evs[k].body.StageEnter?
  {
    var p := Fresh(evs[k].stage, evs[k].body.role, evs[k].body.flavor, evs[k].at);
    var e := NextBoundary(evs, k + 1, n);
    if e == n then p
    else if evs[e].body.StageEnter? then p.(ended := evs[e].at, closed := true, endInferred := true)
    else p.(ended := evs[e].at, closed := true, exitCredits := evs[e].body.exitCredits)
  }

  /** The passes entered in the first m events, seen from the first n. */
  function PassesUpTo(evs: seq<Event>, m: nat, n: nat): seq<Session>
    requires m <= n <= |evs|
  {
    if m == 0 then []
    else PassesUpTo(evs, m - 1, n) + (if evs[m - 1].body.StageEnter? then [PassAt(evs, m - 1, n)] else [])
  }

  function PassesOf(evs: seq<Event>): seq<Session> {
    PassesUpTo(evs, |evs|, |evs|)
  }

  // ----- The walk -----

  /** Once a pass has met its boundary, later events leave it alone. */
  lemma {:induction false} SettledPasses(evs: seq<Event>, m: nat, n: nat)
    requires m <= n < |evs|
    requires forall k :: 0 <= k < m && evs[k].body.StageEnter? ==> NextBoundary(evs, k + 1, n) < n
    ensures PassesUpTo(evs, m, n + 1) == PassesUpTo(evs, m, n)
  {
    if m > 0 {
      SettledPasses(evs, m - 1, n);
      if evs[m - 1].body.StageEnter? {
        BoundaryStays(evs, m, n);
      }
    }
  }

  lemma {:induction false} BoundaryStays(evs: seq<Event>, j: nat, n: nat)
    requires j <= n < |evs|
    ensures NextBoundary(evs, j, n) < n ==> NextBoundary(evs, j, n + 1) == NextBoundary(evs, j, n)
    ensures NextBoundary(evs, j, n) == n ==> NextBoundary(evs, j, n + 1) == if IsBoundary(evs[n]) then n else n + 1
    decreases n - j
  {
    if j < n && !IsBoundary(evs[j]) { BoundaryStays(evs, j + 1, n); }
  }

  /** Where the walk stands after n events: at is the entry of the pass still
      open, -1 when none is. */
  ghost predicate WalkState(evs: seq<Event>, n: nat, out: seq<Session>, open: int, at: int) {
    && n <= |evs|
    && out == PassesUpTo(evs, n, n)
    && (open == -1 <==> at == -1)
    && (open >= 0 ==> 0 <= at < n && evs[at].body.StageEnter? && NextBoundary(evs, at + 1, n) == n
                      && open == |out| - 1 && |PassesUpTo(evs, at, n)| == open
                      && out == PassesUpTo(evs, at, n) + [PassAt(evs, at, n)])
    && (forall k :: 0 <= k < n && k != at && evs[k].body.StageEnter? ==> NextBoundary(evs, k + 1, n) < n)
    && -1 <= open
  }

  lemma {:induction false} NoEntriesBetween(evs: seq<Event>, a: nat, b: nat, n: nat)
    requires a <= b <= n <= |evs|
    requires forall i :: a <= i < b ==> !IsBoundary(evs[i])
    ensures PassesUpTo(evs, b, n) == PassesUpTo(evs, a, n)
  {
    if a < b { NoEntriesBetween(evs, a, b - 1, n); }
  }

  lemma WalkPlain(evs: seq<Event>, n: nat, out: seq<Session>, open: int, at: int)
    requires WalkState(evs, n, out, open, at) && n < |evs| && !IsBoundary(evs[n])
    ensures WalkState(evs, n + 1, out, open, at)
  {
    forall k | 0 <= k < n && evs[k].body.StageEnter? {
      BoundaryStays(evs, k + 1, n);
    }
    if at == -1 {
      SettledPasses(evs, n, n);
    } else {
      SettledPasses(evs, at, n);
      NoEntriesBetween(evs, at + 1, n, n + 1);
    }
  }

  lemma WalkExitClosed(evs: seq<Event>, n: nat, out: seq<Session>)
    requires WalkState(evs, n, out, -1, -1) && n < |evs| && evs[n].body.StageExit?
    ensures WalkState(evs, n + 1, out, -1, -1)
  {
    forall k | 0 <= k < n && evs[k].body.StageEnter? {
      BoundaryStays(evs, k + 1, n);
    }
    SettledPasses(evs, n, n);
  }

  /** The boundary at evs[n] ends the open pass. */
  lemma WalkCloses(evs: seq<Event>, n: nat, out: seq<Session>, open: int, at: int)
    requires WalkState(evs, n, out, open, at) && open >= 0 && n < |evs| && IsBoundary(evs[n])
    ensures PassesUpTo(evs, n, n + 1) == out[open := PassAt(evs, at, n + 1)]
    ensures forall k :: 0 <= k < n && evs[k].body.StageEnter? ==> NextBoundary(evs, k + 1, n + 1) < n + 1
    ensures NextBoundary(evs, at + 1, n + 1) == n
  {
    forall k | 0 <= k < n && evs[k].body.StageEnter?
      ensures NextBoundary(evs, k + 1, n + 1) < n + 1
    {
      BoundaryStays(evs, k + 1, n);
    }
    SettledPasses(evs, at, n);
    NoEntriesBetween(evs, at + 1, n, n + 1);
    BoundaryStays(evs, at + 1, n);
  }

  method WalkPasses(evs: seq<Event>) returns (out: seq<Session>)
    ensures out == PassesOf(evs)
  {
    out := [];
    var open := -1;
    ghost var at := -1;
    var i := 0;
    while i < |evs|
      invariant 0 <= i <= |evs|
      invariant WalkState(evs, i, out, open, at)
    {
      var ev := evs[i];
      if ev.body.StageEnter? {
        if open >= 0 {
          WalkCloses(evs, i, out, open, at);
          out := out[open := out[open].(ended := ev.at, closed := true, endInferred := true)];
        } else {
          SettledPasses(evs, i, i);
          forall k | 0 <= k < i && evs[k].body.StageEnter? { BoundaryStays(evs, k + 1, i); }
        }
        open := |out|;
        at := i;
        out := out + [Fresh(ev.stage, ev.body.role, ev.body.flavor, ev.at)];
      } else if ev.body.StageExit? {
        if open < 0 {
          WalkExitClosed(evs, i, out);
        } else {
          WalkCloses(evs, i, out, open, at);
          out := out[open := out[open].(ended := ev.at, closed := true, exitCredits := ev.body.exitCredits)];
          open := -1;
          at := -1;
        }
      } else {
        WalkPlain(evs, i, out, open, at);
      }
      i := i + 1;
    }
  }

  // ----- The passes off the log -----

  /** Event e is the first stage boundary after k. */
  predicate FirstBoundaryAfter(evs: seq<Event>, k: nat, e: nat)
    requires k < |evs| && e < |evs|
  {
    k < e && IsBoundary(evs[e]) && forall i :: k < i < e ==> !IsBoundary(evs[i])
  }

  predicate NoBoundaryAfter(evs: seq<Event>, k: nat) {
    forall i :: k < i < |evs| ==> !IsBoundary(evs[i])
  }

  /** The pass an entry opens: its stage, role, flavor and start are the entry's,
      and the first boundary after it ends it, an exit with what it spent, another
      entry by inference; with none it is still open. */
  predicate OpenedBy(p: Session, evs: seq<Event>, k: nat)
    requires k < |evs| && evs[k].body.StageEnter?
  {
    && p.stage == evs[k].stage && p.role == evs[k].body.role && p.flavor == evs[k].body.flavor && p.started == evs[k].at
    && (p.closed <==> !NoBoundaryAfter(evs, k))
    && (NoBoundaryAfter(evs, k) ==> p.ended == NO_TIME && !p.endInferred && p.exitCredits == 0.0)
    && (forall e: nat :: e < |evs| && FirstBoundaryAfter(evs, k, e) ==>
          p.ended == evs[e].at && p.endInferred == evs[e].body.StageEnter?
          && p.exitCredits == if evs[e].body.StageExit? then evs[e].body.exitCredits else 0.0)
  }

  lemma PassIsOpenedBy(evs: seq<Event>, k: nat)
    requires k < |evs| && evs[k].body.StageEnter?
    ensures OpenedBy(PassAt(evs, k, |evs|), evs, k)
  {
    var n := NextBoundary(evs, k + 1, |evs|);
    assert forall e: nat :: e < |evs| && FirstBoundaryAfter(evs, k, e) ==> e == n;
  }

  /** The passes of the entries at the places listed. */
  predicate ArePasses(ps: seq<Session>, evs: seq<Event>, at: seq<nat>, m: nat)
    requires m <= |evs|
  {
    && |ps| == |at|
    && (forall a, b :: 0 <= a < b < |at| ==> at[a] < at[b])
    && (forall a :: 0 <= a < |at| ==> at[a] < m)
    && (forall k: nat :: k < m ==> (k in at <==> evs[k].body.StageEnter?))
    && (forall a :: 0 <= a < |at| ==> evs[at[a]].body.StageEnter? && OpenedBy(ps[a], evs, at[a]))
  }

  lemma ArePassesNext(ps: seq<Session>, evs: seq<Event>, at: seq<nat>, m: nat, p: Session)
    requires m < |evs| && ArePasses(ps, evs, at, m) && evs[m].body.StageEnter? && OpenedBy(p, evs, m)
    ensures ArePasses(ps + [p], evs, at + [m], m + 1)
  {
  }

  /** A log has one pass for each stage entry, in the order of the log, and no
      other. */
  lemma {:induction false} PassesAreOpenedBy(evs: seq<Event>, m: nat) returns (at: seq<nat>)
    requires m <= |evs|
    ensures ArePasses(PassesUpTo(evs, m, |evs|), evs, at, m)
  {
    if m == 0 {
      at := [];
    } else {
      at := PassesAreOpenedBy(evs, m - 1);
      at := PassesNext(PassesUpTo(evs, m - 1, |evs|), evs, at, m - 1, PassesUpTo(evs, m, |evs|));
    }
  }

  lemma PassesNext(ps: seq<Session>, evs: seq<Event>, at: seq<nat>, m: nat, next: seq<Session>) returns (after: seq<nat>)
    requires m < |evs| && ArePasses(ps, evs, at, m)
    requires next == ps + (if evs[m].body.StageEnter? then [PassAt(evs, m, |evs|)] else [])
    ensures ArePasses(next, evs, after, m + 1)
  {
    after := at;
    if evs[m].body.StageEnter? {
      PassIsOpenedBy(evs, m);
      ArePassesNext(ps, evs, at, m, PassAt(evs, m, |evs|));
      after := at + [m];
    } else {
      assert next == ps && m !in at;
    }
  }

  /** So is every pass the report walks. */
  lemma PassesOfLog(evs: seq<Event>) returns (at: seq<nat>)
    ensures ArePasses(PassesOf(evs), evs, at, |evs|)
  {
    at := PassesAreOpenedBy(evs, |evs|);
  }

  // ----- Passes never overlap -----

  /** Each pass closes, not before it started, before the next one starts; only
      the last may still be open. */
  predicate InOrder(ss: seq<Session>) {
    && (forall i :: 0 <= i < |ss| && ss[i].closed ==> ss[i].started <= ss[i].ended)
    && (forall i, j :: 0 <= i < j < |ss| ==> ss[i].closed && ss[i].ended <= ss[j].started)
  }

  predicate OverBy(ss: seq<Session>, t: Time) {
    forall i :: 0 <= i < |ss| ==> ss[i].closed && ss[i].ended <= t
  }

  lemma PassRuns(evs: seq<Event>, k: nat)
    requires NonDecreasing(evs) && k < |evs| && evs[k].body.StageEnter?
    ensures var p := PassAt(evs, k, |evs|);
            p.started == evs[k].at && (p.closed ==> p.started <= p.ended)
            && forall e :: k < e < |evs| && evs[e].body.StageEnter? ==> p.closed && p.ended <= evs[e].at
  {
    var b := NextBoundary(evs, k + 1, |evs|);
    forall e | k < e < |evs| && evs[e].body.StageEnter? ensures b <= e {
      assert IsBoundary(evs[e]);
    }
  }

  lemma {:induction false} PassesInOrderUpTo(evs: seq<Event>, m: nat)
    requires NonDecreasing(evs) && m <= |evs|
    ensures InOrder(PassesUpTo(evs, m, |evs|))
    ensures forall e :: m <= e < |evs| && evs[e].body.StageEnter? ==> OverBy(PassesUpTo(evs, m, |evs|), evs[e].at)
  {
    if m > 0 {
      PassesInOrderUpTo(evs, m - 1);
      var before := PassesUpTo(evs, m - 1, |evs|);
      if evs[m - 1].body.StageEnter? {
        PassRuns(evs, m - 1);
        assert OverBy(before, evs[m - 1].at);
        assert PassesUpTo(evs, m, |evs|) == before + [PassAt(evs, m - 1, |evs|)];
      } else {
        assert PassesUpTo(evs, m, |evs|) == before;
      }
    }
  }

  /** On an ordered log the passes neither overlap nor run backwards. */
  lemma PassesInOrder(evs: seq<Event>)
    requires NonDecreasing(evs)
    ensures InOrder(PassesOf(evs))
  {
    PassesInOrderUpTo(evs, |evs|);
  }

  // ----- Work done over again -----

  predicate SameWork(a: Session, b: Session) {
    a.stage == b.stage && a.role == b.role && a.flavor == b.flavor
  }

  const CORRECTED := "corrected"
  const REPROVED := "reproved"

  ghost predicate DoneBefore(ss: seq<Session>, i: nat)
    requires i < |ss|
  {
    exists j :: 0 <= j < i && SameWork(ss[j], ss[i])
  }

  ghost predicate RebasedBefore(ss: seq<Session>, i: nat)
    requires i < |ss|
  {
    exists j :: 0 <= j < i && ss[j].stage == ss[i].stage && ss[j].flavor == "rebase"
  }

  /** ss[i] with its mark: a redo exactly when the same work was done before,
      put down to a rebase exactly when its stage had one before. */
  ghost function Marked(ss: seq<Session>, i: nat): Session
    requires i < |ss|
  {
    if !DoneBefore(ss, i) then ss[i]
    else ss[i].(redo := true, redoReason := if RebasedBefore(ss, i) then REPROVED else CORRECTED)
  }

  method MarkRedone(sess: array<Session>)
    modifies sess
    ensures forall i :: 0 <= i < sess.Length ==> sess[i] == Marked(old(sess[..]), i)
  {
    ghost var was := sess[..];
    var seen: set<(string, string, string)> := {};
    var rebased: set<string> := {};
    var i := 0;
    while i < sess.Length
      invariant 0 <= i <= sess.Length
      invariant forall k :: 0 <= k < i ==> sess[k] == Marked(was, k)
      invariant forall k :: i <= k < sess.Length ==> sess[k] == was[k]
      invariant forall w :: w in seen <==> exists j :: 0 <= j < i && (was[j].stage, was[j].role, was[j].flavor) == w
      invariant forall st :: st in rebased <==> exists j :: 0 <= j < i && was[j].stage == st && was[j].flavor == "rebase"
    {
      var w := (sess[i].stage, sess[i].role, sess[i].flavor);
      var flavor := sess[i].flavor;
      assert w in seen <==> DoneBefore(was, i);
      assert w.0 in rebased <==> RebasedBefore(was, i);
      if w in seen {
        sess[i] := sess[i].(redo := true, redoReason := CORRECTED);
        if w.0 in rebased {
          sess[i] := sess[i].(redoReason := REPROVED);
        }
      }
      seen := seen + {w};
      if flavor == "rebase" {
        rebased := rebased + {w.0};
      }
      i := i + 1;
    }
  }
}
