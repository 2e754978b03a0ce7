/** A card's passes and money, from its log and its rollup
    (internal/cardrun/report.go, Report, sessions and money). */
module CardReport {
  import opened Spans
  import opened CardLog
  import opened Passes
  import opened SpendFiling
  import opened MoneySplit
  import opened Tallies

  /** The passes as reported: walked off the log, the rollup filed on them, the
      repeats marked. */
  ghost function Reported(evs: seq<Event>, rows: seq<Row>): (ss: seq<Session>)
    ensures |ss| == |PassesOf(evs)|
    ensures forall j :: 0 <= j < |ss| ==> ss[j] == Marked(SettledAll(PassesOf(evs), rows), j)
  {
    seq(|PassesOf(evs)|, j requires 0 <= j < |PassesOf(evs)| => Marked(SettledAll(PassesOf(evs), rows), j))
  }

  method Sessions(evs: seq<Event>, rows: seq<Row>) returns (ss: seq<Session>, claimed: seq<bool>)
    ensures ss == Reported(evs, rows)
    ensures ClaimMarks(PassesOf(evs), rows, claimed)
  {
    var walked := WalkPasses(evs);
    var sess := new Session[|walked|](i requires 0 <= i < |walked| => walked[i]);
    assert sess[..] == PassesOf(evs);
    var marks := AttachSpend(sess, rows);
    claimed := marks[..];
    assert sess[..] == SettledAll(PassesOf(evs), rows);
    MarkRedone(sess);
    ss := sess[..];
  }

  // ----- Every credit is counted once -----

  function PassTotal(ss: seq<Session>, n: nat): real
    requires n <= |ss|
  {
    if n == 0 then 0.0 else PassTotal(ss, n - 1) + ss[n - 1].spent.credits
  }

  lemma {:induction false} WorkSumsToPasses(ss: seq<Session>, n: nat)
    requires n <= |ss|
    ensures WorkSum(ss, n, First) + WorkSum(ss, n, Corrected) + WorkSum(ss, n, Reproved) == PassTotal(ss, n)
  {
    if n > 0 { WorkSumsToPasses(ss, n - 1); }
  }

  /** Marking a repeat leaves a pass's spend as filed. */
  lemma ReportedSpend(evs: seq<Event>, rows: seq<Row>, j: nat)
    requires j < |PassesOf(evs)|
    ensures var r, p := Reported(evs, rows)[j], Settled(PassesOf(evs), rows, j);
            r.spent == p.spent && r.reconstructed == p.reconstructed && r.started == p.started && r.key == p.key
  {
  }

  function MeasuredTotal(ss: seq<Session>, n: nat): real
    requires n <= |ss|
  {
    if n == 0 then 0.0 else MeasuredTotal(ss, n - 1) + (if ss[n - 1].reconstructed then 0.0 else ss[n - 1].spent.credits)
  }

  lemma {:induction false} MeasuredOrReconstructed(ss: seq<Session>, n: nat)
    requires n <= |ss|
    ensures PassTotal(ss, n) == MeasuredTotal(ss, n) + ReconTotal(ss, n)
  {
    if n > 0 { MeasuredOrReconstructed(ss, n - 1); }
  }

  /** Two lists of passes alike in spend measure alike. */
  lemma {:induction false} MeasureAlike(a: seq<Session>, b: seq<Session>, n: nat)
    requires n <= |a| == |b|
    requires forall j :: 0 <= j < |a| ==> a[j].spent == b[j].spent && a[j].reconstructed == b[j].reconstructed
    ensures MeasuredTotal(a, n) == MeasuredSum(b, n).credits
  {
    if n > 0 { MeasureAlike(a, b, n - 1); }
  }

  lemma {:induction false} ClaimedAndUnclaimed(rows: seq<Row>, claimed: seq<bool>, n: nat)
    requires n <= |rows| == |claimed|
    ensures MarkedSum(rows, claimed, n).credits + UnclaimedSum(rows, claimed, n) == RowsTotal(rows, n).credits
  {
    if n > 0 { ClaimedAndUnclaimed(rows, claimed, n - 1); }
  }

  lemma {:induction false} PassesStartUnfiled(evs: seq<Event>, m: nat)
    requires m <= |evs|
    ensures Unfiled(PassesUpTo(evs, m, |evs|))
    ensures forall j :: 0 <= j < |PassesUpTo(evs, m, |evs|)| ==> !PassesUpTo(evs, m, |evs|)[j].redo
  {
    if m > 0 { PassesStartUnfiled(evs, m - 1); }
  }

  lemma ReconstructedAreNonNegative(evs: seq<Event>, rows: seq<Row>)
    ensures NonNegativeRecon(Reported(evs, rows))
  {
    PassesStartUnfiled(evs, |evs|);
    var ss := Reported(evs, rows);
    forall j: nat | j < |ss| && ss[j].reconstructed ensures ss[j].spent.credits >= 0.0 {
      ReportedSpend(evs, rows, j);
    }
  }

  /** What the passes and the charges report together. */
  function Accounted(m: Money): real { m.firstPass + m.rework + m.elsewhere }

  /** What is counted more than once: reconstructed credits no unkeyed row could
      net, and rows filed on two passes. */
  ghost function CountedAgain(evs: seq<Event>, rows: seq<Row>, claimed: seq<bool>): real
    requires |rows| == |claimed|
  {
    Unnetted(Reported(evs, rows), rows, claimed) + Refiled(PassesOf(evs), rows).credits
  }

  /** The law of the split: what is accounted for is the larger of the card's
      two meters, and what is counted more than once, short of at most a crumb a
      row and one for the counter. */
  lemma {:induction false} MoneyIsConserved(evs: seq<Event>, rows: seq<Row>, claimed: seq<bool>, f: Feature, m: Money)
    requires NonNegative(rows) && ClaimMarks(PassesOf(evs), rows, claimed)
    requires Split(m, Reported(evs, rows), rows, claimed, f) && Charged(m, Reported(evs, rows), rows, claimed, f)
    ensures var meters := Greatest(f.credits, RowsTotal(rows, |rows|).credits);
            0.0 <= meters + CountedAgain(evs, rows, claimed) - Accounted(m) <= CRUMB * (|rows| + 1) as real
  {
    var ss := Reported(evs, rows);
    PassesStartUnfiled(evs, |evs|);
    WorkSumsToPasses(ss, |ss|);
    MeasuredOrReconstructed(ss, |ss|);
    forall j: nat | j < |ss| { ReportedSpend(evs, rows, j); }
    MeasureAlike(ss, SettledAll(PassesOf(evs), rows), |ss|);
    FilingConservesSpend(PassesOf(evs), rows, claimed);
    ClaimedAndUnclaimed(rows, claimed, |rows|);
  }

  // ----- When nothing is counted twice -----

  lemma {:induction false} MarkedCreditsIff(rows: seq<Row>, marks: seq<bool>, n: nat)
    requires NonNegative(rows) && n <= |rows| == |marks|
    ensures MarkedSum(rows, marks, n).credits >= 0.0
    ensures MarkedSum(rows, marks, n).credits == 0.0 <==> forall i :: 0 <= i < n && marks[i] ==> rows[i].spent.credits == 0.0
  {
    if n > 0 { MarkedCreditsIff(rows, marks, n - 1); }
  }

  lemma {:induction false} SpendSumIff(xs: seq<Spend>, n: nat)
    requires n <= |xs| && forall k :: 0 <= k < |xs| ==> xs[k].credits >= 0.0
    ensures SpendSum(xs, n).credits >= 0.0
    ensures SpendSum(xs, n).credits == 0.0 <==> forall k :: 0 <= k < n ==> xs[k].credits == 0.0
  {
    if n > 0 { SpendSumIff(xs, n - 1); }
  }

  /** The rows pass k takes again hold no credits. */
  predicate FreeTwinsOf(ss: seq<Session>, rows: seq<Row>, k: nat)
    requires k < |ss|
  {
    forall j, i :: 0 <= j < k && 0 <= i < |rows| && Twins(ss, rows, j, k, i) ==> rows[i].spent.credits == 0.0
  }

  /** Rows that two passes of one slot, started together, both take, hold no
      credits. */
  predicate TwinsAreFree(ss: seq<Session>, rows: seq<Row>) {
    forall k :: 0 <= k < |ss| ==> FreeTwinsOf(ss, rows, k)
  }

  lemma {:induction false} TwinSumIff(ss: seq<Session>, rows: seq<Row>, k: nat)
    requires NonNegative(rows) && k < |ss|
    ensures TwinSum(ss, rows, k).credits >= 0.0
    ensures TwinSum(ss, rows, k).credits == 0.0 <==> FreeTwinsOf(ss, rows, k)
  {
    var marks := TwinMarks(ss, rows, k);
    MarkedCreditsIff(rows, marks, |rows|);
    if TwinSum(ss, rows, k).credits == 0.0 {
      forall j, i | 0 <= j < k && 0 <= i < |rows| && Twins(ss, rows, j, k, i) ensures rows[i].spent.credits == 0.0 {
        assert HasTwin(ss, rows, k, i);
        assert marks[i];
      }
    }
    if FreeTwinsOf(ss, rows, k) {
      forall i | 0 <= i < |rows| && marks[i] ensures rows[i].spent.credits == 0.0 {
        var j :| 0 <= j < k && Twins(ss, rows, j, k, i);
      }
    }
  }

  lemma {:induction false} RefiledIff(ss: seq<Session>, rows: seq<Row>)
    requires NonNegative(rows)
    ensures Refiled(ss, rows).credits >= 0.0
    ensures Refiled(ss, rows).credits == 0.0 <==> TwinsAreFree(ss, rows)
  {
    var sums := TwinSums(ss, rows);
    forall k: nat | k < |ss|
      ensures sums[k].credits >= 0.0 && (sums[k].credits == 0.0 <==> FreeTwinsOf(ss, rows, k))
    {
      TwinSumIff(ss, rows, k);
    }
    SpendSumIff(sums, |ss|);
    if Refiled(ss, rows).credits == 0.0 {
      forall k | 0 <= k < |ss| ensures FreeTwinsOf(ss, rows, k) {
        assert sums[k].credits == 0.0;
      }
    }
  }

  /** The three figures sum back to the larger meter, crumbs aside, exactly when
      each slot's reconstructed credits find unkeyed rows to net them and no row
      with credits is filed twice. */
  lemma {:induction false} CountedOnceIff(evs: seq<Event>, rows: seq<Row>, claimed: seq<bool>)
    requires NonNegative(rows) && |rows| == |claimed|
    ensures CountedAgain(evs, rows, claimed) >= 0.0
    ensures var ss := Reported(evs, rows);
            CountedAgain(evs, rows, claimed) == 0.0 <==>
              TwinsAreFree(PassesOf(evs), rows)
              && forall slot :: slot in ReconSlots(ss) ==> ReconIn(ss, |ss|, slot) <= UnkeyedSum(rows, claimed, |rows|, slot)
  {
    UnnettedIff(Reported(evs, rows), rows, claimed);
    RefiledIff(PassesOf(evs), rows);
  }

  // ----- A card that counts twice -----

  /** A pass that ran and spent five credits by its exit. */
  const SPENT_LOG: seq<Event> :=
    [Event(NEW_YEAR, "build", StageEnter("coder", "")), Event(NEW_YEAR + 9, "build", StageExit(5.0))]

  /** One credit of it in the rollup, under no key. */
  const SHORT_ROWS: seq<Row> :=
    [Row("build", "", "coder", "m", Spend(1.0, 0.0, 0, 0, 0), NEW_YEAR)]

  lemma SpentPass()
    ensures var ss := PassesOf(SPENT_LOG);
            |ss| == 1 && Unfiled(ss) && ss[0].closed && ss[0].exitCredits == 5.0 && SlotOf(ss[0]) == Slot("build", "coder")
  {
    var evs := SPENT_LOG;
    assert NextBoundary(evs, 1, 2) == 1;
    assert PassesUpTo(evs, 0, 2) == [];
    assert PassesUpTo(evs, 1, 2) == [PassAt(evs, 0, 2)];
    assert PassesUpTo(evs, 2, 2) == [PassAt(evs, 0, 2)];
  }

  lemma {:induction false} NoKeyNoFiling(ss: seq<Session>, rows: seq<Row>, j: nat)
    requires j < |ss| && forall i :: 0 <= i < |rows| ==> rows[i].session == ""
    ensures AssignedKey(ss, rows, j) == ""
  {
    KeysOfMeaning(ss, rows, SlotOf(ss[j]));
  }

  /** The report of that card, whatever its counter, counts four credits twice:
      the three figures exceed the larger meter by more than the crumbs. */
  lemma {:induction false} ShortRowsCountTwice(claimed: seq<bool>, f: Feature, m: Money)
    requires ClaimMarks(PassesOf(SPENT_LOG), SHORT_ROWS, claimed)
    requires Split(m, Reported(SPENT_LOG, SHORT_ROWS), SHORT_ROWS, claimed, f)
    requires Charged(m, Reported(SPENT_LOG, SHORT_ROWS), SHORT_ROWS, claimed, f)
    ensures CountedAgain(SPENT_LOG, SHORT_ROWS, claimed) == 4.0
    ensures Accounted(m) > Greatest(f.credits, RowsTotal(SHORT_ROWS, |SHORT_ROWS|).credits) + CRUMB * (|SHORT_ROWS| + 1) as real
  {
    SpentPass();
    OneShortSlot(PassesOf(SPENT_LOG), Reported(SPENT_LOG, SHORT_ROWS), SHORT_ROWS, claimed);
    MoneyIsConserved(SPENT_LOG, SHORT_ROWS, claimed, f, m);
  }

  lemma {:induction false} OneShortSlot(ps: seq<Session>, ss: seq<Session>, rows: seq<Row>, claimed: seq<bool>)
    requires |ps| == |ss| == |rows| == 1 && Unfiled(ps) && ps[0].exitCredits == 5.0
    requires rows[0].session == "" && Slot(rows[0].stage, rows[0].role) == SlotOf(ps[0]) && rows[0].spent.credits == 1.0
    requires ss[0] == Marked(SettledAll(ps, rows), 0) && ClaimMarks(ps, rows, claimed)
    ensures Unnetted(ss, rows, claimed) == 4.0 && Refiled(ps, rows) == NO_SPEND
  {
    NoKeyNoFiling(ps, rows, 0);
    var slot := SlotOf(ps[0]);
    assert SlotOf(ss[0]) == slot && ss[0].reconstructed && ss[0].spent.credits == 5.0;
    assert ReconSlots(ss) == {slot};
    OneSlotLeft(ss, rows, claimed, slot);
    NothingRefiled(ps, rows);
  }

  lemma {:induction false} OneSlotLeft(ss: seq<Session>, rows: seq<Row>, claimed: seq<bool>, slot: Slot)
    requires |ss| == |rows| == |claimed| == 1 && ReconSlots(ss) == {slot} && !claimed[0]
    requires ss[0].reconstructed && SlotOf(ss[0]) == slot && ss[0].spent.credits == 5.0
    requires UnkeyedRow(rows[0], slot) && rows[0].spent.credits == 1.0
    ensures Unnetted(ss, rows, claimed) == 4.0
  {
    assert ReconIn(ss, 0, slot) == 0.0 && ReconIn(ss, 1, slot) == 5.0;
    assert UnkeyedSum(rows, claimed, 0, slot) == 0.0 && UnkeyedSum(rows, claimed, 1, slot) == 1.0;
    var left := UnnettedBySlot(ss, rows, claimed);
    assert left.Keys == {slot} && left[slot] == 4.0;
    SumRemove(left, slot);
    assert left - {slot} == map[];
  }

  /** The passes and the money of a card. */
  method CardMoney(evs: seq<Event>, rows: seq<Row>, f: Feature) returns (ss: seq<Session>, m: Money, ghost claimed: seq<bool>)
    ensures ss == Reported(evs, rows) && ClaimMarks(PassesOf(evs), rows, claimed)
    ensures Split(m, ss, rows, claimed, f)
    ensures NonNegative(rows) ==>
      var meters := Greatest(f.credits, RowsTotal(rows, |rows|).credits);
      0.0 <= meters + CountedAgain(evs, rows, claimed) - Accounted(m) <= CRUMB * (|rows| + 1) as real
      && Itemized(m, ss, rows, claimed, f)
  {
    var marks;
    ss, marks := Sessions(evs, rows);
    claimed := marks;
    m := SplitMoney(ss, rows, marks, f);
    if NonNegative(rows) {
      ReconstructedAreNonNegative(evs, rows);
      MoneyIsConserved(evs, rows, marks, f, m);
    }
  }

  predicate AllStartBefore(ss: seq<Session>, t: Time) {
    forall j :: 0 <= j < |ss| ==> ss[j].started < t
  }

  /** Stage entries at strictly later times start their passes at distinct
      times. */
  lemma {:induction false} LaterEntriesStartApart(evs: seq<Event>, m: nat)
    requires m <= |evs|
    requires forall i, j :: 0 <= i < j < |evs| && evs[i].body.StageEnter? && evs[j].body.StageEnter? ==> evs[i].at < evs[j].at
    ensures DistinctStarts(PassesUpTo(evs, m, |evs|))
    ensures forall e :: m <= e < |evs| && evs[e].body.StageEnter? ==> AllStartBefore(PassesUpTo(evs, m, |evs|), evs[e].at)
  {
    if m > 0 { LaterEntriesStartApart(evs, m - 1); }
  }

  /** With no reconstructed pass, the three figures are the larger meter, short
      of crumbs. */
  lemma NothingUnnettedWithoutReconstruction(ss: seq<Session>, rows: seq<Row>, claimed: seq<bool>)
    requires |rows| == |claimed| && forall j :: 0 <= j < |ss| ==> !ss[j].reconstructed
    ensures Unnetted(ss, rows, claimed) == 0.0
  {
    assert ReconSlots(ss) == {};
    assert UnnettedBySlot(ss, rows, claimed) == map[];
  }
}
