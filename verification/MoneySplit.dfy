/** Splitting a card's realized spend by where it went
    (internal/cardrun/report.go, money and Unrecorded). */
module MoneySplit {
  import opened Spans
  import opened Passes
  import opened SpendFiling
  import opened Tallies

  /** The smallest share of a credit a split reports. */
  const CRUMB: real := 0.005

  const UNKNOWN_MODEL := "unknown"

  datatype Feature = Feature(credits: real, estimated: real, decomposed: real, createdAt: Time)

  datatype Charge = Charge(stage: string, role: string, model: string, at: Time, spent: Spend) {
    function Tokens(): int { spent.input + spent.cached + spent.output }

    /** Where the charge files beside the stages. */
    function BucketName(): string { if stage != "" then stage else role }
  }

  datatype Money = Money(
    credits: real, estimated: real,
    firstPass: real, rework: real, corrected: real, reproved: real,
    elsewhere: real, elsewhereBy: seq<Bucket>, charges: seq<Charge>,
    byStage: seq<Bucket>, byRole: seq<Bucket>, byModel: seq<Bucket>,
    rowsTotal: Spend)

  function Floor(x: real): real { if x > 0.0 then x else 0.0 }

  function Least(a: real, b: real): real { if a <= b then a else b }

  function Greatest(a: real, b: real): real { if a >= b then a else b }

  // ----- The passes' side -----

  datatype Work = First | Corrected | Reproved

  function WorkOf(s: Session): Work {
    if !s.redo then First else if s.redoReason == REPROVED then Reproved else Corrected
  }

  /** The credits of the first n passes that were this kind of work. */
  function WorkSum(ss: seq<Session>, n: nat, w: Work): real
    requires n <= |ss|
  {
    if n == 0 then 0.0
    else WorkSum(ss, n - 1, w) + (if WorkOf(ss[n - 1]) == w then ss[n - 1].spent.credits else 0.0)
  }

  /** What the slot's reconstructed passes took off their exits. */
  function ReconIn(ss: seq<Session>, n: nat, slot: Slot): real
    requires n <= |ss|
  {
    if n == 0 then 0.0
    else
      var own := ss[n - 1].reconstructed && SlotOf(ss[n - 1]) == slot;
      ReconIn(ss, n - 1, slot) + (if own then ss[n - 1].spent.credits else 0.0)
  }

  function ReconTotal(ss: seq<Session>, n: nat): real
    requires n <= |ss|
  {
    if n == 0 then 0.0
    else ReconTotal(ss, n - 1) + (if ss[n - 1].reconstructed then ss[n - 1].spent.credits else 0.0)
  }

  predicate ReconSlot(ss: seq<Session>, n: nat, slot: Slot)
    requires n <= |ss|
  {
    exists j :: 0 <= j < n && ss[j].reconstructed && SlotOf(ss[j]) == slot
  }

  ghost predicate ReconTable(ss: seq<Session>, n: nat, recon: map<Slot, real>) {
    && n <= |ss|
    && (forall k :: k in recon <==> ReconSlot(ss, n, k))
    && (forall k :: Get(recon, k) == ReconIn(ss, n, k))
    && Sum(recon) == ReconTotal(ss, n)
  }

  function ReconAfter(s: Session, recon: map<Slot, real>): map<Slot, real> {
    if s.reconstructed then recon[SlotOf(s) := Get(recon, SlotOf(s)) + s.spent.credits] else recon
  }

  lemma ReconTableGrows(ss: seq<Session>, n: nat, recon: map<Slot, real>)
    requires ReconTable(ss, n, recon) && n < |ss|
    ensures ReconTable(ss, n + 1, ReconAfter(ss[n], recon))
  {
    var s, after := ss[n], ReconAfter(ss[n], recon);
    SumAdd(recon, SlotOf(s), s.spent.credits);
    forall k ensures (k in after <==> ReconSlot(ss, n + 1, k)) && Get(after, k) == ReconIn(ss, n + 1, k) {
      assert Get(recon, k) == ReconIn(ss, n, k);
      ReconGrowsAt(ss, n, recon, k);
    }
  }

  lemma ReconGrowsAt(ss: seq<Session>, n: nat, recon: map<Slot, real>, k: Slot)
    requires n < |ss| && (k in recon <==> ReconSlot(ss, n, k)) && Get(recon, k) == ReconIn(ss, n, k)
    ensures var after := ReconAfter(ss[n], recon);
            (k in after <==> ReconSlot(ss, n + 1, k)) && Get(after, k) == ReconIn(ss, n + 1, k)
  {
    if ReconSlot(ss, n + 1, k) {
      var j :| 0 <= j < n + 1 && ss[j].reconstructed && SlotOf(ss[j]) == k;
    }
  }

  method AddWork(ss: seq<Session>, i: nat, first0: real, rework0: real, corrected0: real, reproved0: real)
    returns (first: real, rework: real, corrected: real, reproved: real)
    requires i < |ss| && first0 == WorkSum(ss, i, First) && rework0 == corrected0 + reproved0
    requires corrected0 == WorkSum(ss, i, Corrected) && reproved0 == WorkSum(ss, i, Reproved)
    ensures first == WorkSum(ss, i + 1, First) && rework == corrected + reproved
    ensures corrected == WorkSum(ss, i + 1, Corrected) && reproved == WorkSum(ss, i + 1, Reproved)
  {
    var s := ss[i];
    first, rework, corrected, reproved := first0, rework0, corrected0, reproved0;
    if !s.redo {
      first := first + s.spent.credits;
    } else if s.redoReason == REPROVED {
      rework := rework + s.spent.credits;
      reproved := reproved + s.spent.credits;
    } else {
      rework := rework + s.spent.credits;
      corrected := corrected + s.spent.credits;
    }
  }

  method AddRecon(ss: seq<Session>, i: nat, recon: map<Slot, real>) returns (after: map<Slot, real>)
    requires i < |ss| && ReconTable(ss, i, recon)
    ensures ReconTable(ss, i + 1, after)
  {
    ReconTableGrows(ss, i, recon);
    var s := ss[i];
    after := recon;
    if s.reconstructed {
      after := recon[SlotOf(s) := Get(recon, SlotOf(s)) + s.spent.credits];
    }
  }

  method SplitPasses(ss: seq<Session>) returns (first: real, rework: real, corrected: real, reproved: real, recon: map<Slot, real>)
    ensures first == WorkSum(ss, |ss|, First)
    ensures corrected == WorkSum(ss, |ss|, Corrected) && reproved == WorkSum(ss, |ss|, Reproved)
    ensures rework == corrected + reproved
    ensures ReconTable(ss, |ss|, recon)
  {
    first, rework, corrected, reproved, recon := 0.0, 0.0, 0.0, 0.0, map[];
    var i := 0;
    while i < |ss|
      invariant 0 <= i <= |ss|
      invariant first == WorkSum(ss, i, First)
      invariant corrected == WorkSum(ss, i, Corrected) && reproved == WorkSum(ss, i, Reproved)
      invariant rework == corrected + reproved
      invariant ReconTable(ss, i, recon)
    {
      recon := AddRecon(ss, i, recon);
      first, rework, corrected, reproved := AddWork(ss, i, first, rework, corrected, reproved);
      i := i + 1;
    }
  }

  // ----- The rows no pass claimed -----

  predicate NonNegative(rows: seq<Row>) {
    forall i :: 0 <= i < |rows| ==> rows[i].spent.credits >= 0.0
  }

  function RowsTotal(rows: seq<Row>, n: nat): Spend
    requires n <= |rows|
  {
    if n == 0 then NO_SPEND else RowsTotal(rows, n - 1).Plus(rows[n - 1].spent)
  }

  /** The credits of the first n rows no pass claimed. */
  function UnclaimedSum(rows: seq<Row>, claimed: seq<bool>, n: nat): real
    requires n <= |rows| == |claimed|
  {
    if n == 0 then 0.0
    else UnclaimedSum(rows, claimed, n - 1) + (if claimed[n - 1] then 0.0 else rows[n - 1].spent.credits)
  }

  predicate UnkeyedRow(r: Row, slot: Slot) {
    r.session == "" && Slot(r.stage, r.role) == slot
  }

  /** The credits of the slot's rows that carry no key and no pass claimed: what
      a reconstructed pass of the slot can be netted against. */
  function UnkeyedSum(rows: seq<Row>, claimed: seq<bool>, n: nat, slot: Slot): real
    requires n <= |rows| == |claimed|
  {
    if n == 0 then 0.0
    else
      var own := !claimed[n - 1] && UnkeyedRow(rows[n - 1], slot);
      UnkeyedSum(rows, claimed, n - 1, slot) + (if own then rows[n - 1].spent.credits else 0.0)
  }

  function ChargesTotal(cs: seq<Charge>): real {
    if cs == [] then 0.0 else ChargesTotal(cs[..|cs| - 1]) + cs[|cs| - 1].spent.credits
  }

  lemma ChargesSnoc(cs: seq<Charge>, c: Charge)
    ensures ChargesTotal(cs + [c]) == ChargesTotal(cs) + c.spent.credits
  {
    assert (cs + [c])[..|cs|] == cs;
  }

  lemma {:induction false} ChargesConcat(a: seq<Charge>, b: seq<Charge>)
    ensures ChargesTotal(a + b) == ChargesTotal(a) + ChargesTotal(b)
  {
    if b == [] {
      assert a + b == a;
    } else {
      var init, c := b[..|b| - 1], b[|b| - 1];
      ChargesConcat(a, init);
      assert a + b == (a + init) + [c];
      ChargesSnoc(a + init, c);
    }
  }

  function ChargeOf(r: Row): Charge {
    Charge(r.stage, r.role, r.model, r.updatedAt, r.spent)
  }

  predicate NonNegativeCharges(cs: seq<Charge>) {
    forall i :: 0 <= i < |cs| ==> cs[i].spent.credits >= 0.0
  }

  /** Where the netting stands after n rows: what is charged, plus what was
      netted, falls short of the unclaimed rows by no more than a crumb a row,
      and each slot's balance is its reconstructed credits less its unkeyed
      rows, down to zero. */
  ghost predicate Netting(rows: seq<Row>, claimed: seq<bool>, n: nat, recon0: map<Slot, real>,
                          recon: map<Slot, real>, charges: seq<Charge>)
  {
    && n <= |rows| == |claimed|
    && recon.Keys == recon0.Keys
    && (forall k :: k in recon ==> recon[k] == Floor(recon0[k] - UnkeyedSum(rows, claimed, n, k)))
    && NonNegativeCharges(charges)
    && 0.0 <= UnclaimedSum(rows, claimed, n) - (Sum(recon0) - Sum(recon)) - ChargesTotal(charges) <= CRUMB * n as real
  }

  /** The charge of one row and the balances after it. */
  function NetRow(r: Row, recon: map<Slot, real>): (res: (map<Slot, real>, Charge, bool))
  {
    var k := Slot(r.stage, r.role);
    var c := ChargeOf(r);
    if r.session == "" && Get(recon, k) > 0.0 then
      var net := Least(recon[k], c.spent.credits);
      var rest := c.spent.credits - net;
      (recon[k := recon[k] - net],
       c.(spent := c.spent.(credits := rest, estimated := Least(c.spent.estimated, rest))), true)
    else (recon, c, false)
  }

  /** A share too small to list. */
  predicate IsCrumb(c: Charge, netted: bool) {
    c.spent.credits <= CRUMB && (netted || c.Tokens() == 0)
  }

  lemma {:induction false} UnkeyedSumNonNegative(rows: seq<Row>, claimed: seq<bool>, n: nat, slot: Slot)
    requires NonNegative(rows) && n <= |rows| == |claimed|
    ensures UnkeyedSum(rows, claimed, n, slot) >= 0.0
  {
    if n > 0 { UnkeyedSumNonNegative(rows, claimed, n - 1, slot); }
  }

  /** One row moves one balance, down to zero at the least. */
  lemma NetRowBalance(r: Row, before: map<Slot, real>, start: real, sum: real, k: Slot)
    requires k in before && before[k] == Floor(start - sum) && sum >= 0.0 && r.spent.credits >= 0.0
    ensures var after := NetRow(r, before).0;
            k in after && after[k] == Floor(start - (sum + (if UnkeyedRow(r, k) then r.spent.credits else 0.0)))
  {
  }

  /** What a row nets and what it charges are together its credits. */
  lemma NetRowConserves(r: Row, recon: map<Slot, real>)
    requires r.spent.credits >= 0.0
    ensures var (after, c, netted) := NetRow(r, recon);
            after.Keys == recon.Keys && c.spent.credits >= 0.0
            && Sum(recon) - Sum(after) + c.spent.credits == r.spent.credits
  {
    var k := Slot(r.stage, r.role);
    if r.session == "" && Get(recon, k) > 0.0 {
      SumAdd(recon, k, -Least(recon[k], r.spent.credits));
    }
  }

  lemma NetRowBalances(rows: seq<Row>, claimed: seq<bool>, n: nat, recon0: map<Slot, real>,
                       recon: map<Slot, real>, charges: seq<Charge>)
    requires Netting(rows, claimed, n, recon0, recon, charges) && n < |rows| && NonNegative(rows) && !claimed[n]
    ensures var after := NetRow(rows[n], recon).0;
            after.Keys == recon0.Keys
            && forall k :: k in after ==> after[k] == Floor(recon0[k] - UnkeyedSum(rows, claimed, n + 1, k))
  {
    var after := NetRow(rows[n], recon).0;
    NetRowConserves(rows[n], recon);
    forall k | k in after ensures after[k] == Floor(recon0[k] - UnkeyedSum(rows, claimed, n + 1, k)) {
      UnkeyedSumNonNegative(rows, claimed, n, k);
      NetRowBalance(rows[n], recon, recon0[k], UnkeyedSum(rows, claimed, n, k), k);
    }
  }

  lemma NettingGrows(rows: seq<Row>, claimed: seq<bool>, n: nat, recon0: map<Slot, real>,
                     recon: map<Slot, real>, charges: seq<Charge>)
    requires Netting(rows, claimed, n, recon0, recon, charges) && n < |rows| && NonNegative(rows)
    ensures claimed[n] ==> Netting(rows, claimed, n + 1, recon0, recon, charges)
    ensures !claimed[n] ==>
      var (after, c, netted) := NetRow(rows[n], recon);
      Netting(rows, claimed, n + 1, recon0, after, if IsCrumb(c, netted) then charges else charges + [c])
  {
    CrumbsGrow(n);
    if !claimed[n] {
      var (after, c, netted) := NetRow(rows[n], recon);
      NetRowBalances(rows, claimed, n, recon0, recon, charges);
      NetRowConserves(rows[n], recon);
      ChargesSnoc(charges, c);
    }
  }

  lemma CrumbsGrow(n: nat)
    ensures CRUMB * (n + 1) as real == CRUMB * n as real + CRUMB
  {
    assert (n + 1) as real == n as real + 1.0;
  }

  lemma NettingStarts(rows: seq<Row>, claimed: seq<bool>, recon: map<Slot, real>)
    requires |rows| == |claimed| && forall k :: k in recon ==> recon[k] >= 0.0
    ensures Netting(rows, claimed, 0, recon, recon, [])
  {
    assert CRUMB * (0 as real) == 0.0;
  }

  /** One row as a charge, less what a reconstructed pass already took. */
  method ChargeRow(r: Row, recon: map<Slot, real>) returns (after: map<Slot, real>, c: Charge, netted: bool)
    ensures (after, c, netted) == NetRow(r, recon)
  {
    after, c, netted := recon, ChargeOf(r), false;
    var k := Slot(r.stage, r.role);
    if r.session == "" && Get(recon, k) > 0.0 {
      var net := Least(recon[k], c.spent.credits);
      after := recon[k := recon[k] - net];
      c := c.(spent := c.spent.(credits := c.spent.credits - net));
      c := c.(spent := c.spent.(estimated := Least(c.spent.estimated, c.spent.credits)));
      netted := true;
    }
  }

  /** The balances and charges after the first n rows. */
  function RowCharges(rows: seq<Row>, claimed: seq<bool>, n: nat, recon0: map<Slot, real>): (map<Slot, real>, seq<Charge>)
    requires n <= |rows| == |claimed|
  {
    if n == 0 then (recon0, [])
    else
      var (recon, charges) := RowCharges(rows, claimed, n - 1, recon0);
      if claimed[n - 1] then (recon, charges)
      else
        var (after, c, netted) := NetRow(rows[n - 1], recon);
        (after, if IsCrumb(c, netted) then charges else charges + [c])
  }

  lemma {:induction false} RowChargesNet(rows: seq<Row>, claimed: seq<bool>, n: nat, recon0: map<Slot, real>)
    requires n <= |rows| == |claimed| && NonNegative(rows) && forall k :: k in recon0 ==> recon0[k] >= 0.0
    ensures Netting(rows, claimed, n, recon0, RowCharges(rows, claimed, n, recon0).0, RowCharges(rows, claimed, n, recon0).1)
  {
    if n == 0 {
      NettingStarts(rows, claimed, recon0);
    } else {
      RowChargesNet(rows, claimed, n - 1, recon0);
      var before := RowCharges(rows, claimed, n - 1, recon0);
      NettingGrows(rows, claimed, n - 1, recon0, before.0, before.1);
    }
  }

  /** The charges of the rows no pass claimed. */
  method ChargeRows(rows: seq<Row>, claimed: seq<bool>, recon0: map<Slot, real>)
    returns (recon: map<Slot, real>, charges: seq<Charge>)
    requires |rows| == |claimed|
    ensures (recon, charges) == RowCharges(rows, claimed, |rows|, recon0)
    ensures NonNegative(rows) && (forall k :: k in recon0 ==> recon0[k] >= 0.0)
      ==> Netting(rows, claimed, |rows|, recon0, recon, charges)
  {
    recon, charges := recon0, [];
    var i := 0;
    while i < |rows|
      invariant 0 <= i <= |rows|
      invariant (recon, charges) == RowCharges(rows, claimed, i, recon0)
    {
      if !claimed[i] {
        var c, netted;
        recon, c, netted := ChargeRow(rows[i], recon);
        if !(c.spent.credits <= CRUMB && (netted || c.Tokens() == 0)) {
          charges := charges + [c];
        }
      }
      i := i + 1;
    }
    if NonNegative(rows) && forall k :: k in recon0 ==> recon0[k] >= 0.0 {
      RowChargesNet(rows, claimed, |rows|, recon0);
    }
  }

  // ----- The charges, read off the rows -----

  /** What the slot's reconstructed passes still hold when row i comes up: their
      credits less the unkeyed rows before it. */
  function LeftBefore(ss: seq<Session>, rows: seq<Row>, claimed: seq<bool>, i: nat): real
    requires i < |rows| == |claimed|
  {
    var slot := Slot(rows[i].stage, rows[i].role);
    Floor(ReconIn(ss, |ss|, slot) - UnkeyedSum(rows, claimed, i, slot))
  }

  /** The row's credits, less what its slot still held if it carries no key. */
  function Due(r: Row, left: real): real {
    if r.session == "" then Floor(r.spent.credits - left) else r.spent.credits
  }

  /** The row was netted against something. */
  predicate Netted(r: Row, left: real) { r.session == "" && left > 0.0 }

  /** A row is listed unless nothing worth a crumb is due for it and it was netted
      or used no tokens. */
  predicate Owing(r: Row, left: real) {
    Due(r, left) > CRUMB || (!Netted(r, left) && r.spent.input + r.spent.cached + r.spent.output != 0)
  }

  /** The charge of a row: its fields, its tokens, what is due, and no larger an
      estimate than that when it was netted. */
  predicate Charges(c: Charge, r: Row, left: real) {
    && c.stage == r.stage && c.role == r.role && c.model == r.model && c.at == r.updatedAt
    && c.spent.input == r.spent.input && c.spent.cached == r.spent.cached && c.spent.output == r.spent.output
    && c.spent.credits == Due(r, left)
    && c.spent.estimated == if Netted(r, left) then Least(r.spent.estimated, Due(r, left)) else r.spent.estimated
  }

  predicate Increasing(at: seq<nat>, n: nat) {
    (forall a, b :: 0 <= a < b < |at| ==> at[a] < at[b]) && forall a :: 0 <= a < |at| ==> at[a] < n
  }

  /** The charges are those of the rows listed, in the rollup's order: every owing
      row among the first n that no pass claimed, and no other. */
  predicate ChargesOf(cs: seq<Charge>, at: seq<nat>, ss: seq<Session>, rows: seq<Row>, claimed: seq<bool>, n: nat)
    requires n <= |rows| == |claimed|
  {
    && |cs| == |at| && Increasing(at, n)
    && (forall j :: 0 <= j < |cs| ==> Charges(cs[j], rows[at[j]], LeftBefore(ss, rows, claimed, at[j])))
    && (forall i :: 0 <= i < n ==> (i in at <==> !claimed[i] && Owing(rows[i], LeftBefore(ss, rows, claimed, i))))
  }

  lemma NetRowCharges(r: Row, recon: map<Slot, real>, left: real)
    requires r.spent.credits >= 0.0 && left == Get(recon, Slot(r.stage, r.role)) >= 0.0
    ensures var (after, c, netted) := NetRow(r, recon); Charges(c, r, left) && (IsCrumb(c, netted) <==> !Owing(r, left))
  {
  }

  lemma LeftIs(ss: seq<Session>, rows: seq<Row>, claimed: seq<bool>, n: nat, recon0: map<Slot, real>,
               recon: map<Slot, real>, charges: seq<Charge>)
    requires NonNegative(rows) && ReconTable(ss, |ss|, recon0) && n < |rows|
    requires Netting(rows, claimed, n, recon0, recon, charges)
    ensures Get(recon, Slot(rows[n].stage, rows[n].role)) == LeftBefore(ss, rows, claimed, n)
  {
    var slot := Slot(rows[n].stage, rows[n].role);
    TableAt(ss, |ss|, recon0, slot);
    NettingAt(rows, claimed, n, recon0, recon, charges, slot);
    UnkeyedSumNonNegative(rows, claimed, n, slot);
    assert Get(recon0, slot) == ReconIn(ss, |ss|, slot);
  }

  lemma ChargesGrow(cs: seq<Charge>, at: seq<nat>, ss: seq<Session>, rows: seq<Row>, claimed: seq<bool>, n: nat, c: Charge)
    requires n < |rows| == |claimed| && ChargesOf(cs, at, ss, rows, claimed, n) && !claimed[n]
    requires Owing(rows[n], LeftBefore(ss, rows, claimed, n)) && Charges(c, rows[n], LeftBefore(ss, rows, claimed, n))
    ensures ChargesOf(cs + [c], at + [n], ss, rows, claimed, n + 1)
  {
  }

  lemma ChargesStay(cs: seq<Charge>, at: seq<nat>, ss: seq<Session>, rows: seq<Row>, claimed: seq<bool>, n: nat)
    requires n < |rows| == |claimed| && ChargesOf(cs, at, ss, rows, claimed, n)
    requires claimed[n] || !Owing(rows[n], LeftBefore(ss, rows, claimed, n))
    ensures ChargesOf(cs, at, ss, rows, claimed, n + 1)
  {
    assert n !in at;
  }

  lemma ChargesNext(ss: seq<Session>, rows: seq<Row>, claimed: seq<bool>, n: nat, recon0: map<Slot, real>,
                    recon: map<Slot, real>, cs: seq<Charge>, at: seq<nat>, next: seq<Charge>)
    returns (after: seq<nat>)
    requires NonNegative(rows) && ReconTable(ss, |ss|, recon0) && n < |rows| && Netting(rows, claimed, n, recon0, recon, cs)
    requires ChargesOf(cs, at, ss, rows, claimed, n)
    requires next == NextCharges(rows, claimed, n, recon, cs)
    ensures ChargesOf(next, after, ss, rows, claimed, n + 1)
  {
    var left := LeftBefore(ss, rows, claimed, n);
    LeftIs(ss, rows, claimed, n, recon0, recon, cs);
    NetRowCharges(rows[n], recon, left);
    if !claimed[n] && Owing(rows[n], left) {
      ChargesGrow(cs, at, ss, rows, claimed, n, NetRow(rows[n], recon).1);
      after := at + [n];
    } else {
      ChargesStay(cs, at, ss, rows, claimed, n);
      after := at;
    }
  }

  function NextCharges(rows: seq<Row>, claimed: seq<bool>, n: nat, recon: map<Slot, real>, cs: seq<Charge>): seq<Charge>
    requires n < |rows| == |claimed|
  {
    var (after, c, netted) := NetRow(rows[n], recon);
    if claimed[n] || IsCrumb(c, netted) then cs else cs + [c]
  }

  lemma RowChargesNext(rows: seq<Row>, claimed: seq<bool>, n: nat, recon0: map<Slot, real>)
    requires n < |rows| == |claimed|
    ensures var (recon, cs) := RowCharges(rows, claimed, n, recon0);
            RowCharges(rows, claimed, n + 1, recon0).1 == NextCharges(rows, claimed, n, recon, cs)
  {
  }

  predicate StartsAboveZero(recon0: map<Slot, real>) { forall k :: k in recon0 ==> recon0[k] >= 0.0 }

  lemma {:induction false} RowChargesAre(ss: seq<Session>, rows: seq<Row>, claimed: seq<bool>, n: nat, recon0: map<Slot, real>)
    returns (at: seq<nat>)
    requires n <= |rows| == |claimed| && NonNegative(rows) && ReconTable(ss, |ss|, recon0) && StartsAboveZero(recon0)
    ensures ChargesOf(RowCharges(rows, claimed, n, recon0).1, at, ss, rows, claimed, n)
  {
    if n == 0 {
      at := [];
    } else {
      at := RowChargesAre(ss, rows, claimed, n - 1, recon0);
      at := RowChargesStep(ss, rows, claimed, n - 1, recon0, at, RowCharges(rows, claimed, n, recon0).1);
    }
  }

  lemma RowChargesStep(ss: seq<Session>, rows: seq<Row>, claimed: seq<bool>, n: nat, recon0: map<Slot, real>, at: seq<nat>,
                       next: seq<Charge>)
    returns (after: seq<nat>)
    requires NonNegative(rows) && ReconTable(ss, |ss|, recon0) && StartsAboveZero(recon0) && n < |rows| == |claimed|
    requires ChargesOf(RowCharges(rows, claimed, n, recon0).1, at, ss, rows, claimed, n)
    requires next == RowCharges(rows, claimed, n + 1, recon0).1
    ensures ChargesOf(next, after, ss, rows, claimed, n + 1)
  {
    var before := RowCharges(rows, claimed, n, recon0);
    RowChargesNet(rows, claimed, n, recon0);
    RowChargesNext(rows, claimed, n, recon0);
    after := ChargesNext(ss, rows, claimed, n, recon0, before.0, before.1, at, next);
  }

  // ----- Spend no row records -----

  function CounterCharge(f: Feature, role: string, credits: real): Charge {
    Charge("", role, UNKNOWN_MODEL, f.createdAt, NO_SPEND.(credits := credits))
  }

  /** The counter's excess over the rows in two shares: what a decomposition
      booked of it and what is left, each charged unless it is a crumb. */
  function Excess(f: Feature, rowsTotal: real): seq<Charge> {
    var over := f.credits - rowsTotal;
    var booked := if Least(over, f.decomposed) > CRUMB then Least(over, f.decomposed) else 0.0;
    (if booked > 0.0 then [CounterCharge(f, "decompose", booked)] else [])
    + (if over - booked > CRUMB then [CounterCharge(f, "unrecorded", over - booked)] else [])
  }

  /** The part of the counter no row records: charged to a decomposition as far
      as one accounts for it, the rest unrecorded, crumbs left out. */
  method Unrecorded(f: Feature, rowsTotal: real) returns (out: seq<Charge>)
    ensures out == Excess(f, rowsTotal)
    ensures NonNegativeCharges(out)
    ensures 0.0 <= Floor(f.credits - rowsTotal) - ChargesTotal(out) <= CRUMB
    ensures forall i :: 0 <= i < |out| ==>
      && out[i].stage == "" && out[i].model == UNKNOWN_MODEL && out[i].at == f.createdAt
      && out[i].role == (if i == 0 && Least(f.credits - rowsTotal, f.decomposed) > CRUMB then "decompose" else "unrecorded")
      && out[i].spent.credits > CRUMB
      && (out[i].role == "decompose" ==> out[i].spent.credits <= f.decomposed)
  {
    var rest := f.credits - rowsTotal;
    out := [];
    if rest <= CRUMB {
      return;
    }
    var d := Least(rest, f.decomposed);
    if d > CRUMB {
      out := AppendCharge(out, "decompose", f.createdAt, d);
      rest := rest - d;
    }
    if rest > CRUMB {
      out := AppendCharge(out, "unrecorded", f.createdAt, rest);
    }
  }

  method AppendCharge(cs: seq<Charge>, role: string, at: Time, credits: real) returns (out: seq<Charge>)
    ensures out == cs + [Charge("", role, UNKNOWN_MODEL, at, NO_SPEND.(credits := credits))]
    ensures ChargesTotal(out) == ChargesTotal(cs) + credits
  {
    var c := Charge("", role, UNKNOWN_MODEL, at, NO_SPEND.(credits := credits));
    ChargesSnoc(cs, c);
    out := cs + [c];
  }

  // ----- The split -----

  datatype Dimension = ByStage | ByRole | ByModel

  function NameOf(r: Row, d: Dimension): string {
    match d
    case ByStage => r.stage
    case ByRole => r.role
    case ByModel => r.model
  }

  /** The credits of the first n rows that go by the name k. */
  function NamedSum(rows: seq<Row>, n: nat, d: Dimension, k: string): real
    requires n <= |rows|
  {
    if n == 0 then 0.0
    else NamedSum(rows, n - 1, d, k) + (if NameOf(rows[n - 1], d) == k then rows[n - 1].spent.credits else 0.0)
  }

  predicate RowNamed(rows: seq<Row>, n: nat, d: Dimension, k: string)
    requires n <= |rows|
  {
    exists i :: 0 <= i < n && NameOf(rows[i], d) == k
  }

  ghost predicate NamedShares(shares: map<string, real>, rows: seq<Row>, n: nat, d: Dimension) {
    n <= |rows| && forall k :: (k in shares <==> RowNamed(rows, n, d, k)) && Get(shares, k) == NamedSum(rows, n, d, k)
  }

  lemma NamedSharesGrow(shares: map<string, real>, rows: seq<Row>, n: nat, d: Dimension, after: map<string, real>)
    requires NamedShares(shares, rows, n, d) && n < |rows|
    requires after == shares[NameOf(rows[n], d) := Get(shares, NameOf(rows[n], d)) + rows[n].spent.credits]
    ensures NamedShares(after, rows, n + 1, d)
  {
    forall k ensures (k in after <==> RowNamed(rows, n + 1, d, k)) && Get(after, k) == NamedSum(rows, n + 1, d, k) {
      assert (k in shares <==> RowNamed(rows, n, d, k)) && Get(shares, k) == NamedSum(rows, n, d, k);
      if RowNamed(rows, n + 1, d, k) {
        var i :| 0 <= i < n + 1 && NameOf(rows[i], d) == k;
      }
    }
  }

  /** What row n adds to the shares it files under. */
  method AddNamed(shares: map<string, real>, rows: seq<Row>, n: nat, d: Dimension) returns (after: map<string, real>)
    requires NamedShares(shares, rows, n, d) && n < |rows|
    ensures NamedShares(after, rows, n + 1, d)
    ensures Sum(after) == Sum(shares) + rows[n].spent.credits
  {
    var name := NameOf(rows[n], d);
    SumAdd(shares, name, rows[n].spent.credits);
    after := shares[name := Get(shares, name) + rows[n].spent.credits];
    NamedSharesGrow(shares, rows, n, d, after);
  }

  lemma NothingNamed(rows: seq<Row>, d: Dimension)
    ensures NamedShares(map[], rows, 0, d) && Sum<string>(map[]) == 0.0
  {
  }

  /** The rows' credits by stage, by role and by model. */
  method TallyRows(rows: seq<Row>)
    returns (byStage: map<string, real>, byRole: map<string, real>, byModel: map<string, real>, total: Spend)
    ensures total == RowsTotal(rows, |rows|)
    ensures Sum(byStage) == Sum(byRole) == Sum(byModel) == total.credits
    ensures NamedShares(byStage, rows, |rows|, ByStage)
    ensures NamedShares(byRole, rows, |rows|, ByRole)
    ensures NamedShares(byModel, rows, |rows|, ByModel)
  {
    byStage, byRole, byModel, total := map[], map[], map[], NO_SPEND;
    NothingNamed(rows, ByStage);
    NothingNamed(rows, ByRole);
    NothingNamed(rows, ByModel);
    var i := 0;
    while i < |rows|
      invariant 0 <= i <= |rows|
      invariant total == RowsTotal(rows, i)
      invariant Sum(byStage) == Sum(byRole) == Sum(byModel) == total.credits
      invariant NamedShares(byStage, rows, i, ByStage)
      invariant NamedShares(byRole, rows, i, ByRole)
      invariant NamedShares(byModel, rows, i, ByModel)
    {
      byStage := AddNamed(byStage, rows, i, ByStage);
      byRole := AddNamed(byRole, rows, i, ByRole);
      byModel := AddNamed(byModel, rows, i, ByModel);
      total := total.Plus(rows[i].spent);
      i := i + 1;
    }
  }

  /** The slots some pass was reconstructed in. */
  function ReconSlots(ss: seq<Session>): set<Slot> {
    set j | 0 <= j < |ss| && ss[j].reconstructed :: SlotOf(ss[j])
  }

  ghost function UnnettedBySlot(ss: seq<Session>, rows: seq<Row>, claimed: seq<bool>): map<Slot, real>
    requires |rows| == |claimed|
  {
    map k | k in ReconSlots(ss) :: Floor(ReconIn(ss, |ss|, k) - UnkeyedSum(rows, claimed, |rows|, k))
  }

  /** The reconstructed credits no unkeyed row of their slot could net. */
  ghost function Unnetted(ss: seq<Session>, rows: seq<Row>, claimed: seq<bool>): real
    requires |rows| == |claimed|
  {
    Sum(UnnettedBySlot(ss, rows, claimed))
  }

  predicate NonNegativeRecon(ss: seq<Session>) {
    forall i :: 0 <= i < |ss| && ss[i].reconstructed ==> ss[i].spent.credits >= 0.0
  }

  lemma {:induction false} ReconInNonNegative(ss: seq<Session>, n: nat, slot: Slot)
    requires NonNegativeRecon(ss) && n <= |ss|
    ensures ReconIn(ss, n, slot) >= 0.0
  {
    if n > 0 { ReconInNonNegative(ss, n - 1, slot); }
  }

  lemma ReconSlotsListed(ss: seq<Session>, k: Slot)
    ensures ReconSlot(ss, |ss|, k) <==> k in ReconSlots(ss)
  {
  }

  lemma TableAt(ss: seq<Session>, n: nat, recon: map<Slot, real>, k: Slot)
    requires ReconTable(ss, n, recon)
    ensures (k in recon <==> ReconSlot(ss, n, k)) && (k in recon ==> recon[k] == ReconIn(ss, n, k))
  {
    assert Get(recon, k) == ReconIn(ss, n, k);
  }

  lemma NettingAt(rows: seq<Row>, claimed: seq<bool>, n: nat, recon0: map<Slot, real>,
                  recon: map<Slot, real>, charges: seq<Charge>, k: Slot)
    requires Netting(rows, claimed, n, recon0, recon, charges)
    ensures (k in recon <==> k in recon0) && (k in recon ==> recon[k] == Floor(recon0[k] - UnkeyedSum(rows, claimed, n, k)))
  {
    assert k in recon <==> k in recon0.Keys;
  }

  lemma LeftInSlot(ss: seq<Session>, rows: seq<Row>, claimed: seq<bool>, recon0: map<Slot, real>,
                   recon: map<Slot, real>, charges: seq<Charge>, k: Slot)
    requires ReconTable(ss, |ss|, recon0) && Netting(rows, claimed, |rows|, recon0, recon, charges)
    ensures k in recon <==> k in ReconSlots(ss)
    ensures k in recon ==> recon[k] == Floor(ReconIn(ss, |ss|, k) - UnkeyedSum(rows, claimed, |rows|, k))
  {
    ReconSlotsListed(ss, k);
    TableAt(ss, |ss|, recon0, k);
    NettingAt(rows, claimed, |rows|, recon0, recon, charges, k);
  }

  lemma UnnettedAt(ss: seq<Session>, rows: seq<Row>, claimed: seq<bool>, k: Slot)
    requires |rows| == |claimed|
    ensures k in UnnettedBySlot(ss, rows, claimed) <==> k in ReconSlots(ss)
    ensures k in ReconSlots(ss) ==>
      UnnettedBySlot(ss, rows, claimed)[k] == Floor(ReconIn(ss, |ss|, k) - UnkeyedSum(rows, claimed, |rows|, k))
  {
  }

  /** A reconstruction counts nothing twice exactly when each slot has unkeyed
      rows enough to net what its passes took off their exits. */
  lemma {:induction false} UnnettedIff(ss: seq<Session>, rows: seq<Row>, claimed: seq<bool>)
    requires |rows| == |claimed|
    ensures Unnetted(ss, rows, claimed) >= 0.0
    ensures Unnetted(ss, rows, claimed) == 0.0 <==>
      forall slot :: slot in ReconSlots(ss) ==> ReconIn(ss, |ss|, slot) <= UnkeyedSum(rows, claimed, |rows|, slot)
  {
    var left := UnnettedBySlot(ss, rows, claimed);
    forall k ensures k in left <==> k in ReconSlots(ss)
      ensures k in left ==> left[k] == Floor(ReconIn(ss, |ss|, k) - UnkeyedSum(rows, claimed, |rows|, k))
    {
      UnnettedAt(ss, rows, claimed, k);
    }
    SumIsZeroIff(left);
  }

  lemma SameMaps<K, V>(a: map<K, V>, b: map<K, V>)
    requires forall k :: (k in a <==> k in b) && (k in a ==> a[k] == b[k])
    ensures a == b
  {
  }

  /** The balances left when every row is netted are what no row could net. */
  lemma {:induction false} LeftIsUnnetted(ss: seq<Session>, rows: seq<Row>, claimed: seq<bool>, recon0: map<Slot, real>,
                       recon: map<Slot, real>, charges: seq<Charge>)
    requires ReconTable(ss, |ss|, recon0) && Netting(rows, claimed, |rows|, recon0, recon, charges)
    ensures Sum(recon) == Unnetted(ss, rows, claimed)
  {
    var left := UnnettedBySlot(ss, rows, claimed);
    forall k ensures (k in recon <==> k in left) && (k in recon ==> recon[k] == left[k]) {
      LeftInSlot(ss, rows, claimed, recon0, recon, charges, k);
      UnnettedAt(ss, rows, claimed, k);
    }
    SameMaps(recon, left);
  }

  lemma BalancesStartAboveZero(ss: seq<Session>, recon0: map<Slot, real>)
    requires ReconTable(ss, |ss|, recon0) && NonNegativeRecon(ss)
    ensures forall k :: k in recon0 ==> recon0[k] >= 0.0
  {
    forall k | k in recon0 ensures recon0[k] >= 0.0 {
      ReconInNonNegative(ss, |ss|, k);
      assert Get(recon0, k) == ReconIn(ss, |ss|, k);
    }
  }

  lemma {:induction false} OutsideIsCharged(ss: seq<Session>, rows: seq<Row>, claimed: seq<bool>, f: Feature, recon0: map<Slot, real>,
                         recon: map<Slot, real>, rowCharges: seq<Charge>, extra: seq<Charge>, m: Money)
    requires ReconTable(ss, |ss|, recon0) && Netting(rows, claimed, |rows|, recon0, recon, rowCharges)
    requires 0.0 <= Floor(f.credits - m.rowsTotal.credits) - ChargesTotal(extra) <= CRUMB
    requires m.elsewhere == ChargesTotal(rowCharges) + ChargesTotal(extra) && BucketTotal(m.elsewhereBy) == m.elsewhere
    ensures Charged(m, ss, rows, claimed, f)
  {
    LeftIsUnnetted(ss, rows, claimed, recon0, recon, rowCharges);
    CrumbsGrow(|rows|);
  }

  /** The credits of the charges above zero whose role is k. */
  function RoleSum(cs: seq<Charge>, k: string): real {
    if cs == [] then 0.0
    else
      var c := cs[|cs| - 1];
      RoleSum(cs[..|cs| - 1], k) + (if c.role == k && c.spent.credits > 0.0 then c.spent.credits else 0.0)
  }

  predicate RoleCharged(cs: seq<Charge>, k: string) {
    exists i :: 0 <= i < |cs| && cs[i].role == k && cs[i].spent.credits > 0.0
  }

  ghost predicate RoleShares(shares: map<string, real>, cs: seq<Charge>) {
    forall k :: (k in shares <==> RoleCharged(cs, k)) && Get(shares, k) == RoleSum(cs, k)
  }

  function RoleAfter(shares: map<string, real>, c: Charge): map<string, real> {
    if c.spent.credits > 0.0 then shares[c.role := Get(shares, c.role) + c.spent.credits] else shares
  }

  lemma RoleChargedSnoc(cs: seq<Charge>, c: Charge, k: string)
    ensures RoleCharged(cs + [c], k) <==> RoleCharged(cs, k) || (c.role == k && c.spent.credits > 0.0)
    ensures RoleSum(cs + [c], k) == RoleSum(cs, k) + if c.role == k && c.spent.credits > 0.0 then c.spent.credits else 0.0
  {
    var all := cs + [c];
    assert all[..|cs|] == cs;
    if RoleCharged(cs, k) {
      var i :| 0 <= i < |cs| && cs[i].role == k && cs[i].spent.credits > 0.0;
      assert all[i] == cs[i];
    }
    if c.role == k && c.spent.credits > 0.0 { assert all[|cs|] == c; }
  }

  lemma RoleSumAdds(shares: map<string, real>, c: Charge)
    ensures c.spent.credits >= 0.0 ==> Sum(RoleAfter(shares, c)) == Sum(shares) + c.spent.credits
  {
    SumAdd(shares, c.role, c.spent.credits);
  }

  lemma RoleSharesGrow(shares: map<string, real>, cs: seq<Charge>, c: Charge, after: map<string, real>)
    requires RoleShares(shares, cs) && after == RoleAfter(shares, c)
    ensures RoleShares(after, cs + [c])
  {
    forall k ensures (k in after <==> RoleCharged(cs + [c], k)) && Get(after, k) == RoleSum(cs + [c], k) {
      RoleChargedSnoc(cs, c, k);
      assert (k in shares <==> RoleCharged(cs, k)) && Get(shares, k) == RoleSum(cs, k);
    }
  }

  /** What one charge adds to its role's share. */
  method AddRole(shares: map<string, real>, ghost cs: seq<Charge>, c: Charge) returns (after: map<string, real>)
    requires RoleShares(shares, cs)
    ensures RoleShares(after, cs + [c])
    ensures c.spent.credits >= 0.0 ==> Sum(after) == Sum(shares) + c.spent.credits
  {
    after := shares;
    if c.spent.credits > 0.0 {
      after := shares[c.role := Get(shares, c.role) + c.spent.credits];
    }
    RoleSumAdds(shares, c);
    RoleSharesGrow(shares, cs, c, after);
  }

  lemma NothingByRole()
    ensures RoleShares(map[], []) && Sum<string>(map[]) == 0.0
  {
  }

  /** The charges by role, those above zero. */
  method TallyCharges(charges: seq<Charge>) returns (elsewhere: real, shares: map<string, real>)
    ensures elsewhere == ChargesTotal(charges)
    ensures RoleShares(shares, charges)
    ensures NonNegativeCharges(charges) ==> Sum(shares) == elsewhere
  {
    elsewhere, shares := 0.0, map[];
    NothingByRole();
    var i := 0;
    while i < |charges|
      invariant 0 <= i <= |charges|
      invariant elsewhere == ChargesTotal(charges[..i])
      invariant RoleShares(shares, charges[..i])
      invariant NonNegativeCharges(charges) ==> Sum(shares) == elsewhere
    {
      var c := charges[i];
      assert charges[..i + 1] == charges[..i] + [c];
      ChargesSnoc(charges[..i], c);
      elsewhere := elsewhere + c.spent.credits;
      shares := AddRole(shares, charges[..i], c);
      i := i + 1;
    }
    assert charges[..|charges|] == charges;
  }

  /** One bucket for exactly each role with a charge above zero, holding the sum
      of those charges. */
  ghost predicate ByRoles(bs: seq<Bucket>, cs: seq<Charge>) {
    && Listed(bs)
    && (forall i :: 0 <= i < |bs| ==> RoleCharged(cs, bs[i].name) && bs[i].credits == RoleSum(cs, bs[i].name))
    && (forall k :: RoleCharged(cs, k) ==> Bucket(k, RoleSum(cs, k)) in bs)
  }

  lemma BucketsByRole(bs: seq<Bucket>, shares: map<string, real>, cs: seq<Charge>)
    requires IsBuckets(bs, shares) && RoleShares(shares, cs)
    ensures ByRoles(bs, cs)
  {
    forall i | 0 <= i < |bs| ensures RoleCharged(cs, bs[i].name) && bs[i].credits == RoleSum(cs, bs[i].name) {
      assert Get(shares, bs[i].name) == bs[i].credits;
    }
    forall k | RoleCharged(cs, k) ensures Bucket(k, RoleSum(cs, k)) in bs {
      assert Get(shares, k) == RoleSum(cs, k);
    }
  }

  function ChargeName(c: Charge, d: Dimension): string {
    match d
    case ByStage => c.BucketName()
    case ByRole => c.role
    case ByModel => UNKNOWN_MODEL
  }

  /** The charges that go by the name k. */
  function NamedCharges(cs: seq<Charge>, d: Dimension, k: string): real {
    if cs == [] then 0.0
    else
      var c := cs[|cs| - 1];
      NamedCharges(cs[..|cs| - 1], d, k) + (if ChargeName(c, d) == k then c.spent.credits else 0.0)
  }

  /** A row or one of the charges goes by the name k. */
  predicate Named(rows: seq<Row>, cs: seq<Charge>, d: Dimension, k: string) {
    RowNamed(rows, |rows|, d, k) || exists i :: 0 <= i < |cs| && ChargeName(cs[i], d) == k
  }

  function NamedTotal(rows: seq<Row>, cs: seq<Charge>, d: Dimension, k: string): real {
    NamedSum(rows, |rows|, d, k) + NamedCharges(cs, d, k)
  }

  ghost predicate ToppedUp(shares: map<string, real>, rows: seq<Row>, cs: seq<Charge>, d: Dimension) {
    && Sum(shares) == RowsTotal(rows, |rows|).credits + ChargesTotal(cs)
    && forall k :: (k in shares <==> Named(rows, cs, d, k)) && Get(shares, k) == NamedTotal(rows, cs, d, k)
  }

  lemma NamedSnoc(rows: seq<Row>, cs: seq<Charge>, d: Dimension, c: Charge, k: string)
    ensures Named(rows, cs + [c], d, k) <==> Named(rows, cs, d, k) || ChargeName(c, d) == k
    ensures NamedTotal(rows, cs + [c], d, k)
         == NamedTotal(rows, cs, d, k) + if ChargeName(c, d) == k then c.spent.credits else 0.0
  {
    var all := cs + [c];
    assert all[..|cs|] == cs && all[|cs|] == c;
    if i :| 0 <= i < |cs| && ChargeName(cs[i], d) == k { assert all[i] == cs[i]; }
  }

  lemma TopUpAt(shares: map<string, real>, rows: seq<Row>, cs: seq<Charge>, d: Dimension, c: Charge, k: string,
                after: map<string, real>)
    requires (k in shares <==> Named(rows, cs, d, k)) && Get(shares, k) == NamedTotal(rows, cs, d, k)
    requires after == shares[ChargeName(c, d) := Get(shares, ChargeName(c, d)) + c.spent.credits]
    ensures (k in after <==> Named(rows, cs + [c], d, k)) && Get(after, k) == NamedTotal(rows, cs + [c], d, k)
  {
    NamedSnoc(rows, cs, d, c, k);
  }

  lemma TopUp(shares: map<string, real>, rows: seq<Row>, cs: seq<Charge>, d: Dimension, c: Charge, after: map<string, real>)
    requires ToppedUp(shares, rows, cs, d)
    requires after == shares[ChargeName(c, d) := Get(shares, ChargeName(c, d)) + c.spent.credits]
    ensures ToppedUp(after, rows, cs + [c], d)
  {
    ChargesSnoc(cs, c);
    SumAdd(shares, ChargeName(c, d), c.spent.credits);
    forall k ensures (k in after <==> Named(rows, cs + [c], d, k)) && Get(after, k) == NamedTotal(rows, cs + [c], d, k) {
      TopUpAt(shares, rows, cs, d, c, k, after);
    }
  }

  lemma NothingToTopUp(shares: map<string, real>, rows: seq<Row>, d: Dimension)
    requires Sum(shares) == RowsTotal(rows, |rows|).credits && NamedShares(shares, rows, |rows|, d)
    ensures ToppedUp(shares, rows, [], d)
  {
    forall k ensures (k in shares <==> Named(rows, [], d, k)) && Get(shares, k) == NamedTotal(rows, [], d, k) {
      assert (k in shares <==> RowNamed(rows, |rows|, d, k)) && Get(shares, k) == NamedSum(rows, |rows|, d, k);
    }
  }

  /** File the unrecorded spend beside the rows' own. */
  method TallyUnrecorded(rows: seq<Row>, extra: seq<Charge>, d: Dimension, rowShares: map<string, real>)
    returns (shares: map<string, real>)
    requires Sum(rowShares) == RowsTotal(rows, |rows|).credits && NamedShares(rowShares, rows, |rows|, d)
    ensures ToppedUp(shares, rows, extra, d)
  {
    shares := rowShares;
    NothingToTopUp(shares, rows, d);
    var i := 0;
    while i < |extra|
      invariant 0 <= i <= |extra|
      invariant ToppedUp(shares, rows, extra[..i], d)
    {
      var c := extra[i];
      assert extra[..i + 1] == extra[..i] + [c];
      ghost var was := shares;
      shares := shares[ChargeName(c, d) := Get(shares, ChargeName(c, d)) + c.spent.credits];
      TopUp(was, rows, extra[..i], d, c, shares);
      i := i + 1;
    }
    assert extra[..|extra|] == extra;
  }

  /** Buckets that share out the rows and the unrecorded charges by name: one for
      exactly each name, holding what goes by it. */
  ghost predicate SharesOut(bs: seq<Bucket>, rows: seq<Row>, extra: seq<Charge>, d: Dimension) {
    && Listed(bs)
    && BucketTotal(bs) == RowsTotal(rows, |rows|).credits + ChargesTotal(extra)
    && (forall i :: 0 <= i < |bs| ==>
          Named(rows, extra, d, bs[i].name) && bs[i].credits == NamedTotal(rows, extra, d, bs[i].name))
    && (forall k :: Named(rows, extra, d, k) ==> Bucket(k, NamedTotal(rows, extra, d, k)) in bs)
  }

  lemma BucketsShareOut(bs: seq<Bucket>, shares: map<string, real>, rows: seq<Row>, extra: seq<Charge>, d: Dimension)
    requires IsBuckets(bs, shares) && BucketTotal(bs) == Sum(shares) && ToppedUp(shares, rows, extra, d)
    ensures SharesOut(bs, rows, extra, d)
  {
    forall i | 0 <= i < |bs|
      ensures Named(rows, extra, d, bs[i].name) && bs[i].credits == NamedTotal(rows, extra, d, bs[i].name)
    {
      assert Get(shares, bs[i].name) == bs[i].credits;
    }
    forall k | Named(rows, extra, d, k) ensures Bucket(k, NamedTotal(rows, extra, d, k)) in bs {
      assert Get(shares, k) == NamedTotal(rows, extra, d, k);
    }
  }

  method ShareOut(rows: seq<Row>, extra: seq<Charge>, d: Dimension, rowShares: map<string, real>) returns (bs: seq<Bucket>)
    requires Sum(rowShares) == RowsTotal(rows, |rows|).credits
    requires NamedShares(rowShares, rows, |rows|, d)
    ensures SharesOut(bs, rows, extra, d)
  {
    var shares := TallyUnrecorded(rows, extra, d, rowShares);
    bs := Buckets(shares);
    BucketsShareOut(bs, shares, rows, extra, d);
  }

  /** The counter's spend no row holds, and the shares of both by name. */
  method Itemize(rows: seq<Row>, f: Feature)
    returns (total: Spend, extra: seq<Charge>, byStage: seq<Bucket>, byRole: seq<Bucket>, byModel: seq<Bucket>)
    ensures ItemizedBy(rows, f, total, extra, byStage, byRole, byModel)
  {
    var stages, roles, models;
    stages, roles, models, total := TallyRows(rows);
    extra := Unrecorded(f, total.credits);
    byStage := ShareOut(rows, extra, ByStage, stages);
    byRole := ShareOut(rows, extra, ByRole, roles);
    byModel := ShareOut(rows, extra, ByModel, models);
  }

  /** What the split promises of any passes and rows. */
  ghost predicate Split(m: Money, ss: seq<Session>, rows: seq<Row>, claimed: seq<bool>, f: Feature)
    requires |rows| == |claimed|
  {
    && m.credits == f.credits && m.estimated == f.estimated && m.rowsTotal == RowsTotal(rows, |rows|)
    && m.firstPass == WorkSum(ss, |ss|, First)
    && m.corrected == WorkSum(ss, |ss|, Corrected) && m.reproved == WorkSum(ss, |ss|, Reproved)
    && m.rework == m.corrected + m.reproved
    && m.elsewhere == ChargesTotal(m.charges)
    && BucketTotal(m.byStage) == BucketTotal(m.byRole) == BucketTotal(m.byModel)
    && 0.0 <= Greatest(f.credits, m.rowsTotal.credits) - BucketTotal(m.byStage) <= CRUMB
    && ByRoles(m.elsewhereBy, m.charges)
    && var extra := Excess(f, m.rowsTotal.credits);
       SharesOut(m.byStage, rows, extra, ByStage) && SharesOut(m.byRole, rows, extra, ByRole)
       && SharesOut(m.byModel, rows, extra, ByModel)
  }

  /** Every credit outside the passes is charged, short of a crumb a row and one
      for the counter. */
  ghost predicate Charged(m: Money, ss: seq<Session>, rows: seq<Row>, claimed: seq<bool>, f: Feature)
    requires |rows| == |claimed|
  {
    var outside := UnclaimedSum(rows, claimed, |rows|) - (ReconTotal(ss, |ss|) - Unnetted(ss, rows, claimed))
                 + Floor(f.credits - m.rowsTotal.credits);
    && BucketTotal(m.elsewhereBy) == m.elsewhere
    && 0.0 <= outside - m.elsewhere <= CRUMB * (|rows| + 1) as real
  }

  /** Each charge is one row's, or the counter's excess at the end. */
  ghost predicate Itemized(m: Money, ss: seq<Session>, rows: seq<Row>, claimed: seq<bool>, f: Feature)
    requires |rows| == |claimed|
  {
    var extra := Excess(f, m.rowsTotal.credits);
    exists n, at :: 0 <= n <= |m.charges| && m.charges[n..] == extra && ChargesOf(m.charges[..n], at, ss, rows, claimed, |rows|)
  }

  lemma ItemizedAs(m: Money, ss: seq<Session>, rows: seq<Row>, claimed: seq<bool>, f: Feature,
                   recon0: map<Slot, real>, rowCharges: seq<Charge>)
    requires |rows| == |claimed| && NonNegative(rows) && ReconTable(ss, |ss|, recon0)
    requires forall k :: k in recon0 ==> recon0[k] >= 0.0
    requires rowCharges == RowCharges(rows, claimed, |rows|, recon0).1
    requires m.charges == rowCharges + Excess(f, m.rowsTotal.credits)
    ensures Itemized(m, ss, rows, claimed, f)
  {
    var at := RowChargesAre(ss, rows, claimed, |rows|, recon0);
    var n := |rowCharges|;
    assert m.charges[..n] == rowCharges && m.charges[n..] == Excess(f, m.rowsTotal.credits);
  }

  /** The rows' charges and the counter's excess, and what they come to by role. */
  ghost predicate Outside(rows: seq<Row>, claimed: seq<bool>, recon0: map<Slot, real>, extra: seq<Charge>,
                          charges: seq<Charge>, elsewhere: real, elsewhereBy: seq<Bucket>)
    requires |rows| == |claimed|
  {
    var rowCharges := RowCharges(rows, claimed, |rows|, recon0).1;
    && charges == rowCharges + extra
    && elsewhere == ChargesTotal(rowCharges) + ChargesTotal(extra)
    && (NonNegativeCharges(charges) ==> BucketTotal(elsewhereBy) == elsewhere)
  }

  /** The charges, and what they come to by role. */
  method ChargeOutside(rows: seq<Row>, claimed: seq<bool>, recon0: map<Slot, real>, extra: seq<Charge>)
    returns (charges: seq<Charge>, elsewhere: real, elsewhereBy: seq<Bucket>)
    requires |rows| == |claimed|
    ensures Outside(rows, claimed, recon0, extra, charges, elsewhere, elsewhereBy)
    ensures elsewhere == ChargesTotal(charges) && ByRoles(elsewhereBy, charges)
  {
    var recon, rowCharges := ChargeRows(rows, claimed, recon0);
    charges := rowCharges + extra;
    ChargesConcat(rowCharges, extra);
    var shares;
    elsewhere, shares := TallyCharges(charges);
    elsewhereBy := Buckets(shares);
    BucketsByRole(elsewhereBy, shares, charges);
  }

  lemma OutsideIs(ss: seq<Session>, rows: seq<Row>, claimed: seq<bool>, f: Feature, recon0: map<Slot, real>, extra: seq<Charge>, m: Money)
    requires |rows| == |claimed| && NonNegative(rows) && NonNegativeRecon(ss) && ReconTable(ss, |ss|, recon0)
    requires ItemizedBy(rows, f, m.rowsTotal, extra, m.byStage, m.byRole, m.byModel)
    requires Outside(rows, claimed, recon0, extra, m.charges, m.elsewhere, m.elsewhereBy)
    ensures Charged(m, ss, rows, claimed, f) && Itemized(m, ss, rows, claimed, f)
  {
    var (recon, rowCharges) := RowCharges(rows, claimed, |rows|, recon0);
    BalancesStartAboveZero(ss, recon0);
    RowChargesNet(rows, claimed, |rows|, recon0);
    BothNonNegative(rowCharges, extra);
    OutsideIsCharged(ss, rows, claimed, f, recon0, recon, rowCharges, extra, m);
    ItemizedAs(m, ss, rows, claimed, f, recon0, rowCharges);
  }

  lemma BothNonNegative(a: seq<Charge>, b: seq<Charge>)
    requires NonNegativeCharges(a) && NonNegativeCharges(b)
    ensures NonNegativeCharges(a + b)
  {
  }

  /** The counter's excess and the breakdowns. */
  ghost predicate ItemizedBy(rows: seq<Row>, f: Feature, total: Spend, extra: seq<Charge>,
                             byStage: seq<Bucket>, byRole: seq<Bucket>, byModel: seq<Bucket>)
  {
    && total == RowsTotal(rows, |rows|) && extra == Excess(f, total.credits)
    && NonNegativeCharges(extra) && 0.0 <= Floor(f.credits - total.credits) - ChargesTotal(extra) <= CRUMB
    && SharesOut(byStage, rows, extra, ByStage) && SharesOut(byRole, rows, extra, ByRole)
    && SharesOut(byModel, rows, extra, ByModel)
  }

  lemma SplitIs(m: Money, ss: seq<Session>, rows: seq<Row>, claimed: seq<bool>, f: Feature, extra: seq<Charge>)
    requires |rows| == |claimed| && m.credits == f.credits && m.estimated == f.estimated
    requires m.firstPass == WorkSum(ss, |ss|, First) && m.rework == m.corrected + m.reproved
    requires m.corrected == WorkSum(ss, |ss|, Corrected) && m.reproved == WorkSum(ss, |ss|, Reproved)
    requires ItemizedBy(rows, f, m.rowsTotal, extra, m.byStage, m.byRole, m.byModel)
    requires m.elsewhere == ChargesTotal(m.charges) && ByRoles(m.elsewhereBy, m.charges)
    ensures Split(m, ss, rows, claimed, f)
  {
  }

  method SplitMoney(ss: seq<Session>, rows: seq<Row>, claimed: seq<bool>, f: Feature) returns (m: Money)
    requires |rows| == |claimed|
    ensures Split(m, ss, rows, claimed, f)
    ensures NonNegative(rows) && NonNegativeRecon(ss) ==> Charged(m, ss, rows, claimed, f) && Itemized(m, ss, rows, claimed, f)
  {
    var total, extra, byStage, byRole, byModel := Itemize(rows, f);
    var first, rework, corrected, reproved, recon0 := SplitPasses(ss);
    var charges, elsewhere, elsewhereBy := ChargeOutside(rows, claimed, recon0, extra);
    m := Money(f.credits, f.estimated, first, rework, corrected, reproved, elsewhere, elsewhereBy, charges,
               byStage, byRole, byModel, total);
    SplitIs(m, ss, rows, claimed, f, extra);
    if NonNegative(rows) && NonNegativeRecon(ss) { OutsideIs(ss, rows, claimed, f, recon0, extra, m); }
  }
}
