/** Filing the spend rollup on the passes that spent it
    (internal/cardrun/report.go, attachSpend). */
module SpendFiling {
  import opened Spans
  import opened CardLog
  import opened Passes
  import Decimal

  /** One row of the rollup. */
  datatype Row = Row(stage: string, session: string, role: string, model: string, spent: Spend, updatedAt: Time)

  datatype Slot = Slot(stage: string, role: string)

  function SlotOf(p: Session): Slot { Slot(p.stage, p.role) }

  /** The Unix epoch on the scale of Time. */
  const UNIX_EPOCH: int := 62_135_596_800_000_000_000

  /** The session key a pass's start stamps: its Unix nanoseconds in decimal. */
  function KeyOf(started: Time): (key: string)
    ensures key != ""
  {
    Decimal.FormatInt(started - UNIX_EPOCH)
  }

  lemma KeyOfInjective(a: Time, b: Time)
    ensures KeyOf(a) == KeyOf(b) ==> a == b
  {
    Decimal.FormatIntInjective(a - UNIX_EPOCH, b - UNIX_EPOCH);
  }

  /** A row filed under key belongs to the slot's own stage and role. */
  predicate Matches(r: Row, key: string, slot: Slot) {
    key != "" && r.session == key && r.role == slot.role && r.stage == slot.stage
  }

  /** A list of numbers of the first n rows. */
  predicate RowNumbers(idx: seq<nat>, n: nat) {
    forall a :: 0 <= a < |idx| ==> idx[a] < n
  }

  // ----- Sums over the rollup -----

  lemma PlusZero(a: Spend)
    ensures a.Plus(NO_SPEND) == a
  {
  }

  lemma PlusSwaps(a: Spend, b: Spend, c: Spend)
    ensures a.Plus(b).Plus(c) == a.Plus(c).Plus(b) == a.Plus(b.Plus(c))
  {
  }

  /** The spend of the first n rows that match. */
  function FiledSum(rows: seq<Row>, n: nat, key: string, slot: Slot): Spend
    requires n <= |rows|
  {
    if n == 0 then NO_SPEND
    else if Matches(rows[n - 1], key, slot) then FiledSum(rows, n - 1, key, slot).Plus(rows[n - 1].spent)
    else FiledSum(rows, n - 1, key, slot)
  }

  /** The rows that carry the session key, in the rollup's order. */
  function RowsUnder(rows: seq<Row>, n: nat, key: string): (idx: seq<nat>)
    requires n <= |rows|
    ensures RowNumbers(idx, n)
  {
    if n == 0 then []
    else if key != "" && rows[n - 1].session == key then RowsUnder(rows, n - 1, key) + [n - 1]
    else RowsUnder(rows, n - 1, key)
  }

  /** The same sum, walked down a list of row numbers. */
  function ListedSum(rows: seq<Row>, idx: seq<nat>, slot: Slot): Spend
    requires RowNumbers(idx, |rows|)
  {
    if idx == [] then NO_SPEND
    else
      var rest := ListedSum(rows, idx[..|idx| - 1], slot);
      var r := rows[idx[|idx| - 1]];
      if r.role != slot.role || r.stage != slot.stage then rest else rest.Plus(r.spent)
  }

  lemma ListedSnoc(rows: seq<Row>, idx: seq<nat>, k: nat, slot: Slot)
    requires RowNumbers(idx, |rows|) && k < |rows|
    ensures ListedSum(rows, idx + [k], slot)
         == if rows[k].role != slot.role || rows[k].stage != slot.stage then ListedSum(rows, idx, slot)
            else ListedSum(rows, idx, slot).Plus(rows[k].spent)
  {
    assert (idx + [k])[..|idx|] == idx;
  }

  lemma {:induction false} ListedIsFiled(rows: seq<Row>, n: nat, key: string, slot: Slot)
    requires n <= |rows|
    ensures ListedSum(rows, RowsUnder(rows, n, key), slot) == FiledSum(rows, n, key, slot)
  {
    if n > 0 {
      ListedIsFiled(rows, n - 1, key, slot);
      if key != "" && rows[n - 1].session == key {
        ListedSnoc(rows, RowsUnder(rows, n - 1, key), n - 1, slot);
      }
    }
  }

  // ----- Which key each pass is filed under -----

  /** Some row of the first n carries the key. */
  predicate HasRowIn(rows: seq<Row>, n: nat, key: string)
    requires n <= |rows|
  {
    key != "" && exists i :: 0 <= i < n && rows[i].session == key
  }

  predicate HasRow(rows: seq<Row>, key: string) {
    HasRowIn(rows, |rows|, key)
  }

  /** The pass's own start keys some row. */
  predicate Exact(p: Session, rows: seq<Row>) {
    p.started != NO_TIME && HasRow(rows, KeyOf(p.started))
  }

  /** A key some pass claimed by its start. */
  ghost predicate Taken(ss: seq<Session>, rows: seq<Row>, key: string) {
    exists j :: 0 <= j < |ss| && Exact(ss[j], rows) && KeyOf(ss[j].started) == key
  }

  /** Row numbers in the order of their last sample, ties in rollup order. */
  function StableOrder(rows: seq<Row>, n: nat): (o: seq<nat>)
    requires n <= |rows|
    ensures RowNumbers(o, n)
  {
    if n == 0 then [] else InsertLast(rows, StableOrder(rows, n - 1), n - 1, n)
  }

  function InsertLast(rows: seq<Row>, o: seq<nat>, k: nat, n: nat): (r: seq<nat>)
    requires k < n <= |rows| && RowNumbers(o, n)
    ensures RowNumbers(r, n) && r != []
    ensures r[|r| - 1] == if o == [] || rows[o[|o| - 1]].updatedAt <= rows[k].updatedAt then k else o[|o| - 1]
  {
    if o == [] || rows[o[|o| - 1]].updatedAt <= rows[k].updatedAt then o + [k]
    else InsertLast(rows, o[..|o| - 1], k, n) + [o[|o| - 1]]
  }

  predicate EarlierRow(rows: seq<Row>, a: nat, b: nat)
    requires a < |rows| && b < |rows|
  {
    rows[a].updatedAt < rows[b].updatedAt || (rows[a].updatedAt == rows[b].updatedAt && a < b)
  }

  predicate InSampleOrder(rows: seq<Row>, o: seq<nat>) {
    && RowNumbers(o, |rows|)
    && (forall a, b :: 0 <= a < b < |o| ==> EarlierRow(rows, o[a], o[b]))
  }

  lemma SnocInOrder(rows: seq<Row>, o: seq<nat>, x: nat, r: seq<nat>)
    requires InSampleOrder(rows, o) && x < |rows| && r == o + [x]
    requires o != [] ==> EarlierRow(rows, o[|o| - 1], x)
    ensures InSampleOrder(rows, r)
  {
    forall a | 0 <= a < |o| ensures EarlierRow(rows, o[a], x) {
      assert a < |o| - 1 ==> EarlierRow(rows, o[a], o[|o| - 1]);
    }
  }

  lemma InitInOrder(rows: seq<Row>, o: seq<nat>, n: nat, init: seq<nat>)
    requires InSampleOrder(rows, o) && RowNumbers(o, n) && o != [] && init == o[..|o| - 1]
    ensures InSampleOrder(rows, init) && RowNumbers(init, n)
    ensures init != [] ==> EarlierRow(rows, init[|init| - 1], o[|o| - 1])
  {
  }

  lemma {:induction false} InsertLastInOrder(rows: seq<Row>, o: seq<nat>, k: nat, next: seq<nat>)
    requires k < |rows| && InSampleOrder(rows, o) && RowNumbers(o, k) && next == InsertLast(rows, o, k, k + 1)
    ensures InSampleOrder(rows, next)
  {
    if o == [] || rows[o[|o| - 1]].updatedAt <= rows[k].updatedAt {
      SnocInOrder(rows, o, k, next);
    } else {
      var init, last := o[..|o| - 1], o[|o| - 1];
      InitInOrder(rows, o, k, init);
      var r := InsertLast(rows, init, k, k + 1);
      InsertLastInOrder(rows, init, k, r);
      SnocInOrder(rows, r, last, next);
    }
  }

  lemma {:induction false} InsertLastLists(rows: seq<Row>, o: seq<nat>, k: nat, n: nat, i: nat, next: seq<nat>)
    requires k < n <= |rows| && RowNumbers(o, n) && next == InsertLast(rows, o, k, n)
    ensures i in next <==> i in o || i == k
  {
    if o == [] || rows[o[|o| - 1]].updatedAt <= rows[k].updatedAt {
      assert next == o + [k];
    } else {
      var init, last := o[..|o| - 1], o[|o| - 1];
      assert o == init + [last];
      InsertLastLists(rows, init, k, n, i, InsertLast(rows, init, k, n));
      assert next == InsertLast(rows, init, k, n) + [last];
    }
  }

  /** Rows come in the order of their last sample, ties in the rollup's order. */
  lemma {:induction false} StableOrderSorts(rows: seq<Row>, n: nat)
    requires n <= |rows|
    ensures InSampleOrder(rows, StableOrder(rows, n))
  {
    if n == 0 {
      assert StableOrder(rows, 0) == [];
    } else {
      StableOrderSorts(rows, n - 1);
      InsertLastInOrder(rows, StableOrder(rows, n - 1), n - 1, StableOrder(rows, n));
    }
  }

  /** Every row is listed; the strict order above lists none twice. */
  lemma {:induction false} StableOrderListsAll(rows: seq<Row>, n: nat, i: nat)
    requires n <= |rows|
    ensures i in StableOrder(rows, n) <==> i < n
  {
    if n == 0 {
      assert StableOrder(rows, 0) == [];
    } else {
      StableOrderListsAll(rows, n - 1, i);
      InsertLastLists(rows, StableOrder(rows, n - 1), n - 1, n, i, StableOrder(rows, n));
    }
  }

  /** The keys of a slot that no pass claimed by its start, each once, in the
      order the first m listed rows wrote them. */
  ghost function SlotKeys(ss: seq<Session>, rows: seq<Row>, o: seq<nat>, m: nat, slot: Slot): seq<string>
    requires m <= |o| && RowNumbers(o, |rows|)
  {
    if m == 0 then []
    else
      var before := SlotKeys(ss, rows, o, m - 1, slot);
      var r := rows[o[m - 1]];
      if r.session == "" || Taken(ss, rows, r.session) || Slot(r.stage, r.role) != slot || r.session in before then before
      else before + [r.session]
  }

  predicate Distinct(ks: seq<string>) {
    forall a, b :: 0 <= a < b < |ks| ==> ks[a] != ks[b]
  }

  ghost predicate AllUnclaimed(ss: seq<Session>, rows: seq<Row>, ks: seq<string>) {
    forall a :: 0 <= a < |ks| ==> HasRow(rows, ks[a]) && !Taken(ss, rows, ks[a])
  }

  lemma {:induction false} SlotKeysMeaning(ss: seq<Session>, rows: seq<Row>, o: seq<nat>, m: nat, slot: Slot)
    requires m <= |o| && RowNumbers(o, |rows|)
    ensures Distinct(SlotKeys(ss, rows, o, m, slot))
    ensures AllUnclaimed(ss, rows, SlotKeys(ss, rows, o, m, slot))
  {
    if m > 0 {
      SlotKeysMeaning(ss, rows, o, m - 1, slot);
      assert rows[o[m - 1]].session != "" ==> HasRow(rows, rows[o[m - 1]].session);
    }
  }

  /** How many passes of the slot before j were not filed by their start. */
  function Rank(ss: seq<Session>, rows: seq<Row>, j: nat, slot: Slot): nat
    requires j <= |ss|
  {
    if j == 0 then 0
    else Rank(ss, rows, j - 1, slot) + (if !Exact(ss[j - 1], rows) && SlotOf(ss[j - 1]) == slot then 1 else 0)
  }

  ghost function KeysOf(ss: seq<Session>, rows: seq<Row>, slot: Slot): seq<string> {
    var o := StableOrder(rows, |rows|);
    SlotKeys(ss, rows, o, |o|, slot)
  }

  /** The fallback's keys are distinct, keyed rows' own, and nobody's start. */
  lemma KeysOfMeaning(ss: seq<Session>, rows: seq<Row>, slot: Slot)
    ensures Distinct(KeysOf(ss, rows, slot)) && AllUnclaimed(ss, rows, KeysOf(ss, rows, slot))
  {
    SlotKeysMeaning(ss, rows, StableOrder(rows, |rows|), |StableOrder(rows, |rows|)|, slot);
  }

  /** The key pass j is filed under: its own start's when that keys a row, else
      the slot's next unclaimed key, else none. */
  ghost function AssignedKey(ss: seq<Session>, rows: seq<Row>, j: nat): string
    requires j < |ss|
  {
    if Exact(ss[j], rows) then KeyOf(ss[j].started)
    else
      var ks := KeysOf(ss, rows, SlotOf(ss[j]));
      var n := Rank(ss, rows, j, SlotOf(ss[j]));
      if n < |ks| then ks[n] else ""
  }

  // ----- The same off the rows -----

  /** A key the fallback may file under in the slot: some row of the slot carries
      it, and no pass's start claimed it. */
  ghost predicate Candidate(ss: seq<Session>, rows: seq<Row>, slot: Slot, key: string) {
    !Taken(ss, rows, key) && exists i :: 0 <= i < |rows| && Matches(rows[i], key, slot)
  }

  /** Row i comes before every row of the slot that carries the key. */
  predicate BeforeAll(rows: seq<Row>, slot: Slot, i: nat, key: string)
    requires i < |rows|
  {
    forall j: nat :: j < |rows| && Matches(rows[j], key, slot) ==> EarlierRow(rows, i, j)
  }

  /** The slot's first row with key a comes before its first with key b. */
  predicate FirstBefore(rows: seq<Row>, slot: Slot, a: string, b: string) {
    exists i: nat :: i < |rows| && Matches(rows[i], a, slot) && BeforeAll(rows, slot, i, b)
  }

  /** One of the first m listed rows carries the key in the slot. */
  predicate SeenBy(rows: seq<Row>, o: seq<nat>, m: nat, slot: Slot, key: string)
    requires m <= |o| && RowNumbers(o, |rows|)
  {
    exists p :: 0 <= p < m && Matches(rows[o[p]], key, slot)
  }

  lemma SeenNext(rows: seq<Row>, o: seq<nat>, m: nat, slot: Slot, key: string)
    requires m < |o| && RowNumbers(o, |rows|)
    ensures SeenBy(rows, o, m + 1, slot, key) <==> SeenBy(rows, o, m, slot, key) || Matches(rows[o[m]], key, slot)
  {
  }

  lemma {:induction false} SlotKeysSeen(ss: seq<Session>, rows: seq<Row>, o: seq<nat>, m: nat, slot: Slot, key: string)
    requires m <= |o| && RowNumbers(o, |rows|)
    ensures key in SlotKeys(ss, rows, o, m, slot) <==> !Taken(ss, rows, key) && SeenBy(rows, o, m, slot, key)
  {
    if m > 0 {
      SlotKeysSeen(ss, rows, o, m - 1, slot, key);
      SeenNext(rows, o, m - 1, slot, key);
    }
  }

  /** Some listed row carries key a with none of key b up to it. */
  predicate SeenFirst(rows: seq<Row>, o: seq<nat>, m: nat, slot: Slot, a: string, b: string)
    requires m <= |o| && RowNumbers(o, |rows|)
  {
    exists p :: 0 <= p < m && Matches(rows[o[p]], a, slot) && !SeenBy(rows, o, p + 1, slot, b)
  }

  lemma {:induction false} SlotKeysInOrder(ss: seq<Session>, rows: seq<Row>, o: seq<nat>, m: nat, slot: Slot, a: nat, b: nat)
    requires m <= |o| && RowNumbers(o, |rows|) && a < b < |SlotKeys(ss, rows, o, m, slot)|
    ensures var ks := SlotKeys(ss, rows, o, m, slot); SeenFirst(rows, o, m, slot, ks[a], ks[b])
  {
    var ks, before := SlotKeys(ss, rows, o, m, slot), SlotKeys(ss, rows, o, m - 1, slot);
    if b < |before| {
      SlotKeysInOrder(ss, rows, o, m - 1, slot, a, b);
    } else {
      SlotKeysSeen(ss, rows, o, m - 1, slot, ks[a]);
      SlotKeysSeen(ss, rows, o, m - 1, slot, ks[b]);
      assert ks[a] == before[a];
      LastSeen(rows, o, m, slot, ks[a], ks[b]);
    }
  }

  lemma LastSeen(rows: seq<Row>, o: seq<nat>, m: nat, slot: Slot, a: string, b: string)
    requires 0 < m <= |o| && RowNumbers(o, |rows|)
    requires SeenBy(rows, o, m - 1, slot, a) && !SeenBy(rows, o, m - 1, slot, b)
    ensures SeenFirst(rows, o, m, slot, a, b)
  {
    var p :| 0 <= p < m - 1 && Matches(rows[o[p]], a, slot);
    assert !SeenBy(rows, o, p + 1, slot, b);
  }

  lemma SeenInRows(rows: seq<Row>, slot: Slot, key: string)
    ensures var o := StableOrder(rows, |rows|);
            SeenBy(rows, o, |o|, slot, key) <==> exists i :: 0 <= i < |rows| && Matches(rows[i], key, slot)
  {
    var o := StableOrder(rows, |rows|);
    if i :| 0 <= i < |rows| && Matches(rows[i], key, slot) {
      StableOrderListsAll(rows, |rows|, i);
      var p :| 0 <= p < |o| && o[p] == i;
    }
  }

  lemma FirstInRows(rows: seq<Row>, slot: Slot, a: string, b: string)
    requires var o := StableOrder(rows, |rows|); SeenFirst(rows, o, |o|, slot, a, b)
    ensures FirstBefore(rows, slot, a, b)
  {
    var o := StableOrder(rows, |rows|);
    StableOrderSorts(rows, |rows|);
    var p :| 0 <= p < |o| && Matches(rows[o[p]], a, slot) && !SeenBy(rows, o, p + 1, slot, b);
    forall j: nat | j < |rows| && Matches(rows[j], b, slot) ensures EarlierRow(rows, o[p], j) {
      StableOrderListsAll(rows, |rows|, j);
      var q :| 0 <= q < |o| && o[q] == j;
      assert q > p;
    }
    assert BeforeAll(rows, slot, o[p], b);
  }

  /** The keys left to the fallback in a slot are exactly its candidates. */
  lemma KeysAreCandidates(ss: seq<Session>, rows: seq<Row>, slot: Slot, key: string)
    ensures key in KeysOf(ss, rows, slot) <==> Candidate(ss, rows, slot, key)
  {
    var o := StableOrder(rows, |rows|);
    SlotKeysSeen(ss, rows, o, |o|, slot, key);
    SeenInRows(rows, slot, key);
  }

  /** Of two of them the earlier is the one whose first row in the slot was
      sampled first, ties in the rollup's order. */
  lemma KeysInOrder(ss: seq<Session>, rows: seq<Row>, slot: Slot, a: nat, b: nat)
    requires a < b < |KeysOf(ss, rows, slot)|
    ensures FirstBefore(rows, slot, KeysOf(ss, rows, slot)[a], KeysOf(ss, rows, slot)[b])
  {
    var o := StableOrder(rows, |rows|);
    SlotKeysInOrder(ss, rows, o, |o|, slot, a, b);
    FirstInRows(rows, slot, KeysOf(ss, rows, slot)[a], KeysOf(ss, rows, slot)[b]);
  }

  lemma FirstBeforeAsymmetric(rows: seq<Row>, slot: Slot, a: string, b: string)
    requires FirstBefore(rows, slot, a, b)
    ensures !FirstBefore(rows, slot, b, a)
  {
    var i: nat :| i < |rows| && Matches(rows[i], a, slot) && BeforeAll(rows, slot, i, b);
    forall j: nat | j < |rows| && Matches(rows[j], b, slot) ensures !BeforeAll(rows, slot, j, a) {
      assert EarlierRow(rows, i, j);
    }
  }

  /** The slot's candidates. */
  ghost function Candidates(ss: seq<Session>, rows: seq<Row>, slot: Slot): set<string> {
    set i: nat | i < |rows| && Candidate(ss, rows, slot, rows[i].session) :: rows[i].session
  }

  /** Those whose first row comes before the key's. */
  ghost function CandidatesBefore(ss: seq<Session>, rows: seq<Row>, slot: Slot, key: string): set<string> {
    set k | k in Candidates(ss, rows, slot) && FirstBefore(rows, slot, k, key)
  }

  /** The passes of the slot before j that no row is keyed by the start of. */
  function Waiting(ss: seq<Session>, rows: seq<Row>, j: nat, slot: Slot): set<nat>
    requires j <= |ss|
  {
    set k: nat | k < j && !Exact(ss[k], rows) && SlotOf(ss[k]) == slot
  }

  lemma {:induction false} RankCounts(ss: seq<Session>, rows: seq<Row>, j: nat, slot: Slot)
    requires j <= |ss|
    ensures Rank(ss, rows, j, slot) == |Waiting(ss, rows, j, slot)|
  {
    if j == 0 {
      assert Waiting(ss, rows, j, slot) == {};
    } else {
      RankCounts(ss, rows, j - 1, slot);
      var before := Waiting(ss, rows, j - 1, slot);
      assert Waiting(ss, rows, j, slot) == if !Exact(ss[j - 1], rows) && SlotOf(ss[j - 1]) == slot then before + {j - 1} else before;
    }
  }

  function Members(ks: seq<string>): set<string> { set k | k in ks }

  lemma {:induction false} DistinctCount(ks: seq<string>, n: nat)
    requires Distinct(ks) && n <= |ks|
    ensures |Members(ks[..n])| == n
  {
    if n == 0 {
      assert Members(ks[..0]) == {};
    } else {
      DistinctCount(ks, n - 1);
      assert ks[..n] == ks[..n - 1] + [ks[n - 1]];
      assert Members(ks[..n]) == Members(ks[..n - 1]) + {ks[n - 1]};
    }
  }

  lemma CandidatesListed(ss: seq<Session>, rows: seq<Row>, slot: Slot, k: string)
    ensures k in Candidates(ss, rows, slot) <==> k in KeysOf(ss, rows, slot)
  {
    KeysAreCandidates(ss, rows, slot, k);
    if i :| 0 <= i < |rows| && Matches(rows[i], k, slot) { assert rows[i].session == k; }
  }

  lemma BeforeIsPrefix(ss: seq<Session>, rows: seq<Row>, slot: Slot, n: nat, k: string)
    requires n < |KeysOf(ss, rows, slot)|
    ensures var ks := KeysOf(ss, rows, slot); k in CandidatesBefore(ss, rows, slot, ks[n]) <==> k in ks[..n]
  {
    var ks := KeysOf(ss, rows, slot);
    CandidatesListed(ss, rows, slot, k);
    if k in ks {
      var a: nat :| a < |ks| && ks[a] == k;
      if a < n {
        KeysInOrder(ss, rows, slot, a, n);
      } else {
        NotBefore(ss, rows, slot, n, a);
        KeysOfMeaning(ss, rows, slot);
      }
    }
  }

  lemma NotBefore(ss: seq<Session>, rows: seq<Row>, slot: Slot, n: nat, a: nat)
    requires n <= a < |KeysOf(ss, rows, slot)|
    ensures !FirstBefore(rows, slot, KeysOf(ss, rows, slot)[a], KeysOf(ss, rows, slot)[n])
  {
    var ks := KeysOf(ss, rows, slot);
    if a == n {
      if FirstBefore(rows, slot, ks[n], ks[n]) { FirstBeforeAsymmetric(rows, slot, ks[n], ks[n]); }
    } else {
      KeysInOrder(ss, rows, slot, n, a);
      FirstBeforeAsymmetric(rows, slot, ks[n], ks[a]);
    }
  }

  /** The n-th pass of a slot that its start did not key is filed under the
      candidate with n others before it, and under none when there are no more
      than n. */
  lemma {:induction false} FiledInTurn(ss: seq<Session>, rows: seq<Row>, j: nat)
    requires j < |ss| && !Exact(ss[j], rows)
    ensures var slot, key := SlotOf(ss[j]), AssignedKey(ss, rows, j);
            var n := |Waiting(ss, rows, j, slot)|;
            && (key == "" <==> |Candidates(ss, rows, slot)| <= n)
            && (key != "" ==> key in Candidates(ss, rows, slot) && |CandidatesBefore(ss, rows, slot, key)| == n)
  {
    var slot := SlotOf(ss[j]);
    var ks, n := KeysOf(ss, rows, slot), Rank(ss, rows, j, slot);
    RankCounts(ss, rows, j, slot);
    KeysOfMeaning(ss, rows, slot);
    forall k ensures k in Candidates(ss, rows, slot) <==> k in Members(ks) { CandidatesListed(ss, rows, slot, k); }
    assert ks[..|ks|] == ks;
    DistinctCount(ks, |ks|);
    assert Candidates(ss, rows, slot) == Members(ks);
    if n < |ks| {
      forall k ensures k in CandidatesBefore(ss, rows, slot, ks[n]) <==> k in Members(ks[..n]) { BeforeIsPrefix(ss, rows, slot, n, k); }
      DistinctCount(ks, n);
      assert CandidatesBefore(ss, rows, slot, ks[n]) == Members(ks[..n]);
      assert HasRow(rows, ks[n]);
    }
  }

  ghost predicate FiledOn(ss: seq<Session>, rows: seq<Row>, j: nat, i: nat)
    requires j < |ss| && i < |rows|
  {
    Matches(rows[i], AssignedKey(ss, rows, j), SlotOf(ss[j]))
  }

  /** Pass j once the rollup is filed. */
  ghost function Settled(ss: seq<Session>, rows: seq<Row>, j: nat): Session
    requires j < |ss|
  {
    var p, key := ss[j], AssignedKey(ss, rows, j);
    if key != "" then Filed(p, key, rows)
    else if p.exitCredits > 0.0 then p.(spent := p.spent.(credits := p.exitCredits), reconstructed := true)
    else p
  }

  // ----- The filing -----

  ghost predicate Grouped(rows: seq<Row>, n: nat, byKey: map<string, seq<nat>>) {
    && n <= |rows|
    && (forall k :: k in byKey <==> HasRowIn(rows, n, k))
    && (forall k :: k in byKey ==> byKey[k] == RowsUnder(rows, n, k))
  }

  function GroupInto(byKey: map<string, seq<nat>>, key: string, i: nat): map<string, seq<nat>> {
    byKey[key := (if key in byKey then byKey[key] else []) + [i]]
  }

  /** The grouping of the first n rows. */
  function GroupOf(rows: seq<Row>, n: nat): map<string, seq<nat>>
    requires n <= |rows|
  {
    if n == 0 then map[]
    else if rows[n - 1].session == "" then GroupOf(rows, n - 1)
    else GroupInto(GroupOf(rows, n - 1), rows[n - 1].session, n - 1)
  }

  lemma {:induction false} GroupOfMeaning(rows: seq<Row>, n: nat)
    requires n <= |rows|
    ensures Grouped(rows, n, GroupOf(rows, n))
  {
    if n > 0 {
      GroupOfMeaning(rows, n - 1);
      GroupedNext(rows, n - 1, n, GroupOf(rows, n - 1));
    }
  }

  lemma GroupedNext(rows: seq<Row>, i: nat, n: nat, byKey: map<string, seq<nat>>)
    requires n == i + 1 <= |rows| && byKey == GroupOf(rows, i) && Grouped(rows, i, byKey)
    ensures Grouped(rows, n, GroupOf(rows, n))
  {
    GroupedGrows(rows, i, byKey);
  }

  method GroupByKey(rows: seq<Row>) returns (byKey: map<string, seq<nat>>)
    ensures byKey == GroupOf(rows, |rows|) && Grouped(rows, |rows|, byKey)
  {
    byKey := map[];
    var i := 0;
    while i < |rows|
      invariant 0 <= i <= |rows|
      invariant byKey == GroupOf(rows, i)
    {
      var key := rows[i].session;
      if key != "" {
        byKey := byKey[key := (if key in byKey then byKey[key] else []) + [i]];
      }
      i := i + 1;
    }
    GroupOfMeaning(rows, |rows|);
  }

  lemma GroupedGrows(rows: seq<Row>, i: nat, byKey: map<string, seq<nat>>)
    requires Grouped(rows, i, byKey) && i < |rows|
    ensures var s := rows[i].session;
            Grouped(rows, i + 1, if s == "" then byKey else GroupInto(byKey, s, i))
  {
    var s := rows[i].session;
    var after := if s == "" then byKey else GroupInto(byKey, s, i);
    forall k ensures (k in after <==> HasRowIn(rows, i + 1, k)) && (k in after ==> after[k] == RowsUnder(rows, i + 1, k)) {
      GroupedAt(rows, i, byKey, k);
    }
  }

  lemma GroupedAt(rows: seq<Row>, i: nat, byKey: map<string, seq<nat>>, k: string)
    requires i < |rows| && (k in byKey <==> HasRowIn(rows, i, k)) && (k in byKey ==> byKey[k] == RowsUnder(rows, i, k))
    ensures var s := rows[i].session;
            var after := if s == "" then byKey else GroupInto(byKey, s, i);
            (k in after <==> HasRowIn(rows, i + 1, k)) && (k in after ==> after[k] == RowsUnder(rows, i + 1, k))
  {
    HasRowSnoc(rows, i, k);
    if k == rows[i].session && k != "" && k !in byKey { NoRowsUnder(rows, i, k); }
  }

  lemma HasRowSnoc(rows: seq<Row>, i: nat, k: string)
    requires i < |rows|
    ensures HasRowIn(rows, i + 1, k) <==> HasRowIn(rows, i, k) || (k != "" && rows[i].session == k)
  {
  }

  lemma {:induction false} NoRowsUnder(rows: seq<Row>, n: nat, key: string)
    requires n <= |rows| && !HasRowIn(rows, n, key) && key != ""
    ensures RowsUnder(rows, n, key) == []
  {
    if n > 0 {
      HasRowSnoc(rows, n - 1, key);
      NoRowsUnder(rows, n - 1, key);
    }
  }

  /** The claim marks once the listed rows of the slot are marked. */
  function Claim(marks: seq<bool>, rows: seq<Row>, idx: seq<nat>, slot: Slot): (r: seq<bool>)
    requires |marks| == |rows| && RowNumbers(idx, |rows|)
    ensures |r| == |rows|
  {
    if idx == [] then marks
    else
      var before, i := Claim(marks, rows, idx[..|idx| - 1], slot), idx[|idx| - 1];
      if rows[i].role == slot.role && rows[i].stage == slot.stage then before[i := true] else before
  }

  lemma ClaimSnoc(marks: seq<bool>, rows: seq<Row>, idx: seq<nat>, k: nat, slot: Slot)
    requires |marks| == |rows| && RowNumbers(idx, |rows|) && k < |rows|
    ensures Claim(marks, rows, idx + [k], slot)
         == if rows[k].role == slot.role && rows[k].stage == slot.stage then Claim(marks, rows, idx, slot)[k := true]
            else Claim(marks, rows, idx, slot)
  {
    assert (idx + [k])[..|idx|] == idx;
  }

  lemma {:induction false} ClaimIs(marks: seq<bool>, rows: seq<Row>, idx: seq<nat>, slot: Slot, i: nat)
    requires |marks| == |rows| && RowNumbers(idx, |rows|) && i < |rows|
    ensures Claim(marks, rows, idx, slot)[i] == (marks[i] || (i in idx && rows[i].role == slot.role && rows[i].stage == slot.stage))
  {
    if idx != [] {
      var init, k := idx[..|idx| - 1], idx[|idx| - 1];
      ClaimIs(marks, rows, init, slot, i);
      assert i in idx <==> i in init || i == k;
    }
  }

  lemma {:induction false} ListedUnder(rows: seq<Row>, n: nat, key: string, i: nat)
    requires n <= |rows| && i < |rows|
    ensures i in RowsUnder(rows, n, key) <==> i < n && key != "" && rows[i].session == key
  {
    if n > 0 {
      ListedUnder(rows, n - 1, key, i);
      var rest := RowsUnder(rows, n - 1, key);
      assert i in rest + [n - 1] <==> i in rest || i == n - 1;
    }
  }

  lemma ClaimMeaning(marks: seq<bool>, rows: seq<Row>, n: nat, key: string, slot: Slot, i: nat)
    requires |marks| == |rows| && n <= |rows| && i < |rows| && key != ""
    ensures Claim(marks, rows, RowsUnder(rows, n, key), slot)[i] == (marks[i] || (i < n && Matches(rows[i], key, slot)))
  {
    ClaimIs(marks, rows, RowsUnder(rows, n, key), slot, i);
    ListedUnder(rows, n, key, i);
  }

  function Filed(p: Session, key: string, rows: seq<Row>): Session {
    p.(key := key, spent := p.spent.Plus(FiledSum(rows, |rows|, key, SlotOf(p))))
  }

  function FiledSoFar(p: Session, key: string, rows: seq<Row>, idx: seq<nat>): Session
    requires RowNumbers(idx, |rows|)
  {
    p.(key := key, spent := p.spent.Plus(ListedSum(rows, idx, SlotOf(p))))
  }

  method FileOne(p: Session, key: string, rows: seq<Row>, idx: seq<nat>, n: nat, q: Session, claimed: array<bool>, ghost marks: seq<bool>)
    returns (next: Session)
    requires claimed.Length == |rows| == |marks| && RowNumbers(idx, |rows|) && n < |idx|
    requires q == FiledSoFar(p, key, rows, idx[..n]) && claimed[..] == Claim(marks, rows, idx[..n], SlotOf(p))
    modifies claimed
    ensures next == FiledSoFar(p, key, rows, idx[..n + 1])
    ensures claimed[..] == Claim(marks, rows, idx[..n + 1], SlotOf(p))
  {
    var r := rows[idx[n]];
    assert idx[..n + 1] == idx[..n] + [idx[n]];
    ListedSnoc(rows, idx[..n], idx[n], SlotOf(p));
    ClaimSnoc(marks, rows, idx[..n], idx[n], SlotOf(p));
    next := q;
    if r.role == q.role && r.stage == q.stage {
      claimed[idx[n]] := true;
      PlusSwaps(p.spent, ListedSum(rows, idx[..n], SlotOf(p)), r.spent);
      next := q.(spent := q.spent.Plus(r.spent));
    }
  }

  lemma FiledAtEnd(p: Session, key: string, rows: seq<Row>, idx: seq<nat>)
    requires idx == RowsUnder(rows, |rows|, key) && key != ""
    ensures FiledSoFar(p, key, rows, idx) == Filed(p, key, rows)
  {
    ListedIsFiled(rows, |rows|, key, SlotOf(p));
  }

  /** File the rows under key on the pass p. */
  method File(p: Session, key: string, rows: seq<Row>, idx: seq<nat>, claimed: array<bool>) returns (q: Session)
    requires claimed.Length == |rows| && idx == RowsUnder(rows, |rows|, key) && key != ""
    modifies claimed
    ensures q == Filed(p, key, rows)
    ensures forall i :: 0 <= i < |rows| ==> claimed[i] == (old(claimed[i]) || Matches(rows[i], key, SlotOf(p)))
  {
    ghost var marks := claimed[..];
    q := p.(key := key);
    PlusZero(p.spent);
    var n := 0;
    while n < |idx|
      invariant 0 <= n <= |idx|
      invariant q == FiledSoFar(p, key, rows, idx[..n])
      invariant claimed[..] == Claim(marks, rows, idx[..n], SlotOf(p))
    {
      q := FileOne(p, key, rows, idx, n, q, claimed, marks);
      n := n + 1;
    }
    assert idx[..|idx|] == idx;
    FiledAtEnd(p, key, rows, idx);
    forall i | 0 <= i < |rows| ensures claimed[i] == (marks[i] || Matches(rows[i], key, SlotOf(p))) {
      ClaimMeaning(marks, rows, |rows|, key, SlotOf(p), i);
      assert claimed[i] == claimed[..][i];
    }
  }

  ghost predicate FiledByDone(was: seq<Session>, rows: seq<Row>, done: seq<bool>, i: nat)
    requires |done| == |was| && i < |rows|
  {
    exists j :: 0 <= j < |was| && done[j] && FiledOn(was, rows, j, i)
  }

  /** Where the filing stands when the passes marked done are settled. */
  ghost predicate Filing(was: seq<Session>, now: seq<Session>, rows: seq<Row>, claimed: seq<bool>, done: seq<bool>) {
    && |now| == |was| == |done| && |claimed| == |rows|
    && (forall j :: 0 <= j < |was| ==> now[j] == if done[j] then Settled(was, rows, j) else was[j])
    && (forall i :: 0 <= i < |rows| ==> (claimed[i] <==> FiledByDone(was, rows, done, i)))
  }

  lemma FilingGrows(was: seq<Session>, before: seq<Session>, now: seq<Session>, rows: seq<Row>,
                    claimedBefore: seq<bool>, claimed: seq<bool>, done: seq<bool>, at: nat)
    requires Filing(was, before, rows, claimedBefore, done) && at < |was| && !done[at]
    requires now == before[at := Settled(was, rows, at)]
    requires |claimed| == |rows|
    requires forall i :: 0 <= i < |rows| ==> claimed[i] == (claimedBefore[i] || FiledOn(was, rows, at, i))
    ensures Filing(was, now, rows, claimed, done[at := true])
  {
    forall i | 0 <= i < |rows| ensures claimed[i] <==> FiledByDone(was, rows, done[at := true], i) {
      FiledNow(was, rows, done, at, i);
    }
  }

  lemma FiledNow(was: seq<Session>, rows: seq<Row>, done: seq<bool>, at: nat, i: nat)
    requires |done| == |was| && at < |was| && i < |rows|
    ensures FiledByDone(was, rows, done[at := true], i) <==> FiledByDone(was, rows, done, i) || FiledOn(was, rows, at, i)
  {
    var now := done[at := true];
    if FiledOn(was, rows, at, i) { assert now[at]; }
    if FiledByDone(was, rows, done, i) {
      var j :| 0 <= j < |was| && done[j] && FiledOn(was, rows, j, i);
      assert now[j];
    }
  }

  /** The slot keys listed after n rows, and the pairs seen. */
  ghost predicate Listing(ss: seq<Session>, rows: seq<Row>, o: seq<nat>, n: nat, keys: map<Slot, seq<string>>, seen: set<(Slot, string)>)
    requires n <= |o| && RowNumbers(o, |rows|)
  {
    && (forall s :: (if s in keys then keys[s] else []) == SlotKeys(ss, rows, o, n, s))
    && (forall s, k :: (s, k) in seen <==> k in SlotKeys(ss, rows, o, n, s))
  }

  /** List one row's key under its slot, unless claimed or listed already. */
  method ListKey(rows: seq<Row>, o: seq<nat>, n: nat, taken: set<string>, keys: map<Slot, seq<string>>,
                 seen: set<(Slot, string)>, ghost ss: seq<Session>)
    returns (keys': map<Slot, seq<string>>, seen': set<(Slot, string)>)
    requires n < |o| && RowNumbers(o, |rows|) && Listing(ss, rows, o, n, keys, seen)
    requires forall k :: k in taken <==> Taken(ss, rows, k)
    ensures Listing(ss, rows, o, n + 1, keys', seen')
  {
    keys', seen' := keys, seen;
    var r := rows[o[n]];
    if r.session != "" && r.session !in taken {
      var s := Slot(r.stage, r.role);
      if (s, r.session) !in seen {
        seen' := seen + {(s, r.session)};
        keys' := keys[s := (if s in keys then keys[s] else []) + [r.session]];
      }
    }
  }

  /** The keys left to the fallback, per slot. */
  method UnclaimedKeys(rows: seq<Row>, o: seq<nat>, taken: set<string>, ghost ss: seq<Session>)
    returns (keys: map<Slot, seq<string>>)
    requires RowNumbers(o, |rows|)
    requires forall k :: k in taken <==> Taken(ss, rows, k)
    ensures forall s :: (if s in keys then keys[s] else []) == SlotKeys(ss, rows, o, |o|, s)
  {
    keys := map[];
    var seen: set<(Slot, string)> := {};
    var n := 0;
    while n < |o|
      invariant 0 <= n <= |o|
      invariant Listing(ss, rows, o, n, keys, seen)
    {
      keys, seen := ListKey(rows, o, n, taken, keys, seen, ss);
      n := n + 1;
    }
  }

  predicate Unfiled(ss: seq<Session>) {
    forall j :: 0 <= j < |ss| ==> ss[j].key == "" && ss[j].spent == NO_SPEND && !ss[j].reconstructed
  }

  /** File one pass under its own start, when that keys a row. */
  method FileOwnKey(sess: array<Session>, i: nat, rows: seq<Row>, byKey: map<string, seq<nat>>, claimed: array<bool>,
                    ghost was: seq<Session>)
    returns (filed: bool, key: string)
    requires i < sess.Length == |was| && sess[i] == was[i] && claimed.Length == |rows|
    requires Grouped(rows, |rows|, byKey)
    modifies sess, claimed
    ensures filed == Exact(was[i], rows) && (filed ==> key == KeyOf(was[i].started))
    ensures sess[..] == if filed then old(sess[..])[i := Settled(was, rows, i)] else old(sess[..])
    ensures forall r :: 0 <= r < |rows| ==> claimed[r] == (old(claimed[r]) || (filed && FiledOn(was, rows, i, r)))
  {
    key := if sess[i].started == NO_TIME then "" else KeyOf(sess[i].started);
    filed := key in byKey;
    if filed {
      var p := File(sess[i], key, rows, byKey[key], claimed);
      sess[i] := p;
    }
  }

  /** Where the first claim stands after i passes. */
  ghost predicate ExactSoFar(was: seq<Session>, rows: seq<Row>, i: nat, exact: seq<bool>, taken: set<string>, done: seq<bool>) {
    && i <= |was| == |done| && |exact| == i
    && (forall j :: 0 <= j < i ==> exact[j] == Exact(was[j], rows))
    && (forall j :: 0 <= j < |was| ==> done[j] == (j < i && exact[j]))
    && (forall k :: k in taken <==> Taken(was[..i], rows, k))
  }

  lemma ExactOneMore(was: seq<Session>, rows: seq<Row>, i: nat, exact: seq<bool>, taken: set<string>, done: seq<bool>)
    requires ExactSoFar(was, rows, i, exact, taken, done) && i < |was|
    ensures var hit := Exact(was[i], rows);
            ExactSoFar(was, rows, i + 1, exact + [hit], if hit then taken + {KeyOf(was[i].started)} else taken,
                       if hit then done[i := true] else done)
  {
    TakenSnoc(was, rows, i);
  }

  /** The passes filed under their own start. */
  method FileExact(sess: array<Session>, rows: seq<Row>, byKey: map<string, seq<nat>>, claimed: array<bool>)
    returns (exact: seq<bool>, taken: set<string>, ghost done: seq<bool>)
    requires claimed.Length == |rows| && forall i :: 0 <= i < |rows| ==> !claimed[i]
    requires Grouped(rows, |rows|, byKey)
    modifies sess, claimed
    ensures |exact| == sess.Length
    ensures forall j :: 0 <= j < |exact| ==> exact[j] == Exact(old(sess[j]), rows)
    ensures forall k :: k in taken <==> Taken(old(sess[..]), rows, k)
    ensures done == exact && Filing(old(sess[..]), sess[..], rows, claimed[..], done)
  {
    ghost var was := sess[..];
    exact, taken := [], {};
    done := seq(|was|, _ => false);
    var i := 0;
    while i < sess.Length
      invariant 0 <= i <= sess.Length
      invariant ExactSoFar(was, rows, i, exact, taken, done)
      invariant Filing(was, sess[..], rows, claimed[..], done)
    {
      ghost var before, claimedBefore := sess[..], claimed[..];
      assert sess[..][i] == was[i];
      ExactOneMore(was, rows, i, exact, taken, done);
      var filed, key := FileOwnKey(sess, i, rows, byKey, claimed, was);
      if filed {
        taken := taken + {key};
        FilingGrows(was, before, sess[..], rows, claimedBefore, claimed[..], done, i);
        done := done[i := true];
      } else {
        assert claimed[..] == claimedBefore;
      }
      exact := exact + [filed];
      i := i + 1;
    }
    assert was[..sess.Length] == was;
  }

  lemma TakenSnoc(ss: seq<Session>, rows: seq<Row>, i: nat)
    requires i < |ss|
    ensures forall k :: Taken(ss[..i + 1], rows, k) <==>
      Taken(ss[..i], rows, k) || (Exact(ss[i], rows) && KeyOf(ss[i].started) == k)
  {
    var p, q := ss[..i], ss[..i + 1];
    assert q == p + [ss[i]];
    forall k ensures Taken(q, rows, k) <==> Taken(p, rows, k) || (Exact(ss[i], rows) && KeyOf(ss[i].started) == k) {
      if Taken(p, rows, k) {
        var j :| 0 <= j < |p| && Exact(p[j], rows) && KeyOf(p[j].started) == k;
        assert q[j] == p[j];
      }
      assert q[i] == ss[i];
    }
  }

  ghost predicate KeysKnown(ss: seq<Session>, rows: seq<Row>, keys: map<Slot, seq<string>>) {
    forall s :: (if s in keys then keys[s] else []) == KeysOf(ss, rows, s)
  }

  /** How far the fallback has used up each slot's keys. */
  ghost predicate UsedUp(ss: seq<Session>, rows: seq<Row>, i: nat, used: map<Slot, nat>) {
    i <= |ss| && forall s :: (if s in used then used[s] else 0) == Min(Rank(ss, rows, i, s), |KeysOf(ss, rows, s)|)
  }

  lemma UsedUpGrows(ss: seq<Session>, rows: seq<Row>, i: nat, used: map<Slot, nat>)
    requires UsedUp(ss, rows, i, used) && i < |ss|
    ensures var s := SlotOf(ss[i]); var n := if s in used then used[s] else 0;
            UsedUp(ss, rows, i + 1, if Exact(ss[i], rows) || n >= |KeysOf(ss, rows, s)| then used else used[s := n + 1])
  {
  }

  /** File one pass its start did not key. */
  method FileByOrder(sess: array<Session>, i: nat, rows: seq<Row>, byKey: map<string, seq<nat>>,
                     keys: map<Slot, seq<string>>, used: map<Slot, nat>, claimed: array<bool>, ghost was: seq<Session>)
    returns (used': map<Slot, nat>)
    requires i < sess.Length == |was| && sess[i] == was[i] && !Exact(was[i], rows) && claimed.Length == |rows|
    requires Grouped(rows, |rows|, byKey) && KeysKnown(was, rows, keys) && UsedUp(was, rows, i, used)
    modifies sess, claimed
    ensures UsedUp(was, rows, i + 1, used')
    ensures sess[..] == old(sess[..])[i := Settled(was, rows, i)]
    ensures forall r :: 0 <= r < |rows| ==> claimed[r] == (old(claimed[r]) || FiledOn(was, rows, i, r))
  {
    var s := SlotOf(sess[i]);
    var n := if s in used then used[s] else 0;
    var ks := if s in keys then keys[s] else [];
    UsedUpGrows(was, rows, i, used);
    assert ks == KeysOf(was, rows, s);
    if n >= |ks| {
      used' := used;
      assert AssignedKey(was, rows, i) == "";
      if sess[i].exitCredits > 0.0 {
        sess[i] := sess[i].(spent := sess[i].spent.(credits := sess[i].exitCredits), reconstructed := true);
      }
    } else {
      used' := used[s := n + 1];
      KeysOfMeaning(was, rows, s);
      assert HasRow(rows, ks[n]);
      assert AssignedKey(was, rows, i) == ks[n];
      var p := File(sess[i], ks[n], rows, byKey[ks[n]], claimed);
      sess[i] := p;
    }
  }

  method AttachSpend(sess: array<Session>, rows: seq<Row>) returns (claimed: array<bool>)
    modifies sess
    ensures fresh(claimed) && claimed.Length == |rows|
    ensures forall j :: 0 <= j < sess.Length ==> sess[j] == Settled(old(sess[..]), rows, j)
    ensures ClaimMarks(old(sess[..]), rows, claimed[..])
  {
    claimed := new bool[|rows|](_ => false);
    if sess.Length == 0 {
      return;
    }
    ghost var was := sess[..];
    var byKey := GroupByKey(rows);
    ghost var done;
    var exact, taken;
    exact, taken, done := FileExact(sess, rows, byKey, claimed);
    var keys := UnclaimedKeys(rows, StableOrder(rows, |rows|), taken, was);
    FileRest(sess, rows, byKey, keys, exact, claimed, was, done);
    FilingDone(was, sess[..], rows, claimed[..]);
  }

  /** Which passes their own start keys. */
  predicate ExactFlags(was: seq<Session>, rows: seq<Row>, exact: seq<bool>) {
    |exact| == |was| && forall j :: 0 <= j < |exact| ==> exact[j] == Exact(was[j], rows)
  }

  /** The second claim: the passes their start did not key, in order. */
  method FileRest(sess: array<Session>, rows: seq<Row>, byKey: map<string, seq<nat>>, keys: map<Slot, seq<string>>,
                  exact: seq<bool>, claimed: array<bool>, ghost was: seq<Session>, ghost done0: seq<bool>)
    requires |exact| == sess.Length == |was| && claimed.Length == |rows| && ExactFlags(was, rows, exact)
    requires Grouped(rows, |rows|, byKey) && KeysKnown(was, rows, keys)
    requires done0 == exact && Filing(was, sess[..], rows, claimed[..], done0)
    modifies sess, claimed
    ensures Filing(was, sess[..], rows, claimed[..], seq(|was|, _ => true))
  {
    var used: map<Slot, nat> := map[];
    NoneUsed(was, rows);
    DoneEnds(exact);
    var i := 0;
    while i < sess.Length
      invariant 0 <= i <= sess.Length
      invariant Filing(was, sess[..], rows, claimed[..], DoneTo(exact, i))
      invariant UsedUp(was, rows, i, used)
    {
      used := FileNext(sess, i, rows, byKey, keys, exact, used, claimed, was);
      i := i + 1;
    }
  }

  /** The passes settled once the first i are: those, and the exact ones. */
  function DoneTo(exact: seq<bool>, i: nat): (done: seq<bool>)
    ensures |done| == |exact| && forall j :: 0 <= j < |exact| ==> done[j] == (j < i || exact[j])
  {
    seq(|exact|, j requires 0 <= j < |exact| => j < i || exact[j])
  }

  lemma DoneEnds(exact: seq<bool>)
    ensures DoneTo(exact, 0) == exact && DoneTo(exact, |exact|) == seq(|exact|, _ => true)
  {
  }

  lemma DoneNext(exact: seq<bool>, i: nat)
    requires i < |exact|
    ensures DoneTo(exact, i + 1) == DoneTo(exact, i)[i := true]
  {
  }

  lemma NoneUsed(was: seq<Session>, rows: seq<Row>)
    ensures UsedUp(was, rows, 0, map[])
  {
    assert forall s :: Rank(was, rows, 0, s) == 0;
  }

  method FileNext(sess: array<Session>, i: nat, rows: seq<Row>, byKey: map<string, seq<nat>>, keys: map<Slot, seq<string>>,
                  exact: seq<bool>, used: map<Slot, nat>, claimed: array<bool>, ghost was: seq<Session>)
    returns (used': map<Slot, nat>)
    requires i < sess.Length == |was| && claimed.Length == |rows| && ExactFlags(was, rows, exact)
    requires Grouped(rows, |rows|, byKey) && KeysKnown(was, rows, keys) && UsedUp(was, rows, i, used)
    requires Filing(was, sess[..], rows, claimed[..], DoneTo(exact, i))
    modifies sess, claimed
    ensures Filing(was, sess[..], rows, claimed[..], DoneTo(exact, i + 1))
    ensures UsedUp(was, rows, i + 1, used')
  {
    DoneNext(exact, i);
    if exact[i] {
      UsedUpGrows(was, rows, i, used);
      used' := used;
      assert DoneTo(exact, i + 1) == DoneTo(exact, i);
    } else {
      ghost var before, claimedBefore := sess[..], claimed[..];
      assert sess[..][i] == was[i];
      used' := FileByOrder(sess, i, rows, byKey, keys, used, claimed, was);
      FilingGrows(was, before, sess[..], rows, claimedBefore, claimed[..], DoneTo(exact, i), i);
    }
  }

  lemma FilingDone(was: seq<Session>, now: seq<Session>, rows: seq<Row>, claimed: seq<bool>)
    requires Filing(was, now, rows, claimed, seq(|was|, _ => true))
    ensures forall j :: 0 <= j < |was| ==> now[j] == Settled(was, rows, j)
    ensures forall i :: 0 <= i < |rows| ==> (claimed[i] <==> exists j :: 0 <= j < |was| && FiledOn(was, rows, j, i))
  {
  }

  function Min(a: nat, b: nat): nat { if a <= b then a else b }

  // ----- What the filing promises -----

  /** Two passes of one slot that share a start, which keys the row. */
  predicate Twins(ss: seq<Session>, rows: seq<Row>, j: nat, k: nat, i: nat)
    requires j < |ss| && k < |ss| && i < |rows|
  {
    && ss[j].started == ss[k].started != NO_TIME
    && SlotOf(ss[j]) == SlotOf(ss[k])
    && Matches(rows[i], KeyOf(ss[j].started), SlotOf(ss[j]))
  }

  predicate NoTwins(ss: seq<Session>, rows: seq<Row>) {
    forall j, k, i :: 0 <= j < k < |ss| && 0 <= i < |rows| ==> !Twins(ss, rows, j, k, i)
  }

  /** A row goes to one pass. */
  ghost predicate OneOwner(ss: seq<Session>, rows: seq<Row>) {
    forall j, k, i :: 0 <= j < k < |ss| && 0 <= i < |rows| ==> !(FiledOn(ss, rows, j, i) && FiledOn(ss, rows, k, i))
  }

  /** Passes that carry a start carry different ones. */
  predicate DistinctStarts(ss: seq<Session>) {
    forall i, j :: 0 <= i < j < |ss| && ss[i].started != NO_TIME ==> ss[i].started != ss[j].started
  }

  /** A row whose key is a pass's own start goes to that pass. */
  lemma OwnKeyWins(ss: seq<Session>, rows: seq<Row>, j: nat, i: nat)
    requires j < |ss| && i < |rows| && ss[j].started != NO_TIME
    requires rows[i].session == KeyOf(ss[j].started)
    ensures AssignedKey(ss, rows, j) == KeyOf(ss[j].started)
    ensures FiledOn(ss, rows, j, i) <==> Slot(rows[i].stage, rows[i].role) == SlotOf(ss[j])
  {
    assert HasRow(rows, KeyOf(ss[j].started));
  }

  lemma {:induction false} RankGrows(ss: seq<Session>, rows: seq<Row>, j: nat, k: nat)
    requires j < k <= |ss| && !Exact(ss[j], rows)
    ensures Rank(ss, rows, j, SlotOf(ss[j])) < Rank(ss, rows, k, SlotOf(ss[j]))
  {
    if j + 1 < k { RankGrows(ss, rows, j, k - 1); }
  }

  /** A row is filed on two passes exactly when they are of one slot and share
      the start that keys it. */
  lemma {:induction false} FiledTwiceIff(ss: seq<Session>, rows: seq<Row>, j: nat, k: nat, i: nat)
    requires j < k < |ss| && i < |rows|
    ensures FiledOn(ss, rows, j, i) && FiledOn(ss, rows, k, i) <==> Twins(ss, rows, j, k, i)
  {
    KeysOfMeaning(ss, rows, SlotOf(ss[j]));
    KeysOfMeaning(ss, rows, SlotOf(ss[k]));
    KeyOfInjective(ss[j].started, ss[k].started);
    if Exact(ss[j], rows) && Exact(ss[k], rows) {
    } else if Exact(ss[j], rows) {
      assert Taken(ss, rows, KeyOf(ss[j].started));
    } else if Exact(ss[k], rows) {
      assert Taken(ss, rows, KeyOf(ss[k].started));
    } else if SlotOf(ss[j]) == SlotOf(ss[k]) {
      RankGrows(ss, rows, j, k);
    }
  }

  /** No row is filed twice exactly when no two passes of one slot share a start
      that keys one of its rows; with distinct starts none do. */
  lemma {:induction false} FiledOnce(ss: seq<Session>, rows: seq<Row>)
    ensures OneOwner(ss, rows) <==> NoTwins(ss, rows)
    ensures DistinctStarts(ss) ==> NoTwins(ss, rows)
  {
    forall j: nat, k: nat, i: nat | j < k < |ss| && i < |rows|
      ensures FiledOn(ss, rows, j, i) && FiledOn(ss, rows, k, i) <==> Twins(ss, rows, j, k, i)
    {
      FiledTwiceIff(ss, rows, j, k, i);
    }
  }

  /** A row with no key, or one whose stage or role is not the pass's, is never
      filed on it. */
  lemma FiledRowsAreKeyed(ss: seq<Session>, rows: seq<Row>, j: nat, i: nat)
    requires j < |ss| && i < |rows| && FiledOn(ss, rows, j, i)
    ensures rows[i].session != "" && rows[i].stage == ss[j].stage && rows[i].role == ss[j].role
  {
  }

  function PlusIf(a: Spend, x: Spend, on: bool): Spend { if on then a.Plus(x) else a }

  /** The spend of the marked ones among the first n rows. */
  function MarkedSum(rows: seq<Row>, marks: seq<bool>, n: nat): Spend
    requires n <= |rows| == |marks|
  {
    if n == 0 then NO_SPEND
    else PlusIf(MarkedSum(rows, marks, n - 1), rows[n - 1].spent, marks[n - 1])
  }

  ghost function SettledAll(ss: seq<Session>, rows: seq<Row>): (ps: seq<Session>)
    ensures |ps| == |ss| && forall j :: 0 <= j < |ss| ==> ps[j] == Settled(ss, rows, j)
  {
    seq(|ss|, j requires 0 <= j < |ss| => Settled(ss, rows, j))
  }

  /** What the first n passes hold, those reconstructed from their exits aside. */
  function MeasuredSum(ps: seq<Session>, n: nat): Spend
    requires n <= |ps|
  {
    if n == 0 then NO_SPEND
    else if ps[n - 1].reconstructed then MeasuredSum(ps, n - 1)
    else MeasuredSum(ps, n - 1).Plus(ps[n - 1].spent)
  }

  lemma PlusFour(a: Spend, b: Spend, c: Spend, d: Spend, x: Spend, p: bool, q: bool)
    requires a.Plus(b) == c.Plus(d)
    ensures PlusIf(a, x, p || q).Plus(PlusIf(b, x, p && q)) == PlusIf(c, x, p).Plus(PlusIf(d, x, q))
  {
  }

  /** What either list marks and what both mark hold together what the two hold
      apart. */
  lemma {:induction false} MarkedSumSplits(rows: seq<Row>, a: seq<bool>, b: seq<bool>, either: seq<bool>, both: seq<bool>, n: nat)
    requires n <= |rows| == |a| == |b| == |either| == |both|
    requires forall i :: 0 <= i < |rows| ==> either[i] == (a[i] || b[i]) && both[i] == (a[i] && b[i])
    ensures MarkedSum(rows, either, n).Plus(MarkedSum(rows, both, n)) == MarkedSum(rows, a, n).Plus(MarkedSum(rows, b, n))
  {
    if n > 0 {
      MarkedSumSplits(rows, a, b, either, both, n - 1);
      PlusFour(MarkedSum(rows, either, n - 1), MarkedSum(rows, both, n - 1), MarkedSum(rows, a, n - 1),
               MarkedSum(rows, b, n - 1), rows[n - 1].spent, a[n - 1], b[n - 1]);
    }
  }

  // ----- One list of marks per pass -----

  /** A mark for every row in every list. */
  predicate MarkLists(rows: seq<Row>, fm: seq<seq<bool>>) {
    forall j :: 0 <= j < |fm| ==> |fm[j]| == |rows|
  }

  predicate SomeMark(fm: seq<seq<bool>>, m: nat, i: nat)
    requires m <= |fm| && forall j :: 0 <= j < |fm| ==> i < |fm[j]|
  {
    exists j :: 0 <= j < m && fm[j][i]
  }

  function MarksTotal(rows: seq<Row>, fm: seq<seq<bool>>, m: nat): Spend
    requires m <= |fm| && MarkLists(rows, fm)
  {
    if m == 0 then NO_SPEND else MarksTotal(rows, fm, m - 1).Plus(MarkedSum(rows, fm[m - 1], |rows|))
  }

  /** The rows list m marks that an earlier list marks too. */
  function AgainMarks(rows: seq<Row>, fm: seq<seq<bool>>, m: nat): (marks: seq<bool>)
    requires m < |fm| && MarkLists(rows, fm)
    ensures |marks| == |rows| && forall i :: 0 <= i < |rows| ==> marks[i] == (SomeMark(fm, m, i) && fm[m][i])
  {
    seq(|rows|, i requires 0 <= i < |rows| => SomeMark(fm, m, i) && fm[m][i])
  }

  function AgainTotal(rows: seq<Row>, fm: seq<seq<bool>>, m: nat): Spend
    requires m <= |fm| && MarkLists(rows, fm)
  {
    if m == 0 then NO_SPEND else AgainTotal(rows, fm, m - 1).Plus(MarkedSum(rows, AgainMarks(rows, fm, m - 1), |rows|))
  }

  lemma PlusChain(t: Spend, m: Spend, b: Spend, r: Spend, a: Spend, s: Spend)
    requires t == b.Plus(r) && a.Plus(s) == b.Plus(m)
    ensures t.Plus(m) == a.Plus(r.Plus(s))
  {
  }

  /** The rows some list marks, and again those marked before, hold together
      what the lists hold apart. */
  lemma {:induction false} MarksUnion(rows: seq<Row>, fm: seq<seq<bool>>, m: nat, all: seq<bool>)
    requires m <= |fm| && MarkLists(rows, fm) && |all| == |rows|
    requires forall i :: 0 <= i < |rows| ==> (all[i] <==> SomeMark(fm, m, i))
    ensures MarksTotal(rows, fm, m) == MarkedSum(rows, all, |rows|).Plus(AgainTotal(rows, fm, m))
  {
    if m == 0 {
      NothingMarked(rows, all, |rows|);
      PlusZero(NO_SPEND);
    } else {
      var before := seq(|rows|, i requires 0 <= i < |rows| => SomeMark(fm, m - 1, i));
      MarksUnion(rows, fm, m - 1, before);
      forall i | 0 <= i < |rows| ensures all[i] == (before[i] || fm[m - 1][i]) {
        SomeMarkSnoc(fm, m - 1, i);
      }
      MarkedSumSplits(rows, before, fm[m - 1], all, AgainMarks(rows, fm, m - 1), |rows|);
      PlusChain(MarksTotal(rows, fm, m - 1), MarkedSum(rows, fm[m - 1], |rows|), MarkedSum(rows, before, |rows|),
                AgainTotal(rows, fm, m - 1), MarkedSum(rows, all, |rows|), MarkedSum(rows, AgainMarks(rows, fm, m - 1), |rows|));
    }
  }

  lemma SomeMarkSnoc(fm: seq<seq<bool>>, m: nat, i: nat)
    requires m < |fm| && forall j :: 0 <= j < |fm| ==> i < |fm[j]|
    ensures SomeMark(fm, m + 1, i) <==> SomeMark(fm, m, i) || fm[m][i]
  {
    if SomeMark(fm, m + 1, i) && !fm[m][i] {
      var j :| 0 <= j < m + 1 && fm[j][i];
    }
  }

  lemma {:induction false} FiledIsMarkedSum(rows: seq<Row>, marks: seq<bool>, key: string, slot: Slot, n: nat)
    requires n <= |rows| == |marks|
    requires forall i :: 0 <= i < |rows| ==> marks[i] == Matches(rows[i], key, slot)
    ensures FiledSum(rows, n, key, slot) == MarkedSum(rows, marks, n)
  {
    if n > 0 { FiledIsMarkedSum(rows, marks, key, slot, n - 1); }
  }

  lemma {:induction false} NothingMarked(rows: seq<Row>, marks: seq<bool>, n: nat)
    requires n <= |rows| == |marks|
    requires forall i :: 0 <= i < |rows| ==> !marks[i]
    ensures MarkedSum(rows, marks, n) == NO_SPEND
  {
    if n > 0 { NothingMarked(rows, marks, n - 1); }
  }

  ghost function FiledMarks(ss: seq<Session>, rows: seq<Row>, j: nat): (marks: seq<bool>)
    requires j < |ss|
    ensures |marks| == |rows| && forall i :: 0 <= i < |rows| ==> marks[i] == FiledOn(ss, rows, j, i)
  {
    seq(|rows|, i requires 0 <= i < |rows| => FiledOn(ss, rows, j, i))
  }

  lemma {:induction false} PassSumIsMarkedSum(ss: seq<Session>, rows: seq<Row>, j: nat)
    requires j < |ss|
    ensures FiledSum(rows, |rows|, AssignedKey(ss, rows, j), SlotOf(ss[j])) == MarkedSum(rows, FiledMarks(ss, rows, j), |rows|)
  {
    FiledIsMarkedSum(rows, FiledMarks(ss, rows, j), AssignedKey(ss, rows, j), SlotOf(ss[j]), |rows|);
  }

  predicate HoldsMarked(p: Session, rows: seq<Row>, marks: seq<bool>)
    requires |marks| == |rows|
  {
    MarkedSum(rows, marks, |rows|) == if p.reconstructed then NO_SPEND else p.spent
  }

  lemma PassHoldsMarked(ss: seq<Session>, rows: seq<Row>, j: nat)
    requires Unfiled(ss) && j < |ss|
    ensures HoldsMarked(Settled(ss, rows, j), rows, FiledMarks(ss, rows, j))
  {
    PassSumIsMarkedSum(ss, rows, j);
    SettledSpend(ss, rows, j);
  }

  lemma {:induction false} MeasuredIsMarksTotal(ps: seq<Session>, rows: seq<Row>, fm: seq<seq<bool>>, n: nat)
    requires n <= |ps| == |fm|
    requires forall j :: 0 <= j < |fm| ==> |fm[j]| == |rows|
    requires forall j :: 0 <= j < |ps| ==> HoldsMarked(ps[j], rows, fm[j])
    ensures MeasuredSum(ps, n) == MarksTotal(rows, fm, n)
  {
    if n > 0 {
      MeasuredIsMarksTotal(ps, rows, fm, n - 1);
      assert HoldsMarked(ps[n - 1], rows, fm[n - 1]);
      PlusZero(MeasuredSum(ps, n - 1));
    }
  }

  ghost function AllMarks(ss: seq<Session>, rows: seq<Row>): (fm: seq<seq<bool>>)
    ensures |fm| == |ss| && forall j :: 0 <= j < |ss| ==> fm[j] == FiledMarks(ss, rows, j)
  {
    seq(|ss|, j requires 0 <= j < |ss| => FiledMarks(ss, rows, j))
  }

  /** The rows filed on pass k that an earlier pass of its slot, started with it,
      has too. */
  function TwinMarks(ss: seq<Session>, rows: seq<Row>, k: nat): (marks: seq<bool>)
    requires k < |ss|
    ensures |marks| == |rows| && forall i :: 0 <= i < |rows| ==> marks[i] == HasTwin(ss, rows, k, i)
  {
    seq(|rows|, i requires 0 <= i < |rows| => HasTwin(ss, rows, k, i))
  }

  predicate HasTwin(ss: seq<Session>, rows: seq<Row>, k: nat, i: nat)
    requires k < |ss| && i < |rows|
  {
    exists j :: 0 <= j < k && Twins(ss, rows, j, k, i)
  }

  function TwinSum(ss: seq<Session>, rows: seq<Row>, k: nat): Spend
    requires k < |ss|
  {
    MarkedSum(rows, TwinMarks(ss, rows, k), |rows|)
  }

  ghost function TwinSums(ss: seq<Session>, rows: seq<Row>): (sums: seq<Spend>)
    ensures |sums| == |ss| && forall k :: 0 <= k < |ss| ==> sums[k] == TwinSum(ss, rows, k)
  {
    seq(|ss|, k requires 0 <= k < |ss| => TwinSum(ss, rows, k))
  }

  function SpendSum(xs: seq<Spend>, n: nat): Spend
    requires n <= |xs|
  {
    if n == 0 then NO_SPEND else SpendSum(xs, n - 1).Plus(xs[n - 1])
  }

  /** What the filing counts more than once. */
  ghost function Refiled(ss: seq<Session>, rows: seq<Row>): Spend {
    SpendSum(TwinSums(ss, rows), |ss|)
  }

  lemma {:induction false} TwinMarksAreAgain(ss: seq<Session>, rows: seq<Row>, k: nat)
    requires k < |ss|
    ensures AgainMarks(rows, AllMarks(ss, rows), k) == TwinMarks(ss, rows, k)
  {
    var fm := AllMarks(ss, rows);
    forall i: nat | i < |rows| ensures AgainMarks(rows, fm, k)[i] == TwinMarks(ss, rows, k)[i] {
      forall j: nat | j < k ensures fm[j][i] && fm[k][i] <==> Twins(ss, rows, j, k, i) {
        FiledTwiceIff(ss, rows, j, k, i);
      }
    }
  }

  lemma {:induction false} AgainSums(rows: seq<Row>, fm: seq<seq<bool>>, sums: seq<Spend>, n: nat)
    requires MarkLists(rows, fm) && n <= |fm| == |sums|
    requires forall k :: 0 <= k < |fm| ==> sums[k] == MarkedSum(rows, AgainMarks(rows, fm, k), |rows|)
    ensures AgainTotal(rows, fm, n) == SpendSum(sums, n)
  {
    if n > 0 { AgainSums(rows, fm, sums, n - 1); }
  }

  lemma {:induction false} AgainIsRefiled(ss: seq<Session>, rows: seq<Row>)
    ensures AgainTotal(rows, AllMarks(ss, rows), |ss|) == Refiled(ss, rows)
  {
    forall k | 0 <= k < |ss|
      ensures TwinSums(ss, rows)[k] == MarkedSum(rows, AgainMarks(rows, AllMarks(ss, rows), k), |rows|)
    {
      TwinMarksAreAgain(ss, rows, k);
    }
    AgainSums(rows, AllMarks(ss, rows), TwinSums(ss, rows), |ss|);
  }

  lemma {:induction false} NoTwinMarks(ss: seq<Session>, rows: seq<Row>, k: nat)
    requires NoTwins(ss, rows) && k < |ss|
    ensures TwinSum(ss, rows, k) == NO_SPEND
  {
    forall i | 0 <= i < |rows| ensures !TwinMarks(ss, rows, k)[i] {}
    NothingMarked(rows, TwinMarks(ss, rows, k), |rows|);
  }

  lemma {:induction false} SumOfNothing(xs: seq<Spend>, n: nat)
    requires n <= |xs| && forall k :: 0 <= k < |xs| ==> xs[k] == NO_SPEND
    ensures SpendSum(xs, n) == NO_SPEND
  {
    if n > 0 {
      SumOfNothing(xs, n - 1);
      assert SpendSum(xs, n - 1) == xs[n - 1] == NO_SPEND;
      PlusZero(SpendSum(xs, n - 1));
    }
  }

  lemma {:induction false} NothingRefiled(ss: seq<Session>, rows: seq<Row>)
    requires NoTwins(ss, rows)
    ensures Refiled(ss, rows) == NO_SPEND
  {
    forall k | 0 <= k < |ss| ensures TwinSums(ss, rows)[k] == NO_SPEND {
      NoTwinMarks(ss, rows, k);
    }
    SumOfNothing(TwinSums(ss, rows), |ss|);
  }

  /** The rows marked claimed are those some pass is filed with. */
  ghost predicate ClaimMarks(ss: seq<Session>, rows: seq<Row>, claimed: seq<bool>) {
    && |claimed| == |rows|
    && forall i :: 0 <= i < |rows| ==> (claimed[i] <==> exists j :: 0 <= j < |ss| && FiledOn(ss, rows, j, i))
  }

  lemma ClaimIsSomeMark(ss: seq<Session>, rows: seq<Row>, claimed: seq<bool>, i: nat)
    requires ClaimMarks(ss, rows, claimed) && i < |rows|
    ensures claimed[i] <==> SomeMark(AllMarks(ss, rows), |ss|, i)
  {
    if claimed[i] {
      var j :| 0 <= j < |ss| && FiledOn(ss, rows, j, i);
      assert AllMarks(ss, rows)[j][i];
    }
  }

  /** The measured passes hold exactly the spend of the rows claimed, credits,
      estimates and every count of tokens, and once more that of the rows filed
      again. */
  lemma {:induction false} FilingConservesSpend(ss: seq<Session>, rows: seq<Row>, claimed: seq<bool>)
    requires Unfiled(ss) && ClaimMarks(ss, rows, claimed)
    ensures MeasuredSum(SettledAll(ss, rows), |ss|) == MarkedSum(rows, claimed, |rows|).Plus(Refiled(ss, rows))
    ensures NoTwins(ss, rows) ==> MeasuredSum(SettledAll(ss, rows), |ss|) == MarkedSum(rows, claimed, |rows|)
  {
    var fm := AllMarks(ss, rows);
    forall j | 0 <= j < |ss| ensures HoldsMarked(SettledAll(ss, rows)[j], rows, fm[j]) {
      PassHoldsMarked(ss, rows, j);
    }
    MeasuredIsMarksTotal(SettledAll(ss, rows), rows, fm, |ss|);
    forall i | 0 <= i < |rows| ensures claimed[i] <==> SomeMark(fm, |ss|, i) {
      ClaimIsSomeMark(ss, rows, claimed, i);
    }
    MarksUnion(rows, fm, |ss|, claimed);
    AgainIsRefiled(ss, rows);
    PlusZero(MarkedSum(rows, claimed, |rows|));
    if NoTwins(ss, rows) { NothingRefiled(ss, rows); }
  }

  /** A pass left unmeasured files nothing. */
  lemma {:induction false} SettledSpend(ss: seq<Session>, rows: seq<Row>, j: nat)
    requires Unfiled(ss) && j < |ss|
    ensures var p, filed := Settled(ss, rows, j), FiledSum(rows, |rows|, AssignedKey(ss, rows, j), SlotOf(ss[j]));
            (if p.reconstructed then filed == NO_SPEND else p.spent == filed)
  {
    if AssignedKey(ss, rows, j) == "" {
      var none := seq(|rows|, i => false);
      FiledIsMarkedSum(rows, none, "", SlotOf(ss[j]), |rows|);
      NothingMarked(rows, none, |rows|);
    }
  }

  /** An instant the key of a pass can name: seven seconds into 2026. */
  const NEW_YEAR: Time := UNIX_EPOCH + 1_767_225_607_000_000_000

  /** A stage entered twice at one instant: the second entry closes the first
      pass and opens the next. */
  const TWIN_LOG: seq<Event> :=
    [Event(NEW_YEAR, "build", StageEnter("coder", "")), Event(NEW_YEAR, "build", StageEnter("coder", ""))]

  const TWIN_ROWS: seq<Row> :=
    [Row("build", KeyOf(NEW_YEAR), "coder", "m", Spend(3.0, 0.0, 0, 0, 0), NEW_YEAR)]

  lemma TwinPasses()
    ensures var ss := PassesOf(TWIN_LOG);
            |ss| == 2 && Unfiled(ss) && ss[0].closed && ss[0].endInferred && !ss[1].closed
            && forall j :: 0 <= j < 2 ==> SlotOf(ss[j]) == Slot("build", "coder") && ss[j].started == NEW_YEAR
  {
    var evs := TWIN_LOG;
    assert NextBoundary(evs, 1, 2) == 1 && NextBoundary(evs, 2, 2) == 2;
    assert PassesUpTo(evs, 0, 2) == [];
    assert PassesUpTo(evs, 1, 2) == [PassAt(evs, 0, 2)];
    assert PassesUpTo(evs, 2, 2) == [PassAt(evs, 0, 2), PassAt(evs, 1, 2)];
  }

  /** Two passes that start at one instant both take the row it keys: the
      claim loop does not ask whether a key is taken. */
  lemma {:induction false} EqualStartsFileTwice()
    ensures var ss := PassesOf(TWIN_LOG);
            |ss| == 2 && FiledOn(ss, TWIN_ROWS, 0, 0) && FiledOn(ss, TWIN_ROWS, 1, 0)
            && Settled(ss, TWIN_ROWS, 0).spent.credits + Settled(ss, TWIN_ROWS, 1).spent.credits == 6.0
  {
    TwinPasses();
    OneRowFiledTwice(PassesOf(TWIN_LOG), TWIN_ROWS);
  }

  lemma {:induction false} OneRowFiledTwice(ss: seq<Session>, rows: seq<Row>)
    requires |ss| == 2 && Unfiled(ss) && |rows| == 1 && Twins(ss, rows, 0, 1, 0)
    ensures FiledOn(ss, rows, 0, 0) && FiledOn(ss, rows, 1, 0)
    ensures forall j :: 0 <= j < 2 ==> Settled(ss, rows, j).spent.credits == rows[0].spent.credits
  {
    FiledTwiceIff(ss, rows, 0, 1, 0);
    forall j: nat | j < 2 ensures Settled(ss, rows, j).spent.credits == rows[0].spent.credits {
      assert FiledOn(ss, rows, j, 0);
      OneRowSum(rows, AssignedKey(ss, rows, j), SlotOf(ss[j]));
      assert Settled(ss, rows, j) == Filed(ss[j], AssignedKey(ss, rows, j), rows);
    }
  }

  lemma OneRowSum(rows: seq<Row>, key: string, slot: Slot)
    requires |rows| == 1 && Matches(rows[0], key, slot)
    ensures FiledSum(rows, 1, key, slot) == NO_SPEND.Plus(rows[0].spent)
  {
    assert FiledSum(rows, 0, key, slot) == NO_SPEND;
  }
}
