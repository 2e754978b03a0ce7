/** Metering a claude session (internal/agent/claudecode.go): live estimates
    booked mid-turn, corrected at each result against the process's cumulative
    cost, with a baseline for a resumed conversation.  Costs are reals, so
    floating-point rounding plays no part. */
module ClaudeLedger {
  import opened Basics
  import opened ClaudeUsage

  /** One usage event out. */
  datatype Usage = Usage(model: string, credits: real, estimate: bool, settled: bool, input: int, cached: int, output: int)

  datatype State = State(
    mainModel: string, reqModel: string,
    rate: real,                       // realized dollars per token
    prevCost: map<string, real>,      // cumulative dollars at the last result
    estimated: map<string, real>,     // credits estimated since
    turnTokens: map<string, int>,
    resumeBase: bool,                 // resumed, its first result still to come
    baseline: map<string, real>,      // what the snapshot was first seeded with
    out: seq<Usage>)

  function Start(resumed: bool): State {
    State("", "", 0.0, map[], map[], map[], resumed, map[], [])
  }

  function At(m: map<string, real>, k: string): real { if k in m then m[k] else 0.0 }

  function TokensAt(m: map<string, int>, k: string): int { if k in m then m[k] else 0 }

  datatype Line =
    | Init(model: string)
    | MessageStart(model: string)
    | MessageDelta(usage: Option<ModelUsage>)
    | Result(modelUsage: Usages)

  // ----- What each line does -----

  function RequestModel(s: State): string { if s.reqModel != "" then s.reqModel else s.mainModel }

  function DeltaStep(s: State, u: ModelUsage): State {
    if u.Tokens() == 0 then s
    else
      var m := RequestModel(s);
      var est := if s.rate > 0.0 then u.Tokens() as real * s.rate * 100.0 else 0.0;
      s.(turnTokens := s.turnTokens[m := TokensAt(s.turnTokens, m) + u.Tokens()],
         estimated := if s.rate > 0.0 then s.estimated[m := At(s.estimated, m) + est] else s.estimated,
         out := s.out + [Usage(m, est, s.rate > 0.0, false, u.input + u.cacheWrite, u.cacheRead, u.output)])
  }

  /** What of a model's first cumulative cost an earlier process settled: this
      process's share is priced by the tokens it reported. */
  function Prior(s: State, m: string, u: ModelUsage): real {
    var all := u.Tokens();
    if all > 0 then
      var mine := if TokensAt(s.turnTokens, m) < all then TokensAt(s.turnTokens, m) else all;
      u.cost - u.cost * mine as real / all as real
    else u.cost
  }

  function Priors(s: State, usage: Usages): map<string, real> {
    map m | m in usage :: Prior(s, m, usage[m])
  }

  function Baselined(s: State, usage: Usages): State {
    s.(prevCost := s.prevCost + Priors(s, usage), baseline := s.baseline + Priors(s, usage), resumeBase := false)
  }

  function Correction(s: State, m: string, cost: real): real {
    (cost - At(s.prevCost, m)) * 100.0 - At(s.estimated, m)
  }

  /** Settle one model: the snapshot moves to its cost, and what the estimates
      missed is booked. */
  function SettleOne(s: State, m: string, cost: real): State {
    var delta := Correction(s, m, cost);
    s.(prevCost := s.prevCost[m := cost],
       out := if delta != 0.0 || At(s.estimated, m) != 0.0
              then s.out + [Usage(m, delta, false, true, 0, 0, 0)] else s.out)
  }

  function SettleAll(s: State, order: seq<string>, usage: Usages): State
    requires forall i :: 0 <= i < |order| ==> order[i] in usage
  {
    if order == [] then s
    else
      var m := order[|order| - 1];
      SettleOne(SettleAll(s, order[..|order| - 1], usage), m, usage[m].cost)
  }

  function Cleared(s: State, total: ModelUsage): State {
    s.(estimated := map[], turnTokens := map[], rate := if total.Tokens() > 0 then total.cost / total.Tokens() as real else s.rate)
  }

  /** Each model once; the session's own last. */
  predicate IsOrder(order: seq<string>, usage: Usages, main: string) {
    && (forall i, j :: 0 <= i < j < |order| ==> order[i] != order[j])
    && (forall i :: 0 <= i < |order| ==> order[i] in usage)
    && (forall m :: m in usage ==> m in order)
    && (forall i :: 0 <= i < |order| - 1 ==> order[i] != main)
  }

  /** A result whose report folds to usage, settled in the given order. */
  ghost function ResultStep(s: State, usage: Usages, order: seq<string>): State
    requires forall i :: 0 <= i < |order| ==> order[i] in usage
  {
    if usage == map[] then s
    else Cleared(SettleAll(if s.resumeBase then Baselined(s, usage) else s, order, usage), Total(usage))
  }

  /** What a line may do: a result's report is folded, and settled in an order
      that leaves the session's own model last. */
  ghost predicate Steps(s: State, line: Line, after: State) {
    match line
    case Init(model) => after == if s.mainModel == "" then s.(mainModel := ModelKey(model)) else s
    case MessageStart(model) => after == s.(reqModel := ModelKey(model))
    case MessageDelta(usage) => after == if usage.Some? then DeltaStep(s, usage.value) else s
    case Result(report) =>
      exists usage, order :: FoldedByKey(usage, report) && IsOrder(order, usage, s.mainModel) && after == ResultStep(s, usage, order)
  }

  // ----- The ledger -----

  /** The credits emitted for a model. */
  function Booked(out: seq<Usage>, m: string): real {
    if out == [] then 0.0
    else
      var u := out[|out| - 1];
      Booked(out[..|out| - 1], m) + (if u.model == m then u.credits else 0.0)
  }

  /** A model's books balance: what was emitted is its cost since the baseline,
      in cents, and the estimates outstanding. */
  predicate Balanced(s: State, m: string) {
    Booked(s.out, m) == 100.0 * (At(s.prevCost, m) - At(s.baseline, m)) + At(s.estimated, m)
  }

  ghost predicate Ledger(s: State) {
    && (forall m :: Balanced(s, m))
    && (s.resumeBase ==> s.prevCost == map[] && s.baseline == map[] && s.estimated == map[] && s.rate == 0.0)
  }

  lemma BookedSnoc(out: seq<Usage>, u: Usage, m: string)
    ensures Booked(out + [u], m) == Booked(out, m) + if u.model == m then u.credits else 0.0
  {
    assert (out + [u])[..|out|] == out;
  }

  lemma DeltaKeepsLedger(s: State, u: ModelUsage)
    requires Ledger(s)
    ensures Ledger(DeltaStep(s, u))
  {
    var after := DeltaStep(s, u);
    forall m ensures Balanced(after, m) {
      assert Balanced(s, m);
      if after != s { BookedSnoc(s.out, after.out[|s.out|], m); }
    }
  }

  /** Seeding the snapshot moves it and its baseline alike. */
  lemma BaselineKeepsLedger(s: State, usage: Usages)
    requires Ledger(s) && s.resumeBase
    ensures Ledger(Baselined(s, usage))
    ensures Baselined(s, usage).estimated == s.estimated && !Baselined(s, usage).resumeBase
  {
    var after := Baselined(s, usage);
    forall m ensures Balanced(after, m) {
      assert Balanced(s, m);
      assert At(after.prevCost, m) == At(after.baseline, m);
    }
  }

  /** Settling in order books each model of the order exactly, and leaves the
      others as they stood. */
  lemma {:induction false} SettleAllBooks(s: State, order: seq<string>, usage: Usages, m: string)
    requires forall i :: 0 <= i < |order| ==> order[i] in usage
    requires forall i, j :: 0 <= i < j < |order| ==> order[i] != order[j]
    requires Balanced(s, m)
    ensures var after := SettleAll(s, order, usage);
            && after.estimated == s.estimated && after.baseline == s.baseline && after.resumeBase == s.resumeBase
            && after.rate == s.rate && after.mainModel == s.mainModel
            && At(after.prevCost, m) == (if m in order then usage[m].cost else At(s.prevCost, m))
            && Booked(after.out, m)
               == (if m in order then 100.0 * (usage[m].cost - At(s.baseline, m)) else Booked(s.out, m))
  {
    if order != [] {
      var init, last := order[..|order| - 1], order[|order| - 1];
      SettleAllBooks(s, init, usage, m);
      assert order == init + [last];
      SettleOneBooks(SettleAll(s, init, usage), last, usage[last].cost, m);
    }
  }

  lemma SettleOneBooks(s: State, m: string, cost: real, k: string)
    ensures var after := SettleOne(s, m, cost);
            Booked(after.out, k) == Booked(s.out, k) + if k == m then Correction(s, m, cost) else 0.0
  {
    var after := SettleOne(s, m, cost);
    if after.out != s.out { BookedSnoc(s.out, after.out[|s.out|], k); }
  }

  /** Every model with an outstanding estimate is in the report. */
  predicate NamesEstimates(s: State, usage: Usages) {
    forall m :: m in s.estimated && s.estimated[m] != 0.0 ==> m in usage
  }

  /** A result with a report keeps the books balanced if and only if the report
      names every model with an outstanding estimate: one it leaves out has its
      estimate forgotten but not taken back. */
  lemma ResultBalancesIff(s: State, usage: Usages, order: seq<string>)
    requires Ledger(s) && usage != map[] && IsOrder(order, usage, s.mainModel)
    ensures Ledger(ResultStep(s, usage, order)) <==> NamesEstimates(s, usage)
  {
    var from := if s.resumeBase then Baselined(s, usage) else s;
    if s.resumeBase { BaselineKeepsLedger(s, usage); }
    var after := ResultStep(s, usage, order);
    forall m ensures Balanced(after, m) <==> (At(s.estimated, m) == 0.0 || m in usage) {
      assert Balanced(from, m);
      SettleAllBooks(from, order, usage, m);
    }
    SettleAllBooks(from, order, usage, "");
    if NamesEstimates(s, usage) {
      forall m ensures Balanced(after, m) {
        assert At(s.estimated, m) != 0.0 ==> m in s.estimated && s.estimated[m] != 0.0;
      }
    } else {
      var m :| m in s.estimated && s.estimated[m] != 0.0 && m !in usage;
      assert !Balanced(after, m);
    }
  }

  /** After a result each model it names has booked exactly its cost since the
      baseline. */
  lemma ResultBooksExactly(s: State, usage: Usages, order: seq<string>, m: string)
    requires Ledger(s) && IsOrder(order, usage, s.mainModel) && m in usage
    ensures var after := ResultStep(s, usage, order);
            Booked(after.out, m) == 100.0 * (usage[m].cost - At(after.baseline, m))
            && At(after.prevCost, m) == usage[m].cost && after.estimated == map[]
  {
    var from := if s.resumeBase then Baselined(s, usage) else s;
    if s.resumeBase { BaselineKeepsLedger(s, usage); }
    assert Balanced(from, m);
    SettleAllBooks(from, order, usage, m);
  }

  // ----- What a result lets out -----

  /** Some event from n on is the model's. */
  predicate HearsOf(out: seq<Usage>, n: nat, m: string) {
    exists i :: n <= i < |out| && out[i].model == m
  }

  /** Every event from n on settles, and counts no tokens. */
  predicate OnlySettles(out: seq<Usage>, n: nat) {
    forall i :: n <= i < |out| ==> out[i].settled && !out[i].estimate && out[i].input == out[i].cached == out[i].output == 0
  }

  lemma {:induction false} SettleAllFrame(s: State, order: seq<string>, usage: Usages, m: string)
    requires (forall i :: 0 <= i < |order| ==> order[i] in usage) && m !in order
    ensures var after := SettleAll(s, order, usage);
            after.estimated == s.estimated && At(after.prevCost, m) == At(s.prevCost, m)
  {
    if order != [] {
      assert order[|order| - 1] in order;
      SettleAllFrame(s, order[..|order| - 1], usage, m);
    }
  }

  lemma SettleOneEmits(s: State, k: string, cost: real, n: nat, m: string, after: State)
    requires n <= |s.out| && after == SettleOne(s, k, cost) && OnlySettles(s.out, n)
    ensures |s.out| <= |after.out| && OnlySettles(after.out, n)
    ensures HearsOf(after.out, n, m)
            <==> HearsOf(s.out, n, m) || (k == m && (Correction(s, k, cost) != 0.0 || At(s.estimated, k) != 0.0))
  {
    if HearsOf(s.out, n, m) {
      var i :| n <= i < |s.out| && s.out[i].model == m;
      assert after.out[i] == s.out[i];
    }
    if after.out != s.out { assert after.out[|s.out|].model == k; }
  }

  /** A model is settled aloud exactly when the report names it and there is
      something to correct or an estimate to take the place of. */
  lemma {:induction false} SettleAllEmits(s: State, order: seq<string>, usage: Usages, m: string)
    requires forall i :: 0 <= i < |order| ==> order[i] in usage
    requires forall i, j :: 0 <= i < j < |order| ==> order[i] != order[j]
    ensures var after := SettleAll(s, order, usage);
            && |s.out| <= |after.out| && OnlySettles(after.out, |s.out|)
            && (HearsOf(after.out, |s.out|, m)
                <==> m in order && (Correction(s, m, usage[m].cost) != 0.0 || At(s.estimated, m) != 0.0))
  {
    if order != [] {
      var init, k := order[..|order| - 1], order[|order| - 1];
      var mid := SettleAll(s, init, usage);
      assert order == init + [k];
      SettleAllEmits(s, init, usage, m);
      SettleAllFrame(s, init, usage, k);
      SettleOneEmits(mid, k, usage[k].cost, |s.out|, m, SettleOne(mid, k, usage[k].cost));
    }
  }

  // ----- Whole runs -----

  /** A run of the session: states[0] is its start, and each line leads from one
      state to the next. */
  ghost predicate IsRun(resumed: bool, lines: seq<Line>, states: seq<State>) {
    && |states| == |lines| + 1 && states[0] == Start(resumed)
    && forall i :: 0 <= i < |lines| ==> Steps(states[i], lines[i], states[i + 1])
  }

  /** Every report of the run that names any model names those with estimates
      outstanding. */
  ghost predicate ReportsNameEstimates(lines: seq<Line>, states: seq<State>)
    requires |states| == |lines| + 1
  {
    forall i, usage :: 0 <= i < |lines| && lines[i].Result? && lines[i].modelUsage != map[] && FoldedByKey(usage, lines[i].modelUsage)
      ==> NamesEstimates(states[i], usage)
  }

  lemma EmptyReportFoldsEmpty(usage: Usages, report: Usages)
    requires FoldedByKey(usage, report)
    ensures usage == map[] <==> report == map[]
  {
    if report != map[] {
      var x :| x in report;
      assert ModelKey(x) in usage;
    }
  }

  lemma StepKeepsLedger(s: State, line: Line, after: State)
    requires Ledger(s) && Steps(s, line, after)
    requires line.Result? ==> forall usage :: line.modelUsage != map[] && FoldedByKey(usage, line.modelUsage) ==> NamesEstimates(s, usage)
    ensures Ledger(after)
  {
    match line
    case Init(_) => forall m ensures Balanced(after, m) { assert Balanced(s, m); }
    case MessageStart(_) => forall m ensures Balanced(after, m) { assert Balanced(s, m); }
    case MessageDelta(usage) => if usage.Some? { DeltaKeepsLedger(s, usage.value); }
    case Result(report) =>
      var usage, order :| FoldedByKey(usage, report) && IsOrder(order, usage, s.mainModel) && after == ResultStep(s, usage, order);
      EmptyReportFoldsEmpty(usage, report);
      if usage != map[] { ResultBalancesIff(s, usage, order); }
  }

  /** Over any sequence of lines whose reports name the models with outstanding
      estimates, the books balance after every line. */
  lemma {:induction false} RunKeepsLedger(resumed: bool, lines: seq<Line>, states: seq<State>, i: nat)
    requires IsRun(resumed, lines, states) && ReportsNameEstimates(lines, states) && i <= |lines|
    ensures Ledger(states[i])
  {
    if i > 0 {
      RunKeepsLedger(resumed, lines, states, i - 1);
      StepKeepsLedger(states[i - 1], lines[i - 1], states[i]);
    }
  }

  // ----- What the lines alone tell -----

  /** The model the last request named. */
  function Requested(lines: seq<Line>): string {
    if lines == [] then ""
    else
      match lines[|lines| - 1]
      case MessageStart(model) => ModelKey(model)
      case _ => Requested(lines[..|lines| - 1])
  }

  /** The first model the session announced. */
  function Announced(lines: seq<Line>): string {
    if lines == [] then ""
    else
      var before := Announced(lines[..|lines| - 1]);
      match lines[|lines| - 1]
      case Init(model) => if before == "" then ModelKey(model) else before
      case _ => before
  }

  /** Whose tokens a delta's are. */
  function Spender(lines: seq<Line>): string {
    if Requested(lines) != "" then Requested(lines) else Announced(lines)
  }

  /** The tokens a model's requests reported since the last report of costs. */
  function Mine(lines: seq<Line>, m: string): int {
    if lines == [] then 0
    else
      var before := lines[..|lines| - 1];
      match lines[|lines| - 1]
      case MessageDelta(usage) => Mine(before, m) + if usage.Some? && Spender(before) == m then usage.value.Tokens() else 0
      case Result(report) => if report == map[] then Mine(before, m) else 0
      case _ => Mine(before, m)
  }

  /** Dollars a token by the last report that counted any. */
  ghost function Price(lines: seq<Line>): real {
    if lines == [] then 0.0
    else
      var before := lines[..|lines| - 1];
      match lines[|lines| - 1]
      case Result(report) =>
        if report != map[] && Total(report).Tokens() > 0 then Total(report).cost / Total(report).Tokens() as real
        else Price(before)
      case _ => Price(before)
  }

  predicate NoReport(lines: seq<Line>) { forall k :: 0 <= k < |lines| && lines[k].Result? ==> lines[k].modelUsage == map[] }

  /** A state that stands as the lines read so far tell. */
  ghost predicate Stands(s: State, resumed: bool, lines: seq<Line>, m: string) {
    && s.reqModel == Requested(lines) && s.mainModel == Announced(lines) && s.rate == Price(lines)
    && TokensAt(s.turnTokens, m) == Mine(lines, m)
    && (s.resumeBase <==> resumed && NoReport(lines))
  }

  lemma NoReportNext(lines: seq<Line>, line: Line, next: seq<Line>)
    requires next == lines + [line]
    ensures NoReport(next) <==> NoReport(lines) && (line.Result? ==> line.modelUsage == map[])
    ensures next[..|next| - 1] == lines
  {
    assert next[|lines|] == line;
    assert forall k :: 0 <= k < |lines| ==> next[k] == lines[k];
  }

  lemma {:induction false} SettleAllKeeps(s: State, order: seq<string>, usage: Usages)
    requires forall i :: 0 <= i < |order| ==> order[i] in usage
    ensures var t := SettleAll(s, order, usage);
            t.mainModel == s.mainModel && t.reqModel == s.reqModel && t.rate == s.rate && t.resumeBase == s.resumeBase
  {
    if order != [] { SettleAllKeeps(s, order[..|order| - 1], usage); }
  }

  lemma ResultStands(s: State, resumed: bool, lines: seq<Line>, m: string, report: Usages, after: State, next: seq<Line>)
    requires Stands(s, resumed, lines, m) && Steps(s, Result(report), after) && next == lines + [Result(report)]
    ensures Stands(after, resumed, next, m)
  {
    NoReportNext(lines, Result(report), next);
    var usage, order :| FoldedByKey(usage, report) && IsOrder(order, usage, s.mainModel) && after == ResultStep(s, usage, order);
    EmptyReportFoldsEmpty(usage, report);
    FoldTotals(usage, report);
    SettleAllKeeps(if s.resumeBase then Baselined(s, usage) else s, order, usage);
  }

  lemma StepStands(s: State, resumed: bool, lines: seq<Line>, m: string, line: Line, after: State, next: seq<Line>)
    requires Stands(s, resumed, lines, m) && Steps(s, line, after) && next == lines + [line] && !line.Result?
    ensures Stands(after, resumed, next, m)
  {
    NoReportNext(lines, line, next);
  }

  lemma {:induction false} RunStands(resumed: bool, lines: seq<Line>, states: seq<State>, i: nat, m: string)
    requires IsRun(resumed, lines, states) && i <= |lines|
    ensures Stands(states[i], resumed, lines[..i], m)
  {
    if i > 0 {
      RunStands(resumed, lines, states, i - 1, m);
      assert lines[..i] == lines[..i - 1] + [lines[i - 1]];
      if lines[i - 1].Result? {
        ResultStands(states[i - 1], resumed, lines[..i - 1], m, lines[i - 1].modelUsage, states[i], lines[..i]);
      } else {
        StepStands(states[i - 1], resumed, lines[..i - 1], m, lines[i - 1], states[i], lines[..i]);
      }
    }
  }

  /** In any run a delta is booked to the model of its request, or the session's
      own before any: its tokens, what was written to the cache with the input and
      what was read from it apart, at the price of the last report, a hundred
      credits a dollar; and before there is a price, the tokens alone. */
  lemma DeltaBooks(resumed: bool, lines: seq<Line>, states: seq<State>, i: nat, u: ModelUsage)
    requires IsRun(resumed, lines, states) && i < |lines| && lines[i] == MessageDelta(Some(u)) && u.Tokens() != 0
    ensures var out, e, price := states[i].out, states[i + 1].out[|states[i + 1].out| - 1], Price(lines[..i]);
            && states[i + 1].out == out + [e]
            && e.model == Spender(lines[..i]) && !e.settled && e.estimate == (price > 0.0)
            && e.credits == (if price > 0.0 then 100.0 * (u.Tokens() as real * price) else 0.0)
            && e.input + e.cached + e.output == u.Tokens() && e.cached == u.cacheRead && e.output == u.output
  {
    RunStands(resumed, lines, states, i, "");
    NextSteps(resumed, lines, states, i);
    DeltaIs(states[i], u, states[i + 1]);
  }

  lemma DeltaIs(s: State, u: ModelUsage, after: State)
    requires after == DeltaStep(s, u) && u.Tokens() != 0
    ensures var e := after.out[|after.out| - 1];
            && after.out == s.out + [e]
            && e.model == RequestModel(s) && !e.settled && e.estimate == (s.rate > 0.0)
            && e.credits == (if s.rate > 0.0 then 100.0 * (u.Tokens() as real * s.rate) else 0.0)
            && e.input + e.cached + e.output == u.Tokens() && e.cached == u.cacheRead && e.output == u.output
  {
  }

  lemma NextSteps(resumed: bool, lines: seq<Line>, states: seq<State>, i: nat)
    requires IsRun(resumed, lines, states) && i < |lines|
    ensures Steps(states[i], lines[i], states[i + 1])
  {
  }

  /** The first report of costs a resumed process gets books of each model the
      share of its cumulative cost that this process's own tokens are of all it
      counts, and nothing of one that counts none. */
  lemma FirstReportBooks(lines: seq<Line>, states: seq<State>, i: nat, usage: Usages, m: string)
    requires IsRun(true, lines, states) && i < |lines| && lines[i].Result? && NoReport(lines[..i])
    requires FoldedByKey(usage, lines[i].modelUsage) && m in usage
    ensures Booked(states[i + 1].out, m) == OwnShare(Mine(lines[..i], m), usage[m])
  {
    RunStands(true, lines, states, i, m);
    NoReportKeepsLedger(lines, states, i);
    NextSteps(true, lines, states, i);
    FirstResultBooks(states[i], lines[i].modelUsage, states[i + 1], usage, m);
  }

  /** A model's first cost, less what an earlier process settled of it. */
  function OwnShare(mine: int, u: ModelUsage): real {
    if u.Tokens() > 0 then 100.0 * (u.cost * (if mine < u.Tokens() then mine else u.Tokens()) as real / u.Tokens() as real)
    else 0.0
  }

  lemma ShareIsOwn(s: State, m: string, u: ModelUsage)
    ensures 100.0 * (u.cost - Prior(s, m, u)) == OwnShare(TokensAt(s.turnTokens, m), u)
  {
  }

  lemma FirstResultBooks(s: State, report: Usages, after: State, usage: Usages, m: string)
    requires Ledger(s) && s.resumeBase && Steps(s, Result(report), after) && FoldedByKey(usage, report) && m in usage
    ensures Booked(after.out, m) == OwnShare(TokensAt(s.turnTokens, m), usage[m])
  {
    var folded, order :| FoldedByKey(folded, report) && IsOrder(order, folded, s.mainModel) && after == ResultStep(s, folded, order);
    FoldIsUnique(usage, folded, report);
    FirstResultStep(s, usage, order, m, after);
  }

  lemma FirstResultStep(s: State, usage: Usages, order: seq<string>, m: string, after: State)
    requires Ledger(s) && s.resumeBase && IsOrder(order, usage, s.mainModel) && m in usage
    requires after == ResultStep(s, usage, order)
    ensures Booked(after.out, m) == OwnShare(TokensAt(s.turnTokens, m), usage[m])
  {
    ResultBooksExactly(s, usage, order, m);
    FirstBaseline(s, usage, order, m, after);
    ShareIsOwn(s, m, usage[m]);
  }

  lemma FirstBaseline(s: State, usage: Usages, order: seq<string>, m: string, after: State)
    requires Ledger(s) && s.resumeBase && IsOrder(order, usage, s.mainModel) && m in usage
    requires after == ResultStep(s, usage, order)
    ensures At(after.baseline, m) == Prior(s, m, usage[m])
  {
    var from := Baselined(s, usage);
    BaselineKeepsLedger(s, usage);
    assert Balanced(from, m);
    SettleAllBooks(from, order, usage, m);
    assert after.baseline == SettleAll(from, order, usage).baseline;
  }

  lemma {:induction false} NoReportKeepsLedger(lines: seq<Line>, states: seq<State>, i: nat)
    requires IsRun(true, lines, states) && i <= |lines| && NoReport(lines[..i])
    ensures Ledger(states[i])
  {
    if i > 0 {
      assert forall k :: 0 <= k < i ==> lines[..i][k] == lines[k];
      assert forall k :: 0 <= k < i - 1 ==> lines[..i - 1][k] == lines[k];
      NoReportKeepsLedger(lines, states, i - 1);
      StepKeepsLedger(states[i - 1], lines[i - 1], states[i]);
    }
  }

  // ----- Bounds for a resumed process -----

  predicate SaneTokens(u: ModelUsage) {
    u.input >= 0 && u.output >= 0 && u.cacheRead >= 0 && u.cacheWrite >= 0
  }

  predicate SaneUsage(u: ModelUsage) { SaneTokens(u) && u.cost >= 0.0 }

  /** Counts and costs are not negative, and no model's cumulative cost falls. */
  ghost predicate SaneLine(s: State, line: Line) {
    match line
    case MessageDelta(usage) => usage.Some? ==> SaneTokens(usage.value)
    case Result(report) =>
      (forall x :: x in report ==> SaneUsage(report[x]))
      && forall usage: Usages, m: string :: FoldedByKey(usage, report) && m in usage ==>
           SaneUsage(usage[m]) && usage[m].cost >= At(s.prevCost, m)
    case _ => true
  }

  /** The baseline lies between nothing and the snapshot. */
  ghost predicate Bounded(s: State) {
    && (forall m :: 0.0 <= At(s.baseline, m) <= At(s.prevCost, m))
    && (forall m :: 0 <= TokensAt(s.turnTokens, m))
  }

  lemma ShareIsFraction(cost: real, mine: int, all: int)
    requires cost >= 0.0 && 0 <= mine <= all && all > 0
    ensures 0.0 <= cost * mine as real / all as real <= cost
  {
    Scaled(cost, 0.0, mine as real);
    Scaled(cost, mine as real, all as real);
    Quotient(cost * mine as real, cost, all as real);
  }

  lemma Scaled(c: real, x: real, y: real)
    requires c >= 0.0 && x <= y
    ensures c * x <= c * y
  {
    assert c * (y - x) >= 0.0;
  }

  lemma ScaledUp(x: real, y: real, a: real)
    requires x < y && a > 0.0
    ensures x * a < y * a
  {
    assert (y - x) * a > 0.0;
  }

  lemma Quotient(p: real, c: real, a: real)
    requires a > 0.0 && 0.0 <= p <= c * a
    ensures 0.0 <= p / a <= c
  {
    var q := p / a;
    assert q * a == p;
    if q > c { ScaledUp(c, q, a); }
    if q < 0.0 { ScaledUp(q, 0.0, a); }
  }

  lemma PriorIsFraction(s: State, m: string, u: ModelUsage)
    requires SaneUsage(u) && 0 <= TokensAt(s.turnTokens, m)
    ensures 0.0 <= Prior(s, m, u) <= u.cost
  {
    var all := u.Tokens();
    if all > 0 {
      var mine := if TokensAt(s.turnTokens, m) < all then TokensAt(s.turnTokens, m) else all;
      ShareIsFraction(u.cost, mine, all);
    }
  }

  lemma ResultKeepsBounded(s: State, usage: Usages, order: seq<string>)
    requires Ledger(s) && Bounded(s) && IsOrder(order, usage, s.mainModel)
    requires forall m :: m in usage ==> SaneUsage(usage[m]) && usage[m].cost >= At(s.prevCost, m)
    ensures Bounded(ResultStep(s, usage, order))
  {
    if usage != map[] {
      var from, after := if s.resumeBase then Baselined(s, usage) else s, ResultStep(s, usage, order);
      if s.resumeBase { BaselineKeepsLedger(s, usage); }
      forall m ensures 0.0 <= At(after.baseline, m) <= At(after.prevCost, m) {
        assert Balanced(from, m);
        SettleAllBooks(from, order, usage, m);
        assert 0.0 <= At(s.baseline, m) <= At(s.prevCost, m);
        assert m in order <==> m in usage;
        if m in usage { PriorIsFraction(s, m, usage[m]); }
      }
      assert after.turnTokens == map[];
    }
  }

  lemma DeltaKeepsBounded(s: State, u: ModelUsage)
    requires Bounded(s) && SaneTokens(u)
    ensures Bounded(DeltaStep(s, u))
  {
    var after := DeltaStep(s, u);
    forall m ensures 0.0 <= At(after.baseline, m) <= At(after.prevCost, m) && 0 <= TokensAt(after.turnTokens, m) {
      assert 0.0 <= At(s.baseline, m) <= At(s.prevCost, m) && 0 <= TokensAt(s.turnTokens, m);
      assert 0 <= TokensAt(s.turnTokens, RequestModel(s));
    }
  }

  lemma StepKeepsBounded(s: State, line: Line, after: State)
    requires Ledger(s) && Bounded(s) && Steps(s, line, after) && SaneLine(s, line)
    ensures Bounded(after)
  {
    match line
    case Init(_) => assert forall m :: At(after.baseline, m) == At(s.baseline, m) && At(after.prevCost, m) == At(s.prevCost, m);
    case MessageStart(_) => assert forall m :: At(after.baseline, m) == At(s.baseline, m) && At(after.prevCost, m) == At(s.prevCost, m);
    case MessageDelta(usage) => if usage.Some? { DeltaKeepsBounded(s, usage.value); }
    case Result(report) =>
      var usage, order :| FoldedByKey(usage, report) && IsOrder(order, usage, s.mainModel) && after == ResultStep(s, usage, order);
      ResultKeepsBounded(s, usage, order);
  }

  /** After each result, a model it names has booked no less than nothing and no
      more than its whole cost, for a resumed process as for a fresh one. */
  lemma BookedWithinCost(s: State, usage: Usages, order: seq<string>, m: string)
    requires Ledger(s) && IsOrder(order, usage, s.mainModel) && m in usage && Bounded(ResultStep(s, usage, order))
    ensures 0.0 <= Booked(ResultStep(s, usage, order).out, m) <= 100.0 * usage[m].cost
  {
    ResultBooksExactly(s, usage, order, m);
  }

  lemma {:induction false} RunKeepsBounded(resumed: bool, lines: seq<Line>, states: seq<State>, i: nat)
    requires IsRun(resumed, lines, states) && ReportsNameEstimates(lines, states) && i <= |lines|
    requires forall j :: 0 <= j < |lines| ==> SaneLine(states[j], lines[j])
    ensures Bounded(states[i])
  {
    if i > 0 {
      RunKeepsBounded(resumed, lines, states, i - 1);
      RunKeepsLedger(resumed, lines, states, i - 1);
      StepKeepsBounded(states[i - 1], lines[i - 1], states[i]);
    }
  }

  /** Over any such run with costs that never fall, what each result leaves
      booked for a model it names stays within its cumulative cost. */
  lemma ResumedRunBooksWithinCost(resumed: bool, lines: seq<Line>, states: seq<State>, i: nat)
    requires IsRun(resumed, lines, states) && ReportsNameEstimates(lines, states) && i < |lines| && lines[i].Result?
    requires forall j :: 0 <= j < |lines| ==> SaneLine(states[j], lines[j])
    ensures forall usage: Usages, m :: FoldedByKey(usage, lines[i].modelUsage) && m in usage ==>
              0.0 <= Booked(states[i + 1].out, m) <= 100.0 * usage[m].cost
  {
    RunKeepsLedger(resumed, lines, states, i);
    RunKeepsBounded(resumed, lines, states, i + 1);
    forall usage: Usages, m | FoldedByKey(usage, lines[i].modelUsage) && m in usage
      ensures 0.0 <= Booked(states[i + 1].out, m) <= 100.0 * usage[m].cost
    {
      ResultWithinCost(states[i], lines[i].modelUsage, states[i + 1], usage, m);
    }
  }

  lemma ResultWithinCost(s: State, report: Usages, after: State, usage: Usages, m: string)
    requires Ledger(s) && Steps(s, Result(report), after) && Bounded(after) && FoldedByKey(usage, report) && m in usage
    ensures 0.0 <= Booked(after.out, m) <= 100.0 * usage[m].cost
  {
    var folded, order :| FoldedByKey(folded, report) && IsOrder(order, folded, s.mainModel) && after == ResultStep(s, folded, order);
    FoldIsUnique(usage, folded, report);
    BookedWithinCost(s, usage, order, m);
  }

  // ----- Sums down an order -----

  function OrderTotal(usage: Usages, order: seq<string>): ModelUsage
    requires forall i :: 0 <= i < |order| ==> order[i] in usage
  {
    if order == [] then NO_USAGE else OrderTotal(usage, order[..|order| - 1]).Plus(usage[order[|order| - 1]])
  }

  function Named(usage: Usages, order: seq<string>): Usages
    requires forall i :: 0 <= i < |order| ==> order[i] in usage
  {
    map m | m in order :: usage[m]
  }

  lemma {:induction false} OrderTotalSums(usage: Usages, order: seq<string>)
    requires forall i :: 0 <= i < |order| ==> order[i] in usage
    requires forall i, j :: 0 <= i < j < |order| ==> order[i] != order[j]
    ensures OrderTotal(usage, order) == Total(Named(usage, order))
  {
    if order == [] {
      assert Named(usage, order) == map[];
    } else {
      var init, m := order[..|order| - 1], order[|order| - 1];
      assert order == init + [m];
      OrderTotalSums(usage, init);
      TotalRemove(Named(usage, order), m);
      assert Named(usage, order) - {m} == Named(usage, init);
      PlusSymmetric(usage[m], Total(Named(usage, init)));
    }
  }

  lemma OrderTotalIsTotal(usage: Usages, order: seq<string>, main: string)
    requires IsOrder(order, usage, main)
    ensures OrderTotal(usage, order) == Total(usage)
  {
    OrderTotalSums(usage, order);
    assert Named(usage, order) == usage;
  }

  lemma PutOne(base: map<string, real>, priors: map<string, real>, left: set<string>, m: string)
    requires m in priors && m in left
    ensures (base + (priors - left))[m := priors[m]] == base + (priors - (left - {m}))
  {
  }

  // ----- The session object -----

  class Meter {
    var mainModel: string
    var reqModel: string
    var rate: real
    var prevCost: map<string, real>
    var estimated: map<string, real>
    var turnTokens: map<string, int>
    var resumeBase: bool
    ghost var baseline: map<string, real>
    var out: seq<Usage>

    ghost function View(): State
      reads this
    {
      State(mainModel, reqModel, rate, prevCost, estimated, turnTokens, resumeBase, baseline, out)
    }

    constructor (resumed: bool)
      ensures View() == Start(resumed) && Ledger(View()) && Bounded(View())
    {
      mainModel, reqModel, rate, resumeBase := "", "", 0.0, resumed;
      prevCost, estimated, turnTokens, baseline, out := map[], map[], map[], map[], [];
    }

    method OnInit(model: string)
      modifies this
      ensures Steps(old(View()), Init(model), View())
    {
      if mainModel == "" {
        mainModel := ModelKey(model);
      }
    }

    method OnMessageStart(model: string)
      modifies this
      ensures Steps(old(View()), MessageStart(model), View())
    {
      reqModel := ModelKey(model);
    }

    method OnMessageDelta(usage: Option<ModelUsage>)
      modifies this
      ensures Steps(old(View()), MessageDelta(usage), View())
    {
      if usage == None {
        return;
      }
      var u := usage.value;
      var total := u.Tokens();
      if total == 0 {
        return;
      }
      var model := if reqModel != "" then reqModel else mainModel;
      turnTokens := turnTokens[model := TokensAt(turnTokens, model) + total];
      var credits, estimate := 0.0, false;
      if rate > 0.0 {
        credits, estimate := total as real * rate * 100.0, true;
        estimated := estimated[model := At(estimated, model) + credits];
      }
      out := out + [Usage(model, credits, estimate, false, u.input + u.cacheWrite, u.cacheRead, u.output)];
    }

    /** One model's share of a first cumulative cost settled before. */
    method PriorOf(m: string, mu: ModelUsage) returns (prior: real)
      ensures prior == Prior(View(), m, mu)
    {
      prior := mu.cost;
      var all := mu.Tokens();
      if all > 0 {
        var mine := if TokensAt(turnTokens, m) < all then TokensAt(turnTokens, m) else all;
        prior := prior - mu.cost * mine as real / all as real;
      }
    }

    /** Seed the snapshot of a resumed process's first result. */
    method BaselineResumed(usage: Usages)
      modifies this
      ensures View() == Baselined(old(View()), usage) && mainModel == old(mainModel)
    {
      ghost var was := View();
      ghost var priors := Priors(was, usage);
      var snapshot := prevCost;
      assert priors - usage.Keys == map[] && prevCost + map[] == prevCost;
      var left := usage.Keys;
      while left != {}
        invariant left <= usage.Keys && View() == was
        invariant snapshot == was.prevCost + (priors - left)
        decreases |left|
      {
        var m :| m in left;
        var prior := PriorOf(m, usage[m]);
        PutOne(was.prevCost, priors, left, m);
        snapshot := snapshot[m := prior];
        left := left - {m};
      }
      assert priors - left == priors;
      prevCost := snapshot;
      baseline := baseline + priors;
      resumeBase := false;
    }

    /** The models of a report, the session's own last. */
    method SettleOrder(usage: Usages) returns (order: seq<string>)
      ensures IsOrder(order, usage, mainModel)
    {
      order := [];
      var left := usage.Keys - {mainModel};
      while left != {}
        invariant left <= usage.Keys - {mainModel}
        invariant forall i, j :: 0 <= i < j < |order| ==> order[i] != order[j]
        invariant forall m :: m in order <==> m in usage && m != mainModel && m !in left
        decreases |left|
      {
        var m :| m in left;
        order := order + [m];
        left := left - {m};
      }
      if mainModel in usage {
        order := order + [mainModel];
      }
    }

    method SettleModel(m: string, cost: real)
      modifies this
      ensures View() == SettleOne(old(View()), m, cost)
    {
      var delta := (cost - At(prevCost, m)) * 100.0 - At(estimated, m);
      prevCost := prevCost[m := cost];
      if delta != 0.0 || At(estimated, m) != 0.0 {
        out := out + [Usage(m, delta, false, true, 0, 0, 0)];
      }
    }

    /** Settle each model in order, adding up what the report says. */
    method SettleModels(order: seq<string>, usage: Usages) returns (total: ModelUsage)
      requires forall i :: 0 <= i < |order| ==> order[i] in usage
      modifies this
      ensures View() == SettleAll(old(View()), order, usage) && mainModel == old(mainModel)
      ensures total == OrderTotal(usage, order)
    {
      ghost var from := View();
      total := NO_USAGE;
      var i := 0;
      while i < |order|
        invariant 0 <= i <= |order|
        invariant View() == SettleAll(from, order[..i], usage) && mainModel == from.mainModel
        invariant total == OrderTotal(usage, order[..i])
      {
        assert order[..i + 1][..i] == order[..i];
        total := total.Plus(usage[order[i]]);
        SettleModel(order[i], usage[order[i]].cost);
        i := i + 1;
      }
      assert order[..|order|] == order;
    }

    method SettleReport(usage: Usages) returns (ghost order: seq<string>)
      requires usage != map[]
      modifies this
      ensures IsOrder(order, usage, old(mainModel)) && View() == ResultStep(old(View()), usage, order)
    {
      if resumeBase {
        BaselineResumed(usage);
      }
      var models := SettleOrder(usage);
      var total := SettleModels(models, usage);
      OrderTotalIsTotal(usage, models, mainModel);
      estimated := map[];
      turnTokens := map[];
      if total.Tokens() > 0 {
        rate := total.cost / total.Tokens() as real;
      }
      order := models;
    }

    method OnResult(report: Usages)
      modifies this
      ensures Steps(old(View()), Result(report), View())
    {
      if |report| > 0 {
        var usage := UsageByKey(report);
        EmptyReportFoldsEmpty(usage, report);
        ghost var order := SettleReport(usage);
      } else {
        assert FoldedByKey(map[], report) && IsOrder([], map[], mainModel) && View() == ResultStep(View(), map[], []);
      }
    }
  }
}
