/** Metering a copilot session (internal/agent/copilot.go): usage events pushed
    per call, a stash of message counts for calls that got none, and an idle
    settle against the CLI's cumulative figures.  The SDK's event goroutine and
    the settling goroutines interleave; each locked region is one step.  Costs
    are reals. */
module CopilotLedger {
  import opened Basics

  datatype Amount = Amount(credits: real, input: int, cached: int, output: int) {
    function Plus(o: Amount): Amount {
      Amount(credits + o.credits, input + o.input, cached + o.cached, output + o.output)
    }

    function Minus(o: Amount): Amount {
      Amount(credits - o.credits, input - o.input, cached - o.cached, output - o.output)
    }
  }

  const ZERO := Amount(0.0, 0, 0, 0)

  datatype Sample = Sample(model: string, amount: Amount)

  // ----- One convention for both sources -----

  /** A usage event's counts; absent ones are None. */
  datatype UsageData = UsageData(
    nanoAiu: Option<real>, cost: Option<real>,
    input: Option<int>, cacheRead: Option<int>, output: Option<int>, reasoning: Option<int>)

  /** A model's cumulative entry: its billed figure, its token details when the
      CLI gives them, and its plain counts. */
  datatype Details = Details(input: int, cacheRead: int, cacheWrite: int, output: int)

  datatype Metric = Metric(nanoAiu: Option<real>, details: Option<Details>, input: int, cacheRead: int, output: int)

  const NANO: real := 1_000_000_000.0

  function OrZero(x: Option<int>): int { if x.Some? then x.value else 0 }

  /** Cache reads are split out of the input side, reasoning is output. */
  function EventAmount(d: UsageData): Amount {
    var credits :=
      if d.nanoAiu.Some? && d.nanoAiu.value > 0.0 then d.nanoAiu.value / NANO
      else if d.cost.Some? then d.cost.value
      else 0.0;
    var uncached := OrZero(d.input) - OrZero(d.cacheRead);
    var input := if d.cacheRead.Some? && uncached < 0 then 0 else uncached;
    Amount(credits, input, OrZero(d.cacheRead), OrZero(d.output) + OrZero(d.reasoning))
  }

  function MetricAmount(m: Metric): Amount {
    var credits := if m.nanoAiu.Some? then m.nanoAiu.value / NANO else 0.0;
    if m.details.Some? then
      var d := m.details.value;
      Amount(credits, d.input + d.cacheWrite, d.cacheRead, d.output)
    else Amount(credits, m.input - m.cacheRead, m.cacheRead, m.output)
  }

  /** A call the two sources report alike comes to one amount if and only if its
      input count holds its cache reads. */
  lemma SourcesAgree(nano: real, input: int, cacheRead: int, output: int, reasoning: int)
    requires nano > 0.0
    ensures var e := EventAmount(UsageData(Some(nano), None, Some(input), Some(cacheRead), Some(output), Some(reasoning)));
            var m := MetricAmount(Metric(Some(nano), None, input, cacheRead, output + reasoning));
            e == m <==> cacheRead <= input
  {
  }

  /** The same with the counts told apart: a call's input is what is new, what was
      read from the cache and what was written to it.  A report that gives all
      three counts it as the event and the plain entry do, whatever its plain
      counts say. */
  lemma DetailsAgree(nano: real, cost: Option<real>, uncached: nat, cacheRead: nat, cacheWrite: nat, output: nat, reasoning: nat,
                     plain: Metric)
    requires nano > 0.0
    ensures var input, all := uncached + cacheRead + cacheWrite, output + reasoning;
            var e := EventAmount(UsageData(Some(nano), cost, Some(input), Some(cacheRead), Some(output), Some(reasoning)));
            && e == Amount(nano / NANO, uncached + cacheWrite, cacheRead, all)
            && MetricAmount(Metric(Some(nano), None, input, cacheRead, all)) == e
            && MetricAmount(plain.(nanoAiu := Some(nano), details := Some(Details(uncached, cacheRead, cacheWrite, all)))) == e
  {
  }

  /** With no billed figure the event goes by its cost, if it gives one, and the
      cumulative entry by nothing: they agree if and only if that cost is nothing
      and the input holds the cache reads. */
  lemma UnbilledAgree(nano: Option<real>, cost: Option<real>, input: int, cacheRead: int, output: int, reasoning: int)
    requires nano.Some? ==> nano.value <= 0.0
    ensures var e := EventAmount(UsageData(nano, cost, Some(input), Some(cacheRead), Some(output), Some(reasoning)));
            var m := MetricAmount(Metric(None, None, input, cacheRead, output + reasoning));
            && (cost.Some? ==> e.credits == cost.value) && (cost.None? ==> e.credits == 0.0) && m.credits == 0.0
            && (e == m <==> cacheRead <= input && (cost.Some? ==> cost.value == 0.0))
  {
  }

  // ----- The shared state -----

  datatype State = State(
    settled: map<string, Amount>,     // per model, all that was emitted
    pending: map<string, Sample>,     // by call: stashed, no usage event yet
    metered: set<string>,             // calls that got their usage event
    held: seq<seq<Sample>>,           // stashes taken, not settled yet
    queue: seq<Sample>,               // settled, still to emit
    out: seq<Sample>)

  const START := State(map[], map[], {}, [], [], [])

  function At(m: map<string, Amount>, k: string): Amount { if k in m then m[k] else ZERO }

  datatype Step =
    | MarkMetered(call: string)
    | PushUsage(sample: Sample)
    | Stash(call: string, sample: Sample)
    | Settle(order: seq<string>, metrics: map<string, Amount>)
    | TakePending(taken: seq<Sample>)
    | SettleHeld(i: nat)
    | Emit(i: nat)

  function AddSettled(s: State, x: Sample): State {
    s.(settled := s.settled[x.model := At(s.settled, x.model).Plus(x.amount)], queue := s.queue + [x])
  }

  function AddAll(s: State, xs: seq<Sample>): State {
    if xs == [] then s else AddSettled(AddAll(s, xs[..|xs| - 1]), xs[|xs| - 1])
  }

  function SettleOne(s: State, m: string, cum: Amount): State {
    var d := cum.Minus(At(s.settled, m));
    s.(settled := s.settled[m := cum], queue := if d != ZERO then s.queue + [Sample(m, d)] else s.queue)
  }

  function SettleAll(s: State, order: seq<string>, metrics: map<string, Amount>): State
    requires forall i :: 0 <= i < |order| ==> order[i] in metrics
  {
    if order == [] then s
    else SettleOne(SettleAll(s, order[..|order| - 1], metrics), order[|order| - 1], metrics[order[|order| - 1]])
  }

  /** Each model of the figures once. */
  predicate IsOrder(order: seq<string>, metrics: map<string, Amount>) {
    && (forall i, j :: 0 <= i < j < |order| ==> order[i] != order[j])
    && (forall i :: 0 <= i < |order| ==> order[i] in metrics)
    && (forall m :: m in metrics ==> m in order)
  }

  /** The stash listed in the order of its calls: all of them, each once. */
  predicate Lists(calls: seq<string>, taken: seq<Sample>, pending: map<string, Sample>) {
    && |calls| == |taken| == |pending|
    && (forall i, j :: 0 <= i < j < |calls| ==> calls[i] != calls[j])
    && (forall i :: 0 <= i < |calls| ==> calls[i] in pending && taken[i] == pending[calls[i]])
  }

  /** In any order. */
  ghost predicate ListsStash(taken: seq<Sample>, pending: map<string, Sample>) {
    exists calls: seq<string> :: Lists(calls, taken, pending)
  }

  ghost function Apply(s: State, step: Step): State {
    match step
    case MarkMetered(call) => s.(metered := s.metered + {call}, pending := s.pending - {call})
    case PushUsage(sample) => AddSettled(s, sample)
    case Stash(call, sample) => if call in s.metered then s else s.(pending := s.pending[call := sample])
    case Settle(order, metrics) =>
      if IsOrder(order, metrics) then SettleAll(s.(pending := map[], metered := {}), order, metrics) else s
    case TakePending(taken) =>
      if ListsStash(taken, s.pending) then s.(pending := map[], metered := {}, held := s.held + [taken]) else s
    case SettleHeld(i) =>
      if i < |s.held| then AddAll(s, s.held[i]).(held := s.held[..i] + s.held[i + 1..]) else s
    case Emit(i) =>
      if i < |s.queue| then s.(queue := s.queue[..i] + s.queue[i + 1..], out := s.out + [s.queue[i]]) else s
  }

  ghost function Run(s: State, steps: seq<Step>): State {
    if steps == [] then s else Apply(Run(s, steps[..|steps| - 1]), steps[|steps| - 1])
  }

  lemma TakeIs(s: State, taken: seq<Sample>)
    requires ListsStash(taken, s.pending)
    ensures Apply(s, TakePending(taken)) == s.(pending := map[], metered := {}, held := s.held + [taken])
  {
  }

  // ----- The ledger -----

  datatype Field = Credits | Input | Cached | Output

  function Of(a: Amount, f: Field): real {
    match f
    case Credits => a.credits
    case Input => a.input as real
    case Cached => a.cached as real
    case Output => a.output as real
  }

  lemma OfSums(a: Amount, b: Amount, f: Field)
    ensures Of(a.Plus(b), f) == Of(a, f) + Of(b, f) && Of(a.Minus(b), f) == Of(a, f) - Of(b, f) && Of(ZERO, f) == 0.0
  {
  }

  /** What the samples come to for a model, in one field. */
  function Total(xs: seq<Sample>, m: string, f: Field): real {
    if xs == [] then 0.0
    else
      var before, x := Total(xs[..|xs| - 1], m, f), xs[|xs| - 1];
      if x.model == m then before + Of(x.amount, f) else before
  }

  predicate Balanced(s: State, m: string, f: Field) {
    Of(At(s.settled, m), f) == Total(s.out, m, f) + Total(s.queue, m, f)
  }

  ghost predicate Inv(s: State) {
    && (forall m, f :: Balanced(s, m, f))
    && s.pending.Keys !! s.metered
  }

  lemma TotalSnoc(xs: seq<Sample>, x: Sample, m: string, f: Field)
    ensures Total(xs + [x], m, f) == Total(xs, m, f) + if x.model == m then Of(x.amount, f) else 0.0
  {
    assert (xs + [x])[..|xs|] == xs;
  }

  lemma {:induction false} TotalConcat(a: seq<Sample>, b: seq<Sample>, m: string, f: Field)
    ensures Total(a + b, m, f) == Total(a, m, f) + Total(b, m, f)
  {
    if b == [] {
      assert a + b == a;
    } else {
      var init, x := b[..|b| - 1], b[|b| - 1];
      TotalConcat(a, init, m, f);
      assert a + b == (a + init) + [x];
      TotalSnoc(a + init, x, m, f);
    }
  }

  lemma AddSettledBalances(s: State, x: Sample, m: string, f: Field)
    requires Balanced(s, m, f)
    ensures Balanced(AddSettled(s, x), m, f)
  {
    TotalSnoc(s.queue, x, m, f);
    OfSums(At(s.settled, x.model), x.amount, f);
  }

  lemma {:induction false} AddAllBalances(s: State, xs: seq<Sample>, m: string, f: Field)
    requires Balanced(s, m, f)
    ensures Balanced(AddAll(s, xs), m, f)
  {
    if xs != [] {
      AddAllBalances(s, xs[..|xs| - 1], m, f);
      AddSettledBalances(AddAll(s, xs[..|xs| - 1]), xs[|xs| - 1], m, f);
    }
  }

  lemma {:induction false} AddAllFrame(s: State, xs: seq<Sample>)
    ensures var after := AddAll(s, xs); after.pending == s.pending && after.metered == s.metered && after.held == s.held
  {
    if xs != [] { AddAllFrame(s, xs[..|xs| - 1]); }
  }

  lemma SameAmount(a: Amount, b: Amount, f: Field)
    requires a.Minus(b) == ZERO
    ensures Of(a, f) == Of(b, f)
  {
  }

  lemma SettleOneBalances(s: State, k: string, cum: Amount, m: string, f: Field)
    requires Balanced(s, m, f)
    ensures Balanced(SettleOne(s, k, cum), m, f)
  {
    var had := At(s.settled, k);
    var d := cum.Minus(had);
    if d == ZERO {
      SameAmount(cum, had, f);
    } else {
      OfSums(cum, had, f);
      TotalSnoc(s.queue, Sample(k, d), m, f);
    }
  }

  lemma {:induction false} SettleAllBalances(s: State, order: seq<string>, metrics: map<string, Amount>, m: string, f: Field)
    requires (forall i :: 0 <= i < |order| ==> order[i] in metrics) && Balanced(s, m, f)
    ensures Balanced(SettleAll(s, order, metrics), m, f)
  {
    if order != [] {
      SettleAllBalances(s, order[..|order| - 1], metrics, m, f);
      SettleOneBalances(SettleAll(s, order[..|order| - 1], metrics), order[|order| - 1], metrics[order[|order| - 1]], m, f);
    }
  }

  lemma {:induction false} SettleAllFrame(s: State, order: seq<string>, metrics: map<string, Amount>, m: string)
    requires forall i :: 0 <= i < |order| ==> order[i] in metrics
    ensures var after := SettleAll(s, order, metrics);
            && after.pending == s.pending && after.metered == s.metered && after.held == s.held && after.out == s.out
            && At(after.settled, m) == (if m in order then metrics[m] else At(s.settled, m))
  {
    if order != [] {
      var init, k := order[..|order| - 1], order[|order| - 1];
      SettleAllFrame(s, init, metrics, m);
      assert order == init + [k];
    }
  }

  lemma EmitBalances(s: State, i: nat, m: string, f: Field)
    requires Balanced(s, m, f) && i < |s.queue|
    ensures Balanced(s.(queue := s.queue[..i] + s.queue[i + 1..], out := s.out + [s.queue[i]]), m, f)
  {
    var a, x, b := s.queue[..i], s.queue[i], s.queue[i + 1..];
    assert s.queue == a + [x] + b;
    TotalConcat(a + [x], b, m, f);
    TotalSnoc(a, x, m, f);
    TotalConcat(a, b, m, f);
    TotalSnoc(s.out, x, m, f);
  }

  lemma StepBalances(s: State, step: Step, m: string, f: Field)
    requires Balanced(s, m, f)
    ensures Balanced(Apply(s, step), m, f)
  {
    match step
    case MarkMetered(_) =>
    case PushUsage(sample) => AddSettledBalances(s, sample, m, f);
    case Stash(_, _) =>
    case Settle(order, metrics) =>
      if IsOrder(order, metrics) { SettleAllBalances(s.(pending := map[], metered := {}), order, metrics, m, f); }
    case TakePending(_) =>
    case SettleHeld(i) => if i < |s.held| { AddAllBalances(s, s.held[i], m, f); }
    case Emit(i) => if i < |s.queue| { EmitBalances(s, i, m, f); }
  }

  lemma StepKeepsStashApart(s: State, step: Step)
    requires s.pending.Keys !! s.metered
    ensures Apply(s, step).pending.Keys !! Apply(s, step).metered
  {
    match step
    case Settle(order, metrics) =>
      if IsOrder(order, metrics) { SettleAllFrame(s.(pending := map[], metered := {}), order, metrics, ""); }
    case SettleHeld(i) => if i < |s.held| { AddAllFrame(s, s.held[i]); }
    case _ =>
  }

  lemma StepKeepsInv(s: State, step: Step)
    requires Inv(s)
    ensures Inv(Apply(s, step))
  {
    forall m, f ensures Balanced(Apply(s, step), m, f) {
      StepBalances(s, step, m, f);
    }
    StepKeepsStashApart(s, step);
  }

  lemma {:induction false} RunKeepsInv(steps: seq<Step>)
    ensures Inv(Run(START, steps))
  {
    if steps != [] {
      RunKeepsInv(steps[..|steps| - 1]);
      StepKeepsInv(Run(START, steps[..|steps| - 1]), steps[|steps| - 1]);
    } else {
      forall m, f ensures Balanced(START, m, f) { OfSums(ZERO, ZERO, f); }
    }
  }

  // ----- What every interleaving promises -----

  /** In every interleaving what is settled for a model is, in every field, what
      was emitted for it with what is on its way out. */
  lemma SettledIsEmitted(steps: seq<Step>, m: string, f: Field)
    ensures var s := Run(START, steps);
            Of(At(s.settled, m), f) == Total(s.out, m, f) + Total(s.queue, m, f)
            && (s.queue == [] ==> Of(At(s.settled, m), f) == Total(s.out, m, f))
  {
    RunKeepsInv(steps);
    assert Balanced(Run(START, steps), m, f);
  }

  /** A settle that read its figures brings each model it names to exactly its
      cumulative figure, whatever was pushed, stashed or flushed before and
      however long ago the figures were read; a flush is corrected, not kept. */
  lemma SettleReachesTheFigures(steps: seq<Step>, order: seq<string>, metrics: map<string, Amount>, m: string, f: Field)
    requires IsOrder(order, metrics) && m in metrics
    ensures var s := Apply(Run(START, steps), Settle(order, metrics));
            At(s.settled, m) == metrics[m] && Total(s.out, m, f) + Total(s.queue, m, f) == Of(metrics[m], f)
  {
    var s := Run(START, steps);
    RunKeepsInv(steps);
    assert Balanced(s, m, f);
    StepBalances(s, Settle(order, metrics), m, f);
    SettleAllFrame(s.(pending := map[], metered := {}), order, metrics, m);
  }

  /** Between resets a metered call is never in the stash, so whatever sample the
      fallback flushes, no usage event covered its call. */
  lemma MeteredCallsAreNotFlushed(steps: seq<Step>, taken: seq<Sample>)
    ensures var s := Run(START, steps);
            && (forall call :: call in s.metered ==> call !in s.pending)
            && (forall calls: seq<string>, i :: Lists(calls, taken, s.pending) && 0 <= i < |calls| ==> calls[i] !in s.metered)
  {
    RunKeepsInv(steps);
  }

  /** Once a call is metered its late messages stay out of the stash until the
      next reset. */
  lemma {:induction false} MeteredStaysOut(s: State, steps: seq<Step>, call: string)
    requires s.pending.Keys !! s.metered && call in s.metered
    requires forall i :: 0 <= i < |steps| ==> !steps[i].Settle? && !steps[i].TakePending?
    ensures call in Run(s, steps).metered && call !in Run(s, steps).pending
    ensures Run(s, steps).pending.Keys !! Run(s, steps).metered
  {
    if steps != [] {
      var before, step := steps[..|steps| - 1], steps[|steps| - 1];
      MeteredStaysOut(s, before, call);
      StepKeepsStashApart(Run(s, before), step);
      if step.SettleHeld? && step.i < |Run(s, before).held| {
        AddAllFrame(Run(s, before), Run(s, before).held[step.i]);
      }
    }
  }

  // ----- What the stash holds -----

  /** The run's settles name each model once, and its flushes take what is
      stashed. */
  ghost predicate Plays(steps: seq<Step>) {
    steps == [] || (
      var before := steps[..|steps| - 1];
      && Plays(before)
      && match steps[|steps| - 1]
         case Settle(order, metrics) => IsOrder(order, metrics)
         case TakePending(taken) => ListsStash(taken, Run(START, before).pending)
         case _ => true)
  }

  /** The call got its usage event since the last settle or flush. */
  predicate Covered(steps: seq<Step>, call: string) {
    steps != [] && (
      match steps[|steps| - 1]
      case MarkMetered(c) => c == call || Covered(steps[..|steps| - 1], call)
      case Settle(_, _) => false
      case TakePending(_) => false
      case _ => Covered(steps[..|steps| - 1], call))
  }

  /** The last count of a message of the call since then, none once it got its
      usage event. */
  function LastCount(steps: seq<Step>, call: string): Option<Sample> {
    if steps == [] then None
    else
      var before := steps[..|steps| - 1];
      match steps[|steps| - 1]
      case Stash(c, x) => if c == call && !Covered(before, call) then Some(x) else LastCount(before, call)
      case MarkMetered(c) => if c == call then None else LastCount(before, call)
      case Settle(_, _) => None
      case TakePending(_) => None
      case _ => LastCount(before, call)
  }

  ghost predicate StashedAs(s: State, steps: seq<Step>, call: string) {
    && (call in s.metered <==> Covered(steps, call))
    && (if call in s.pending then Some(s.pending[call]) else None) == LastCount(steps, call)
  }

  lemma StashStep(s: State, before: seq<Step>, step: Step, call: string, after: State, steps: seq<Step>)
    requires StashedAs(s, before, call) && after == Apply(s, step)
    requires steps != [] && before == steps[..|steps| - 1] && step == steps[|steps| - 1]
    requires step.Settle? ==> IsOrder(step.order, step.metrics)
    requires step.TakePending? ==> ListsStash(step.taken, s.pending)
    ensures StashedAs(after, steps, call)
  {
    match step
    case Settle(order, metrics) => SettleAllFrame(s.(pending := map[], metered := {}), order, metrics, "");
    case SettleHeld(i) => if i < |s.held| { AddAllFrame(s, s.held[i]); }
    case _ =>
  }

  /** In every interleaving the stash holds of each call the latest count its
      messages gave since the last settle or flush, and none of a call that got
      its usage event. */
  lemma {:induction false} StashHoldsTheLatest(steps: seq<Step>, call: string)
    requires Plays(steps)
    ensures StashedAs(Run(START, steps), steps, call)
  {
    if steps != [] {
      var before := steps[..|steps| - 1];
      StashHoldsTheLatest(before, call);
      StashStep(Run(START, before), before, steps[|steps| - 1], call, Run(START, steps), steps);
    }
  }

  // ----- The session object -----

  class Session {
    var settled: map<string, Amount>
    var pending: map<string, Sample>
    var metered: set<string>
    var held: seq<seq<Sample>>
    var queue: seq<Sample>
    var out: seq<Sample>

    ghost function View(): State
      reads this
    {
      State(settled, pending, metered, held, queue, out)
    }

    constructor ()
      ensures View() == START
    {
      settled, pending, metered, held, queue, out := map[], map[], {}, [], [], [];
    }

    method AddSettledUsage(x: Sample)
      modifies this
      ensures View() == AddSettled(old(View()), x)
    {
      var t := At(settled, x.model);
      settled := settled[x.model := t.Plus(x.amount)];
      queue := queue + [x];
    }

    method StashMessageUsage(call: Option<string>, output: Option<int>, model: string)
      modifies this
      ensures View() == if call.Some? && output.Some?
                        then Apply(old(View()), Stash(call.value, Sample(model, Amount(0.0, 0, 0, output.value))))
                        else old(View())
    {
      if output == None || call == None {
        return;
      }
      if call.value in metered {
        return;
      }
      pending := pending[call.value := Sample(model, Amount(0.0, 0, 0, output.value))];
    }

    method MarkUsageMetered(call: Option<string>)
      modifies this
      ensures View() == if call.Some? then Apply(old(View()), MarkMetered(call.value)) else old(View())
    {
      if call == None {
        return;
      }
      metered := metered + {call.value};
      pending := pending - {call.value};
    }

    /** The stash, listed. */
    method ListPending() returns (taken: seq<Sample>)
      ensures ListsStash(taken, pending)
    {
      taken := [];
      ghost var calls: seq<string> := [];
      var left := pending.Keys;
      while left != {}
        invariant left <= pending.Keys && |calls| == |taken| == |pending| - |left|
        invariant forall i, j :: 0 <= i < j < |calls| ==> calls[i] != calls[j]
        invariant forall i :: 0 <= i < |calls| ==> calls[i] in pending && calls[i] !in left && taken[i] == pending[calls[i]]
        decreases |left|
      {
        var c :| c in left;
        calls := calls + [c];
        taken := taken + [pending[c]];
        left := left - {c};
      }
      assert Lists(calls, taken, pending);
    }

    /** The stash, listed and reset. */
    method TakePendingUsage() returns (taken: seq<Sample>)
      modifies this
      ensures ListsStash(taken, old(pending))
      ensures View() == Apply(old(View()), TakePending(taken))
    {
      ghost var was := View();
      taken := ListPending();
      TakeIs(was, taken);
      pending := map[];
      metered := {};
      held := held + [taken];
    }

    /** The fallback's second locked region: a stash taken, any of those held. */
    method SettleFlushed(n: nat)
      requires n < |held|
      modifies this
      ensures View() == Apply(old(View()), SettleHeld(n))
    {
      ghost var was := View();
      var batch := held[n];
      var i := 0;
      while i < |batch|
        invariant 0 <= i <= |batch|
        invariant View() == AddAll(was, batch[..i])
      {
        assert batch[..i + 1][..i] == batch[..i];
        AddSettledUsage(batch[i]);
        i := i + 1;
      }
      assert batch[..|batch|] == batch;
      AddAllFrame(was, batch);
      held := held[..n] + held[n + 1..];
    }

    /** The settle's locked region, on the figures read before it. */
    method SettleFigures(metrics: map<string, Amount>) returns (order: seq<string>)
      modifies this
      ensures IsOrder(order, metrics)
      ensures View() == Apply(old(View()), Settle(order, metrics))
    {
      pending := map[];
      metered := {};
      ghost var from := View();
      order := [];
      var left := metrics.Keys;
      while left != {}
        invariant left <= metrics.Keys
        invariant forall i, j :: 0 <= i < j < |order| ==> order[i] != order[j]
        invariant forall i :: 0 <= i < |order| ==> order[i] in metrics && order[i] !in left
        invariant forall m :: m in metrics ==> m in left || m in order
        invariant View() == SettleAll(from, order, metrics)
        decreases |left|
      {
        var m :| m in left;
        var d := metrics[m].Minus(At(settled, m));
        assert (order + [m])[..|order|] == order;
        settled := settled[m := metrics[m]];
        if d != ZERO {
          queue := queue + [Sample(m, d)];
        }
        order := order + [m];
        left := left - {m};
      }
    }
  }
}
