/** A card's event log, and the decisions open on it
    (internal/cardrun/spans.go). */
module CardLog {
  import opened Spans

  /** What the fold reads of an event, its payload decoded.  A payload that does
      not decode reads as one with empty fields. */
  datatype Body =
    | StageEnter(role: string, flavor: string)
    | StageExit(exitCredits: real)
    | Gate(id: string, target: string)
    | Ask(id: string)
    | DecisionOpen(id: string, asks: bool)
    | Other

  datatype Event = Event(at: Time, stage: string, body: Body)

  predicate NonDecreasing(evs: seq<Event>) {
    forall i, j :: 0 <= i < j < |evs| ==> evs[i].at <= evs[j].at
  }

  /** Every event carries a time. */
  predicate Timed(evs: seq<Event>) {
    forall i :: 0 <= i < |evs| ==> evs[i].at != NO_TIME
  }

  // ----- Answers -----

  predicate Answers(ev: Event, id: string) {
    (ev.body.Gate? || ev.body.Ask?) && ev.body.id == id && id != ""
  }

  /** t is when id was first answered. */
  ghost predicate FirstAnswer(evs: seq<Event>, id: string, t: Time) {
    && (exists k :: 0 <= k < |evs| && Answers(evs[k], id) && evs[k].at == t)
    && (forall k :: 0 <= k < |evs| && Answers(evs[k], id) ==> t <= evs[k].at)
  }

  ghost predicate Answered(evs: seq<Event>, id: string) {
    exists k :: 0 <= k < |evs| && Answers(evs[k], id)
  }

  ghost predicate AnswerTable(evs: seq<Event>, m: map<string, Time>) {
    && (forall id :: id in m <==> Answered(evs, id))
    && (forall id :: id in m ==> FirstAnswer(evs, id, m[id]))
  }

  method AnsweredAt(evs: seq<Event>) returns (answeredAt: map<string, Time>)
    ensures AnswerTable(evs, answeredAt)
  {
    answeredAt := map[];
    var i := 0;
    while i < |evs|
      invariant 0 <= i <= |evs|
      invariant AnswerTable(evs[..i], answeredAt)
    {
      var ev := evs[i];
      var before := answeredAt;
      if ev.body.Gate? || ev.body.Ask? {
        var id := ev.body.id;
        if id != "" && (id !in answeredAt || ev.at < answeredAt[id]) {
          answeredAt := answeredAt[id := ev.at];
        }
      }
      AnswerTableGrows(evs, i, before, answeredAt);
      i := i + 1;
    }
    assert evs[..|evs|] == evs;
  }

  lemma AnswerTableGrows(evs: seq<Event>, i: nat, before: map<string, Time>, after: map<string, Time>)
    requires i < |evs| && AnswerTable(evs[..i], before)
    requires
      var ev := evs[i];
      if (ev.body.Gate? || ev.body.Ask?) && ev.body.id != "" && (ev.body.id !in before || ev.at < before[ev.body.id])
      then after == before[ev.body.id := ev.at] else after == before
    ensures AnswerTable(evs[..i + 1], after)
  {
    var p, q := evs[..i], evs[..i + 1];
    assert q[i] == evs[i];
    assert forall k :: 0 <= k < i ==> q[k] == p[k];
    forall id ensures Answered(q, id) <==> Answered(p, id) || Answers(evs[i], id) {
      if Answered(p, id) {
        var k :| 0 <= k < |p| && Answers(p[k], id);
        assert Answers(q[k], id);
      }
    }
    forall id | id in after ensures FirstAnswer(q, id, after[id]) {
      if id in before {
        var k :| 0 <= k < |p| && Answers(p[k], id) && p[k].at == before[id];
        assert Answers(q[k], id);
      }
    }
  }

  // ----- Abandonment -----

  /** Whether ev ends an unanswered decision of the stage: the card is filed
      elsewhere or a gate carries it out, and, when the pass bounds it, the
      pass's own end. */
  predicate Ends(stage: string, ev: Event, passEnd: bool) {
    || (passEnd && (ev.body.StageExit? || ev.body.StageEnter?))
    || (stage != "" && ev.stage != "" && ev.stage != stage)
    || (stage != "" && ev.body.Gate? && ev.body.target != "" && ev.body.target != stage)
  }

  /** The first event at or after j that ends the decision, |evs| if none. */
  function FirstEnd(evs: seq<Event>, j: nat, stage: string, passEnd: bool): (k: nat)
    requires j <= |evs|
    ensures j <= k <= |evs|
    ensures k < |evs| ==> Ends(stage, evs[k], passEnd)
    ensures forall n :: j <= n < k ==> !Ends(stage, evs[n], passEnd)
    decreases |evs| - j
  {
    if j == |evs| || Ends(stage, evs[j], passEnd) then j else FirstEnd(evs, j + 1, stage, passEnd)
  }

  method AbandonedAt(evs: seq<Event>, i: nat, passEnd: bool) returns (at: Time, ok: bool)
    requires i < |evs|
    ensures var k := FirstEnd(evs, i + 1, evs[i].stage, passEnd);
            ok == (k < |evs|) && at == if ok then evs[k].at else NO_TIME
  {
    var stage := evs[i].stage;
    var j := i + 1;
    while j < |evs|
      invariant i + 1 <= j <= |evs|
      invariant FirstEnd(evs, i + 1, stage, passEnd) == FirstEnd(evs, j, stage, passEnd)
    {
      var ev := evs[j];
      if passEnd && (ev.body.StageExit? || ev.body.StageEnter?) {
        return ev.at, true;
      }
      if stage != "" {
        if ev.stage != "" && ev.stage != stage {
          return ev.at, true;
        }
        if ev.body.Gate? {
          if ev.body.target != "" && ev.body.target != stage {
            return ev.at, true;
          }
        }
      }
      j := j + 1;
    }
    return NO_TIME, false;
  }

  // ----- Decision spans -----

  predicate IsDecision(ev: Event, asksOnly: bool) {
    ev.body.DecisionOpen? && ev.body.id != "" && (asksOnly ==> ev.body.asks)
  }

  /** When the decision opened at evs[i] stopped waiting: at its first answer,
      else where the card left it; the zero time while neither happened. */
  ghost function DecisionEnd(evs: seq<Event>, i: nat, asksOnly: bool): Time
    requires i < |evs| && evs[i].body.DecisionOpen?
  {
    var id := evs[i].body.id;
    if Answered(evs, id) then AnswerTime(evs, id)
    else
      var k := FirstEnd(evs, i + 1, evs[i].stage, asksOnly);
      if k < |evs| then evs[k].at else NO_TIME
  }

  ghost function AnswerTime(evs: seq<Event>, id: string): (t: Time)
    requires Answered(evs, id)
    ensures FirstAnswer(evs, id, t)
  {
    FirstAnswerExists(evs, id);
    var t: Time :| FirstAnswer(evs, id, t);
    t
  }

  lemma {:induction false} FirstAnswerExists(evs: seq<Event>, id: string)
    requires Answered(evs, id)
    ensures exists t: Time :: FirstAnswer(evs, id, t)
  {
    var init, ev := evs[..|evs| - 1], evs[|evs| - 1];
    var k :| 0 <= k < |evs| && Answers(evs[k], id);
    if !Answered(init, id) {
      forall n | 0 <= n < |init| ensures !Answers(evs[n], id) {
        assert init[n] == evs[n];
      }
      assert FirstAnswer(evs, id, ev.at);
    } else {
      FirstAnswerExists(init, id);
      var t: Time :| FirstAnswer(init, id, t);
      var n :| 0 <= n < |init| && Answers(init[n], id) && init[n].at == t;
      assert Answers(evs[n], id);
      if Answers(ev, id) && ev.at < t {
        assert FirstAnswer(evs, id, ev.at);
      } else {
        assert FirstAnswer(evs, id, t);
      }
    }
  }

  /** The card is on record under another stage than the decision's. */
  predicate FiledElsewhere(from: Event, ev: Event) {
    from.stage != "" && ev.stage !in ["", from.stage]
  }

  /** A gate takes the card to another stage than the decision's. */
  predicate CarriedOut(from: Event, ev: Event) {
    from.stage != "" && ev.body.Gate? && ev.body.target !in ["", from.stage]
  }

  /** The pass that a question holds is over. */
  predicate PassOver(ev: Event) { ev.body.StageEnter? || ev.body.StageExit? }

  predicate Leaves(evs: seq<Event>, i: nat, j: nat, asksOnly: bool)
    requires i < |evs| && j < |evs|
  {
    FiledElsewhere(evs[i], evs[j]) || CarriedOut(evs[i], evs[j]) || (asksOnly && PassOver(evs[j]))
  }

  /** Event j is the first after i by which the card left. */
  predicate FirstLeaves(evs: seq<Event>, i: nat, j: nat, asksOnly: bool)
    requires i < |evs| && j < |evs|
  {
    i < j && Leaves(evs, i, j, asksOnly) && forall k: nat :: i < k < j ==> !Leaves(evs, i, k, asksOnly)
  }

  predicate NeverLeaves(evs: seq<Event>, i: nat, asksOnly: bool)
    requires i < |evs|
  {
    forall k: nat :: i < k < |evs| ==> !Leaves(evs, i, k, asksOnly)
  }

  lemma LeavesIsEnds(evs: seq<Event>, i: nat, j: nat, asksOnly: bool)
    requires i < |evs| && j < |evs|
    ensures Leaves(evs, i, j, asksOnly) <==> Ends(evs[i].stage, evs[j], asksOnly)
  {
  }

  /** An answered decision ends at its earliest answer.  An unanswered one ends at
      the first later event by which the card left its stage, or for a question's
      hold its pass, and is open while there is none. */
  lemma DecisionEndIs(evs: seq<Event>, i: nat, asksOnly: bool)
    requires i < |evs| && evs[i].body.DecisionOpen?
    ensures var id, end := evs[i].body.id, DecisionEnd(evs, i, asksOnly);
            && (Answered(evs, id) ==> FirstAnswer(evs, id, end))
            && (!Answered(evs, id) ==>
                  && (forall j: nat :: j < |evs| && FirstLeaves(evs, i, j, asksOnly) ==> end == evs[j].at)
                  && ((exists j: nat :: j < |evs| && FirstLeaves(evs, i, j, asksOnly)) || NeverLeaves(evs, i, asksOnly))
                  && (NeverLeaves(evs, i, asksOnly) ==> end == NO_TIME))
  {
    var k := FirstEnd(evs, i + 1, evs[i].stage, asksOnly);
    forall j: nat | j < |evs| ensures Leaves(evs, i, j, asksOnly) <==> Ends(evs[i].stage, evs[j], asksOnly) {
      LeavesIsEnds(evs, i, j, asksOnly);
    }
    if k < |evs| {
      assert FirstLeaves(evs, i, k, asksOnly);
      assert forall j: nat :: j < k ==> !FirstLeaves(evs, i, j, asksOnly);
      assert forall j: nat :: k < j < |evs| ==> !FirstLeaves(evs, i, j, asksOnly);
    } else {
      assert NeverLeaves(evs, i, asksOnly);
    }
  }

  /** The span of the decision at evs[i], as it is collected: none when the
      answer is not after its own question. */
  ghost function RawSpan(evs: seq<Event>, i: nat, asksOnly: bool): seq<Span>
    requires i < |evs|
  {
    if !IsDecision(evs[i], asksOnly) then []
    else
      var s := Span(evs[i].at, DecisionEnd(evs, i, asksOnly));
      if Proper(s) then [s] else []
  }

  ghost function RawSpans(evs: seq<Event>, n: nat, asksOnly: bool): seq<Span>
    requires n <= |evs|
  {
    if n == 0 then [] else RawSpans(evs, n - 1, asksOnly) + RawSpan(evs, n - 1, asksOnly)
  }

  ghost function DecisionSpansOf(evs: seq<Event>, asksOnly: bool): seq<Span> {
    Union(RawSpans(evs, |evs|, asksOnly))
  }

  /** A decision standing open at instant t. */
  ghost predicate OpenAt(evs: seq<Event>, i: nat, asksOnly: bool, t: Time)
    requires i < |evs|
  {
    IsDecision(evs[i], asksOnly) && Contains(Span(evs[i].at, DecisionEnd(evs, i, asksOnly)), t)
  }

  ghost predicate SomeOpenAt(evs: seq<Event>, n: nat, asksOnly: bool, t: Time)
    requires n <= |evs|
  {
    exists i: nat :: i < n && OpenAt(evs, i, asksOnly, t)
  }

  lemma SomeOpenSnoc(evs: seq<Event>, n: nat, asksOnly: bool, t: Time)
    requires n < |evs|
    ensures SomeOpenAt(evs, n + 1, asksOnly, t) <==> SomeOpenAt(evs, n, asksOnly, t) || OpenAt(evs, n, asksOnly, t)
  {
    if SomeOpenAt(evs, n + 1, asksOnly, t) {
      var i: nat :| i < n + 1 && OpenAt(evs, i, asksOnly, t);
    }
  }

  lemma RawSpanMeaning(evs: seq<Event>, i: nat, asksOnly: bool, t: Time)
    requires i < |evs|
    ensures var r := RawSpan(evs, i, asksOnly);
            |r| <= 1 && AllProper(r) && (OpenAt(evs, i, asksOnly, t) <==> r != [] && Contains(r[0], t))
  {
  }

  lemma {:induction false} RawSpansMeaning(evs: seq<Event>, n: nat, asksOnly: bool, t: Time)
    requires n <= |evs|
    ensures AllProper(RawSpans(evs, n, asksOnly))
    ensures Covers(RawSpans(evs, n, asksOnly), t) <==> SomeOpenAt(evs, n, asksOnly, t)
  {
    if n > 0 {
      var before, r := RawSpans(evs, n - 1, asksOnly), RawSpan(evs, n - 1, asksOnly);
      RawSpansMeaning(evs, n - 1, asksOnly, t);
      SomeOpenSnoc(evs, n - 1, asksOnly, t);
      RawSpanMeaning(evs, n - 1, asksOnly, t);
      if r == [] {
        assert before + r == before;
      } else {
        CoversSnoc(before, r[0], t);
      }
    }
  }

  /** The spans are canonical and cover an instant exactly when some decision
      of the kind asked for stands open at it. */
  lemma DecisionSpansMeaning(evs: seq<Event>, asksOnly: bool, t: Time)
    ensures Canonical(DecisionSpansOf(evs, asksOnly))
    ensures Covers(DecisionSpansOf(evs, asksOnly), t) <==> SomeOpenAt(evs, |evs|, asksOnly, t)
  {
    RawSpansMeaning(evs, |evs|, asksOnly, t);
    UnionMeaning(RawSpans(evs, |evs|, asksOnly));
  }

  /** The span of one event, none when it opens no decision or closes before it
      began. */
  method CollectSpan(evs: seq<Event>, i: nat, asksOnly: bool, answeredAt: map<string, Time>) returns (raw: seq<Span>)
    requires i < |evs| && AnswerTable(evs, answeredAt)
    ensures raw == RawSpan(evs, i, asksOnly)
  {
    var ev := evs[i];
    if !ev.body.DecisionOpen? || ev.body.id == "" {
      return [];
    }
    if asksOnly && !ev.body.asks {
      return [];
    }
    var to := NO_TIME;
    if ev.body.id in answeredAt {
      to := answeredAt[ev.body.id];
    } else {
      var end, ok := AbandonedAt(evs, i, asksOnly);
      if ok {
        to := end;
      }
    }
    FirstAnswerIsUnique(evs, ev.body.id, to);
    if to != NO_TIME && !(to > ev.at) {
      return [];
    }
    raw := [Span(ev.at, to)];
  }

  method DecisionSpans(evs: seq<Event>, asksOnly: bool) returns (out: seq<Span>)
    ensures out == DecisionSpansOf(evs, asksOnly)
    ensures Canonical(out)
    ensures forall t: Time :: Covers(out, t) <==> SomeOpenAt(evs, |evs|, asksOnly, t)
  {
    var answeredAt := AnsweredAt(evs);
    var spans := [];
    var i := 0;
    while i < |evs|
      invariant 0 <= i <= |evs|
      invariant spans == RawSpans(evs, i, asksOnly)
    {
      var raw := CollectSpan(evs, i, asksOnly, answeredAt);
      spans := spans + raw;
      i := i + 1;
    }
    var a := new Span[|spans|](n requires 0 <= n < |spans| => spans[n]);
    assert a[..] == spans;
    out := UnionSpans(a);
    forall t: Time ensures Canonical(out) && (Covers(out, t) <==> SomeOpenAt(evs, |evs|, asksOnly, t)) {
      DecisionSpansMeaning(evs, asksOnly, t);
    }
    DecisionSpansMeaning(evs, asksOnly, 0);
  }

  lemma FirstAnswerIsUnique(evs: seq<Event>, id: string, t: Time)
    ensures Answered(evs, id) && FirstAnswer(evs, id, t) ==> t == AnswerTime(evs, id)
  {
    if Answered(evs, id) && FirstAnswer(evs, id, t) {
      var u := AnswerTime(evs, id);
      var k :| 0 <= k < |evs| && Answers(evs[k], id) && evs[k].at == t;
      var n :| 0 <= n < |evs| && Answers(evs[n], id) && evs[n].at == u;
    }
  }

  /** Whether the question at evs[i] stops holding its pass no later than it
      stops waiting for its answer.  Unanswered, it waits until the card leaves
      the stage, at event k, and holds until its pass ends or the card leaves, at
      event j: an end without a time leaves a span open, and an end no later
      than the question leaves none. */
  ghost predicate HoldsNoLonger(evs: seq<Event>, i: nat)
    requires i < |evs| && evs[i].body.DecisionOpen?
  {
    var j, k := FirstEnd(evs, i + 1, evs[i].stage, true), FirstEnd(evs, i + 1, evs[i].stage, false);
    || Answered(evs, evs[i].body.id)
    || k == |evs|
    || evs[k].at == NO_TIME
    || (j < |evs| && evs[j].at != NO_TIME && (evs[j].at <= evs[k].at || evs[j].at <= evs[i].at))
  }

  /** The question holds its pass only while the decision waits, exactly then. */
  lemma AskWithinIff(evs: seq<Event>, i: nat)
    requires i < |evs| && IsDecision(evs[i], true)
    ensures (forall t: Time :: OpenAt(evs, i, true, t) ==> OpenAt(evs, i, false, t)) <==> HoldsNoLonger(evs, i)
  {
    var ask, decision := Span(evs[i].at, DecisionEnd(evs, i, true)), Span(evs[i].at, DecisionEnd(evs, i, false));
    if !HoldsNoLonger(evs, i) {
      // The first instant past the decision at which the question still holds.
      var t: Time := if decision.to > ask.from then decision.to else ask.from;
      assert OpenAt(evs, i, true, t) && !OpenAt(evs, i, false, t);
    }
  }

  /** On an ordered log of timed events every question holds no longer. */
  lemma OrderedLogsHoldNoLonger(evs: seq<Event>, i: nat)
    requires NonDecreasing(evs) && Timed(evs) && i < |evs| && evs[i].body.DecisionOpen?
    ensures HoldsNoLonger(evs, i)
  {
    var j, k := FirstEnd(evs, i + 1, evs[i].stage, true), FirstEnd(evs, i + 1, evs[i].stage, false);
    assert k < |evs| ==> Ends(evs[i].stage, evs[k], true);
    assert j <= k;
  }

  /** A question's hold on its own pass never outlasts the decision it is: on
      an ordered log, AskSpans covers only instants DecisionSpans covers. */
  lemma AsksAreDecisions(evs: seq<Event>, t: Time)
    requires NonDecreasing(evs) && Timed(evs)
    ensures Covers(DecisionSpansOf(evs, true), t) ==> Covers(DecisionSpansOf(evs, false), t)
  {
    DecisionSpansMeaning(evs, true, t);
    DecisionSpansMeaning(evs, false, t);
    if SomeOpenAt(evs, |evs|, true, t) {
      var i: nat :| i < |evs| && OpenAt(evs, i, true, t);
      OrderedLogsHoldNoLonger(evs, i);
      AskWithinIff(evs, i);
      assert OpenAt(evs, i, false, t);
    }
  }

  const UNTIMED_LOG: seq<Event> :=
    [Event(0, "plan", DecisionOpen("q", true)), Event(0, "plan", StageExit(0.0)), Event(5, "build", Other)]

  /** An event without a time breaks that: the question below is cut off by its
      pass's exit at the zero time, which reads as still open, while the
      decision itself closed when the card moved on. */
  lemma AsksOutliveDecisionsWithoutTimes()
    ensures NonDecreasing(UNTIMED_LOG) && !Timed(UNTIMED_LOG)
    ensures Covers(DecisionSpansOf(UNTIMED_LOG, true), 7) && !Covers(DecisionSpansOf(UNTIMED_LOG, false), 7)
  {
    var evs := UNTIMED_LOG;
    assert evs[0].at == NO_TIME;
    DecisionSpansMeaning(evs, true, 7);
    DecisionSpansMeaning(evs, false, 7);
    forall k | 0 <= k < |evs| ensures !Answers(evs[k], "q") {}
    assert Ends("plan", evs[1], true) && !Ends("plan", evs[1], false) && Ends("plan", evs[2], false);
    assert DecisionEnd(evs, 0, true) == NO_TIME && DecisionEnd(evs, 0, false) == 5;
    assert OpenAt(evs, 0, true, 7);
    forall i: nat | i < |evs| ensures !OpenAt(evs, i, false, 7) {}
  }

  // ----- Waiting -----

  method WaitSpans(evs: seq<Event>, from: Time, to: Time) returns (out: seq<Span>)
    ensures Canonical(out) && Within(out, from, to)
    ensures forall t: Time :: Covers(out, t) <==> from <= t < to && SomeOpenAt(evs, |evs|, false, t)
    ensures from <= to ==> TotalLength(out) == CoveredIn(DecisionSpansOf(evs, false), from, to)
  {
    if !(to > from) {
      if from == to { TotalLengthCounts([], from, to); }
      return [];
    }
    var decided := DecisionSpans(evs, false);
    out := ClampSpans(decided, from, to);
    ClampKeepsCanonical(decided, from, to);
    TotalLengthCounts(out, from, to);
    CoveredCongruent(out, decided, from, to);
  }

  /** The waiting total: the instants of the window at which some decision
      stands open. */
  method WaitTime(evs: seq<Event>, from: Time, to: Time) returns (d: int)
    ensures d == CoveredIn(DecisionSpansOf(evs, false), from, to)
  {
    if !(to > from) {
      return 0;
    }
    var decided := DecisionSpans(evs, false);
    var clamped := ClampSpans(decided, from, to);
    var a := new Span[|clamped|](n requires 0 <= n < |clamped| => clamped[n]);
    assert a[..] == clamped;
    d := UnionDuration(a);
    ClampedUnionCounts(decided, from, to);
  }

  /** The merge in WaitTime finds nothing left to merge: the total is the plain
      sum of the drawn spans. */
  lemma WaitTimeIsPlainSum(evs: seq<Event>, from: Time, to: Time)
    requires from <= to
    ensures var drawn := Clamp(DecisionSpansOf(evs, false), from, to);
            Union(drawn) == drawn && TotalLength(drawn) == CoveredIn(DecisionSpansOf(evs, false), from, to)
  {
    DecisionSpansMeaning(evs, false, 0);
    ClampKeepsCanonical(DecisionSpansOf(evs, false), from, to);
    UnionOfCanonical(Clamp(DecisionSpansOf(evs, false), from, to));
    ClampedUnionCounts(DecisionSpansOf(evs, false), from, to);
  }

  /** Adjacent windows neither share nor lose waiting time. */
  lemma WaitTimeAddsUp(evs: seq<Event>, from: Time, mid: Time, to: Time)
    requires from <= mid <= to
    ensures CoveredIn(DecisionSpansOf(evs, false), from, to)
         == CoveredIn(DecisionSpansOf(evs, false), from, mid) + CoveredIn(DecisionSpansOf(evs, false), mid, to)
  {
    CoveredSplit(DecisionSpansOf(evs, false), from, mid, to);
  }
}
