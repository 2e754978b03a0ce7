/** The card's clock: the hours an agent worked, the hours the card waited, and
    on whom (internal/cardrun/report.go, clock). */
module CardClock {
  import opened Spans
  import opened CardLog
  import opened Passes

  datatype Clock = Clock(agent: int, elapsed: int, waiting: int, onYou: int, idle: int, toFirstGate: int)

  /** Where the clock stands after the first n passes: the life seen so far is
      [first,last), and what the agent has worked fits the unasked part of it. */
  ghost predicate Ticking(ss: seq<Session>, n: nat, asks: seq<Span>, agent: int, first: Time, last: Time) {
    && n <= |ss| && agent >= 0
    && (first == NO_TIME ==> agent == 0 && last == NO_TIME)
    && (forall j :: n <= j < |ss| ==> (first == NO_TIME || first <= ss[j].started) && last <= ss[j].started)
    && (last != NO_TIME ==> first <= last)
    && (if first <= last then agent <= UncoveredIn(asks, first, last) else agent == 0)
  }

  /** One more pass: it starts after the life seen so far, so its working time
      is its own. */
  lemma TickPass(ss: seq<Session>, n: nat, asks: seq<Span>, agent: int, first: Time, last: Time)
    requires Ticking(ss, n, asks, agent, first, last) && InOrder(ss) && n < |ss| && ss[n].started != NO_TIME
    ensures var p := ss[n];
            var first' := if first == NO_TIME || p.started < first then p.started else first;
            var agent' := agent + if p.closed then UncoveredIn(asks, p.started, p.ended) else 0;
            var last' := if p.closed && p.ended > last then p.ended else last;
            Ticking(ss, n + 1, asks, agent', first', last')
  {
    var p := ss[n];
    if p.closed {
      if first == NO_TIME {
        assert p.started <= p.ended;
      } else if first <= last {
        UncoveredSplit(asks, first, last, p.started);
        UncoveredSplit(asks, first, p.started, p.ended);
      } else {
        UncoveredSplit(asks, first, p.started, p.ended);
      }
    }
  }

  lemma TickOrSkip(ss: seq<Session>, n: nat, asks: seq<Span>, agent: int, first: Time, last: Time)
    requires n < |ss| && (InOrder(ss) ==> Ticking(ss, n, asks, agent, first, last))
    ensures var p := ss[n];
            var lives := p.started != NO_TIME;
            var first' := if lives && (first == NO_TIME || p.started < first) then p.started else first;
            var agent' := agent + if lives && p.closed then UncoveredIn(asks, p.started, p.ended) else 0;
            var last' := if lives && p.closed && p.ended > last then p.ended else last;
            InOrder(ss) ==> Ticking(ss, n + 1, asks, agent', first', last')
  {
    if InOrder(ss) {
      if ss[n].started != NO_TIME {
        TickPass(ss, n, asks, agent, first, last);
      } else {
        SkipPass(ss, n, asks, agent, first, last);
      }
    }
  }

  lemma SkipPass(ss: seq<Session>, n: nat, asks: seq<Span>, agent: int, first: Time, last: Time)
    requires Ticking(ss, n, asks, agent, first, last) && n < |ss|
    ensures Ticking(ss, n + 1, asks, agent, first, last)
  {
  }

  /** The card's life: the first start to the last end, in the passes. */
  ghost predicate IsLife(ss: seq<Session>, first: Time, last: Time) {
    && (first == NO_TIME <==> forall j :: 0 <= j < |ss| ==> ss[j].started == NO_TIME)
    && (first != NO_TIME ==> exists j :: 0 <= j < |ss| && ss[j].started == first)
    && (forall j :: 0 <= j < |ss| && ss[j].started != NO_TIME ==> first <= ss[j].started && (ss[j].closed ==> ss[j].ended <= last))
    && (last != NO_TIME ==> exists j :: 0 <= j < |ss| && ss[j].started != NO_TIME && ss[j].closed && ss[j].ended == last)
  }

  /** The agent's time over the first n passes, each less its asks. */
  ghost function AgentTime(ss: seq<Session>, n: nat, asks: seq<Span>): int
    requires n <= |ss|
  {
    if n == 0 then 0
    else
      var p := ss[n - 1];
      AgentTime(ss, n - 1, asks) + (if p.started != NO_TIME && p.closed then UncoveredIn(asks, p.started, p.ended) else 0)
  }

  lemma LifeGrows(ss: seq<Session>, n: nat, first: Time, last: Time)
    requires n < |ss| && IsLife(ss[..n], first, last)
    ensures var p := ss[n];
            if p.started == NO_TIME then IsLife(ss[..n + 1], first, last)
            else IsLife(ss[..n + 1], if first == NO_TIME || p.started < first then p.started else first,
                        if p.closed && p.ended > last then p.ended else last)
  {
    var a, b := ss[..n], ss[..n + 1];
    assert b == a + [ss[n]];
    assert b[n] == ss[n];
    if first != NO_TIME {
      var j :| 0 <= j < |a| && a[j].started == first;
      assert b[j].started == first;
    }
    if last != NO_TIME {
      var j :| 0 <= j < |a| && a[j].started != NO_TIME && a[j].closed && a[j].ended == last;
      assert b[j] == a[j];
    }
  }

  method LivePass(ss: seq<Session>, i: nat, asks: seq<Span>, agent0: int, first0: Time, last0: Time)
    returns (agent: int, first: Time, last: Time)
    requires i < |ss| && IsLife(ss[..i], first0, last0) && agent0 == AgentTime(ss, i, asks)
    requires InOrder(ss) ==> Ticking(ss, i, asks, agent0, first0, last0)
    ensures IsLife(ss[..i + 1], first, last)
    ensures agent == AgentTime(ss, i + 1, asks)
    ensures InOrder(ss) ==> Ticking(ss, i + 1, asks, agent, first, last)
  {
    var s := ss[i];
    agent, first, last := agent0, first0, last0;
    LifeGrows(ss, i, first, last);
    TickOrSkip(ss, i, asks, agent, first, last);
    if s.started != NO_TIME {
      if first == NO_TIME || s.started < first {
        first := s.started;
      }
      if s.closed {
        var d := WorkingTime(s.started, s.ended, asks);
        agent := agent + d;
        if s.ended > last {
          last := s.ended;
        }
      }
    }
  }

  method MeasureLife(ss: seq<Session>, asks: seq<Span>) returns (agent: int, first: Time, last: Time)
    ensures IsLife(ss, first, last)
    ensures agent == AgentTime(ss, |ss|, asks)
    ensures InOrder(ss) ==> Ticking(ss, |ss|, asks, agent, first, last)
  {
    agent, first, last := 0, NO_TIME, NO_TIME;
    assert ss[..0] == [] && IsLife([], first, last);
    var i := 0;
    while i < |ss|
      invariant 0 <= i <= |ss|
      invariant IsLife(ss[..i], first, last)
      invariant agent == AgentTime(ss, i, asks)
      invariant InOrder(ss) ==> Ticking(ss, i, asks, agent, first, last)
    {
      agent, first, last := LivePass(ss, i, asks, agent, first, last);
      i := i + 1;
    }
    assert ss[..|ss|] == ss;
  }

  /** The first gate after the card's first start. */
  ghost predicate IsFirstGate(evs: seq<Event>, first: Time, d: int) {
    if d == 0 then forall i :: 0 <= i < |evs| && evs[i].body.Gate? ==> evs[i].at <= first
    else exists i :: 0 <= i < |evs| && evs[i].body.Gate? && evs[i].at > first && d == evs[i].at - first
                     && forall j :: 0 <= j < i && evs[j].body.Gate? ==> evs[j].at <= first
  }

  lemma FirstGateGrows(evs: seq<Event>, i: nat, first: Time, d: int)
    requires i < |evs| && IsFirstGate(evs[..i], first, d)
    ensures IsFirstGate(evs[..i + 1], first, if evs[i].body.Gate? && d == 0 && evs[i].at > first then evs[i].at - first else d)
  {
    var p, q := evs[..i], evs[..i + 1];
    assert q == p + [evs[i]];
    if d != 0 {
      var k :| 0 <= k < |p| && p[k].body.Gate? && p[k].at > first && d == p[k].at - first
               && forall j :: 0 <= j < k && p[j].body.Gate? ==> p[j].at <= first;
      assert q[k] == p[k];
    } else if evs[i].body.Gate? && evs[i].at > first {
      assert q[i] == evs[i];
    }
  }

  method NextGate(evs: seq<Event>, i: nat, first: Time, d: int) returns (next: int)
    requires i < |evs| && IsFirstGate(evs[..i], first, d)
    ensures IsFirstGate(evs[..i + 1], first, next)
  {
    FirstGateGrows(evs, i, first, d);
    next := d;
    if evs[i].body.Gate? && d == 0 && evs[i].at > first {
      next := evs[i].at - first;
    }
  }

  method ToFirstGate(evs: seq<Event>, first: Time) returns (d: int)
    ensures IsFirstGate(evs, first, d)
  {
    d := 0;
    var i := 0;
    while i < |evs|
      invariant 0 <= i <= |evs|
      invariant IsFirstGate(evs[..i], first, d)
    {
      d := NextGate(evs, i, first, d);
      i := i + 1;
    }
    assert evs[..|evs|] == evs;
  }

  /** The three shares of a card's life. */
  ghost predicate Partition(c: Clock) {
    && c.agent >= 0 && c.onYou >= 0 && c.idle >= 0
    && c.agent + c.onYou + c.idle == c.elapsed
    && c.waiting == c.onYou + c.idle
  }

  method MeasureClock(ss: seq<Session>, evs: seq<Event>) returns (c: Clock, ghost first: Time, ghost last: Time)
    ensures IsLife(ss, first, last)
    ensures c.elapsed == if first != NO_TIME && last > first then last - first else 0
    ensures c.agent == AgentTime(ss, |ss|, DecisionSpansOf(evs, true))
    ensures InOrder(ss) ==> Partition(c) && c.waiting == c.elapsed - c.agent
    ensures var waited := CoveredIn(DecisionSpansOf(evs, false), first, last);
            first != NO_TIME ==> c.onYou == if waited > c.waiting then c.waiting else waited
    ensures InOrder(ss) && first != NO_TIME && last > first ==>
      CoveredIn(DecisionSpansOf(evs, true), first, last) <= c.waiting
    ensures first != NO_TIME ==> IsFirstGate(evs, first, c.toFirstGate)
  {
    var asks := DecisionSpans(evs, true);
    var agent, start, end := MeasureLife(ss, asks);
    first, last := start, end;
    var elapsed := 0;
    if start != NO_TIME && end > start {
      elapsed := end - start;
      CoveredAndUncovered(asks, start, end);
    }
    var waiting := elapsed - agent;
    if waiting < 0 {
      waiting := 0;
    }
    c := Clock(agent, elapsed, waiting, 0, 0, 0);
    if start == NO_TIME {
      return;
    }
    var onYou := WaitTime(evs, start, end);
    if onYou > waiting {
      onYou := waiting;
    }
    var gate := ToFirstGate(evs, start);
    c := Clock(agent, elapsed, waiting, onYou, waiting - onYou, gate);
  }

  /** The clock of a card, read off its log. */
  method CardClock(evs: seq<Event>) returns (c: Clock, ghost first: Time, ghost last: Time)
    ensures IsLife(PassesOf(evs), first, last)
    ensures c.elapsed == if first != NO_TIME && last > first then last - first else 0
    ensures c.agent == AgentTime(PassesOf(evs), |PassesOf(evs)|, DecisionSpansOf(evs, true))
    ensures NonDecreasing(evs) ==> Partition(c) && c.waiting == c.elapsed - c.agent
    ensures NonDecreasing(evs) && first != NO_TIME && EveryDecisionAnsweredAsk(evs) ==>
      c.onYou == CoveredIn(DecisionSpansOf(evs, false), first, last)
  {
    var ss := WalkPasses(evs);
    c, first, last := MeasureClock(ss, evs);
    if NonDecreasing(evs) { PassesInOrder(evs); }
    if first != NO_TIME && EveryDecisionAnsweredAsk(evs) {
      AnsweredAsksAreAllDecisions(evs);
      if last <= first { assert CoveredIn(DecisionSpansOf(evs, false), first, last) == 0; }
    }
  }

  ghost predicate EveryDecisionAnsweredAsk(evs: seq<Event>) {
    forall i :: 0 <= i < |evs| && IsDecision(evs[i], false) ==> evs[i].body.asks && Answered(evs, evs[i].body.id)
  }

  /** When every decision is an answered ask, the two derivations agree. */
  lemma AnsweredAsksAreAllDecisions(evs: seq<Event>)
    requires EveryDecisionAnsweredAsk(evs)
    ensures DecisionSpansOf(evs, true) == DecisionSpansOf(evs, false)
  {
    SameRawSpans(evs, |evs|);
  }

  lemma {:induction false} SameRawSpans(evs: seq<Event>, n: nat)
    requires EveryDecisionAnsweredAsk(evs) && n <= |evs|
    ensures RawSpans(evs, n, true) == RawSpans(evs, n, false)
  {
    if n > 0 {
      SameRawSpans(evs, n - 1);
      assert IsDecision(evs[n - 1], false) <==> IsDecision(evs[n - 1], true);
    }
  }

  /** The law itself: on an ordered log the agent never works longer than the
      part of the card's life in no ask, so the time left over is never
      negative and holds every ask. */
  lemma WaitingHoldsEveryAsk(ss: seq<Session>, asks: seq<Span>, agent: int, first: Time, last: Time)
    requires Ticking(ss, |ss|, asks, agent, first, last) && first < last
    ensures (last - first) - agent >= CoveredIn(asks, first, last)
  {
    CoveredAndUncovered(asks, first, last);
  }
}
