/** What the final event of an opencode turn says (internal/agent/opencode.go,
    runTurn, endTurn and failTurn), told from what happened to the turn. */
module OpencodeOutcomes {
  import opened Basics
  import opened OpencodeTurns

  /** What happened to one turn, step by step. */
  datatype Account = Account(
    result: PostResult,    // what its last POST came back with
    cut: bool,             // its context was cancelled by then
    closed: bool,          // the session was closed when the turn was ended
    byReader: bool,        // the bus reader ended it, its stream lost
    settled: bool,         // what it came to was settled
    detail: bool,          // an error was reported to it by then
    sawAny: bool)          // something was relayed by then

  const UNTOLD := Account(Resolved, false, false, false, false, false, false)

  /** The step moves a thread on its way through endTurn, or the POST, for t. */
  predicate Moves(s: State, step: Step, t: nat)
    requires t < |s.turns|
  {
    var x := s.turns[t];
    match step
    case PostReturns(u, _, _) => u == t && x.pc == Posting
    case RunTurnEnds(u) => u == t && x.pc.Ending? && !x.finishing
    case BusEnds => s.bus == Failing(t) && !x.finishing
    case Decide(u, _, _) => u == t && x.pc.Leaving? && x.pc.rest.Deciding?
    case BusDecides(_, _) => s.bus.BusLeaving? && s.bus.t == t && s.bus.rest.Deciding?
    case _ => false
  }

  function Told(s: State, a: Account, step: Step, t: nat): Account
    requires t < |s.turns|
  {
    if !Moves(s, step, t) then a
    else
      match step
      case PostReturns(_, result, _) => a.(result := result, cut := s.turns[t].cancelled)
      case RunTurnEnds(_) => a.(closed := s.closed, byReader := false)
      case BusEnds => a.(closed := s.closed, byReader := true)
      case Decide(_, detail, sawAny) => a.(settled := true, detail := detail, sawAny := sawAny)
      case BusDecides(detail, sawAny) => a.(settled := true, detail := detail, sawAny := sawAny)
  }

  function AccountOf(resumed: bool, steps: seq<Step>, t: nat): Account {
    if steps == [] then UNTOLD
    else
      var before := steps[..|steps| - 1];
      var s := Run(Init(resumed), before);
      if t < |s.turns| then Told(s, AccountOf(resumed, before, t), steps[|steps| - 1], t) else UNTOLD
  }

  /** The turn's end was a failure: its stream was lost, or its POST came back
      with an error that no cancel explains. */
  predicate IsFailure(a: Account) { a.byReader || (a.result != Resolved && !a.cut) }

  /** What makes an end idle. */
  predicate EndsIdle(x: Turn, a: Account) { a.closed || x.stopped || (!IsFailure(a) && !a.detail && a.sawAny) }

  // ----- What every step keeps -----

  /** What a thread past endTurn's check holds agrees with the account. */
  predicate RestTold(x: Turn, a: Account, rest: Rest) {
    && (rest.Deciding? ==> !a.settled && rest.read.closed == a.closed && rest.read.failed == IsFailure(a))
    && (rest.Emitting? ==> a.settled && (rest.outcome == Idle <==> EndsIdle(x, a)))
  }

  /** The turn's own record agrees with its account. */
  predicate TurnTold(x: Turn, a: Account, closed: bool) {
    && (x.pc.Ending? ==> x.pc.failed == (a.result != Resolved && !a.cut))
    && (x.finishing && !a.byReader ==> x.pc.Leaving? || x.pc == Returned)
    && (a.cut ==> x.stopped || closed)
    && (a.cut && x.finishing && !a.byReader ==> x.stopped || a.closed)
    && (a.settled || a.closed || a.byReader ==> x.finishing)
    && (x.pc.Leaving? ==> !a.byReader && RestTold(x, a, x.pc.rest))
  }

  predicate BusTold(x: Turn, a: Account, bus: BusPc, t: nat) {
    bus.BusLeaving? && bus.t == t ==> a.byReader && RestTold(x, a, bus.rest)
  }

  predicate EventTold(x: Turn, a: Account, e: (nat, Outcome)) { a.settled && (e.1 == Idle <==> EndsIdle(x, a)) }

  predicate EventsTold(x: Turn, a: Account, events: seq<(nat, Outcome)>, t: nat) {
    forall i :: 0 <= i < |events| && events[i].0 == t ==> EventTold(x, a, events[i])
  }

  predicate AccountOk(s: State, a: Account, t: nat)
    requires t < |s.turns|
  {
    && TurnTold(s.turns[t], a, s.closed)
    && BusTold(s.turns[t], a, s.bus, t)
    && EventsTold(s.turns[t], a, s.events, t)
  }

  predicate NoEvent(s: State, t: nat) { forall i :: 0 <= i < |s.events| ==> s.events[i].0 != t }

  /** What the session's invariant says of one turn. */
  predicate Fits(s: State, t: nat)
    requires t < |s.turns|
  {
    var x := s.turns[t];
    && (x.cancelled ==> x.stopped || s.closed)
    && (x.pc.Leaving? ==> x.finishing && (x.pc.rest.Deciding? ==> x.pc.rest.read.aborted == x.stopped))
    && (s.bus.BusLeaving? && s.bus.t == t ==>
          x.finishing && !x.pc.Leaving? && NoEvent(s, t) && (s.bus.rest.Deciding? ==> s.bus.rest.read.aborted == x.stopped))
    && (x.pc.Leaving? || !x.finishing ==> NoEvent(s, t))
    && (s.turn == Some(t) <==> !x.finishing)
  }

  lemma {:induction false} NoneCounted(events: seq<(nat, Outcome)>, t: nat)
    requires Endings(events, t) == 0
    ensures forall i :: 0 <= i < |events| ==> events[i].0 != t
  {
    if events != [] { NoneCounted(events[..|events| - 1], t); }
  }

  lemma InvFits(s: State, t: nat)
    requires Inv(s) && t < |s.turns|
    ensures Fits(s, t)
  {
    assert TurnOk(s, t) && OneEvent(s, t);
    if Holders(s, t) > 0 { NoneCounted(s.events, t); }
    if !s.turns[t].finishing {
      forall i: nat | i < |s.events| ensures s.events[i].0 != t { assert EventOk(s, i); }
    }
  }

  /** Nothing that the account of the turn is about moved. */
  lemma Unmoved(s: State, a: Account, t: nat, after: State)
    requires t < |s.turns| && t < |after.turns| && AccountOk(s, a, t)
    requires after.turns[t] == s.turns[t] && after.events == s.events && (s.closed ==> after.closed)
    requires after.bus == s.bus || !(after.bus.BusLeaving? && after.bus.t == t)
    ensures AccountOk(after, a, t)
  {
  }

  /** The turn has no event and no thread but its own holds it. */
  predicate Alone(s: State, t: nat) { !(s.bus.BusLeaving? && s.bus.t == t) && NoEvent(s, t) }

  /** Only the turn's own record and account moved. */
  lemma MovedAlone(s: State, t: nat, y: Turn, after: State, next: Account)
    requires t < |s.turns| && t < |after.turns| && Alone(s, t) && after.turns[t] == y && TurnTold(y, next, after.closed)
    requires after.events == s.events && after.bus == s.bus
    ensures AccountOk(after, next, t)
  {
  }

  lemma AccountPosts(s: State, a: Account, t: nat, result: PostResult, sawAny: bool, y: Turn, next: Account, after: State)
    requires t < |s.turns| && Fits(s, t) && AccountOk(s, a, t) && s.turns[t].pc == Posting
    requires y == s.turns[t].(pc := AfterPost(s, s.turns[t], result, sawAny)) && after == SetTurn(s, t, y)
    requires next == a.(result := result, cut := s.turns[t].cancelled)
    ensures AccountOk(after, next, t)
  {
    PostTold(s, s.turns[t], a, result, sawAny, y, next);
  }

  lemma PostTold(s: State, x: Turn, a: Account, result: PostResult, sawAny: bool, y: Turn, next: Account)
    requires TurnTold(x, a, s.closed) && x.pc == Posting && (x.cancelled ==> x.stopped || s.closed)
    requires y == x.(pc := AfterPost(s, x, result, sawAny)) && next == a.(result := result, cut := x.cancelled)
    ensures TurnTold(y, next, s.closed)
    ensures a.byReader ==> IsFailure(next) == IsFailure(a)
    ensures x.finishing ==> a.byReader
  {
  }

  lemma AccountDrops(s: State, a: Account, t: nat, u: nat, after: State)
    requires t < |s.turns| && Fits(s, t) && AccountOk(s, a, t) && after == Dropped(s, u)
    ensures |after.turns| == |s.turns| && AccountOk(after, a, t)
  {
  }

  lemma AccountCancels(s: State, a: Account, t: nat, u: nat, after: State)
    requires t < |s.turns| && Fits(s, t) && AccountOk(s, a, t) && after == Cancelled(s, u)
    ensures |after.turns| == |s.turns| && AccountOk(after, a, t)
  {
  }

  lemma AccountEnds(s: State, a: Account, t: nat, y: Turn, next: Account, after: State)
    requires t < |s.turns| && Fits(s, t) && AccountOk(s, a, t) && s.turns[t].pc.Ending? && !s.turns[t].finishing
    requires y == s.turns[t].(finishing := true, pc := Leaving(Deciding(EndingRead(s.closed, s.interrupted, s.turns[t].pc.failed))))
    requires after == Ended(s, t, y) && next == a.(closed := s.closed, byReader := false)
    ensures AccountOk(after, next, t)
  {
    EndTold(s, s.turns[t], a, y, next);
    MovedAlone(s, t, y, after, next);
  }

  /** One that was ended before only returns. */
  lemma AccountReturns(s: State, a: Account, t: nat, after: State)
    requires t < |s.turns| && AccountOk(s, a, t) && s.turns[t].pc.Ending? && s.turns[t].finishing
    requires after == SetTurn(s, t, s.turns[t].(pc := Returned))
    ensures AccountOk(after, a, t)
  {
  }

  lemma EndTold(s: State, x: Turn, a: Account, y: Turn, next: Account)
    requires TurnTold(x, a, s.closed) && x.pc.Ending? && !x.finishing
    requires y == x.(finishing := true, pc := Leaving(Deciding(EndingRead(s.closed, s.interrupted, x.pc.failed))))
    requires next == a.(closed := s.closed, byReader := false)
    ensures TurnTold(y, next, s.closed)
  {
  }

  lemma AccountDecides(s: State, a: Account, t: nat, detail: bool, sawAny: bool, y: Turn, next: Account, after: State)
    requires t < |s.turns| && Fits(s, t) && AccountOk(s, a, t) && s.turns[t].pc.Leaving? && s.turns[t].pc.rest.Deciding?
    requires y == s.turns[t].(pc := Leaving(Emitting(OutcomeOf(s.turns[t].pc.rest.read, detail, sawAny))))
    requires next == a.(settled := true, detail := detail, sawAny := sawAny)
    requires |after.turns| == |s.turns| && after.turns[t] == y && after.events == s.events && after.bus == s.bus
    requires after.closed == s.closed
    ensures AccountOk(after, next, t)
  {
    var read := s.turns[t].pc.rest.read;
    DecideTold(s.turns[t], a, read, detail, sawAny, OutcomeOf(read, detail, sawAny), next);
    MovedAlone(s, t, y, after, next);
  }

  /** The outcome settled is the one the account calls for. */
  lemma DecideTold(x: Turn, a: Account, read: Ending, detail: bool, sawAny: bool, outcome: Outcome, next: Account)
    requires RestTold(x, a, Deciding(read)) && read.aborted == x.stopped && outcome == OutcomeOf(read, detail, sawAny)
    requires next == a.(settled := true, detail := detail, sawAny := sawAny)
    ensures RestTold(x, next, Emitting(outcome)) && IsFailure(next) == IsFailure(a)
  {
  }

  lemma AccountEmits(s: State, a: Account, t: nat, u: nat, dropped: bool, after: State)
    requires t < |s.turns| && Fits(s, t) && AccountOk(s, a, t) && after == GoroutineEmits(s, u, dropped)
    ensures |after.turns| == |s.turns| && AccountOk(after, a, t)
  {
  }

  lemma AccountReaderEnds(s: State, a: Account, t: nat, y: Turn, next: Account, after: State)
    requires t < |s.turns| && Fits(s, t) && AccountOk(s, a, t) && !s.turns[t].finishing
    requires y == s.turns[t].(finishing := true) && next == a.(closed := s.closed, byReader := true)
    requires after == Ended(s, t, y).(bus := BusLeaving(t, Deciding(EndingRead(s.closed, s.interrupted, true))))
    ensures AccountOk(after, next, t)
  {
    ReaderEndTold(s, s.turns[t], a, y, next);
  }

  lemma ReaderEndTold(s: State, x: Turn, a: Account, y: Turn, next: Account)
    requires TurnTold(x, a, s.closed) && !x.finishing && !x.pc.Leaving?
    requires y == x.(finishing := true) && next == a.(closed := s.closed, byReader := true)
    ensures TurnTold(y, next, s.closed) && RestTold(y, next, Deciding(EndingRead(s.closed, s.interrupted, true)))
  {
  }

  lemma AccountReaderDecides(s: State, a: Account, t: nat, detail: bool, sawAny: bool, next: Account, after: State)
    requires t < |s.turns| && Fits(s, t) && AccountOk(s, a, t)
    requires s.bus.BusLeaving? && s.bus.t == t && s.bus.rest.Deciding?
    requires next == a.(settled := true, detail := detail, sawAny := sawAny)
    requires after.turns == s.turns && after.events == s.events && after.closed == s.closed
    requires after.bus == BusLeaving(t, Emitting(OutcomeOf(s.bus.rest.read, detail, sawAny)))
    ensures AccountOk(after, next, t)
  {
    DecideTold(s.turns[t], a, s.bus.rest.read, detail, sawAny, OutcomeOf(s.bus.rest.read, detail, sawAny), next);
  }

  lemma AccountReaderEmits(s: State, a: Account, t: nat, dropped: bool, after: State)
    requires t < |s.turns| && Fits(s, t) && AccountOk(s, a, t) && after == ReaderEmits(s, dropped)
    ensures |after.turns| == |s.turns| && AccountOk(after, a, t)
  {
  }

  lemma AccountSends(s: State, a: Account, t: nat, after: State)
    requires t < |s.turns| && AccountOk(s, a, t) && after == Sent(s)
    ensures t < |after.turns| && AccountOk(after, a, t)
  {
    Unmoved(s, a, t, after);
  }

  lemma AccountLoses(s: State, a: Account, t: nat, after: State)
    requires t < |s.turns| && AccountOk(s, a, t) && after == ReaderLoses(s)
    ensures t < |after.turns| && AccountOk(after, a, t)
  {
    Unmoved(s, a, t, after);
  }

  lemma AccountInterrupts(s: State, a: Account, t: nat, after: State)
    requires t < |s.turns| && Fits(s, t) && AccountOk(s, a, t) && after == Interrupted(s)
    ensures t < |after.turns| && AccountOk(after, a, t)
  {
  }

  lemma AccountElse(s: State, a: Account, t: nat, step: Step, after: State)
    requires t < |s.turns| && AccountOk(s, a, t) && after == Apply(s, step)
    requires step.Close? || step.Compact? || step.CompactEnds?
    ensures t < |after.turns| && AccountOk(after, a, t)
  {
    Unmoved(s, a, t, after);
  }

  /** A step the account is told of. */
  lemma AccountHears(s: State, a: Account, t: nat, step: Step, after: State, next: Account)
    requires t < |s.turns| && Fits(s, t) && AccountOk(s, a, t) && after == Apply(s, step) && next == Told(s, a, step, t)
    requires Moves(s, step, t)
    ensures t < |after.turns| && AccountOk(after, next, t)
  {
    match step
    case PostReturns(_, result, sawAny) => AccountPosts(s, a, t, result, sawAny, after.turns[t], next, after);
    case RunTurnEnds(_) => AccountEnds(s, a, t, after.turns[t], next, after);
    case Decide(_, detail, sawAny) => AccountDecides(s, a, t, detail, sawAny, after.turns[t], next, after);
    case BusEnds => AccountReaderEnds(s, a, t, after.turns[t], next, after);
    case BusDecides(detail, sawAny) => AccountReaderDecides(s, a, t, detail, sawAny, next, after);
  }

  lemma OthersPost(s: State, a: Account, t: nat, u: nat, result: PostResult, sawAny: bool, after: State)
    requires t < |s.turns| && AccountOk(s, a, t) && (u != t || s.turns[t].pc != Posting) && after == Posted(s, u, result, sawAny)
    ensures t < |after.turns| && AccountOk(after, a, t)
  {
    assert t < |after.turns| && after.turns[t] == s.turns[t];
    Unmoved(s, a, t, after);
  }

  lemma OthersEnd(s: State, a: Account, t: nat, u: nat, after: State)
    requires t < |s.turns| && AccountOk(s, a, t) && after == GoroutineEnds(s, u)
    requires u != t || !s.turns[t].pc.Ending? || s.turns[t].finishing
    ensures t < |after.turns| && AccountOk(after, a, t)
  {
    if u == t && s.turns[t].pc.Ending? {
      AccountReturns(s, a, t, after);
    } else {
      assert t < |after.turns| && after.turns[t] == s.turns[t];
      Unmoved(s, a, t, after);
    }
  }

  lemma OthersDecide(s: State, a: Account, t: nat, u: nat, detail: bool, sawAny: bool, after: State)
    requires t < |s.turns| && AccountOk(s, a, t) && after == GoroutineDecides(s, u, detail, sawAny)
    requires u != t || !(s.turns[t].pc.Leaving? && s.turns[t].pc.rest.Deciding?)
    ensures t < |after.turns| && AccountOk(after, a, t)
  {
    assert t < |after.turns| && after.turns[t] == s.turns[t];
    Unmoved(s, a, t, after);
  }

  lemma ReaderEndsOther(s: State, a: Account, t: nat, after: State)
    requires t < |s.turns| && AccountOk(s, a, t) && after == ReaderEnds(s) && (s.bus != Failing(t) || s.turns[t].finishing)
    ensures t < |after.turns| && AccountOk(after, a, t)
  {
    if s.bus.Failing? && s.bus.t < |s.turns| {
      if s.turns[s.bus.t].finishing {
        ReaderReturns(s, a, t, after);
      } else {
        ReaderEndsOne(s, a, t, s.bus.t, s.turns[s.bus.t].(finishing := true), after);
      }
    }
  }

  lemma ReaderReturns(s: State, a: Account, t: nat, after: State)
    requires t < |s.turns| && AccountOk(s, a, t) && after == s.(bus := Reading)
    ensures AccountOk(after, a, t)
  {
    Unmoved(s, a, t, after);
  }

  lemma ReaderEndsOne(s: State, a: Account, t: nat, u: nat, y: Turn, after: State)
    requires t < |s.turns| && u < |s.turns| && u != t && AccountOk(s, a, t)
    requires after == Ended(s, u, y).(bus := after.bus) && after.bus.BusLeaving? && after.bus.t == u
    ensures t < |after.turns| && AccountOk(after, a, t)
  {
    Unmoved(s, a, t, after);
  }

  lemma ReaderDecidesOther(s: State, a: Account, t: nat, detail: bool, sawAny: bool, after: State)
    requires t < |s.turns| && AccountOk(s, a, t) && after == ReaderDecides(s, detail, sawAny)
    requires !(s.bus.BusLeaving? && s.bus.t == t && s.bus.rest.Deciding?)
    ensures t < |after.turns| && AccountOk(after, a, t)
  {
    Unmoved(s, a, t, after);
  }

  /** A step it is not told of. */
  lemma AccountStands(s: State, a: Account, t: nat, step: Step, after: State)
    requires Inv(s) && t < |s.turns| && Fits(s, t) && AccountOk(s, a, t) && after == Apply(s, step) && !Moves(s, step, t)
    ensures t < |after.turns| && AccountOk(after, a, t)
  {
    match step
    case PostReturns(u, result, sawAny) => OthersPost(s, a, t, u, result, sawAny, after);
    case DropResume(u) => AccountDrops(s, a, t, u, after);
    case CancelTurn(u) => AccountCancels(s, a, t, u, after);
    case RunTurnEnds(u) => OthersEnd(s, a, t, u, after);
    case Decide(u, detail, sawAny) => OthersDecide(s, a, t, u, detail, sawAny, after);
    case EmitEnd(u, dropped) => AccountEmits(s, a, t, u, dropped, after);
    case BusEnds => ReaderEndsOther(s, a, t, after);
    case BusDecides(detail, sawAny) => ReaderDecidesOther(s, a, t, detail, sawAny, after);
    case BusEmits(dropped) => AccountReaderEmits(s, a, t, dropped, after);
    case SendTurn => AccountSends(s, a, t, after);
    case BusLost => AccountLoses(s, a, t, after);
    case Interrupt => AccountInterrupts(s, a, t, after);
    case _ => AccountElse(s, a, t, step, after);
  }

  lemma AccountStarts(s: State, after: State, t: nat)
    requires Inv(s) && after == Sent(s) && |s.turns| <= t < |after.turns|
    ensures AccountOk(after, UNTOLD, t)
  {
    forall i: nat | i < |s.events| ensures s.events[i].0 < |s.turns| {
      assert EventOk(s, i);
    }
  }

  /** As many turns, and none newly stopped. */
  predicate SameStops(s: State, after: State) {
    |after.turns| == |s.turns| && forall t :: 0 <= t < |s.turns| ==> after.turns[t].stopped == s.turns[t].stopped
  }

  lemma PostStops(s: State, u: nat, result: PostResult, sawAny: bool)
    ensures SameStops(s, Posted(s, u, result, sawAny))
  {
  }

  lemma DropStops(s: State, u: nat)
    ensures SameStops(s, Dropped(s, u))
  {
  }

  lemma CancelStops(s: State, u: nat)
    ensures SameStops(s, Cancelled(s, u))
  {
  }

  lemma EndStops(s: State, u: nat)
    ensures SameStops(s, GoroutineEnds(s, u))
  {
  }

  lemma DecideStops(s: State, u: nat, detail: bool, sawAny: bool)
    ensures SameStops(s, GoroutineDecides(s, u, detail, sawAny))
  {
  }

  lemma EmitStops(s: State, u: nat, dropped: bool)
    ensures SameStops(s, GoroutineEmits(s, u, dropped))
  {
  }

  lemma ReaderEndStops(s: State)
    ensures SameStops(s, ReaderEnds(s))
  {
  }

  /** Only sending adds a turn. */
  lemma NoOtherTurns(s: State, step: Step, after: State)
    requires after == Apply(s, step) && !step.SendTurn?
    ensures |after.turns| == |s.turns|
  {
    match step
    case PostReturns(u, result, sawAny) => PostStops(s, u, result, sawAny);
    case DropResume(u) => DropStops(s, u);
    case CancelTurn(u) => CancelStops(s, u);
    case RunTurnEnds(u) => EndStops(s, u);
    case Decide(u, detail, sawAny) => DecideStops(s, u, detail, sawAny);
    case EmitEnd(u, dropped) => EmitStops(s, u, dropped);
    case BusEnds => ReaderEndStops(s);
    case _ =>
  }

  lemma {:induction false} RunKeepsAccount(resumed: bool, steps: seq<Step>, t: nat)
    requires t < |Run(Init(resumed), steps).turns|
    ensures AccountOk(Run(Init(resumed), steps), AccountOf(resumed, steps, t), t)
  {
    if steps != [] {
      var before, step := steps[..|steps| - 1], steps[|steps| - 1];
      var s, after := Run(Init(resumed), before), Run(Init(resumed), steps);
      RunKeepsInv(Init(resumed), before);
      if t < |s.turns| {
        RunKeepsAccount(resumed, before, t);
        InvFits(s, t);
        if Moves(s, step, t) {
          AccountHears(s, AccountOf(resumed, before, t), t, step, after, AccountOf(resumed, steps, t));
        } else {
          AccountStands(s, AccountOf(resumed, before, t), t, step, after);
        }
      } else {
        if step != SendTurn { NoOtherTurns(s, step, after); }
        AccountStarts(s, after, t);
      }
    }
  }

  // ----- What every run promises -----

  /** A turn's final event is idle if and only if the session was closed when the
      turn was ended, or the turn was stopped, or its end was no failure, no error
      was reported to it and something was relayed. */
  lemma {:induction false} EndsIdleIff(resumed: bool, steps: seq<Step>, i: nat)
    requires i < |Run(Init(resumed), steps).events|
    ensures var s := Run(Init(resumed), steps); var (t, outcome) := s.events[i]; var a := AccountOf(resumed, steps, t);
            && t < |s.turns|
            && (outcome == Idle <==>
                  a.closed || s.turns[t].stopped
                  || (!a.byReader && (a.result == Resolved || a.cut) && !a.detail && a.sawAny))
  {
    var s := Run(Init(resumed), steps);
    RunKeepsInv(Init(resumed), steps);
    assert EventOk(s, i);
    RunKeepsAccount(resumed, steps, s.events[i].0);
  }

  /** A refused POST or a lost stream ends an unstopped turn of an open session in
      an error, whatever it relayed. */
  lemma {:induction false} FailuresEndInError(resumed: bool, steps: seq<Step>, i: nat)
    requires i < |Run(Init(resumed), steps).events|
    requires var s := Run(Init(resumed), steps); var t := s.events[i].0; var a := AccountOf(resumed, steps, t);
             t < |s.turns| && !a.closed && !s.turns[t].stopped && (a.byReader || a.result != Resolved)
    ensures Run(Init(resumed), steps).events[i].1 == Error
  {
    var s := Run(Init(resumed), steps);
    RunKeepsInv(Init(resumed), steps);
    assert EventOk(s, i);
    RunKeepsAccount(resumed, steps, s.events[i].0);
    EndsIdleIff(resumed, steps, i);
  }

  // ----- What a clean idle records -----

  /** The turn came to a clean idle. */
  predicate Clean(s: State, a: Account, t: nat)
    requires t < |s.turns|
  {
    a.settled && !a.closed && EndsIdle(s.turns[t], a)
  }

  predicate CleanAt(resumed: bool, steps: seq<Step>, t: nat) {
    var s := Run(Init(resumed), steps);
    t < |s.turns| && Clean(s, AccountOf(resumed, steps, t), t)
  }

  /** The step settles t to a clean idle. */
  predicate SettlesClean(s: State, step: Step, t: nat) {
    && t < |s.turns| && (step.Decide? || step.BusDecides?) && Moves(s, step, t)
    && var read := if step.Decide? then s.turns[t].pc.rest.read else s.bus.rest.read;
       OutcomeOf(read, step.detail, step.sawAny) == Idle && !read.closed
  }

  lemma CleanWhenSettled(x: Turn, a: Account, read: Ending, detail: bool, sawAny: bool, next: Account)
    requires RestTold(x, a, Deciding(read)) && read.aborted == x.stopped
    requires next == a.(settled := true, detail := detail, sawAny := sawAny)
    ensures (next.settled && !next.closed && EndsIdle(x, next)) <==> (OutcomeOf(read, detail, sawAny) == Idle && !read.closed)
  {
    DecideTold(x, a, read, detail, sawAny, OutcomeOf(read, detail, sawAny), next);
  }

  /** A turn's record after one step. */
  lemma TurnAfter(s: State, step: Step, t: nat, after: State)
    requires Inv(s) && t < |s.turns| && after == Apply(s, step)
    ensures t < |after.turns| && (s.turns[t].finishing ==> after.turns[t].stopped == s.turns[t].stopped)
  {
    match step
    case PostReturns(u, result, sawAny) => PostStops(s, u, result, sawAny);
    case DropResume(u) => DropStops(s, u);
    case CancelTurn(u) => CancelStops(s, u);
    case RunTurnEnds(u) => EndStops(s, u);
    case Decide(u, detail, sawAny) => DecideStops(s, u, detail, sawAny);
    case EmitEnd(u, dropped) => EmitStops(s, u, dropped);
    case BusEnds => ReaderEndStops(s);
    case Interrupt => assert TurnOk(s, t);
    case _ =>
  }

  lemma CleanStep(s: State, a: Account, t: nat, step: Step, after: State, next: Account)
    requires Inv(s) && t < |s.turns| && AccountOk(s, a, t) && after == Apply(s, step) && next == Told(s, a, step, t)
    ensures t < |after.turns| && (Clean(after, next, t) <==> Clean(s, a, t) || SettlesClean(s, step, t))
  {
    InvFits(s, t);
    TurnAfter(s, step, t, after);
    if Moves(s, step, t) && step.Decide? {
      CleanWhenSettled(s.turns[t], a, s.turns[t].pc.rest.read, step.detail, step.sawAny, next);
    } else if Moves(s, step, t) && step.BusDecides? {
      CleanWhenSettled(s.turns[t], a, s.bus.rest.read, step.detail, step.sawAny, next);
    }
  }

  lemma DecideRecords(s: State, u: nat, detail: bool, sawAny: bool, after: State)
    requires after == GoroutineDecides(s, u, detail, sawAny)
    ensures after.hadIdle <==> s.hadIdle || SettlesClean(s, Decide(u, detail, sawAny), u)
  {
  }

  lemma ReaderRecords(s: State, detail: bool, sawAny: bool, after: State)
    requires after == ReaderDecides(s, detail, sawAny) && BusOk(s)
    ensures after.hadIdle <==> s.hadIdle || (s.bus.BusLeaving? && SettlesClean(s, BusDecides(detail, sawAny), s.bus.t))
  {
  }

  lemma HadIdleStep(s: State, step: Step, after: State)
    requires Inv(s) && after == Apply(s, step)
    ensures after.hadIdle <==> s.hadIdle || exists t: nat :: SettlesClean(s, step, t)
  {
    match step
    case Decide(u, detail, sawAny) =>
      DecideRecords(s, u, detail, sawAny, after);
      assert forall t: nat :: SettlesClean(s, step, t) ==> t == u;
    case BusDecides(detail, sawAny) =>
      ReaderRecords(s, detail, sawAny, after);
      assert forall t: nat :: SettlesClean(s, step, t) ==> t == s.bus.t;
    case _ =>
      assert forall t: nat :: !SettlesClean(s, step, t);
      OthersRecordNothing(s, step, after);
  }

  lemma OthersRecordNothing(s: State, step: Step, after: State)
    requires after == Apply(s, step) && !step.Decide? && !step.BusDecides?
    ensures after.hadIdle == s.hadIdle
  {
    match step
    case PostReturns(u, result, sawAny) => assert Posted(s, u, result, sawAny).hadIdle == s.hadIdle;
    case DropResume(u) => assert Dropped(s, u).hadIdle == s.hadIdle;
    case CancelTurn(u) => assert Cancelled(s, u).hadIdle == s.hadIdle;
    case RunTurnEnds(u) => assert GoroutineEnds(s, u).hadIdle == s.hadIdle;
    case EmitEnd(u, dropped) => assert GoroutineEmits(s, u, dropped).hadIdle == s.hadIdle;
    case BusEnds => assert ReaderEnds(s).hadIdle == s.hadIdle;
    case BusEmits(dropped) => assert ReaderEmits(s, dropped).hadIdle == s.hadIdle;
    case Interrupt => assert Interrupted(s).hadIdle == s.hadIdle;
    case _ =>
  }

  lemma CleanAtStep(resumed: bool, before: seq<Step>, step: Step, steps: seq<Step>, t: nat)
    requires steps == before + [step]
    ensures CleanAt(resumed, steps, t) <==> CleanAt(resumed, before, t) || SettlesClean(Run(Init(resumed), before), step, t)
  {
    var s, after := Run(Init(resumed), before), Run(Init(resumed), steps);
    assert steps[..|steps| - 1] == before;
    RunKeepsInv(Init(resumed), before);
    if t < |s.turns| {
      RunKeepsAccount(resumed, before, t);
      CleanStep(s, AccountOf(resumed, before, t), t, step, after, AccountOf(resumed, steps, t));
    }
  }

  /** A clean idle, and nothing else, records that the session works. */
  lemma {:induction false} HadIdleIff(resumed: bool, steps: seq<Step>)
    ensures Run(Init(resumed), steps).hadIdle <==> exists t: nat :: CleanAt(resumed, steps, t)
  {
    if steps != [] {
      var before, step := steps[..|steps| - 1], steps[|steps| - 1];
      HadIdleIff(resumed, before);
      RunKeepsInv(Init(resumed), before);
      HadIdleStep(Run(Init(resumed), before), step, Run(Init(resumed), steps));
      assert steps == before + [step];
      forall t: nat { CleanAtStep(resumed, before, step, steps, t); }
    }
  }

  /** A first POST is sent again, on a fresh conversation, exactly when the resumed
      session never worked and is open, and it is the one that was lost or nothing
      came of it. */
  lemma RetriedIff(s: State, t: nat, result: PostResult, sawAny: bool)
    requires t < |s.turns| && s.turns[t].pc == Posting
    ensures var after := Apply(Apply(s, PostReturns(t, result, sawAny)), DropResume(t));
            t < |after.turns| && (after.turns[t].pc == Posting <==>
              s.turns[t].attempt == 0 && s.resumed && !s.hadIdle && !s.closed
              && (result == LostSession || (result == Resolved && !sawAny)))
  {
  }
}
