/** The opencode session as a protocol (internal/agent/opencode.go and
    opencode_compact.go): callers, each turn's own goroutine, the event-bus
    reader and the compaction share one mutex-guarded state.  Every locked
    region is one step; the steps of all threads interleave in any order. */
module OpencodeTurns {
  import opened Basics

  datatype Outcome = Idle | Error

  /** What a turn's POST came back with. */
  datatype PostResult = Resolved | LostSession | Refused

  /** What endTurn read as it ended a turn. */
  datatype Ending = EndingRead(closed: bool, aborted: bool, failed: bool)

  /** What a thread that passed endTurn's check still has to do: settle what the
      turn came to, then emit it. */
  datatype Rest = Deciding(read: Ending) | Emitting(outcome: Outcome)

  /** Where a turn's own goroutine is. */
  datatype Pc =
    | Posting                    // the POST is out
    | Dropping                   // about to drop the resumed id and post again
    | Ending(failed: bool)       // about to call endTurn or failTurn
    | Leaving(rest: Rest)        // past endTurn's check
    | Returned

  /** Where the bus reader is. */
  datatype BusPc =
    | Reading
    | Failing(t: nat)            // about to fail the turn it read
    | BusLeaving(t: nat, rest: Rest)

  datatype Turn = Turn(
    pc: Pc, attempt: nat,
    finishing: bool,
    cancelled: bool,
    stopped: bool)               // Interrupt reached it

  datatype State = State(
    closed: bool, turn: Option<nat>, compacting: bool, interrupted: bool,
    compactStopped: bool,        // Interrupt reached the running compaction
    resumed: bool, hadIdle: bool,
    turns: seq<Turn>,            // every accepted turn, in order
    bus: BusPc,
    events: seq<(nat, Outcome)>) // what endTurn emitted, by turn

  function Init(resumed: bool): State {
    State(false, None, false, false, false, resumed, false, [], Reading, [])
  }

  datatype Step =
    | SendTurn
    | PostReturns(t: nat, result: PostResult, sawAny: bool)
    | DropResume(t: nat)
    | RunTurnEnds(t: nat)
    | Decide(t: nat, detail: bool, sawAny: bool)
    | EmitEnd(t: nat, dropped: bool)
    | BusLost
    | BusEnds
    | BusDecides(detail: bool, sawAny: bool)
    | BusEmits(dropped: bool)
    | Interrupt
    | CancelTurn(t: nat)
    | Close
    | Compact(ready: bool)
    | CompactEnds

  const NEW_TURN := Turn(Posting, 0, false, false, false)

  function Busy(s: State): bool { s.turn.Some? || s.compacting }

  function Resumable(s: State): bool { s.resumed && !s.hadIdle && !s.closed }

  function SetTurn(s: State, t: nat, x: Turn): State
    requires t < |s.turns|
  {
    s.(turns := s.turns[t := x])
  }

  /** The locked region of endTurn, past its check: x is the turn then. */
  function Ended(s: State, t: nat, x: Turn): State
    requires t < |s.turns|
  {
    s.(turns := s.turns[t := x], turn := None, interrupted := false)
  }

  /** The goroutine's next move once its POST returned. */
  function AfterPost(s: State, x: Turn, result: PostResult, sawAny: bool): Pc {
    if result == Resolved then
      if x.attempt == 0 && !sawAny && Resumable(s) then Dropping else Ending(false)
    else if x.attempt == 0 && result == LostSession && Resumable(s) then Dropping
    else Ending(!x.cancelled)
  }

  /** What endTurn emits from what it read: idle when the session closed under
      the turn or the turn was stopped, an error when the turn failed, reported
      one or relayed nothing, idle otherwise. */
  function OutcomeOf(e: Ending, detail: bool, sawAny: bool): Outcome {
    if e.closed then Idle
    else if e.aborted then Idle
    else if e.failed then Error
    else if detail then Error
    else if !sawAny then Error
    else Idle
  }

  /** A clean idle means the session works. */
  function Works(s: State, read: Ending, outcome: Outcome): State {
    var cleanly := outcome == Idle && !read.closed;
    s.(hadIdle := s.hadIdle || cleanly, resumed := s.resumed && !cleanly)
  }

  /** An event is out, or dropped by the closing of the session. */
  function Out(s: State, t: nat, outcome: Outcome, dropped: bool): State {
    if dropped then s else s.(events := s.events + [(t, outcome)])
  }

  function Sent(s: State): State {
    if s.closed || Busy(s) then s else s.(turn := Some(|s.turns|), turns := s.turns + [NEW_TURN])
  }

  function Interrupted(s: State): State {
    if s.turn.Some? && s.turn.value < |s.turns| then
      SetTurn(s, s.turn.value, s.turns[s.turn.value].(stopped := true)).(interrupted := true)
    else if s.compacting then s.(interrupted := true, compactStopped := true)
    else s
  }

  function Posted(s: State, t: nat, result: PostResult, sawAny: bool): State {
    if t < |s.turns| && s.turns[t].pc == Posting
    then SetTurn(s, t, s.turns[t].(pc := AfterPost(s, s.turns[t], result, sawAny)))
    else s
  }

  function Dropped(s: State, t: nat): State {
    if t < |s.turns| && s.turns[t].pc == Dropping
    then SetTurn(s, t, s.turns[t].(pc := Posting, attempt := s.turns[t].attempt + 1)).(resumed := false)
    else s
  }

  function Cancelled(s: State, t: nat): State {
    if t < |s.turns| && (s.turns[t].stopped || s.closed) then SetTurn(s, t, s.turns[t].(cancelled := true)) else s
  }

  // endTurn on the turn's own goroutine, and on the bus reader.

  function GoroutineEnds(s: State, t: nat): State {
    if t < |s.turns| && s.turns[t].pc.Ending? then
      if s.turns[t].finishing then SetTurn(s, t, s.turns[t].(pc := Returned))
      else
        var read := EndingRead(s.closed, s.interrupted, s.turns[t].pc.failed);
        Ended(s, t, s.turns[t].(finishing := true, pc := Leaving(Deciding(read))))
    else s
  }

  function GoroutineDecides(s: State, t: nat, detail: bool, sawAny: bool): State {
    if t < |s.turns| && s.turns[t].pc.Leaving? && s.turns[t].pc.rest.Deciding? then
      var read := s.turns[t].pc.rest.read;
      var outcome := OutcomeOf(read, detail, sawAny);
      Works(SetTurn(s, t, s.turns[t].(pc := Leaving(Emitting(outcome)))), read, outcome)
    else s
  }

  function GoroutineEmits(s: State, t: nat, dropped: bool): State {
    if t < |s.turns| && s.turns[t].pc.Leaving? && s.turns[t].pc.rest.Emitting? && (dropped ==> s.closed)
    then Out(SetTurn(s, t, s.turns[t].(pc := Returned)), t, s.turns[t].pc.rest.outcome, dropped)
    else s
  }

  function ReaderLoses(s: State): State {
    if s.bus == Reading && s.turn.Some? then s.(bus := Failing(s.turn.value)) else s
  }

  function ReaderEnds(s: State): State {
    if s.bus.Failing? && s.bus.t < |s.turns| then
      if s.turns[s.bus.t].finishing then s.(bus := Reading)
      else
        var read := EndingRead(s.closed, s.interrupted, true);
        Ended(s, s.bus.t, s.turns[s.bus.t].(finishing := true)).(bus := BusLeaving(s.bus.t, Deciding(read)))
    else s
  }

  function ReaderDecides(s: State, detail: bool, sawAny: bool): State {
    if s.bus.BusLeaving? && s.bus.rest.Deciding? then
      var outcome := OutcomeOf(s.bus.rest.read, detail, sawAny);
      Works(s.(bus := BusLeaving(s.bus.t, Emitting(outcome))), s.bus.rest.read, outcome)
    else s
  }

  function ReaderEmits(s: State, dropped: bool): State {
    if s.bus.BusLeaving? && s.bus.rest.Emitting? && (dropped ==> s.closed)
    then Out(s.(bus := Reading), s.bus.t, s.bus.rest.outcome, dropped)
    else s
  }

  function Apply(s: State, step: Step): State {
    match step
    case SendTurn => Sent(s)
    case PostReturns(t, result, sawAny) => Posted(s, t, result, sawAny)
    case DropResume(t) => Dropped(s, t)
    case RunTurnEnds(t) => GoroutineEnds(s, t)
    case Decide(t, detail, sawAny) => GoroutineDecides(s, t, detail, sawAny)
    case EmitEnd(t, dropped) => GoroutineEmits(s, t, dropped)
    case BusLost => ReaderLoses(s)
    case BusEnds => ReaderEnds(s)
    case BusDecides(detail, sawAny) => ReaderDecides(s, detail, sawAny)
    case BusEmits(dropped) => ReaderEmits(s, dropped)
    case Interrupt => Interrupted(s)
    case CancelTurn(t) => Cancelled(s, t)
    case Close => s.(closed := true)
    case Compact(ready) => if s.closed || Busy(s) || !ready then s else s.(compacting := true, compactStopped := false)
    case CompactEnds => if s.compacting then s.(compacting := false, interrupted := false) else s
  }

  function Run(s: State, steps: seq<Step>): State {
    if steps == [] then s else Apply(Run(s, steps[..|steps| - 1]), steps[|steps| - 1])
  }

  // ----- What every step keeps -----

  /** How many final events turn t was given. */
  function Endings(events: seq<(nat, Outcome)>, t: nat): nat {
    if events == [] then 0
    else Endings(events[..|events| - 1], t) + (if events[|events| - 1].0 == t then 1 else 0)
  }

  /** How many threads are past endTurn's check for turn t. */
  function Holders(s: State, t: nat): nat
    requires t < |s.turns|
  {
    (if s.turns[t].pc.Leaving? then 1 else 0) + (if s.bus.BusLeaving? && s.bus.t == t then 1 else 0)
  }

  /** What a thread read, and what it is about to emit, of a turn. */
  predicate RestOk(s: State, x: Turn, rest: Rest) {
    && x.finishing
    && (rest.Deciding? ==> rest.read.aborted == x.stopped && (rest.read.closed ==> s.closed))
    && (rest.Emitting? && x.stopped ==> rest.outcome == Idle)
  }

  /** One turn's record is coherent with the session's. */
  predicate TurnOk(s: State, t: nat)
    requires t < |s.turns|
  {
    var x := s.turns[t];
    && (!x.finishing <==> s.turn == Some(t))
    && (x.pc.Leaving? ==> RestOk(s, x, x.pc.rest))
    && (x.pc == Returned ==> x.finishing)
    && (x.cancelled ==> x.stopped || s.closed)
    && x.attempt <= 1
    && (x.pc == Dropping ==> x.attempt == 0)
  }

  predicate BusOk(s: State) {
    && (s.bus.Failing? ==> s.bus.t < |s.turns|)
    && (s.bus.BusLeaving? ==> s.bus.t < |s.turns| && RestOk(s, s.turns[s.bus.t], s.bus.rest))
  }

  /** An ended turn's one final event is out or in the hands of one thread, lost
      only if the session closed; a turn not ended has neither. */
  predicate OneEvent(s: State, t: nat)
    requires t < |s.turns|
  {
    var n := Endings(s.events, t) + Holders(s, t);
    n <= (if s.turns[t].finishing then 1 else 0) && (s.turns[t].finishing && !s.closed ==> n == 1)
  }

  predicate EventOk(s: State, i: nat)
    requires i < |s.events|
  {
    var t := s.events[i].0;
    t < |s.turns| && s.turns[t].finishing && (s.turns[t].stopped ==> s.events[i].1 == Idle)
  }

  predicate EventsOk(s: State) {
    && (forall t :: 0 <= t < |s.turns| ==> OneEvent(s, t))
    && (forall i :: 0 <= i < |s.events| ==> EventOk(s, i))
  }

  predicate Inv(s: State) {
    && (s.turn.Some? ==> !s.compacting && s.turn.value < |s.turns| && (s.interrupted == s.turns[s.turn.value].stopped))
    && (s.compacting ==> s.interrupted == s.compactStopped)
    && (s.interrupted ==> Busy(s))
    && (forall t :: 0 <= t < |s.turns| ==> TurnOk(s, t))
    && BusOk(s)
    && EventsOk(s)
  }

  lemma EndingsSnoc(events: seq<(nat, Outcome)>, e: (nat, Outcome), t: nat)
    ensures Endings(events + [e], t) == Endings(events, t) + if e.0 == t then 1 else 0
  {
    assert (events + [e])[..|events|] == events;
  }

  lemma {:induction false} NoEndingsYet(events: seq<(nat, Outcome)>, t: nat)
    requires forall i :: 0 <= i < |events| ==> events[i].0 < t
    ensures Endings(events, t) == 0
  {
    if events != [] { NoEndingsYet(events[..|events| - 1], t); }
  }

  /** A step that emits nothing, ends nothing, and moves no thread past the check
      or out. */
  lemma EventsStay(s: State, after: State)
    requires EventsOk(s) && after.events == s.events && (s.closed ==> after.closed) && |s.turns| <= |after.turns|
    requires forall u :: 0 <= u < |s.turns| ==>
      after.turns[u].finishing == s.turns[u].finishing && Holders(after, u) == Holders(s, u)
    requires forall u :: 0 <= u < |s.turns| && s.turns[u].finishing ==> after.turns[u].stopped == s.turns[u].stopped
    requires forall u :: |s.turns| <= u < |after.turns| ==> !after.turns[u].finishing && Holders(after, u) == 0
    ensures EventsOk(after)
  {
    forall i: nat | i < |s.events| ensures EventOk(after, i) && s.events[i].0 < |s.turns| {
      assert EventOk(s, i);
      assert Holders(after, s.events[i].0) == Holders(s, s.events[i].0);
    }
    forall t: nat | t < |after.turns| ensures OneEvent(after, t) {
      if t < |s.turns| {
        assert OneEvent(s, t) && Holders(after, t) == Holders(s, t);
      } else {
        NoEndingsYet(s.events, t);
      }
    }
  }

  lemma SendKeepsInv(s: State, after: State)
    requires after == Sent(s)
    requires Inv(s)
    ensures Inv(after)
  {
    EventsStay(s, after);
    forall u | 0 <= u < |after.turns| ensures TurnOk(after, u) {
      if u < |s.turns| { assert TurnOk(s, u); }
    }
  }

  /** endTurn past its check: y is the turn then, b the bus reader, and the thread
      that made it has taken what it read. */
  lemma EndedKeepsInv(s: State, t: nat, y: Turn, b: BusPc, after: State)
    requires Inv(s) && t < |s.turns| && !s.turns[t].finishing
    requires after == Ended(s, t, y).(bus := b)
    requires y == s.turns[t].(finishing := true, pc := y.pc) && TurnOk(after, t) && BusOk(after)
    requires (y.pc.Leaving? && b == s.bus) || (y.pc == s.turns[t].pc && !s.bus.BusLeaving? && b.BusLeaving? && b.t == t)
    ensures Inv(after)
  {
    assert TurnOk(s, t) && OneEvent(s, t);
    forall u | 0 <= u < |after.turns| ensures TurnOk(after, u) && OneEvent(after, u) {
      assert TurnOk(s, u) && OneEvent(s, u);
    }
    forall i: nat | i < |s.events| ensures EventOk(after, i) {
      assert EventOk(s, i) && s.events[i].0 != t;
    }
  }

  lemma RunTurnEndsKeepsInv(s: State, t: nat, after: State)
    requires after == GoroutineEnds(s, t)
    requires Inv(s)
    ensures Inv(after)
  {
    if t < |s.turns| && s.turns[t].pc.Ending? {
      assert TurnOk(s, t);
      if s.turns[t].finishing {
        MoveKeepsInv(s, t, s.turns[t].(pc := Returned), after);
      } else {
        EndedKeepsInv(s, t, after.turns[t], s.bus, after);
      }
    }
  }

  lemma BusEndsKeepsInv(s: State, after: State)
    requires after == ReaderEnds(s)
    requires Inv(s)
    ensures Inv(after)
  {
    if s.bus.Failing? && s.bus.t < |s.turns| {
      assert TurnOk(s, s.bus.t);
      if s.turns[s.bus.t].finishing {
        FlagsKeepInv(s, after);
      } else {
        EndedKeepsInv(s, s.bus.t, after.turns[s.bus.t], after.bus, after);
      }
    }
  }

  /** A thread emits what it holds and holds it no more. */
  lemma OutKeepsInv(s: State, t: nat, outcome: Outcome, dropped: bool, left: State)
    requires Inv(s) && t < |s.turns| && left.events == s.events && |left.turns| == |s.turns| && left.closed == s.closed
    requires Holders(s, t) >= 1 && Holders(left, t) == Holders(s, t) - 1
    requires forall u :: 0 <= u < |s.turns| && u != t ==> Holders(left, u) == Holders(s, u)
    requires forall u :: 0 <= u < |s.turns| ==> left.turns[u] == s.turns[u].(pc := left.turns[u].pc)
    requires (s.turns[t].stopped ==> outcome == Idle) && (dropped ==> s.closed)
    ensures EventsOk(Out(left, t, outcome, dropped))
  {
    var after := Out(left, t, outcome, dropped);
    assert OneEvent(s, t);
    forall u | 0 <= u < |after.turns| ensures OneEvent(after, u) {
      assert OneEvent(s, u);
      EndingsSnoc(s.events, (t, outcome), u);
    }
    forall i: nat | i < |after.events| ensures EventOk(after, i) {
      if i < |s.events| {
        assert after.events[i] == s.events[i];
        assert EventOk(s, i);
      }
    }
  }

  lemma EmitEndKeepsInv(s: State, t: nat, dropped: bool, after: State)
    requires after == GoroutineEmits(s, t, dropped)
    requires Inv(s)
    ensures Inv(after)
  {
    if after != s {
      assert TurnOk(s, t);
      OutKeepsInv(s, t, s.turns[t].pc.rest.outcome, dropped, SetTurn(s, t, s.turns[t].(pc := Returned)));
      forall u | 0 <= u < |after.turns| ensures TurnOk(after, u) {
        assert TurnOk(s, u);
      }
    }
  }

  lemma BusEmitsKeepsInv(s: State, dropped: bool, after: State)
    requires after == ReaderEmits(s, dropped)
    requires Inv(s)
    ensures Inv(after)
  {
    if after != s {
      OutKeepsInv(s, s.bus.t, s.bus.rest.outcome, dropped, s.(bus := Reading));
      forall u | 0 <= u < |after.turns| ensures TurnOk(after, u) {
        assert TurnOk(s, u);
      }
    }
  }

  lemma DecideKeepsInv(s: State, t: nat, detail: bool, sawAny: bool, after: State)
    requires after == GoroutineDecides(s, t, detail, sawAny)
    requires Inv(s)
    ensures Inv(after)
  {
    if after != s {
      var moved := SetTurn(s, t, after.turns[t]);
      assert TurnOk(s, t);
      MoveKeepsInv(s, t, after.turns[t], moved);
      FlagsKeepInv(moved, after);
    }
  }

  lemma InterruptKeepsInv(s: State, after: State)
    requires after == Interrupted(s)
    requires Inv(s)
    ensures Inv(after)
  {
    if s.turn.Some? { assert TurnOk(s, s.turn.value); }
    EventsStay(s, after);
    forall u | 0 <= u < |after.turns| ensures TurnOk(after, u) {
      assert TurnOk(s, u);
    }
  }

  /** A step that only moves one turn's own goroutine, not past the check and not
      out of it. */
  lemma MoveKeepsInv(s: State, t: nat, x: Turn, after: State)
    requires t < |s.turns| && after == SetTurn(s, t, x)
    requires Inv(s)
    requires x == s.turns[t].(pc := x.pc, attempt := x.attempt, cancelled := x.cancelled)
    requires x.attempt <= 1 && (x.pc == Dropping ==> x.attempt == 0)
    requires x.pc.Leaving? == s.turns[t].pc.Leaving? && (x.pc.Leaving? ==> RestOk(s, x, x.pc.rest))
    requires x.pc == Returned ==> x.finishing
    requires x.cancelled ==> x.stopped || s.closed
    ensures Inv(after)
  {
    assert TurnOk(s, t);
    EventsStay(s, after);
    forall u | 0 <= u < |after.turns| ensures TurnOk(after, u) {
      assert TurnOk(s, u);
    }
  }

  lemma BusFlagsKeepInv(s: State, step: Step, after: State)
    requires after == Apply(s, step) && (step.BusLost? || step.BusDecides? || step.Close?)
    requires Inv(s)
    ensures Inv(after)
  {
    FlagsKeepInv(s, after);
  }

  lemma StepKeepsInv(s: State, step: Step, after: State)
    requires Inv(s) && after == Apply(s, step)
    ensures Inv(after)
  {
    match step
    case SendTurn => SendKeepsInv(s, after);
    case PostReturns(t, result, sawAny) => PostKeepsInv(s, t, result, sawAny, after);
    case DropResume(t) => DropKeepsInv(s, t, after);
    case RunTurnEnds(t) => RunTurnEndsKeepsInv(s, t, after);
    case Decide(t, detail, sawAny) => DecideKeepsInv(s, t, detail, sawAny, after);
    case EmitEnd(t, dropped) => EmitEndKeepsInv(s, t, dropped, after);
    case BusLost => BusFlagsKeepInv(s, step, after);
    case BusEnds => BusEndsKeepsInv(s, after);
    case BusDecides(_, _) => BusFlagsKeepInv(s, step, after);
    case BusEmits(dropped) => BusEmitsKeepsInv(s, dropped, after);
    case Interrupt => InterruptKeepsInv(s, after);
    case CancelTurn(t) => CancelKeepsInv(s, t, after);
    case Close => BusFlagsKeepInv(s, step, after);
    case Compact(_) => CompactKeepsInv(s, step, after);
    case CompactEnds => CompactKeepsInv(s, step, after);
  }

  lemma PostKeepsInv(s: State, t: nat, result: PostResult, sawAny: bool, after: State)
    requires after == Posted(s, t, result, sawAny)
    requires Inv(s)
    ensures Inv(after)
  {
    if after != s {
      assert TurnOk(s, t);
      MoveKeepsInv(s, t, after.turns[t], after);
    }
  }

  lemma DropKeepsInv(s: State, t: nat, after: State)
    requires after == Dropped(s, t)
    requires Inv(s)
    ensures Inv(after)
  {
    if after != s {
      var moved := SetTurn(s, t, after.turns[t]);
      assert TurnOk(s, t);
      MoveKeepsInv(s, t, after.turns[t], moved);
      FlagsKeepInv(moved, after);
    }
  }

  lemma CancelKeepsInv(s: State, t: nat, after: State)
    requires after == Cancelled(s, t)
    requires Inv(s)
    ensures Inv(after)
  {
    if after != s {
      assert TurnOk(s, t);
      MoveKeepsInv(s, t, after.turns[t], after);
    }
  }

  /** The flags below are read, never tied to the turns; the bus reader keeps the
      turn it is past the check for. */
  lemma FlagsKeepInv(s: State, after: State)
    requires Inv(s) && after.turns == s.turns && after.turn == s.turn && after.events == s.events
    requires after.compacting == s.compacting && after.interrupted == s.interrupted && after.compactStopped == s.compactStopped
    requires (s.closed ==> after.closed) && BusOk(after) && after.bus.BusLeaving? == s.bus.BusLeaving?
    requires s.bus.BusLeaving? ==> after.bus.t == s.bus.t
    ensures Inv(after)
  {
    EventsStay(s, after);
    forall u | 0 <= u < |after.turns| ensures TurnOk(after, u) {
      assert TurnOk(s, u);
    }
  }

  lemma CompactKeepsInv(s: State, step: Step, after: State)
    requires after == Apply(s, step)
    requires Inv(s) && (step.Compact? || step.CompactEnds?)
    ensures Inv(after)
  {
    EventsStay(s, after);
    forall u | 0 <= u < |after.turns| ensures TurnOk(after, u) {
      assert TurnOk(s, u);
    }
  }

  lemma {:induction false} RunKeepsInv(s: State, steps: seq<Step>)
    requires Inv(s)
    ensures Inv(Run(s, steps))
  {
    if steps != [] {
      RunKeepsInv(s, steps[..|steps| - 1]);
      StepKeepsInv(Run(s, steps[..|steps| - 1]), steps[|steps| - 1], Run(s, steps));
    }
  }

  // ----- What every run promises -----

  /** In every interleaving a turn and a compaction are never both in flight,
      at most one turn is, and a stop stands only over what is in flight. */
  lemma OneInFlight(resumed: bool, steps: seq<Step>)
    ensures var s := Run(Init(resumed), steps);
            && !(s.turn.Some? && s.compacting)
            && (forall t, u :: 0 <= t < u < |s.turns| ==> s.turns[t].finishing || s.turns[u].finishing)
            && (s.interrupted ==> s.turn.Some? || s.compacting)
  {
    var s := Run(Init(resumed), steps);
    RunKeepsInv(Init(resumed), steps);
    forall t, u | 0 <= t < u < |s.turns| ensures s.turns[t].finishing || s.turns[u].finishing {
      assert TurnOk(s, t) && TurnOk(s, u);
    }
  }

  /** No stale stop reaches a later turn: a turn starts unstopped, and so does a
      compaction. */
  lemma NoStaleStop(resumed: bool, steps: seq<Step>, step: Step)
    requires step.SendTurn? || step.Compact?
    ensures var before := Run(Init(resumed), steps); var after := Apply(before, step);
            after != before ==> !after.interrupted
  {
    RunKeepsInv(Init(resumed), steps);
  }

  /** At most one thread ever gets past endTurn's check for a turn, and none again
      once its event is out: the check on finishing is all that keeps them
      apart. */
  lemma OneThreadEnds(resumed: bool, steps: seq<Step>, t: nat)
    requires t < |Run(Init(resumed), steps).turns|
    ensures var s := Run(Init(resumed), steps);
            && Holders(s, t) <= 1
            && (Holders(s, t) == 1 ==> s.turns[t].finishing && Endings(s.events, t) == 0)
  {
    RunKeepsInv(Init(resumed), steps);
    assert TurnOk(Run(Init(resumed), steps), t) && OneEvent(Run(Init(resumed), steps), t);
  }

  /** What a thread past the check read stays as it read it, whatever the others
      do, until its own next step. */
  lemma ReadingStays(s: State, step: Step, t: nat)
    requires t < |s.turns| && s.turns[t].pc.Leaving?
    requires !(step.Decide? && step.t == t) && !(step.EmitEnd? && step.t == t)
    ensures t < |Apply(s, step).turns| && Apply(s, step).turns[t].pc == s.turns[t].pc
  {
    match step
    case PostReturns(u, result, sawAny) => PostLeavesOthers(s, u, result, sawAny, t);
    case DropResume(u) => DropLeavesOthers(s, u, t);
    case RunTurnEnds(u) => EndsLeaveOthers(s, u, t);
    case Decide(u, detail, sawAny) => DecidesLeaveOthers(s, u, detail, sawAny, t);
    case EmitEnd(u, dropped) => EmitsLeaveOthers(s, u, dropped, t);
    case _ =>
  }

  lemma PostLeavesOthers(s: State, u: nat, result: PostResult, sawAny: bool, t: nat)
    requires t < |s.turns| && s.turns[t].pc.Leaving?
    ensures var after := Posted(s, u, result, sawAny); |after.turns| == |s.turns| && after.turns[t] == s.turns[t]
  {
  }

  lemma DropLeavesOthers(s: State, u: nat, t: nat)
    requires t < |s.turns| && s.turns[t].pc.Leaving?
    ensures |Dropped(s, u).turns| == |s.turns| && Dropped(s, u).turns[t] == s.turns[t]
  {
  }

  lemma EndsLeaveOthers(s: State, u: nat, t: nat)
    requires t < |s.turns| && s.turns[t].pc.Leaving?
    ensures |GoroutineEnds(s, u).turns| == |s.turns| && GoroutineEnds(s, u).turns[t].pc == s.turns[t].pc
  {
  }

  lemma DecidesLeaveOthers(s: State, u: nat, detail: bool, sawAny: bool, t: nat)
    requires t < |s.turns| && u != t
    ensures var after := GoroutineDecides(s, u, detail, sawAny);
            |after.turns| == |s.turns| && after.turns[t].pc == s.turns[t].pc
  {
  }

  lemma EmitsLeaveOthers(s: State, u: nat, dropped: bool, t: nat)
    requires t < |s.turns| && u != t
    ensures |GoroutineEmits(s, u, dropped).turns| == |s.turns| && GoroutineEmits(s, u, dropped).turns[t].pc == s.turns[t].pc
  {
  }

  lemma BusReadingStays(s: State, step: Step)
    requires s.bus.BusLeaving? && !step.BusDecides? && !step.BusEmits?
    ensures Apply(s, step).bus == s.bus
  {
    match step
    case RunTurnEnds(_) =>
    case Decide(_, _, _) =>
    case EmitEnd(_, _) =>
    case _ =>
  }

  /** Each accepted turn is ended at most once, with one event: one is out as soon
      as the turn ended and no thread is left to emit it, unless the session
      closed and dropped it.  Once the turn's own goroutine returned, the turn has
      been ended. */
  lemma EndedOnce(resumed: bool, steps: seq<Step>, t: nat)
    requires t < |Run(Init(resumed), steps).turns|
    ensures var s := Run(Init(resumed), steps);
            && Endings(s.events, t) <= 1
            && (s.turns[t].finishing && Holders(s, t) == 0 && !s.closed ==> Endings(s.events, t) == 1)
            && (Endings(s.events, t) == 1 ==> s.turns[t].finishing && Holders(s, t) == 0)
            && (s.turns[t].pc == Returned ==> s.turns[t].finishing && s.turn != Some(t))
  {
    RunKeepsInv(Init(resumed), steps);
    assert TurnOk(Run(Init(resumed), steps), t) && OneEvent(Run(Init(resumed), steps), t);
  }

  /** A turn Interrupt reached ends idle, whichever thread ends it. */
  lemma StoppedTurnsEndIdle(resumed: bool, steps: seq<Step>, i: nat)
    requires i < |Run(Init(resumed), steps).events|
    ensures var s := Run(Init(resumed), steps); var (t, outcome) := s.events[i];
            t < |s.turns| && (s.turns[t].stopped ==> outcome == Idle)
  {
    RunKeepsInv(Init(resumed), steps);
    assert EventOk(Run(Init(resumed), steps), i);
  }

  /** A stop is read by exactly the turn it reached: what endTurn took for an
      abort is what Interrupt marked, in the hands of either thread. */
  lemma AbortIsTheTurnsOwn(resumed: bool, steps: seq<Step>, t: nat)
    requires t < |Run(Init(resumed), steps).turns|
    ensures var s := Run(Init(resumed), steps); var x := s.turns[t];
            && (x.pc.Leaving? && x.pc.rest.Deciding? ==> (x.pc.rest.read.aborted <==> x.stopped))
            && (s.bus.BusLeaving? && s.bus.t == t && s.bus.rest.Deciding? ==> (s.bus.rest.read.aborted <==> x.stopped))
  {
    RunKeepsInv(Init(resumed), steps);
    assert TurnOk(Run(Init(resumed), steps), t);
  }

  /** A POST cut short by a cancelled context never ends its turn in error: the
      cancel was a stop or the session closing. */
  lemma CancelledTurnsEndIdle(resumed: bool, steps: seq<Step>, t: nat, detail: bool, sawAny: bool)
    requires var s := Run(Init(resumed), steps);
             t < |s.turns| && s.turns[t].cancelled && s.turns[t].pc.Ending? && !s.turns[t].finishing
    ensures var pc := Apply(Run(Init(resumed), steps), RunTurnEnds(t)).turns[t].pc;
            pc.Leaving? && pc.rest.Deciding? && OutcomeOf(pc.rest.read, detail, sawAny) == Idle
  {
    var s := Run(Init(resumed), steps);
    RunKeepsInv(Init(resumed), steps);
    assert TurnOk(s, t);
  }

  /** Neither closed nor opened, no turn added, no compaction begun or ended. */
  predicate SameDoors(s: State, after: State) {
    after.closed == s.closed && |after.turns| == |s.turns| && after.compacting == s.compacting
  }

  lemma PostDoors(s: State, u: nat, result: PostResult, sawAny: bool)
    ensures SameDoors(s, Posted(s, u, result, sawAny))
  {
  }

  lemma EndDoors(s: State, u: nat)
    ensures SameDoors(s, GoroutineEnds(s, u)) && SameDoors(s, Dropped(s, u)) && SameDoors(s, Cancelled(s, u))
  {
  }

  lemma DecideDoors(s: State, u: nat, detail: bool, sawAny: bool)
    ensures SameDoors(s, GoroutineDecides(s, u, detail, sawAny))
  {
  }

  lemma EmitDoors(s: State, u: nat, dropped: bool)
    ensures SameDoors(s, GoroutineEmits(s, u, dropped)) && SameDoors(s, ReaderEmits(s, dropped))
  {
  }

  lemma ReaderDoors(s: State)
    ensures SameDoors(s, ReaderLoses(s)) && SameDoors(s, ReaderEnds(s)) && SameDoors(s, Interrupted(s))
  {
  }

  lemma ReaderDecideDoors(s: State, detail: bool, sawAny: bool)
    ensures SameDoors(s, ReaderDecides(s, detail, sawAny))
  {
  }

  /** Only sending, closing and compacting move the doors. */
  lemma DoorsStay(s: State, step: Step, after: State)
    requires after == Apply(s, step) && !step.SendTurn? && !step.Close? && !step.Compact? && !step.CompactEnds?
    ensures SameDoors(s, after)
  {
    match step
    case PostReturns(u, result, sawAny) => PostDoors(s, u, result, sawAny);
    case DropResume(u) => EndDoors(s, u);
    case RunTurnEnds(u) => EndDoors(s, u);
    case Decide(u, detail, sawAny) => DecideDoors(s, u, detail, sawAny);
    case EmitEnd(u, dropped) => EmitDoors(s, u, dropped);
    case BusLost => ReaderDoors(s);
    case BusEnds => ReaderDoors(s);
    case BusDecides(detail, sawAny) => ReaderDecideDoors(s, detail, sawAny);
    case BusEmits(dropped) => EmitDoors(s, 0, dropped);
    case Interrupt => ReaderDoors(s);
    case CancelTurn(u) => EndDoors(s, u);
  }

  lemma ClosedStep(s: State, step: Step, after: State)
    requires after == Apply(s, step)
    ensures after.closed <==> s.closed || step == Close
    ensures s.closed ==> |after.turns| == |s.turns| && (after.compacting ==> s.compacting)
  {
    if !step.SendTurn? && !step.Close? && !step.Compact? && !step.CompactEnds? { DoorsStay(s, step, after); }
  }

  /** Once the session closed no turn is accepted and no compaction begins,
      whatever else goes on. */
  lemma {:induction false} ClosedRefuses(resumed: bool, before: seq<Step>, more: seq<Step>)
    requires Run(Init(resumed), before).closed
    ensures var s, after := Run(Init(resumed), before), Run(Run(Init(resumed), before), more);
            after.closed && |after.turns| == |s.turns| && (after.compacting ==> s.compacting)
  {
    if more != [] {
      var init := more[..|more| - 1];
      ClosedRefuses(resumed, before, init);
      ClosedStep(Run(Run(Init(resumed), before), init), more[|more| - 1], Run(Run(Init(resumed), before), more));
    }
  }

  lemma {:induction false} ClosedOnlyByClose(resumed: bool, steps: seq<Step>)
    ensures Run(Init(resumed), steps).closed <==> Close in steps
  {
    if steps != [] {
      var init, step := steps[..|steps| - 1], steps[|steps| - 1];
      ClosedOnlyByClose(resumed, init);
      ClosedStep(Run(Init(resumed), init), step, Run(Init(resumed), steps));
      assert steps == init + [step];
    }
  }

  /** A message is refused only by a closed session, a turn in flight or a
      compaction; so is a compaction, or by a session not ready for one. */
  lemma AcceptedIff(resumed: bool, steps: seq<Step>, ready: bool)
    ensures var s := Run(Init(resumed), steps);
            var free := Close !in steps && !s.compacting && forall t: nat :: t < |s.turns| ==> s.turns[t].finishing;
            && (|Apply(s, SendTurn).turns| > |s.turns| <==> free)
            && (!s.compacting && Apply(s, Compact(ready)).compacting <==> free && ready)
  {
    var s := Run(Init(resumed), steps);
    RunKeepsInv(Init(resumed), steps);
    ClosedOnlyByClose(resumed, steps);
    if s.turn.Some? {
      assert TurnOk(s, s.turn.value);
    } else {
      forall t: nat | t < |s.turns| ensures s.turns[t].finishing { assert TurnOk(s, t); }
    }
  }

  /** A turn is posted at most twice. */
  lemma PostedAtMostTwice(resumed: bool, steps: seq<Step>, t: nat)
    requires t < |Run(Init(resumed), steps).turns|
    ensures Run(Init(resumed), steps).turns[t].attempt <= 1
  {
    RunKeepsInv(Init(resumed), steps);
    assert TurnOk(Run(Init(resumed), steps), t);
  }

  // ----- The session object -----

  datatype Reply = Accepted | SessionClosed | ErrBusy

  /** The guarded fields, each method one locked region. */
  class Session {
    var closed: bool
    var turn: Option<nat>
    var compacting: bool
    var interrupted: bool
    var compactStopped: bool
    var resumed: bool
    var hadIdle: bool
    var turns: seq<Turn>
    var bus: BusPc
    var events: seq<(nat, Outcome)>

    ghost function View(): State
      reads this
    {
      State(closed, turn, compacting, interrupted, compactStopped, resumed, hadIdle, turns, bus, events)
    }

    constructor (resume: bool)
      ensures View() == Init(resume) && Inv(View())
    {
      closed, turn, compacting, interrupted, compactStopped := false, None, false, false, false;
      resumed, hadIdle, turns, bus, events := resume, false, [], Reading, [];
    }

    method Send() returns (reply: Reply)
      modifies this
      ensures View() == Apply(old(View()), SendTurn)
      ensures reply == if old(closed) then SessionClosed else if old(turn.Some? || compacting) then ErrBusy else Accepted
    {
      if closed {
        return SessionClosed;
      }
      if turn.Some? || compacting {
        return ErrBusy;
      }
      turn := Some(|turns|);
      turns := turns + [NEW_TURN];
      return Accepted;
    }

    /** endTurn up to its unlock: what the caller read, none when t was ended
        before. */
    method EndTurn(t: nat, failed: bool) returns (read: Option<Ending>)
      requires t < |turns|
      modifies this
      ensures read == if old(turns[t].finishing) then None else Some(EndingRead(closed, old(interrupted), failed))
      ensures View() == if read.None? then old(View()) else Ended(old(View()), t, old(turns[t]).(finishing := true))
    {
      if turns[t].finishing {
        return None;
      }
      read := Some(EndingRead(closed, interrupted, failed));
      turns := turns[t := turns[t].(finishing := true)];
      turn := None;
      interrupted := false;
    }

    /** endTurn past its unlock: what the turn came to, recorded when that is a
        clean idle. */
    method DecideFinal(read: Ending, detail: bool, sawAny: bool) returns (outcome: Outcome)
      modifies this
      ensures outcome == OutcomeOf(read, detail, sawAny)
      ensures View() == Works(old(View()), read, outcome)
    {
      if read.closed {
        return Idle;
      }
      if read.aborted {
        hadIdle, resumed := true, false;
        return Idle;
      }
      if read.failed || detail || !sawAny {
        return Error;
      }
      hadIdle, resumed := true, false;
      return Idle;
    }

    /** And the event, which the closing of the session may drop. */
    method EmitFinal(t: nat, outcome: Outcome, dropped: bool)
      requires dropped ==> closed
      modifies this
      ensures View() == Out(old(View()), t, outcome, dropped)
    {
      if !dropped {
        events := events + [(t, outcome)];
      }
    }

    /** The turn's own goroutine, at its end. */
    method FinishRunTurn(t: nat)
      requires t < |turns| && turns[t].pc.Ending?
      modifies this
      ensures View() == Apply(old(View()), RunTurnEnds(t))
    {
      var read := EndTurn(t, turns[t].pc.failed);
      turns := turns[t := turns[t].(pc := if read.None? then Returned else Leaving(Deciding(read.value)))];
    }

    /** The goroutine goes on through endTurn. */
    method FinishDecide(t: nat, detail: bool, sawAny: bool)
      requires t < |turns| && turns[t].pc.Leaving? && turns[t].pc.rest.Deciding?
      modifies this
      ensures View() == Apply(old(View()), Decide(t, detail, sawAny))
    {
      var outcome := DecideFinal(turns[t].pc.rest.read, detail, sawAny);
      turns := turns[t := turns[t].(pc := Leaving(Emitting(outcome)))];
    }

    method FinishEmit(t: nat, dropped: bool)
      requires t < |turns| && turns[t].pc.Leaving? && turns[t].pc.rest.Emitting? && (dropped ==> closed)
      modifies this
      ensures View() == Apply(old(View()), EmitEnd(t, dropped))
    {
      EmitFinal(t, turns[t].pc.rest.outcome, dropped);
      turns := turns[t := turns[t].(pc := Returned)];
    }

    /** The bus reader reads the turn its lost stream was under. */
    method LoseStream()
      modifies this
      ensures View() == Apply(old(View()), BusLost)
    {
      if bus == Reading && turn.Some? {
        bus := Failing(turn.value);
      }
    }

    /** The bus reader fails the turn it read. */
    method ServerDied()
      requires bus.Failing? && bus.t < |turns|
      modifies this
      ensures View() == Apply(old(View()), BusEnds)
    {
      var read := EndTurn(bus.t, true);
      bus := if read.None? then Reading else BusLeaving(bus.t, Deciding(read.value));
    }

    /** The bus reader goes on through endTurn. */
    method BusDecide(detail: bool, sawAny: bool)
      requires bus.BusLeaving? && bus.rest.Deciding?
      modifies this
      ensures View() == Apply(old(View()), BusDecides(detail, sawAny))
    {
      var outcome := DecideFinal(bus.rest.read, detail, sawAny);
      bus := BusLeaving(bus.t, Emitting(outcome));
    }

    method BusEmit(dropped: bool)
      requires bus.BusLeaving? && bus.rest.Emitting? && (dropped ==> closed)
      modifies this
      ensures View() == Apply(old(View()), BusEmits(dropped))
    {
      EmitFinal(bus.t, bus.rest.outcome, dropped);
      bus := Reading;
    }

    method Stop()
      requires Inv(View())
      modifies this
      ensures View() == Apply(old(View()), Interrupt)
    {
      if turn.Some? || compacting {
        interrupted := true;
      }
      if turn.Some? {
        turns := turns[turn.value := turns[turn.value].(stopped := true)];
      } else if compacting {
        compactStopped := true;
      }
    }

    method Shut()
      modifies this
      ensures View() == Apply(old(View()), Close)
    {
      closed := true;
    }

    method StartCompaction(ready: bool) returns (reply: Reply)
      modifies this
      ensures View() == Apply(old(View()), Compact(ready))
      ensures reply == if old(closed) then SessionClosed else if old(turn.Some? || compacting) then ErrBusy else Accepted
    {
      if closed {
        return SessionClosed;
      }
      if turn.Some? || compacting {
        return ErrBusy;
      }
      if ready {
        compacting, compactStopped := true, false;
      }
      return Accepted;
    }

    /** runCompact's locked end: what it reads decides what it emits. */
    method FinishCompaction() returns (wasClosed: bool, aborted: bool)
      requires compacting && Inv(View())
      modifies this
      ensures View() == Apply(old(View()), CompactEnds)
      ensures wasClosed == old(closed) && aborted == old(compactStopped)
    {
      compacting := false;
      wasClosed, aborted := closed, interrupted;
      interrupted := false;
    }
  }
}
