/** Waiting out an opencode 2.x execution (internal/agent/opencode_v2.go).  A
    prompt is admitted, not awaited: its end is read off an event bus that may
    lose events but keeps their order, or settled with the server once a dropped
    stream is open again. */
module OpencodeExec {
  import opened Basics

  /** What ended an execution: a terminal event on the bus, of the execution it
      names, or the settling of the one captured. */
  datatype Cause = Terminal(e: nat) | Settled(captured: nat)

  datatype Exec = Exec(
    admitted: bool, started: bool, ended: bool,
    endedBy: Option<Cause>,
    closes: nat,      // how often its done channel was closed
    closing: nat,     // threads that ended it, their close still to come
    early: bool)      // marked started before its own start was dispatched

  /** The bus carries, in order, each execution's start and then its terminal
      event: execution e's stand at positions 2e and 2e+1. */
  datatype State = State(exec: Option<nat>, execs: seq<Exec>, lastPos: int, acts: seq<nat>)

  const INIT := State(None, [], -1, [])

  const NEW_EXEC := Exec(false, false, false, None, 0, 0, false)

  datatype Step =
    | BeginExec
    | EndExec(ex: nat)
    | Admit(ex: nat)
    | Dispatch(pos: nat)      // the bus event at pos, those skipped being lost
    | CloseDone(ex: nat)
    | SettleMark(ex: nat)     // settleExecV2's last locked region
    | SettleAct(i: nat)       // and what it does once that found ex open

  function Put(s: State, k: nat, x: Exec): State
    requires k < |s.execs|
  {
    s.(execs := s.execs[k := x])
  }

  predicate Current(s: State) { s.exec.Some? && s.exec.value < |s.execs| }

  /** The locked region of endExecution. */
  function EndLocked(s: State, cause: Cause): State {
    if !Current(s) then s
    else
      var x := s.execs[s.exec.value];
      if !x.started || x.ended then s
      else Put(s, s.exec.value, x.(ended := true, endedBy := Some(cause), closing := x.closing + 1))
  }

  /** A start marks the current execution, whichever one it is the start of. */
  function Started(s: State, e: nat): State {
    if !Current(s) then s else Put(s, s.exec.value, Mark(s.execs[s.exec.value], e == s.exec.value))
  }

  function Mark(x: Exec, own: bool): Exec {
    x.(started := true, early := x.early || (!x.started && !own))
  }

  function Apply(s: State, step: Step): State {
    match step
    case BeginExec => s.(exec := Some(|s.execs|), execs := s.execs + [NEW_EXEC])
    case EndExec(ex) => if s.exec == Some(ex) then s.(exec := None) else s
    case Admit(ex) => if ex < |s.execs| then Put(s, ex, s.execs[ex].(admitted := true)) else s
    case Dispatch(pos) =>
      if pos <= s.lastPos || pos / 2 >= |s.execs| then s
      else if pos % 2 == 0 then Started(s, pos / 2).(lastPos := pos)
      else EndLocked(s, Terminal(pos / 2)).(lastPos := pos)
    case CloseDone(ex) =>
      if ex < |s.execs| && s.execs[ex].closing > 0
      then Put(s, ex, s.execs[ex].(closes := s.execs[ex].closes + 1, closing := s.execs[ex].closing - 1))
      else s
    case SettleMark(ex) =>
      if ex < |s.execs| && s.execs[ex].admitted then
        Put(s, ex, Mark(s.execs[ex], false)).(acts := if s.exec == Some(ex) then s.acts + [ex] else s.acts)
      else s
    case SettleAct(i) =>
      if i < |s.acts| then EndLocked(s, Settled(s.acts[i])).(acts := s.acts[..i] + s.acts[i + 1..]) else s
  }

  function Run(s: State, steps: seq<Step>): State {
    if steps == [] then s else Apply(Run(s, steps[..|steps| - 1]), steps[|steps| - 1])
  }

  lemma RunSnoc(s: State, steps: seq<Step>, step: Step)
    ensures Run(s, steps + [step]) == Apply(Run(s, steps), step)
  {
    assert (steps + [step])[..|steps|] == steps;
  }

  // ----- Which execution is current -----

  function Begun(steps: seq<Step>): nat {
    if steps == [] then 0 else Begun(steps[..|steps| - 1]) + if steps[|steps| - 1] == BeginExec then 1 else 0
  }

  /** The last execution begun is k, and it was not dropped since. */
  predicate LastBegun(steps: seq<Step>, k: nat) {
    steps != [] && (
      var before, step := steps[..|steps| - 1], steps[|steps| - 1];
      match step
      case BeginExec => k == Begun(before)
      case EndExec(ex) => ex != k && LastBegun(before, k)
      case _ => LastBegun(before, k))
  }

  lemma StepCurrent(s: State, before: seq<Step>, step: Step, k: nat, after: State, steps: seq<Step>)
    requires |s.execs| == Begun(before) && (s.exec == Some(k) <==> LastBegun(before, k)) && after == Apply(s, step)
    requires steps != [] && before == steps[..|steps| - 1] && step == steps[|steps| - 1]
    ensures |after.execs| == Begun(steps) && (after.exec == Some(k) <==> LastBegun(steps, k))
  {
  }

  /** In every interleaving the current execution is the last one begun, until it
      is dropped itself: dropping another leaves it. */
  lemma {:induction false} CurrentIsLastBegun(steps: seq<Step>, k: nat)
    ensures var s := Run(INIT, steps); |s.execs| == Begun(steps) && (s.exec == Some(k) <==> LastBegun(steps, k))
  {
    if steps != [] {
      var before := steps[..|steps| - 1];
      CurrentIsLastBegun(before, k);
      StepCurrent(Run(INIT, before), before, steps[|steps| - 1], k, Run(INIT, steps), steps);
    }
  }

  // ----- Closed once, and not before it started -----

  predicate ExecOk(x: Exec) {
    && x.closes + x.closing == (if x.ended then 1 else 0)
    && (x.ended ==> x.started)
    && (x.ended <==> x.endedBy.Some?)
  }

  predicate Inv(s: State) {
    && (forall k :: 0 <= k < |s.execs| ==> ExecOk(s.execs[k]))
    && (s.exec.Some? ==> s.exec.value == |s.execs| - 1)
  }

  lemma StepKeepsInv(s: State, step: Step)
    requires Inv(s)
    ensures Inv(Apply(s, step))
  {
  }

  lemma {:induction false} RunKeepsInv(s: State, steps: seq<Step>)
    requires Inv(s)
    ensures Inv(Run(s, steps))
  {
    if steps != [] {
      RunKeepsInv(s, steps[..|steps| - 1]);
      StepKeepsInv(Run(s, steps[..|steps| - 1]), steps[|steps| - 1]);
    }
  }

  /** In every interleaving an execution's done channel is closed at most once,
      and never before the execution was marked started. */
  lemma ClosedOnceAfterStart(steps: seq<Step>, k: nat)
    requires k < |Run(INIT, steps).execs|
    ensures var x := Run(INIT, steps).execs[k];
            x.closes <= 1 && (x.closes == 1 ==> x.started && x.ended && x.closing == 0)
  {
    RunKeepsInv(INIT, steps);
    assert ExecOk(Run(INIT, steps).execs[k]);
  }

  // ----- Ended by its own terminal event -----

  /** Past an execution's own start, only its own terminal event can still be
      dispatched while it is the last. */
  predicate OwnEnd(x: Exec, k: nat) {
    && (x.early ==> x.started)
    && (x.endedBy.Some? && x.endedBy.value.Terminal? && !x.early ==> x.endedBy.value.e == k)
  }

  predicate EndInv(s: State) {
    && Inv(s)
    && (Current(s) && s.execs[s.exec.value].started && !s.execs[s.exec.value].early ==> s.lastPos >= 2 * s.exec.value)
    && (forall k :: 0 <= k < |s.execs| ==> OwnEnd(s.execs[k], k))
  }

  lemma StepKeepsEnds(s: State, step: Step)
    requires EndInv(s)
    ensures EndInv(Apply(s, step))
  {
    StepKeepsInv(s, step);
    var after := Apply(s, step);
    forall k | 0 <= k < |after.execs| ensures OwnEnd(after.execs[k], k) {
      if k < |s.execs| { assert OwnEnd(s.execs[k], k); }
    }
  }

  lemma {:induction false} RunKeepsEnds(steps: seq<Step>)
    ensures EndInv(Run(INIT, steps))
  {
    if steps != [] {
      RunKeepsEnds(steps[..|steps| - 1]);
      StepKeepsEnds(Run(INIT, steps[..|steps| - 1]), steps[|steps| - 1]);
    }
  }

  /** In every interleaving, however many events the bus lost, an execution that
      was not marked started before its own start is ended by no terminal event
      but its own. */
  lemma DispatchEndsItsOwn(steps: seq<Step>, k: nat)
    requires k < |Run(INIT, steps).execs|
    ensures var x := Run(INIT, steps).execs[k];
            x.endedBy.Some? && x.endedBy.value.Terminal? && !x.early ==> x.endedBy.value.e == k
  {
    RunKeepsEnds(steps);
    assert OwnEnd(Run(INIT, steps).execs[k], k);
  }

  /** A dispatched terminal event of execution e ends another one if and only if
      that is current, started and unended: that is, if and only if it is
      current, unended and was marked early. */
  lemma TerminalEndsAnother(steps: seq<Step>, e: nat, k: nat)
    requires var s := Run(INIT, steps); e < |s.execs| && k < |s.execs| && e != k && 2 * e + 1 > s.lastPos
    ensures var s, after := Run(INIT, steps), Run(INIT, steps + [Dispatch(2 * e + 1)]);
            && |after.execs| == |s.execs|
            && ((!s.execs[k].ended && after.execs[k].ended)
                <==> (s.exec == Some(k) && s.execs[k].started && !s.execs[k].ended))
            && ((!s.execs[k].ended && after.execs[k].ended)
                <==> (s.exec == Some(k) && s.execs[k].early && !s.execs[k].ended))
  {
    RunKeepsEnds(steps);
    RunSnoc(INIT, steps, Dispatch(2 * e + 1));
    TerminalStep(Run(INIT, steps), e, k, Apply(Run(INIT, steps), Dispatch(2 * e + 1)));
  }

  lemma TerminalStep(s: State, e: nat, k: nat, after: State)
    requires EndInv(s) && e < |s.execs| && k < |s.execs| && e != k && 2 * e + 1 > s.lastPos
    requires after == Apply(s, Dispatch(2 * e + 1))
    ensures |after.execs| == |s.execs|
    ensures (!s.execs[k].ended && after.execs[k].ended) <==> (s.exec == Some(k) && s.execs[k].started && !s.execs[k].ended)
    ensures (!s.execs[k].ended && after.execs[k].ended) <==> (s.exec == Some(k) && s.execs[k].early && !s.execs[k].ended)
  {
    assert OwnEnd(s.execs[k], k);
    assert after == EndLocked(s, Terminal(e)).(lastPos := 2 * e + 1);
  }

  /** The step marks k started before its own start was dispatched: the late
      start of an earlier execution does, and a settling. */
  predicate MarksEarly(s: State, step: Step, k: nat)
    requires k < |s.execs|
  {
    && !s.execs[k].started
    && match step
       case Dispatch(pos) => pos > s.lastPos && pos % 2 == 0 && pos / 2 < k && s.exec == Some(k)
       case SettleMark(ex) => ex == k && s.execs[k].admitted
       case _ => false
  }

  lemma EarlyIff(s: State, step: Step, k: nat)
    requires Inv(s) && k < |s.execs|
    ensures k < |Apply(s, step).execs|
    ensures Apply(s, step).execs[k].early <==> s.execs[k].early || MarksEarly(s, step, k)
  {
  }

  /** The execution before the next one has started, as far as the bus was
      dispatched: no earlier start can still arrive. */
  predicate StartsSeen(s: State) {
    |s.execs| == 0 || s.lastPos >= 2 * (|s.execs| - 1)
  }

  /** Every execution of the run begins with the starts before it dispatched. */
  predicate Calm(steps: seq<Step>) {
    steps == [] || (
      Calm(steps[..|steps| - 1])
      && (steps[|steps| - 1] == BeginExec ==> StartsSeen(Run(INIT, steps[..|steps| - 1]))))
  }

  lemma CalmSnoc(steps: seq<Step>, step: Step)
    ensures Calm(steps + [step]) <==> Calm(steps) && (step == BeginExec ==> StartsSeen(Run(INIT, steps)))
  {
    assert (steps + [step])[..|steps|] == steps;
  }

  /** A settling of the run found k not marked started yet. */
  predicate SettledEarly(steps: seq<Step>, k: nat) {
    steps != [] && (
      var before, s := steps[..|steps| - 1], Run(INIT, steps[..|steps| - 1]);
      SettledEarly(before, k)
      || (steps[|steps| - 1] == SettleMark(k) && k < |s.execs| && s.execs[k].admitted && !s.execs[k].started))
  }

  /** Where a calm run stands: no start of an earlier execution is left. */
  ghost predicate CalmInv(s: State, steps: seq<Step>) {
    && Inv(s)
    && (|s.execs| >= 2 ==> s.lastPos >= 2 * (|s.execs| - 2))
    && (forall k: nat :: SettledEarly(steps, k) <==> k < |s.execs| && s.execs[k].early)
  }

  lemma CalmStep(s: State, steps: seq<Step>, step: Step)
    requires s == Run(INIT, steps) && CalmInv(s, steps) && (step == BeginExec ==> StartsSeen(s))
    ensures CalmInv(Apply(s, step), steps + [step])
  {
    StepKeepsInv(s, step);
    forall k: nat ensures SettledEarly(steps + [step], k) <==> k < |Apply(s, step).execs| && Apply(s, step).execs[k].early {
      CalmStepAt(s, steps, step, k);
    }
  }

  lemma SettledEarlyNext(s: State, steps: seq<Step>, step: Step, k: nat)
    requires s == Run(INIT, steps)
    ensures SettledEarly(steps + [step], k)
            <==> SettledEarly(steps, k) || (step == SettleMark(k) && k < |s.execs| && s.execs[k].admitted && !s.execs[k].started)
  {
    var all := steps + [step];
    assert all[..|all| - 1] == steps && all[|all| - 1] == step;
  }

  lemma CalmStepAt(s: State, steps: seq<Step>, step: Step, k: nat)
    requires s == Run(INIT, steps) && CalmInv(s, steps) && (step == BeginExec ==> StartsSeen(s))
    ensures SettledEarly(steps + [step], k) <==> k < |Apply(s, step).execs| && Apply(s, step).execs[k].early
  {
    SettledEarlyNext(s, steps, step, k);
    if k < |s.execs| { EarlyIff(s, step, k); }
  }

  lemma {:induction false} CalmRun(steps: seq<Step>)
    requires Calm(steps)
    ensures CalmInv(Run(INIT, steps), steps)
  {
    if steps != [] {
      var before, step := steps[..|steps| - 1], steps[|steps| - 1];
      CalmRun(before);
      CalmStep(Run(INIT, before), before, step);
      assert steps == before + [step];
    }
  }

  /** When each execution begins only after the one before was seen to start,
      what marks one early is a settling that found it not started, and nothing
      else. */
  lemma CalmEarlyIff(steps: seq<Step>, k: nat)
    requires Calm(steps) && k < |Run(INIT, steps).execs|
    ensures Run(INIT, steps).execs[k].early <==> SettledEarly(steps, k)
  {
    CalmRun(steps);
  }

  const LATE_START: seq<Step> := [BeginExec, EndExec(0), BeginExec, Dispatch(0), Dispatch(1)]

  /** An execution abandoned before its start was dispatched lets its late start
      and end pass for its successor's. */
  lemma LateStartEndsTheNext()
    ensures var s := Run(INIT, LATE_START); |s.execs| == 2 && s.execs[1].endedBy == Some(Terminal(0))
  {
    RunSnoc(INIT, [], BeginExec);
    RunSnoc(INIT, [BeginExec], EndExec(0));
    RunSnoc(INIT, [BeginExec, EndExec(0)], BeginExec);
    RunSnoc(INIT, [BeginExec, EndExec(0), BeginExec], Dispatch(0));
    RunSnoc(INIT, [BeginExec, EndExec(0), BeginExec, Dispatch(0)], Dispatch(1));
    assert [] + [BeginExec] == [BeginExec];
    assert [BeginExec] + [EndExec(0)] == [BeginExec, EndExec(0)];
    assert [BeginExec, EndExec(0)] + [BeginExec] == [BeginExec, EndExec(0), BeginExec];
    assert [BeginExec, EndExec(0), BeginExec] + [Dispatch(0)] == [BeginExec, EndExec(0), BeginExec, Dispatch(0)];
    assert [BeginExec, EndExec(0), BeginExec, Dispatch(0)] + [Dispatch(1)] == LATE_START;
  }

  // ----- Settling -----

  /** Settling checks that its execution is the current one, lets go of the
      lock and then ends whichever is current.  It ends the one it captured if
      and only if that is still current, started and unended. */
  lemma SettlingEndsItsOwn(s: State, i: nat)
    requires Inv(s) && i < |s.acts| && s.acts[i] < |s.execs|
    ensures var ex, after := s.acts[i], Apply(s, SettleAct(i));
            (!s.execs[ex].ended && after.execs[ex].ended)
            <==> (s.exec == Some(ex) && s.execs[ex].started && !s.execs[ex].ended)
  {
  }

  /** And it ends another execution if and only if another one is current,
      started and unended. */
  lemma SettlingEndsAnother(s: State, i: nat, k: nat)
    requires Inv(s) && i < |s.acts| && k < |s.execs| && k != s.acts[i]
    ensures var after := Apply(s, SettleAct(i));
            (!s.execs[k].ended && after.execs[k].ended)
            <==> (s.exec == Some(k) && s.execs[k].started && !s.execs[k].ended)
  {
  }

  const ADMITTED: seq<Step> := [] + [BeginExec] + [Admit(0)]

  const SETTLING: seq<Step> := ADMITTED + [Dispatch(0)] + [SettleMark(0)]

  const SLOW_SETTLE: seq<Step> := SETTLING + [EndExec(0)] + [BeginExec] + [Dispatch(2)] + [SettleAct(0)]

  const FIRST_SETTLING := Exec(true, true, false, None, 0, 0, false)

  lemma SettlingReached()
    ensures Run(INIT, SETTLING) == State(Some(0), [FIRST_SETTLING], 0, [0]) && Calm(SETTLING)
  {
    AdmittedReached();
    RunSnoc(INIT, ADMITTED, Dispatch(0));
    CalmSnoc(ADMITTED, Dispatch(0));
    RunSnoc(INIT, ADMITTED + [Dispatch(0)], SettleMark(0));
    CalmSnoc(ADMITTED + [Dispatch(0)], SettleMark(0));
  }

  lemma AdmittedReached()
    ensures Run(INIT, ADMITTED) == State(Some(0), [NEW_EXEC.(admitted := true)], -1, []) && Calm(ADMITTED)
  {
    RunSnoc(INIT, [], BeginExec);
    CalmSnoc([], BeginExec);
    RunSnoc(INIT, [] + [BeginExec], Admit(0));
    CalmSnoc([] + [BeginExec], Admit(0));
  }

  /** Even in a calm run: settling execution 0 ends execution 1, begun and
      started between the check and the act. */
  lemma SlowSettleEndsTheNext()
    ensures Calm(SLOW_SETTLE)
    ensures var s := Run(INIT, SLOW_SETTLE); |s.execs| == 2 && s.execs[1].endedBy == Some(Settled(0))
  {
    SettlingReached();
    var s1 := SETTLING + [EndExec(0)];
    var s2 := s1 + [BeginExec];
    var s3 := s2 + [Dispatch(2)];
    RunSnoc(INIT, SETTLING, EndExec(0));
    RunSnoc(INIT, s1, BeginExec);
    assert Run(INIT, s2) == State(Some(1), [FIRST_SETTLING, NEW_EXEC], 0, [0]);
    RunSnoc(INIT, s2, Dispatch(2));
    assert Run(INIT, s3) == State(Some(1), [FIRST_SETTLING, NEW_EXEC.(started := true)], 2, [0]);
    RunSnoc(INIT, s3, SettleAct(0));
    CalmSnoc(SETTLING, EndExec(0));
    CalmSnoc(s1, BeginExec);
    CalmSnoc(s2, Dispatch(2));
    CalmSnoc(s3, SettleAct(0));
  }

  const NEXT_ADMITTED: seq<Step> := ADMITTED + [Dispatch(0)] + [EndExec(0)] + [BeginExec] + [Admit(1)]

  lemma NextAdmittedReached()
    ensures Run(INIT, NEXT_ADMITTED)
         == State(Some(1), [NEW_EXEC.(admitted := true, started := true), NEW_EXEC.(admitted := true)], 0, [])
    ensures Calm(NEXT_ADMITTED)
  {
    AdmittedReached();
    var s1 := ADMITTED + [Dispatch(0)];
    var s2 := s1 + [EndExec(0)];
    var s3 := s2 + [BeginExec];
    RunSnoc(INIT, ADMITTED, Dispatch(0));
    RunSnoc(INIT, s1, EndExec(0));
    RunSnoc(INIT, s2, BeginExec);
    assert Run(INIT, s3) == State(Some(1), [NEW_EXEC.(admitted := true, started := true), NEW_EXEC], 0, []);
    RunSnoc(INIT, s3, Admit(1));
    CalmSnoc(ADMITTED, Dispatch(0));
    CalmSnoc(s1, EndExec(0));
    CalmSnoc(s2, BeginExec);
    CalmSnoc(s3, Admit(1));
  }

  /** A settling that marks execution 1 started before its start was dispatched
      lets the late end of execution 0 pass for its own, in a calm run. */
  lemma EarlySettleLetsALateEndIn()
    ensures var steps := NEXT_ADMITTED + [SettleMark(1)] + [Dispatch(1)];
            && Calm(steps) && |Run(INIT, steps).execs| == 2
            && Run(INIT, steps).execs[1].endedBy == Some(Terminal(0))
  {
    NextAdmittedReached();
    RunSnoc(INIT, NEXT_ADMITTED, SettleMark(1));
    RunSnoc(INIT, NEXT_ADMITTED + [SettleMark(1)], Dispatch(1));
    CalmSnoc(NEXT_ADMITTED, SettleMark(1));
    CalmSnoc(NEXT_ADMITTED + [SettleMark(1)], Dispatch(1));
  }

  // ----- The session's executions -----

  /** The guarded fields, each method one locked region. */
  class Executions {
    var exec: Option<nat>
    var execs: seq<Exec>
    var lastPos: int
    var acts: seq<nat>

    ghost function View(): State
      reads this
    {
      State(exec, execs, lastPos, acts)
    }

    constructor ()
      ensures View() == INIT
    {
      exec, execs, lastPos, acts := None, [], -1, [];
    }

    method Begin() returns (ex: nat)
      modifies this
      ensures View() == Apply(old(View()), BeginExec) && exec == Some(ex)
    {
      ex := |execs|;
      execs := execs + [NEW_EXEC];
      exec := Some(ex);
    }

    method Drop(ex: nat)
      modifies this
      ensures View() == Apply(old(View()), EndExec(ex))
    {
      if exec == Some(ex) {
        exec := None;
      }
    }

    method MarkAdmitted(ex: nat)
      requires ex < |execs|
      modifies this
      ensures View() == Apply(old(View()), Admit(ex))
    {
      execs := execs[ex := execs[ex].(admitted := true)];
    }

    method EndExecution(cause: Cause) returns (ends: bool)
      requires exec.Some? ==> exec.value < |execs|
      modifies this
      ensures View() == EndLocked(old(View()), cause)
      ensures ends <==> View() != old(View())
    {
      if exec == None || !execs[exec.value].started || execs[exec.value].ended {
        return false;
      }
      var x := execs[exec.value];
      execs := execs[exec.value := x.(ended := true, endedBy := Some(cause), closing := x.closing + 1)];
      return true;
    }

    method OnBusEvent(pos: nat)
      requires pos > lastPos && pos / 2 < |execs| && (exec.Some? ==> exec.value < |execs|)
      modifies this
      ensures View() == Apply(old(View()), Dispatch(pos))
    {
      if pos % 2 == 0 {
        if exec.Some? {
          execs := execs[exec.value := Mark(execs[exec.value], pos / 2 == exec.value)];
        }
      } else {
        var ends := EndExecution(Terminal(pos / 2));
      }
      lastPos := pos;
    }

    method CloseChannel(ex: nat)
      requires ex < |execs| && execs[ex].closing > 0
      modifies this
      ensures View() == Apply(old(View()), CloseDone(ex))
    {
      execs := execs[ex := execs[ex].(closes := execs[ex].closes + 1, closing := execs[ex].closing - 1)];
    }

    method MarkSettled(ex: nat) returns (open: bool)
      requires ex < |execs| && execs[ex].admitted
      modifies this
      ensures View() == Apply(old(View()), SettleMark(ex))
      ensures open == (old(exec) == Some(ex))
    {
      open := exec == Some(ex);
      execs := execs[ex := Mark(execs[ex], false)];
      if open {
        acts := acts + [ex];
      }
    }
  }
}
