/** The session socket's client (cmd/gummi/mcp.go): callers send requests with
    fresh ids, one reader routes each response to the caller awaiting its id.
    Each locked region, channel operation and frame write is one step, and the
    steps of any number of callers and the reader interleave. */
module McpClient {
  import opened Basics
  import opened Decimal

  /** The id counter is a 64-bit one. */
  const WIDTH: nat := 0x1_0000_0000_0000_0000

  datatype Frame = Frame(id: string, body: string)

  datatype Failure = BadParams | WriteFailed | Cancelled

  /** How far a call has come; Leaving it has given up but is still listed. */
  datatype Pc = Allocated | Registered | Waiting | Leaving(why: Failure) | Failed(why: Failure) | Returned(frame: Frame)

  /** A call, its one-slot channel, and every frame the reader took for it. */
  datatype Call = Call(pc: Pc, chan: Option<Frame>, handed: seq<Frame>) {
    predicate Ended() { pc.Failed? || pc.Returned? }
  }

  datatype Held = Held(call: nat, frame: Frame)

  /** lost holds what the reader's non-blocking send threw away. */
  datatype State = State(calls: seq<Call>, pending: map<string, nat>, held: Option<Held>, lost: seq<Held>)

  const START := State([], map[], None, [])

  /** The id of the call allocated after c others. */
  function Id(c: nat): string { FormatNat((c + 1) % WIDTH) }

  datatype Step =
    | Allocate
    | Refuse(c: nat)
    | Register(c: nat)
    | Write(c: nat, ok: bool)
    | Cancel(c: nat)
    | Unlist(c: nat)
    | Route(frame: Frame)
    | Push
    | Receive(c: nat)

  function SetPc(s: State, c: nat, pc: Pc): State
    requires c < |s.calls|
  {
    s.(calls := s.calls[c := s.calls[c].(pc := pc)])
  }

  function PushHeld(s: State, h: Held): State
    requires h.call < |s.calls|
  {
    var x := s.calls[h.call];
    if x.chan.None? then s.(calls := s.calls[h.call := x.(chan := Some(h.frame))], held := None)
    else s.(lost := s.lost + [h], held := None)
  }

  function RouteFrame(s: State, frame: Frame): State
    requires frame.id in s.pending ==> s.pending[frame.id] < |s.calls|
  {
    if frame.id in s.pending then
      var c := s.pending[frame.id];
      var x := s.calls[c];
      s.(calls := s.calls[c := x.(handed := x.handed + [frame])], pending := s.pending - {frame.id}, held := Some(Held(c, frame)))
    else s
  }

  function CallStep(s: State, step: Step, c: nat): State
    requires c < |s.calls|
  {
    var x := s.calls[c];
    match step
    case Refuse(_) => if x.pc == Allocated then SetPc(s, c, Failed(BadParams)) else s
    case Register(_) => if x.pc == Allocated then SetPc(s, c, Registered).(pending := s.pending[Id(c) := c]) else s
    case Write(_, ok) => if x.pc == Registered then SetPc(s, c, if ok then Waiting else Leaving(WriteFailed)) else s
    case Cancel(_) => if x.pc == Waiting then SetPc(s, c, Leaving(Cancelled)) else s
    case Unlist(_) => if x.pc.Leaving? then SetPc(s, c, Failed(x.pc.why)).(pending := s.pending - {Id(c)}) else s
    case Receive(_) =>
      if x.pc == Waiting && x.chan.Some? then s.(calls := s.calls[c := x.(pc := Returned(x.chan.value), chan := None)]) else s
    case _ => s
  }

  /** A step that is not possible where the run stands changes nothing. */
  function Apply(s: State, step: Step): State {
    match step
    case Allocate => s.(calls := s.calls + [Call(Allocated, None, [])])
    case Route(frame) =>
      if s.held.None? && (frame.id in s.pending ==> s.pending[frame.id] < |s.calls|) then RouteFrame(s, frame) else s
    case Push => if s.held.Some? && s.held.value.call < |s.calls| then PushHeld(s, s.held.value) else s
    case Refuse(c) => if c < |s.calls| then CallStep(s, step, c) else s
    case Register(c) => if c < |s.calls| then CallStep(s, step, c) else s
    case Write(c, _) => if c < |s.calls| then CallStep(s, step, c) else s
    case Cancel(c) => if c < |s.calls| then CallStep(s, step, c) else s
    case Unlist(c) => if c < |s.calls| then CallStep(s, step, c) else s
    case Receive(c) => if c < |s.calls| then CallStep(s, step, c) else s
  }

  function Run(s: State, steps: seq<Step>): State {
    if steps == [] then s else Apply(Run(s, steps[..|steps| - 1]), steps[|steps| - 1])
  }

  // ----- The invariant -----

  predicate Listed(s: State, c: nat) { Id(c) in s.pending && s.pending[Id(c)] == c }

  predicate InHand(s: State, c: nat) { s.held.Some? && s.held.value.call == c }

  /** Where a call's one frame is: still to come, in the reader's hand, in the
      channel, or returned. */
  predicate CallOk(s: State, c: nat)
    requires c < |s.calls|
  {
    var x := s.calls[c];
    && |x.handed| <= 1
    && (x.handed != [] ==> x.handed[0].id == Id(c) && !Listed(s, c))
    && (x.chan.Some? ==> x.handed == [x.chan.value] && !InHand(s, c) && !x.pc.Returned?)
    && (x.pc.Returned? ==> x.handed == [x.pc.frame] && !InHand(s, c))
    && (InHand(s, c) ==> x.handed == [s.held.value.frame])
    && (x.pc == Waiting && x.handed != [] ==> x.chan.Some? || InHand(s, c))
    && (x.pc == Registered && x.handed != [] ==> x.chan.Some? || InHand(s, c))
    && (x.pc == Allocated ==> x.handed == [])
    && (x.pc == Allocated || x.Ended() ==> !Listed(s, c))
  }

  ghost predicate Inv(s: State) {
    && (forall c: nat :: c < |s.calls| ==> CallOk(s, c))
    && (forall k :: k in s.pending ==> s.pending[k] < |s.calls| && k == Id(s.pending[k]))
    && (s.held.Some? ==> s.held.value.call < |s.calls|)
    && s.lost == []
  }

  lemma CallStepKeepsInv(s: State, step: Step, c: nat)
    requires Inv(s) && c < |s.calls|
    ensures Inv(CallStep(s, step, c))
  {
    var after := CallStep(s, step, c);
    forall d: nat | d < |after.calls| ensures CallOk(after, d) {
      assert CallOk(s, d);
    }
  }

  lemma RouteKeepsInv(s: State, frame: Frame)
    requires Inv(s) && s.held.None?
    ensures Inv(RouteFrame(s, frame))
  {
    var after := RouteFrame(s, frame);
    forall d: nat | d < |after.calls| ensures CallOk(after, d) {
      assert CallOk(s, d);
    }
  }

  lemma PushKeepsInv(s: State)
    requires Inv(s) && s.held.Some?
    ensures Inv(PushHeld(s, s.held.value))
  {
    var after := PushHeld(s, s.held.value);
    assert CallOk(s, s.held.value.call);
    forall d: nat | d < |after.calls| ensures CallOk(after, d) {
      assert CallOk(s, d);
    }
  }

  lemma AllocateKeepsInv(s: State)
    requires Inv(s)
    ensures Inv(Apply(s, Allocate))
  {
    var after := Apply(s, Allocate);
    forall d: nat | d < |after.calls| ensures CallOk(after, d) {
      if d < |s.calls| { assert CallOk(s, d); }
    }
  }

  lemma StepKeepsInv(s: State, step: Step)
    requires Inv(s)
    ensures Inv(Apply(s, step))
  {
    match step
    case Allocate => AllocateKeepsInv(s);
    case Route(frame) => if s.held.None? { RouteKeepsInv(s, frame); }
    case Push => if s.held.Some? { PushKeepsInv(s); }
    case Refuse(c) => if c < |s.calls| { CallStepKeepsInv(s, step, c); }
    case Register(c) => if c < |s.calls| { CallStepKeepsInv(s, step, c); }
    case Write(c, _) => if c < |s.calls| { CallStepKeepsInv(s, step, c); }
    case Cancel(c) => if c < |s.calls| { CallStepKeepsInv(s, step, c); }
    case Unlist(c) => if c < |s.calls| { CallStepKeepsInv(s, step, c); }
    case Receive(c) => if c < |s.calls| { CallStepKeepsInv(s, step, c); }
  }

  lemma {:induction false} RunKeepsInv(s: State, steps: seq<Step>)
    requires Inv(s)
    ensures Inv(Run(s, steps))
  {
    if steps != [] {
      RunKeepsInv(s, steps[..|steps| - 1]);
      StepKeepsInv(Run(s, steps[..|steps| - 1]), steps[|steps| - 1]);
    }
  }

  // ----- What every run promises -----

  /** A call returns only a frame carrying its own id, and that is the one frame
      the reader ever took for it. */
  lemma OwnReplyOnce(steps: seq<Step>, c: nat)
    requires c < |Run(START, steps).calls|
    ensures var x := Run(START, steps).calls[c];
            && |x.handed| <= 1
            && (x.pc.Returned? ==> x.pc.frame.id == Id(c) && x.handed == [x.pc.frame])
  {
    RunKeepsInv(START, steps);
    assert CallOk(Run(START, steps), c);
  }

  /** The reader's send always finds room: its default branch is dead. */
  lemma NothingIsThrownAway(steps: seq<Step>)
    ensures Run(START, steps).lost == []
  {
    RunKeepsInv(START, steps);
  }

  /** A frame taken for a call still waiting is on its way to it. */
  lemma TakenRepliesArrive(steps: seq<Step>, c: nat)
    requires c < |Run(START, steps).calls| && Run(START, steps).calls[c].pc == Waiting
    ensures var s := Run(START, steps);
            s.calls[c].handed == [] || s.calls[c].chan == Some(s.calls[c].handed[0]) || s.held == Some(Held(c, s.calls[c].handed[0]))
  {
    RunKeepsInv(START, steps);
    assert CallOk(Run(START, steps), c);
  }

  // ----- After the end -----

  lemma StepKeepsEnded(s: State, step: Step, c: nat)
    requires c < |s.calls| && s.calls[c].Ended()
    ensures c < |Apply(s, step).calls| && Apply(s, step).calls[c].pc == s.calls[c].pc
  {
  }

  /** An ended call stays as it ended, whatever is still read for it. */
  lemma {:induction false} EndedStays(s: State, steps: seq<Step>, c: nat)
    requires c < |s.calls| && s.calls[c].Ended()
    ensures c < |Run(s, steps).calls| && Run(s, steps).calls[c].pc == s.calls[c].pc
  {
    if steps != [] {
      EndedStays(s, steps[..|steps| - 1], c);
      StepKeepsEnded(Run(s, steps[..|steps| - 1]), steps[|steps| - 1], c);
    }
  }

  /** Two calls share an id if and only if the counter has wrapped between them. */
  lemma IdsAgree(c: nat, d: nat)
    ensures Id(c) == Id(d) <==> (c + 1) % WIDTH == (d + 1) % WIDTH
    ensures c < d < WIDTH ==> Id(c) != Id(d)
  {
    ParseFormat((c + 1) % WIDTH);
    ParseFormat((d + 1) % WIDTH);
    SmallDiffer(c, d);
  }

  lemma SmallDiffer(c: nat, d: nat)
    ensures c < d < WIDTH ==> (c + 1) % WIDTH != (d + 1) % WIDTH
  {
  }

  /** While the counter has not wrapped, a reply that comes after its call was
      cancelled, failed to write or was answered reaches nobody. */
  lemma LateReplyReachesNobody(steps: seq<Step>, c: nat, frame: Frame)
    requires var s := Run(START, steps); c < |s.calls| <= WIDTH && s.calls[c].Ended()
    requires frame.id == Id(c)
    ensures Apply(Run(START, steps), Route(frame)) == Run(START, steps)
  {
    var s := Run(START, steps);
    RunKeepsInv(START, steps);
    assert CallOk(s, c);
    if frame.id in s.pending {
      var d := s.pending[frame.id];
      IdsAgree(if c < d then c else d, if c < d then d else c);
    }
  }

  // ----- Before it -----

  /** A registered call that got no reply yet is listed. */
  predicate Awaited(s: State, c: nat)
    requires c < |s.calls|
  {
    var x := s.calls[c];
    (x.pc == Registered || x.pc == Waiting || x.pc.Leaving?) && x.handed == [] ==> Listed(s, c)
  }

  ghost predicate AllAwaited(s: State) {
    forall c: nat :: c < |s.calls| ==> Awaited(s, c)
  }

  lemma CallStepKeepsAwaited(s: State, step: Step, c: nat, d: nat)
    requires c < |s.calls| <= WIDTH && d < |s.calls| && Awaited(s, d)
    ensures Awaited(CallStep(s, step, c), d)
  {
    if c != d { IdsAgree(if c < d then c else d, if c < d then d else c); }
  }

  lemma RouteKeepsAwaited(s: State, frame: Frame, d: nat)
    requires Inv(s) && s.held.None? && d < |s.calls| && Awaited(s, d)
    ensures Awaited(RouteFrame(s, frame), d)
  {
  }

  lemma StepKeepsAwaited(s: State, step: Step)
    requires Inv(s) && AllAwaited(s) && |Apply(s, step).calls| <= WIDTH
    ensures AllAwaited(Apply(s, step))
  {
    var after := Apply(s, step);
    forall d: nat | d < |after.calls| ensures Awaited(after, d) {
      if d < |s.calls| {
        assert Awaited(s, d);
        match step {
          case Register(c) => if c < |s.calls| { CallStepKeepsAwaited(s, step, c, d); }
          case Write(c, _) => if c < |s.calls| { CallStepKeepsAwaited(s, step, c, d); }
          case Cancel(c) => if c < |s.calls| { CallStepKeepsAwaited(s, step, c, d); }
          case Unlist(c) => if c < |s.calls| { CallStepKeepsAwaited(s, step, c, d); }
          case Receive(c) => if c < |s.calls| { CallStepKeepsAwaited(s, step, c, d); }
          case Refuse(c) => if c < |s.calls| { CallStepKeepsAwaited(s, step, c, d); }
          case Route(frame) => if s.held.None? { RouteKeepsAwaited(s, frame, d); }
          case _ =>
        }
      }
    }
  }

  lemma StepAdds(s: State, step: Step)
    ensures |s.calls| <= |Apply(s, step).calls|
  {
  }

  lemma {:induction false} RunKeepsAwaited(steps: seq<Step>)
    requires |Run(START, steps).calls| <= WIDTH
    ensures AllAwaited(Run(START, steps))
  {
    if steps != [] {
      var before := Run(START, steps[..|steps| - 1]);
      StepAdds(before, steps[|steps| - 1]);
      RunKeepsAwaited(steps[..|steps| - 1]);
      RunKeepsInv(START, steps[..|steps| - 1]);
      StepKeepsAwaited(before, steps[|steps| - 1]);
    }
  }

  /** While the counter has not wrapped, an idle reader takes a frame for a call
      in flight if and only if the frame carries that call's id and is the first
      to: it never goes to another, and no first reply is passed over. */
  lemma RoutedToItsCall(steps: seq<Step>, c: nat, frame: Frame)
    requires var s := Run(START, steps); c < |s.calls| <= WIDTH && s.held.None?
    requires Run(START, steps).calls[c].pc != Allocated && !Run(START, steps).calls[c].Ended()
    ensures var s := Run(START, steps);
            InHand(Apply(s, Route(frame)), c) <==> frame.id == Id(c) && s.calls[c].handed == []
  {
    var s := Run(START, steps);
    RunKeepsInv(START, steps);
    RunKeepsAwaited(steps);
    assert CallOk(s, c) && Awaited(s, c);
  }

  /** Past that the listing is one entry short: registering a call takes another
      call's entry if and only if the counter has come round to its id. */
  lemma WrappedCallTakesTheEntry(s: State, c: nat, d: nat)
    requires Inv(s) && c < |s.calls| && d < |s.calls| && Listed(s, c) && s.calls[d].pc == Allocated
    ensures !Listed(Apply(s, Register(d)), c) <==> (c + 1) % WIDTH == (d + 1) % WIDTH
  {
    IdsAgree(c, d);
    assert CallOk(s, d);
  }

  // ----- The client object -----

  class SocketClient {
    var calls: seq<Call>
    var pending: map<string, nat>
    var held: Option<Held>
    var counter: nat
    ghost var lost: seq<Held>

    ghost function View(): State
      reads this
    {
      State(calls, pending, held, lost)
    }

    ghost predicate Valid()
      reads this
    {
      counter == |calls| % WIDTH && Inv(View())
    }

    constructor ()
      ensures Valid() && View() == START
    {
      calls, pending, held, counter, lost := [], map[], None, 0, [];
    }

    /** Take the next id. */
    method Open() returns (c: nat, id: string)
      requires Valid()
      modifies this
      ensures Valid() && View() == Apply(old(View()), Allocate)
      ensures c == |old(calls)| && id == Id(c)
    {
      StepKeepsInv(View(), Allocate);
      c := |calls|;
      counter := (counter + 1) % WIDTH;
      calls := calls + [Call(Allocated, None, [])];
      id := FormatNat(counter);
    }

    method List(c: nat, id: string)
      requires Valid() && c < |calls| && id == Id(c) && calls[c].pc == Allocated
      modifies this
      ensures Valid() && View() == Apply(old(View()), Register(c))
    {
      StepKeepsInv(View(), Register(c));
      calls := calls[c := calls[c].(pc := Registered)];
      pending := pending[id := c];
    }

    method Written(c: nat, ok: bool)
      requires Valid() && c < |calls| && calls[c].pc == Registered
      modifies this
      ensures Valid() && View() == Apply(old(View()), Write(c, ok))
    {
      StepKeepsInv(View(), Write(c, ok));
      calls := calls[c := calls[c].(pc := if ok then Waiting else Leaving(WriteFailed))];
    }

    /** A call that gave up takes its entry back. */
    method Remove(c: nat, id: string) returns (why: Failure)
      requires Valid() && c < |calls| && id == Id(c) && calls[c].pc.Leaving?
      modifies this
      ensures Valid() && View() == Apply(old(View()), Unlist(c))
      ensures calls[c].pc == Failed(why)
    {
      StepKeepsInv(View(), Unlist(c));
      why := calls[c].pc.why;
      pending := pending - {id};
      calls := calls[c := calls[c].(pc := Failed(why))];
    }

    /** The reader's locked lookup. */
    method Take(frame: Frame)
      requires Valid() && held.None?
      modifies this
      ensures Valid() && View() == Apply(old(View()), Route(frame))
    {
      StepKeepsInv(View(), Route(frame));
      if frame.id in pending {
        var c := pending[frame.id];
        pending := pending - {frame.id};
        calls := calls[c := calls[c].(handed := calls[c].handed + [frame])];
        held := Some(Held(c, frame));
      }
    }

    /** The reader's non-blocking send. */
    method Send()
      requires Valid() && held.Some?
      modifies this
      ensures Valid() && View() == Apply(old(View()), Push)
      ensures calls[old(held).value.call].chan == Some(old(held).value.frame)
    {
      PushKeepsInv(View());
      assert CallOk(View(), held.value.call);
      var c := held.value.call;
      if calls[c].chan.None? {
        calls := calls[c := calls[c].(chan := Some(held.value.frame))];
      }
      held := None;
    }

    /** The caller's select: a frame in its channel or its context's end, either
        one when both are there. */
    method Await(c: nat, cancelled: bool) returns (reply: Option<Frame>)
      requires Valid() && c < |calls| && calls[c].pc == Waiting
      requires cancelled || calls[c].chan.Some?
      modifies this
      ensures Valid()
      ensures reply.Some? ==> View() == Apply(old(View()), Receive(c)) && reply.value.id == Id(c)
      ensures reply.None? ==> cancelled && View() == Apply(old(View()), Cancel(c))
    {
      assert CallOk(View(), c);
      var either: bool := *;
      if calls[c].chan.Some? && (either || !cancelled) {
        reply := Receipt(c);
      } else {
        StepKeepsInv(View(), Cancel(c));
        calls := calls[c := calls[c].(pc := Leaving(Cancelled))];
        reply := None;
      }
    }

    method Receipt(c: nat) returns (reply: Option<Frame>)
      requires Valid() && c < |calls| && calls[c].pc == Waiting && calls[c].chan.Some?
      modifies this
      ensures Valid() && View() == Apply(old(View()), Receive(c))
      ensures reply == old(calls[c].chan)
    {
      StepKeepsInv(View(), Receive(c));
      reply := calls[c].chan;
      calls := calls[c := calls[c].(pc := Returned(reply.value), chan := None)];
    }
  }
}
