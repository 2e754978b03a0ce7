/** A turn's text as message bubbles, and its tool calls
    (internal/agent/opencode.go: textEvents, flushText, mapOcEvent, announceCall,
    calledBefore and endTurn's trailing message). */
module OpencodeMessages {
  import opened Basics

  // ----- Trimming -----

  function TrimLeft(s: string): string {
    if s != "" && IsSpace(s[0]) then TrimLeft(s[1..]) else s
  }

  function TrimRight(s: string): string {
    if s != "" && IsSpace(s[|s| - 1]) then TrimRight(s[..|s| - 1]) else s
  }

  function Trim(s: string): string { TrimRight(TrimLeft(s)) }

  predicate AllSpace(s: string) { forall i :: 0 <= i < |s| ==> IsSpace(s[i]) }

  lemma {:induction false} TrimLeftIs(s: string) returns (a: string)
    ensures s == a + TrimLeft(s) && AllSpace(a) && (TrimLeft(s) != "" ==> !IsSpace(TrimLeft(s)[0]))
  {
    a := "";
    if s != "" && IsSpace(s[0]) {
      var rest := TrimLeftIs(s[1..]);
      a := [s[0]] + rest;
      assert s == [s[0]] + s[1..];
    }
  }

  lemma {:induction false} TrimRightIs(s: string) returns (b: string)
    ensures s == TrimRight(s) + b && AllSpace(b) && (TrimRight(s) != "" ==> !IsSpace(TrimRight(s)[|TrimRight(s)| - 1]))
  {
    b := "";
    if s != "" && IsSpace(s[|s| - 1]) {
      var rest := TrimRightIs(s[..|s| - 1]);
      b := rest + [s[|s| - 1]];
      assert s == s[..|s| - 1] + [s[|s| - 1]];
    }
  }

  /** Trimming takes the space off both ends and nothing else. */
  lemma TrimIs(s: string) returns (a: string, b: string)
    ensures s == a + Trim(s) + b && AllSpace(a) && AllSpace(b)
    ensures Trim(s) != "" ==> !IsSpace(Trim(s)[0]) && !IsSpace(Trim(s)[|Trim(s)| - 1])
  {
    a := TrimLeftIs(s);
    b := TrimRightIs(TrimLeft(s));
    assert a + (Trim(s) + b) == a + Trim(s) + b;
    if Trim(s) != "" { assert Trim(s)[0] == TrimLeft(s)[0]; }
  }

  // ----- Events -----

  datatype Status = Completed | Failed | Unfinished

  /** The turn's events in the order they are mapped. */
  datatype Event =
    | Text(delta: string)
    | Reasoning(delta: string)
    | ToolRunning(tool: string, id: string)
    | ToolDone(tool: string, id: string, status: Status)

  datatype Out =
    | TextDelta(text: string)
    | ReasoningDelta(text: string)
    | Message(text: string)
    | ToolCall(tool: string, id: string)
    | ToolResult(tool: string, id: string, ok: bool)

  datatype State = State(msg: string, announced: set<string>, out: seq<Out>)

  const START := State("", {}, [])

  function FlushEvents(msg: string): seq<Out> {
    if Trim(msg) == "" then [] else [Message(Trim(msg))]
  }

  function ResultEvents(tool: string, id: string, status: Status): seq<Out> {
    match status
    case Completed => [ToolResult(tool, id, true)]
    case Failed => [ToolResult(tool, id, false)]
    case Unfinished => []
  }

  /** Whether the event announces a tool call. */
  predicate Announces(announced: set<string>, e: Event) {
    match e
    case ToolRunning(tool, id) => tool != "" && id != "" && id !in announced
    case ToolDone(tool, id, _) => tool != "" && (id == "" || id !in announced)
    case _ => false
  }

  /** Whether the event closes the stretch of prose before it. */
  predicate Closes(announced: set<string>, e: Event) {
    (e.Reasoning? && e.delta != "") || Announces(announced, e)
  }

  function AnnouncedAfter(announced: set<string>, e: Event): set<string> {
    match e
    case ToolRunning(tool, id) => if Announces(announced, e) then announced + {id} else announced
    case ToolDone(tool, id, _) => if tool != "" && id != "" then announced - {id} else announced
    case _ => announced
  }

  /** What the event emits after the prose it closes. */
  function OwnEvents(announced: set<string>, e: Event): seq<Out> {
    match e
    case Text(delta) => if delta == "" then [] else [TextDelta(delta)]
    case Reasoning(delta) => if delta == "" then [] else [ReasoningDelta(delta)]
    case ToolRunning(tool, id) => if Announces(announced, e) then [ToolCall(tool, id)] else []
    case ToolDone(tool, id, status) =>
      if tool == "" then []
      else (if Announces(announced, e) then [ToolCall(tool, id)] else []) + ResultEvents(tool, id, status)
  }

  function Apply(s: State, e: Event): State {
    var closes := Closes(s.announced, e);
    State(if closes then "" else if e.Text? then s.msg + e.delta else s.msg,
          AnnouncedAfter(s.announced, e),
          s.out + (if closes then FlushEvents(s.msg) else []) + OwnEvents(s.announced, e))
  }

  function Run(s: State, events: seq<Event>): State {
    if events == [] then s else Apply(Run(s, events[..|events| - 1]), events[|events| - 1])
  }

  // ----- Stretches of prose -----

  /** Everything streamed as text, in order. */
  function Streamed(events: seq<Event>): string {
    if events == [] then ""
    else
      var e := events[|events| - 1];
      var before := Streamed(events[..|events| - 1]);
      if e.Text? then before + e.delta else before
  }

  /** The calls announced and not yet finished. */
  function Open(events: seq<Event>): set<string> {
    if events == [] then {} else AnnouncedAfter(Open(events[..|events| - 1]), events[|events| - 1])
  }

  /** The text since the last thought or tool call. */
  function LastStretch(events: seq<Event>): string {
    if events == [] then ""
    else
      var before, e := events[..|events| - 1], events[|events| - 1];
      if Closes(Open(before), e) then "" else if e.Text? then LastStretch(before) + e.delta else LastStretch(before)
  }

  /** The stretches that a thought or a tool call has closed. */
  function ClosedStretches(events: seq<Event>): seq<string> {
    if events == [] then []
    else
      var before, e := events[..|events| - 1], events[|events| - 1];
      if Closes(Open(before), e) then ClosedStretches(before) + [LastStretch(before)] else ClosedStretches(before)
  }

  /** The stretches as bubbles: trimmed, the blank ones left out. */
  function Bubbles(stretches: seq<string>): seq<string> {
    if stretches == [] then []
    else
      var before, t := Bubbles(stretches[..|stretches| - 1]), Trim(stretches[|stretches| - 1]);
      if t == "" then before else before + [t]
  }

  function Messages(out: seq<Out>): seq<string> {
    if out == [] then []
    else
      var before, o := Messages(out[..|out| - 1]), out[|out| - 1];
      if o.Message? then before + [o.text] else before
  }

  function Joined(parts: seq<string>): string {
    if parts == [] then "" else Joined(parts[..|parts| - 1]) + parts[|parts| - 1]
  }

  lemma {:induction false} MessagesConcat(a: seq<Out>, b: seq<Out>)
    ensures Messages(a + b) == Messages(a) + Messages(b)
  {
    if b == [] {
      assert a + b == a;
    } else {
      MessagesConcat(a, b[..|b| - 1]);
      assert (a + b)[..|a + b| - 1] == a + b[..|b| - 1];
    }
  }

  lemma OwnEventsHoldNoMessage(announced: set<string>, e: Event)
    ensures Messages(OwnEvents(announced, e)) == []
  {
    var own := OwnEvents(announced, e);
    forall i | 0 <= i < |own| ensures !own[i].Message? {}
    NoMessages(own);
  }

  /** What one event adds to the messages: the stretch it closes. */
  lemma MessagesStep(s: State, e: Event)
    ensures Messages(Apply(s, e).out)
         == if Closes(s.announced, e) then Messages(s.out) + Bubbles([s.msg]) else Messages(s.out)
  {
    var flushed := if Closes(s.announced, e) then FlushEvents(s.msg) else [];
    MessagesConcat(s.out, flushed);
    MessagesConcat(s.out + flushed, OwnEvents(s.announced, e));
    OwnEventsHoldNoMessage(s.announced, e);
    FlushIsBubble(s.msg);
  }

  lemma {:induction false} NoMessages(out: seq<Out>)
    requires forall i :: 0 <= i < |out| ==> !out[i].Message?
    ensures Messages(out) == []
  {
    if out != [] { NoMessages(out[..|out| - 1]); }
  }

  lemma FlushIsBubble(msg: string)
    ensures Messages(FlushEvents(msg)) == Bubbles([msg])
  {
    assert [msg][..0] == [];
    if Trim(msg) != "" {
      assert [Message(Trim(msg))][..0] == [];
    }
  }

  lemma BubblesSnoc(stretches: seq<string>, s: string)
    ensures Bubbles(stretches + [s]) == Bubbles(stretches) + Bubbles([s])
  {
    assert (stretches + [s])[..|stretches|] == stretches;
    assert [s][..0] == [];
  }

  lemma JoinedSnoc(parts: seq<string>, s: string)
    ensures Joined(parts + [s]) == Joined(parts) + s
  {
    assert (parts + [s])[..|parts|] == parts;
  }

  /** The accumulator holds the stretch in progress, and the messages out are
      the closed stretches, trimmed, blank ones left out, in order. */
  lemma {:induction false} MessagesAreStretches(events: seq<Event>)
    ensures var s := Run(START, events);
            s.msg == LastStretch(events) && s.announced == Open(events)
            && Messages(s.out) == Bubbles(ClosedStretches(events))
  {
    if events != [] {
      var before, e := events[..|events| - 1], events[|events| - 1];
      var s := Run(START, before);
      MessagesAreStretches(before);
      MessagesStep(s, e);
      if Closes(s.announced, e) { BubblesSnoc(ClosedStretches(before), LastStretch(before)); }
    }
  }

  /** No streamed byte is in two stretches, none in neither, and the stretches
      keep their order. */
  lemma {:induction false} StretchesPartitionTheText(events: seq<Event>)
    ensures Joined(ClosedStretches(events)) + LastStretch(events) == Streamed(events)
  {
    if events != [] {
      var before, e := events[..|events| - 1], events[|events| - 1];
      StretchesPartitionTheText(before);
      var joined, last := Joined(ClosedStretches(before)), LastStretch(before);
      if Closes(Open(before), e) {
        JoinedSnoc(ClosedStretches(before), last);
        assert (joined + last) + "" == joined + last;
      } else if e.Text? {
        assert joined + (last + e.delta) == (joined + last) + e.delta;
      }
    }
  }

  /** The turn's end flushes the last stretch. */
  function EndTurn(s: State): State {
    s.(out := s.out + FlushEvents(s.msg))
  }

  /** Over a whole turn the messages are exactly its stretches of prose. */
  lemma {:induction false} TurnMessagesAreStretches(events: seq<Event>)
    ensures var stretches := ClosedStretches(events) + [LastStretch(events)];
            Messages(EndTurn(Run(START, events)).out) == Bubbles(stretches) && Joined(stretches) == Streamed(events)
  {
    var s := Run(START, events);
    MessagesAreStretches(events);
    StretchesPartitionTheText(events);
    MessagesConcat(s.out, FlushEvents(s.msg));
    FlushIsBubble(s.msg);
    BubblesSnoc(ClosedStretches(events), LastStretch(events));
    JoinedSnoc(ClosedStretches(events), LastStretch(events));
  }

  // ----- The same off the stream itself -----

  /** The call was seen running and not finished since. */
  predicate Pending(events: seq<Event>, id: string) {
    exists i :: 0 <= i < |events| && SeenRunning(events[i], id) && NotDone(events, i, id)
  }

  predicate SeenRunning(e: Event, id: string) { e.ToolRunning? && e.tool != "" && e.id == id != "" }

  predicate NotDone(events: seq<Event>, i: nat, id: string) {
    forall j :: i < j < |events| ==> !(events[j].ToolDone? && events[j].tool != "" && events[j].id == id)
  }

  lemma PendingNext(events: seq<Event>, id: string)
    requires events != []
    ensures var before, e := events[..|events| - 1], events[|events| - 1];
            Pending(events, id) <==>
              SeenRunning(e, id) || (Pending(before, id) && !(e.ToolDone? && e.tool != "" && e.id == id))
  {
    var before, e := events[..|events| - 1], events[|events| - 1];
    if SeenRunning(e, id) { assert NotDone(events, |before|, id); }
    if Pending(before, id) && !(e.ToolDone? && e.tool != "" && e.id == id) {
      var i :| 0 <= i < |before| && SeenRunning(before[i], id) && NotDone(before, i, id);
      StillNotDone(events, i, id);
      assert SeenRunning(events[i], id);
    }
    if Pending(events, id) && !SeenRunning(e, id) {
      var i :| 0 <= i < |events| && SeenRunning(events[i], id) && NotDone(events, i, id);
      assert SeenRunning(before[i], id) && NotDone(before, i, id);
    }
  }

  lemma StillNotDone(events: seq<Event>, i: nat, id: string)
    requires events != [] && NotDone(events[..|events| - 1], i, id)
    requires var e := events[|events| - 1]; !(e.ToolDone? && e.tool != "" && e.id == id)
    ensures NotDone(events, i, id)
  {
    var before := events[..|events| - 1];
    assert forall j :: 0 <= j < |before| ==> before[j] == events[j];
  }

  lemma {:induction false} OpenIsPending(events: seq<Event>, id: string)
    ensures id in Open(events) <==> Pending(events, id)
  {
    if events != [] {
      OpenIsPending(events[..|events| - 1], id);
      PendingNext(events, id);
    }
  }

  /** The stream without its messages. */
  function Unbubbled(out: seq<Out>): seq<Out> {
    if out == [] then []
    else
      var before, o := Unbubbled(out[..|out| - 1]), out[|out| - 1];
      if o.Message? then before else before + [o]
  }

  /** What one event adds to that: its delta unless empty, its call unless that is
      pending, its result with how it ended. */
  function Adds(before: seq<Event>, e: Event): seq<Out> {
    match e
    case Text(d) => if d == "" then [] else [TextDelta(d)]
    case Reasoning(d) => if d == "" then [] else [ReasoningDelta(d)]
    case ToolRunning(tool, id) => if tool == "" || id == "" || Pending(before, id) then [] else [ToolCall(tool, id)]
    case ToolDone(tool, id, status) =>
      if tool == "" then []
      else
        (if id != "" && Pending(before, id) then [] else [ToolCall(tool, id)])
        + (if status == Unfinished then [] else [ToolResult(tool, id, status == Completed)])
  }

  function Added(events: seq<Event>): seq<Out> {
    if events == [] then []
    else
      var before := events[..|events| - 1];
      Added(before) + Adds(before, events[|events| - 1])
  }

  lemma {:induction false} UnbubbledConcat(a: seq<Out>, b: seq<Out>)
    ensures Unbubbled(a + b) == Unbubbled(a) + Unbubbled(b)
  {
    if b == [] {
      assert a + b == a;
    } else {
      UnbubbledConcat(a, b[..|b| - 1]);
      assert (a + b)[..|a + b| - 1] == a + b[..|b| - 1];
    }
  }

  lemma {:induction false} NothingBubbled(out: seq<Out>)
    requires forall i :: 0 <= i < |out| ==> !out[i].Message?
    ensures Unbubbled(out) == out
  {
    if out != [] {
      NothingBubbled(out[..|out| - 1]);
      assert out == out[..|out| - 1] + [out[|out| - 1]];
    }
  }

  lemma AddsIsOwn(events: seq<Event>, e: Event)
    ensures OwnEvents(Open(events), e) == Adds(events, e)
  {
    match e
    case Text(_) =>
    case Reasoning(_) =>
    case ToolRunning(_, id) => OpenIsPending(events, id);
    case ToolDone(_, id, _) => OpenIsPending(events, id);
  }

  lemma FlushUnbubbled(msg: string)
    ensures Unbubbled(FlushEvents(msg)) == []
  {
    var flushed := FlushEvents(msg);
    if flushed != [] { assert flushed[..0] == []; }
  }

  lemma OwnUnbubbled(announced: set<string>, e: Event)
    ensures Unbubbled(OwnEvents(announced, e)) == OwnEvents(announced, e)
  {
    var own := OwnEvents(announced, e);
    forall i | 0 <= i < |own| ensures !own[i].Message? {}
    NothingBubbled(own);
  }

  lemma ThreeParts(out: seq<Out>, flushed: seq<Out>, own: seq<Out>, all: seq<Out>)
    requires all == out + flushed + own && Unbubbled(flushed) == [] && Unbubbled(own) == own
    ensures Unbubbled(all) == Unbubbled(out) + own
  {
    UnbubbledConcat(out, flushed);
    UnbubbledConcat(out + flushed, own);
    assert Unbubbled(out) + [] == Unbubbled(out);
  }

  lemma ApplyUnbubbled(s: State, e: Event)
    ensures Unbubbled(Apply(s, e).out) == Unbubbled(s.out) + OwnEvents(s.announced, e)
  {
    FlushUnbubbled(s.msg);
    OwnUnbubbled(s.announced, e);
    ThreeParts(s.out, if Closes(s.announced, e) then FlushEvents(s.msg) else [], OwnEvents(s.announced, e), Apply(s, e).out);
  }

  /** Messages aside, the stream is every event's own part of it in order. */
  lemma {:induction false} StreamIsAdded(events: seq<Event>)
    ensures Unbubbled(Run(START, events).out) == Added(events)
  {
    if events != [] {
      var before, e := events[..|events| - 1], events[|events| - 1];
      StreamIsAdded(before);
      MessagesAreStretches(before);
      ApplyUnbubbled(Run(START, before), e);
      AddsIsOwn(before, e);
    }
  }

  predicate Breaks(o: Out) { o.ReasoningDelta? || o.ToolCall? }

  /** The prose of a stream since its last thought or tool call. */
  function Prose(out: seq<Out>): string {
    if out == [] then ""
    else
      var before, o := out[..|out| - 1], out[|out| - 1];
      if Breaks(o) then "" else if o.TextDelta? then Prose(before) + o.text else Prose(before)
  }

  /** Right before each thought and each tool call stands the prose since the last
      one, trimmed, as one message, or none when it is blank; and no message
      stands anywhere else. */
  predicate Bubbled(out: seq<Out>)
    decreases |out|
  {
    if out == [] then true
    else
      var before, o := out[..|out| - 1], out[|out| - 1];
      var text := Trim(Prose(before));
      if o.Message? then false
      else if Breaks(o) && text != "" then
        before != [] && before[|before| - 1] == Message(text) && Bubbled(before[..|before| - 1])
      else Bubbled(before)
  }

  lemma Plain(out: seq<Out>, o: Out, all: seq<Out>)
    requires Bubbled(out) && all == out + [o] && !o.Message? && !Breaks(o)
    ensures Bubbled(all) && Prose(all) == if o.TextDelta? then Prose(out) + o.text else Prose(out)
  {
    assert all[..|out|] == out;
  }

  lemma Broken(out: seq<Out>, o: Out, all: seq<Out>)
    requires Bubbled(out) && Breaks(o) && all == out + FlushEvents(Prose(out)) + [o]
    ensures Bubbled(all) && Prose(all) == ""
  {
    var text := Trim(Prose(out));
    if text == "" {
      assert all[..|all| - 1] == out;
    } else {
      var flushed := out + [Message(text)];
      assert all[..|all| - 1] == flushed && flushed[..|out|] == out;
    }
  }

  /** An event that closes the prose starts with what breaks it. */
  lemma OwnWhenCloses(announced: set<string>, e: Event)
    requires Closes(announced, e)
    ensures var own := OwnEvents(announced, e);
            1 <= |own| <= 2 && Breaks(own[0]) && (|own| == 2 ==> own[1].ToolResult?)
  {
  }

  lemma OwnWhenNot(announced: set<string>, e: Event)
    requires !Closes(announced, e)
    ensures var own := OwnEvents(announced, e);
            |own| <= 1 && (own != [] ==> own[0].TextDelta? || own[0].ToolResult?)
            && (own == [] && e.Text? ==> e.delta == "") && (own != [] && own[0].TextDelta? ==> e == Text(own[0].text))
            && (own != [] && own[0].ToolResult? ==> !e.Text?)
  {
  }

  lemma CloseBubbles(out: seq<Out>, own: seq<Out>, all: seq<Out>)
    requires Bubbled(out) && 1 <= |own| <= 2 && Breaks(own[0]) && (|own| == 2 ==> own[1].ToolResult?)
    requires all == out + FlushEvents(Prose(out)) + own
    ensures Bubbled(all) && Prose(all) == ""
  {
    var broken := out + FlushEvents(Prose(out)) + [own[0]];
    OneByOne(out + FlushEvents(Prose(out)), own, all, broken);
    Broken(out, own[0], broken);
    if |own| == 2 { Plain(broken, own[1], all); }
  }

  lemma OneByOne<T>(out: seq<T>, own: seq<T>, all: seq<T>, one: seq<T>)
    requires 1 <= |own| <= 2 && all == out + own && one == out + [own[0]]
    ensures all == if |own| == 2 then one + [own[1]] else one
  {
  }

  lemma ApplyBubbles(s: State, e: Event, after: State)
    requires Bubbled(s.out) && Prose(s.out) == s.msg && after == Apply(s, e)
    ensures Bubbled(after.out) && Prose(after.out) == after.msg
  {
    var own := OwnEvents(s.announced, e);
    if Closes(s.announced, e) {
      OwnWhenCloses(s.announced, e);
      CloseBubbles(s.out, own, after.out);
    } else {
      OwnWhenNot(s.announced, e);
      assert s.out + [] + own == s.out + own;
      if own == [] {
        assert after.out == s.out;
        assert s.msg + "" == s.msg;
      } else {
        Plain(s.out, own[0], after.out);
      }
    }
  }

  /** The messages stand where the prose they hold was closed; the turn's end adds
      the last. */
  lemma {:induction false} StreamIsBubbled(events: seq<Event>)
    ensures var s := Run(START, events);
            && Bubbled(s.out) && Prose(s.out) == s.msg
            && EndTurn(s).out == s.out + if Trim(Prose(s.out)) == "" then [] else [Message(Trim(Prose(s.out)))]
  {
    if events != [] {
      StreamIsBubbled(events[..|events| - 1]);
      ApplyBubbles(Run(START, events[..|events| - 1]), events[|events| - 1], Run(START, events));
    }
  }

  // ----- One call, one result -----

  function Calls(out: seq<Out>, id: string): nat {
    if out == [] then 0
    else
      var o := out[|out| - 1];
      Calls(out[..|out| - 1], id) + (if o.ToolCall? && o.id == id then 1 else 0)
  }

  function Results(out: seq<Out>, id: string): nat {
    if out == [] then 0
    else
      var o := out[|out| - 1];
      Results(out[..|out| - 1], id) + (if o.ToolResult? && o.id == id then 1 else 0)
  }

  predicate About(e: Event, id: string) {
    (e.ToolRunning? || e.ToolDone?) && e.id == id
  }

  /** The call is seen running any number of times, then finished, and not seen
      again. */
  datatype Phase = Unseen | Running | Finished

  function PhaseOf(events: seq<Event>, id: string): Phase {
    if events == [] then Unseen
    else
      var before, e := PhaseOf(events[..|events| - 1], id), events[|events| - 1];
      if !About(e, id) then before else if e.ToolRunning? then Running else Finished
  }

  predicate Lifecycle(events: seq<Event>, id: string) {
    events == [] || (
      var before, e := events[..|events| - 1], events[|events| - 1];
      && Lifecycle(before, id)
      && (About(e, id) ==> e.tool != "" && PhaseOf(before, id) != Finished
                           && (e.ToolDone? ==> e.status != Unfinished)))
  }

  lemma {:induction false} CallsConcat(a: seq<Out>, b: seq<Out>, id: string)
    ensures Calls(a + b, id) == Calls(a, id) + Calls(b, id)
    ensures Results(a + b, id) == Results(a, id) + Results(b, id)
  {
    if b == [] {
      assert a + b == a;
    } else {
      CallsConcat(a, b[..|b| - 1], id);
      assert (a + b)[..|a + b| - 1] == a + b[..|b| - 1];
    }
  }

  lemma OneEventCounts(o: Out, id: string)
    ensures Calls([o], id) == if o.ToolCall? && o.id == id then 1 else 0
    ensures Results([o], id) == if o.ToolResult? && o.id == id then 1 else 0
  {
    assert [o][..0] == [];
  }

  lemma FlushCallsNothing(msg: string, id: string)
    ensures Calls(FlushEvents(msg), id) == 0 && Results(FlushEvents(msg), id) == 0
  {
    OneEventCounts(Message(Trim(msg)), id);
  }

  lemma OwnCounts(announced: set<string>, e: Event, id: string)
    requires id != ""
    ensures Calls(OwnEvents(announced, e), id) == if About(e, id) && Announces(announced, e) then 1 else 0
    ensures Results(OwnEvents(announced, e), id)
         == if e.ToolDone? && e.id == id && e.tool != "" && e.status != Unfinished then 1 else 0
  {
    match e
    case Text(delta) => OneEventCounts(TextDelta(delta), id);
    case Reasoning(delta) => OneEventCounts(ReasoningDelta(delta), id);
    case ToolRunning(tool, i) => OneEventCounts(ToolCall(tool, i), id);
    case ToolDone(tool, i, status) =>
      OneEventCounts(ToolCall(tool, i), id);
      OneEventCounts(ToolResult(tool, i, true), id);
      OneEventCounts(ToolResult(tool, i, false), id);
      CallsConcat(if Announces(announced, e) then [ToolCall(tool, i)] else [], ResultEvents(tool, i, status), id);
  }

  /** What one event adds for one call. */
  lemma CallsStep(s: State, e: Event, id: string)
    requires id != ""
    ensures Calls(Apply(s, e).out, id) == Calls(s.out, id) + if About(e, id) && Announces(s.announced, e) then 1 else 0
    ensures Results(Apply(s, e).out, id)
         == Results(s.out, id) + if e.ToolDone? && e.id == id && e.tool != "" && e.status != Unfinished then 1 else 0
  {
    var flushed := if Closes(s.announced, e) then FlushEvents(s.msg) else [];
    CallsConcat(s.out, flushed, id);
    CallsConcat(s.out + flushed, OwnEvents(s.announced, e), id);
    FlushCallsNothing(s.msg, id);
    OwnCounts(s.announced, e, id);
  }

  /** In any interleaving with other calls and prose, a call seen running any
      number of times is announced once; finished, it has one call and one
      result, whether or not it was ever seen running. */
  lemma {:induction false} OneCallOneResult(events: seq<Event>, id: string)
    requires id != "" && Lifecycle(events, id)
    ensures var s, phase := Run(START, events), PhaseOf(events, id);
            && Calls(s.out, id) == (if phase == Unseen then 0 else 1)
            && Results(s.out, id) == (if phase == Finished then 1 else 0)
            && (id in s.announced <==> phase == Running)
  {
    if events != [] {
      var before, e := events[..|events| - 1], events[|events| - 1];
      var s := Run(START, before);
      OneCallOneResult(before, id);
      CallsStep(s, e, id);
    }
  }

  // ----- The turn's accumulator -----

  class Turn {
    var msg: string
    var announced: set<string>
    var out: seq<Out>

    ghost function View(): State
      reads this
    {
      State(msg, announced, out)
    }

    constructor ()
      ensures View() == START
    {
      msg, announced, out := "", {}, [];
    }

    method Flush()
      modifies this
      ensures View() == State("", old(announced), old(out) + FlushEvents(old(msg)))
    {
      var text := Trim(msg);
      msg := "";
      if text != "" {
        out := out + [Message(text)];
      }
    }

    method OnText(delta: string)
      modifies this
      ensures View() == Apply(old(View()), Text(delta))
    {
      if delta != "" {
        msg := msg + delta;
        out := out + [TextDelta(delta)];
      }
    }

    method OnReasoning(delta: string)
      modifies this
      ensures View() == Apply(old(View()), Reasoning(delta))
    {
      if delta != "" {
        Flush();
        out := out + [ReasoningDelta(delta)];
      }
    }

    method AnnounceCall(id: string) returns (first: bool)
      modifies this`announced
      ensures first == (id !in old(announced)) && announced == old(announced) + {id}
    {
      first := id !in announced;
      announced := announced + {id};
    }

    method CalledBefore(id: string) returns (was: bool)
      modifies this`announced
      ensures was == (id != "" && id in old(announced))
      ensures announced == if id == "" then old(announced) else old(announced) - {id}
    {
      if id == "" {
        return false;
      }
      was := id in announced;
      announced := announced - {id};
    }

    method OnToolRunning(tool: string, id: string)
      modifies this
      ensures View() == Apply(old(View()), ToolRunning(tool, id))
    {
      if tool == "" || id == "" {
        return;
      }
      var first := AnnounceCall(id);
      if first {
        Flush();
        out := out + [ToolCall(tool, id)];
      }
    }

    method OnToolDone(tool: string, id: string, status: Status)
      modifies this
      ensures View() == Apply(old(View()), ToolDone(tool, id, status))
    {
      if tool == "" {
        return;
      }
      var was := CalledBefore(id);
      if !was {
        Flush();
        out := out + [ToolCall(tool, id)];
      }
      match status {
        case Completed => out := out + [ToolResult(tool, id, true)];
        case Failed => out := out + [ToolResult(tool, id, false)];
        case Unfinished =>
      }
    }

    /** endTurn's trailing message. */
    method End()
      modifies this
      ensures View() == EndTurn(old(View()))
    {
      var text := Trim(msg);
      if text != "" {
        out := out + [Message(text)];
      }
    }
  }
}
