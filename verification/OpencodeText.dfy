/** Relaying a turn's text exactly once over a stream that drops events
    (internal/agent/opencode_v2.go: the text cases of dispatchV2, partKey,
    noteText and reconcileTextV2). */
module OpencodeText {
  import opened Basics
  import Decimal

  // ----- Part keys -----

  /** Text and reasoning are the kinds of part that stream. */
  predicate StreamedKind(kind: string) { kind == "text" || kind == "reasoning" }

  function PartKey(kind: string, message: string, ordinal: int): string {
    kind + ":" + message + ":" + Decimal.FormatInt(ordinal)
  }

  lemma {:induction false} ColonFree(n: int)
    ensures ':' !in Decimal.FormatInt(n)
  {
    var s := Decimal.FormatInt(n);
    forall i | 0 <= i < |s| ensures s[i] != ':' {
      if n < 0 && i > 0 { assert s[i] == Decimal.FormatNat(-n)[i - 1]; }
    }
  }

  /** Two texts split by the last colon of one whole agree on both sides. */
  lemma LastColon(a: string, b: string, c: string, d: string)
    requires a + ":" + b == c + ":" + d && ':' !in b && ':' !in d
    ensures a == c && b == d
  {
    var s := a + ":" + b;
    assert s == c + ":" + d;
    forall i | |a| < i < |s| ensures s[i] != ':' {
      assert s[i] == b[i - |a| - 1];
    }
    forall i | |c| < i < |s| ensures s[i] != ':' {
      assert s[i] == d[i - |c| - 1];
    }
    assert s[|a|] == ':' && s[|c|] == ':';
    assert |a| == |c|;
    assert s[..|a|] == a && s[..|c|] == c;
    assert s[|a| + 1..] == b && s[|c| + 1..] == d;
  }

  /** Distinct parts never share a key, even when message ids hold colons. */
  lemma PartKeyInjective(k1: string, m1: string, n1: int, k2: string, m2: string, n2: int)
    requires StreamedKind(k1) && StreamedKind(k2)
    requires PartKey(k1, m1, n1) == PartKey(k2, m2, n2)
    ensures k1 == k2 && m1 == m2 && n1 == n2
  {
    var a, b := k1 + ":" + m1, k2 + ":" + m2;
    ColonFree(n1);
    ColonFree(n2);
    LastColon(a, Decimal.FormatInt(n1), b, Decimal.FormatInt(n2));
    Decimal.FormatIntInjective(n1, n2);
    assert a[0] == k1[0] && b[0] == k2[0];
    assert a[|k1| + 1..] == m1 && b[|k2| + 1..] == m2;
  }

  // ----- The relay -----

  type Lengths = map<string, nat>

  function LengthAt(m: Lengths, key: string): nat { if key in m then m[key] else 0 }

  /** What is relayed: slices of text, each under its part's key. */
  datatype Slice = Slice(key: string, text: string)

  /** One turn: its v2Text, how much of each part it relayed, and what its own
      goroutine is about to emit. */
  datatype Turn = Turn(relayed: Lengths, holds: Option<Slice>)

  /** The session.  A slice is cut under its lock and emitted after: the bus
      dispatcher and each turn's goroutine hold one in between. */
  datatype State = State(
    current: Option<nat>,    // the turn in flight
    partLen: Lengths,        // streamed by deltas, of parts not ended
    turns: seq<Turn>,        // every turn, in order
    bus: Option<Slice>,      // what the dispatcher is about to emit
    out: seq<Slice>)

  const START := State(None, map[], [], None, [])

  datatype Event =
    | TurnBegins
    | TurnEnds
    | Delta(key: string, text: string)
    | Ended(key: string, text: string)                  // carries the part's whole text
    | BusEmits
    | Reconciled(turn: nat, key: string, text: string)  // so does the history
    | TurnEmits(turn: nat)

  /** A goroutine emits what it holds before it takes its next step; one turn at
      a time is in flight. */
  predicate Enabled(s: State, e: Event) {
    match e
    case TurnBegins => s.current.None?
    case TurnEnds => true
    case Delta(_, _) => s.bus.None?
    case Ended(_, _) => s.bus.None?
    case BusEmits => s.bus.Some?
    case Reconciled(t, _, _) => t < |s.turns| && s.turns[t].holds.None?
    case TurnEmits(t) => t < |s.turns| && s.turns[t].holds.Some?
  }

  predicate InTurn(s: State) { s.current.Some? && s.current.value < |s.turns| }

  function Note(m: Lengths, key: string, n: nat): Lengths {
    m[key := if LengthAt(m, key) > n then LengthAt(m, key) else n]
  }

  function Noted(turns: seq<Turn>, t: nat, key: string, n: nat): seq<Turn>
    requires t < |turns|
  {
    turns[t := turns[t].(relayed := Note(turns[t].relayed, key, n))]
  }

  function Rest(text: string, n: nat): string { if n < |text| then text[n..] else "" }

  function DeltaStep(s: State, key: string, text: string): State {
    if InTurn(s) then
      var n := LengthAt(s.partLen, key) + |text|;
      s.(partLen := s.partLen[key := n], turns := Noted(s.turns, s.current.value, key, n), bus := Some(Slice(key, text)))
    else s
  }

  function EndedStep(s: State, key: string, text: string): State {
    var after := s.(partLen := s.partLen - {key});
    if InTurn(s) then
      after.(turns := Noted(s.turns, s.current.value, key, |text|),
             bus := Some(Slice(key, Rest(text, LengthAt(s.partLen, key)))))
    else after
  }

  function ReconciledStep(s: State, t: nat, key: string, text: string): State
    requires t < |s.turns|
  {
    var rest := Rest(text, LengthAt(s.turns[t].relayed, key));
    s.(turns := s.turns[t := Turn(Note(s.turns[t].relayed, key, |text|), Some(Slice(key, rest)))])
  }

  function Apply(s: State, e: Event): State {
    if !Enabled(s, e) then s
    else
      match e
      case TurnBegins => s.(current := Some(|s.turns|), turns := s.turns + [Turn(map[], None)])
      case TurnEnds => s.(current := None)
      case Delta(key, text) => DeltaStep(s, key, text)
      case Ended(key, text) => EndedStep(s, key, text)
      case BusEmits => s.(bus := None, out := s.out + [s.bus.value])
      case Reconciled(t, key, text) => ReconciledStep(s, t, key, text)
      case TurnEmits(t) => s.(turns := s.turns[t := s.turns[t].(holds := None)], out := s.out + [s.turns[t].holds.value])
  }

  function Run(s: State, events: seq<Event>): State {
    if events == [] then s else Apply(Run(s, events[..|events| - 1]), events[|events| - 1])
  }

  lemma {:induction false} RunConcat(s: State, a: seq<Event>, b: seq<Event>)
    ensures Run(s, a + b) == Run(Run(s, a), b)
  {
    if b == [] {
      assert a + b == a;
    } else {
      RunConcat(s, a, b[..|b| - 1]);
      assert (a + b)[..|a + b| - 1] == a + b[..|b| - 1];
    }
  }

  lemma RunSnoc(s: State, a: seq<Event>, e: Event)
    ensures Run(s, a + [e]) == Apply(Run(s, a), e)
  {
    assert (a + [e])[..|a|] == a;
  }

  /** The bytes relayed for one part, in order. */
  function TextOf(out: seq<Slice>, key: string): string {
    if out == [] then ""
    else
      var last := out[|out| - 1];
      TextOf(out[..|out| - 1], key) + (if last.key == key then last.text else "")
  }

  lemma TextSnoc(out: seq<Slice>, x: Slice, key: string)
    ensures TextOf(out + [x], key) == TextOf(out, key) + if x.key == key then x.text else ""
  {
    assert (out + [x])[..|out|] == out;
  }

  /** What a goroutine is about to emit of the part. */
  function TextIn(x: Option<Slice>, key: string): string {
    if x.Some? && x.value.key == key then x.value.text else ""
  }

  /** No emission is under way. */
  predicate AtRest(s: State) {
    s.bus.None? && forall t :: 0 <= t < |s.turns| ==> s.turns[t].holds.None?
  }

  // ----- What the bus and the history deliver -----

  predicate EndedIn(events: seq<Event>, key: string) {
    exists i :: 0 <= i < |events| && events[i].Ended? && events[i].key == key
  }

  predicate ReconciledIn(events: seq<Event>, key: string) {
    exists i :: 0 <= i < |events| && events[i].Reconciled? && events[i].key == key
  }

  /** A run over parts whose whole texts are given: however often the stream
      dropped and whatever it lost, a part ends at most once, whole and after its
      deltas.  Any turn's goroutine may reconcile a part at any point. */
  predicate Delivery(events: seq<Event>, whole: map<string, string>) {
    events == [] || (
      var before, e := events[..|events| - 1], events[|events| - 1];
      && Delivery(before, whole) && Enabled(Run(START, before), e) && Delivered(before, e, whole))
  }

  predicate Delivered(before: seq<Event>, e: Event, whole: map<string, string>) {
    match e
    case Delta(key, text) => key in whole && !EndedIn(before, key)
    case Ended(key, text) => key in whole && text == whole[key] && !EndedIn(before, key)
    case Reconciled(_, key, text) => key in whole && text == whole[key]
    case _ => true
  }

  /** What was heard of one part. */
  datatype Heard = Heard(
    ended: bool,       // its end was dispatched
    whole: bool,       // its end was dispatched in a turn, or a history had it
    early: string,     // what its deltas carried, in a turn, before that
    late: bool,        // a slice came late: see IsLate
    held: string,      // the delta a history's slice overtook
    via: Option<nat>)   // the turn whose history had it before its end

  const UNHEARD := Heard(false, false, "", false, "", None)

  /** A slice comes late when there is something in it though the part was heard
      whole, or when a history adds it for a turn that relayed less than the
      deltas carried. */
  predicate IsLate(h: Heard, s: State, e: Event, key: string) {
    match e
    case Delta(k, text) => k == key && InTurn(s) && h.whole && text != ""
    case Ended(k, text) => k == key && InTurn(s) && h.whole && LengthAt(s.partLen, key) < |text|
    case Reconciled(t, k, text) =>
      k == key && t < |s.turns| && LengthAt(s.turns[t].relayed, key) < |text|
      && (h.whole || LengthAt(s.turns[t].relayed, key) < |h.early|)
    case _ => false
  }

  /** A history's slice overtakes a delta when it is emitted while the dispatcher
      still holds the delta cut before it. */
  predicate Overtakes(s: State, e: Event, key: string) {
    e.TurnEmits? && e.turn < |s.turns| && TextIn(s.turns[e.turn].holds, key) != "" && TextIn(s.bus, key) != ""
  }

  function Hear(h: Heard, s: State, e: Event, key: string): Heard {
    var late := h.late || IsLate(h, s, e, key);
    match e
    case Delta(k, text) =>
      if k != key || !InTurn(s) then h
      else if h.whole then h.(late := late)
      else h.(early := h.early + text)
    case Ended(k, text) =>
      if k != key then h else h.(ended := true, whole := h.whole || InTurn(s), late := late)
    case Reconciled(t, k, text) =>
      if k != key then h else h.(whole := true, late := late, via := if h.whole then h.via else Some(t))
    case TurnEmits(_) => if Overtakes(s, e, key) then h.(held := TextIn(s.bus, key)) else h
    case _ => h
  }

  function HeardOf(events: seq<Event>, key: string): Heard {
    if events == [] then UNHEARD
    else
      var before := events[..|events| - 1];
      Hear(HeardOf(before, key), Run(START, before), events[|events| - 1], key)
  }

  /** What is relayed of a part by its deltas and then its end or the history. */
  function Completed(text: string, early: string): string { early + Rest(text, |early|) }

  /** The same when the history's slice overtook the last of the deltas. */
  function Arranged(text: string, early: string, held: string): string {
    (if |held| <= |early| then early[..|early| - |held|] else "") + Rest(text, |early|) + held
  }

  // ----- What every run keeps: the order of the bytes -----

  /** The slice of the history that had the part first, while its turn holds it. */
  function HeldBy(s: State, via: Option<nat>, key: string): string {
    if via.Some? && via.value < |s.turns| then TextIn(s.turns[via.value].holds, key) else ""
  }

  /** Until a part is heard whole: what its deltas carried is out or with the
      dispatcher, and no history has any of it. */
  predicate Streaming(s: State, h: Heard, key: string) {
    && !h.late && h.held == "" && h.via.None?
    && TextOf(s.out, key) + TextIn(s.bus, key) == h.early
    && (!h.ended ==> LengthAt(s.partLen, key) == |h.early|)
    && (forall t :: 0 <= t < |s.turns| ==> s.turns[t].holds.None? || s.turns[t].holds.value.key != key)
    && (forall t :: 0 <= t < |s.turns| ==> LengthAt(s.turns[t].relayed, key) <= |h.early|)
  }

  /** From then on, while nothing came late. */
  predicate InLine(s: State, h: Heard, text: string, key: string) {
    var p, q, got := TextIn(s.bus, key), HeldBy(s, h.via, key), TextOf(s.out, key);
    && got + p + q == Arranged(text, h.early, h.held)
    && (p != "" && q != "" ==> h.held == "" && got + p == h.early && q == Rest(text, |h.early|))
    && (forall t :: 0 <= t < |s.turns| && TextIn(s.turns[t].holds, key) != "" ==> h.via == Some(t))
  }

  predicate LineOk(s: State, h: Heard, text: string, key: string) {
    && (!h.whole ==> Streaming(s, h, key))
    && (h.whole && !h.late ==> InLine(s, h, text, key))
  }

  lemma NothingHeld(text: string, early: string)
    ensures Arranged(text, early, "") == Completed(text, early)
  {
    assert early[..|early| - 0] == early;
    assert early + Rest(text, |early|) + "" == early + Rest(text, |early|);
  }

  lemma LineBegins(s: State, h: Heard, text: string, key: string)
    requires LineOk(s, h, text, key) && Enabled(s, TurnBegins)
    ensures LineOk(Apply(s, TurnBegins), h, text, key)
  {
  }

  lemma LineDelta(s: State, h: Heard, k: string, d: string, text: string, key: string, after: State, next: Heard)
    requires after == DeltaStep(s, k, d) && LineOk(s, h, text, key) && s.bus.None? && (k == key ==> !h.ended)
    requires next == Hear(h, s, Delta(k, d), key)
    ensures LineOk(after, next, text, key)
  {
    if k == key && InTurn(s) {
      if !h.whole {
        LineDeltaFirst(s, h, d, key, after);
      } else if !h.late && d == "" {
        assert HeldBy(after, h.via, key) == HeldBy(s, h.via, key);
      }
    } else {
      LineDeltaOther(s, h, k, d, text, key, after);
    }
  }

  lemma LineDeltaOther(s: State, h: Heard, k: string, d: string, text: string, key: string, after: State)
    requires after == DeltaStep(s, k, d) && LineOk(s, h, text, key) && s.bus.None? && (k != key || !InTurn(s))
    ensures LineOk(after, h, text, key)
  {
    assert HeldBy(after, h.via, key) == HeldBy(s, h.via, key);
  }

  lemma LineDeltaFirst(s: State, h: Heard, d: string, key: string, after: State)
    requires after == DeltaStep(s, key, d) && InTurn(s) && s.bus.None? && Streaming(s, h, key) && !h.ended
    ensures Streaming(after, h.(early := h.early + d), key)
  {
    assert TextOf(s.out, key) + "" == TextOf(s.out, key);
  }

  lemma LineEnded(s: State, h: Heard, k: string, w: string, text: string, key: string, after: State, next: Heard)
    requires after == EndedStep(s, k, w) && LineOk(s, h, text, key) && s.bus.None? && (k == key ==> !h.ended && w == text)
    requires next == Hear(h, s, Ended(k, w), key)
    ensures LineOk(after, next, text, key)
  {
    if k == key && InTurn(s) {
      if !h.whole {
        LineEndedFirst(s, h, text, key, after);
      } else if !h.late && LengthAt(s.partLen, key) >= |text| {
        LineEndedAgain(s, h, text, key, after);
      }
    } else {
      LineEndedOther(s, h, k, w, text, key, after);
    }
  }

  lemma LineEndedOther(s: State, h: Heard, k: string, w: string, text: string, key: string, after: State)
    requires after == EndedStep(s, k, w) && LineOk(s, h, text, key) && s.bus.None? && (k != key || !InTurn(s))
    ensures LineOk(after, h.(ended := h.ended || k == key), text, key)
  {
    assert HeldBy(after, h.via, key) == HeldBy(s, h.via, key);
  }

  /** The end of a part no history had completes it. */
  lemma LineEndedFirst(s: State, h: Heard, text: string, key: string, after: State)
    requires after == EndedStep(s, key, text) && InTurn(s) && s.bus.None? && Streaming(s, h, key) && !h.ended
    ensures InLine(after, h.(ended := true, whole := true), text, key)
  {
    NothingHeld(text, h.early);
  }

  lemma LineEndedAgain(s: State, h: Heard, text: string, key: string, after: State)
    requires after == EndedStep(s, key, text) && InTurn(s) && s.bus.None? && InLine(s, h, text, key)
    requires LengthAt(s.partLen, key) >= |text|
    ensures InLine(after, h.(ended := true), text, key)
  {
    assert HeldBy(after, h.via, key) == HeldBy(s, h.via, key);
  }

  lemma LineReconciledOther(s: State, h: Heard, t: nat, k: string, w: string, text: string, key: string, after: State)
    requires t < |s.turns| && s.turns[t].holds.None? && after == ReconciledStep(s, t, k, w)
    requires LineOk(s, h, text, key) && k != key
    ensures LineOk(after, h, text, key)
  {
    assert h.whole && !h.late ==> HeldBy(after, h.via, key) == HeldBy(s, h.via, key);
  }

  /** The first history that has the part completes it. */
  lemma LineReconciledFirst(s: State, h: Heard, t: nat, text: string, key: string, after: State)
    requires t < |s.turns| && s.turns[t].holds.None? && after == ReconciledStep(s, t, key, text)
    requires Streaming(s, h, key) && LengthAt(s.turns[t].relayed, key) >= Least(|h.early|, |text|)
    ensures InLine(after, h.(whole := true, via := Some(t)), text, key)
  {
    NothingHeld(text, h.early);
    assert HeldBy(after, Some(t), key) == Rest(text, |h.early|);
    assert TextOf(s.out, key) + TextIn(s.bus, key) == h.early;
  }

  function Least(a: nat, b: nat): nat { if a <= b then a else b }

  /** A later one has nothing to add. */
  lemma LineReconciledAgain(s: State, h: Heard, t: nat, text: string, key: string, after: State)
    requires t < |s.turns| && s.turns[t].holds.None? && after == ReconciledStep(s, t, key, text)
    requires InLine(s, h, text, key) && LengthAt(s.turns[t].relayed, key) >= |text|
    ensures InLine(after, h, text, key)
  {
    assert HeldBy(after, h.via, key) == HeldBy(s, h.via, key);
  }

  lemma LineReconciled(s: State, h: Heard, t: nat, k: string, w: string, text: string, key: string, after: State, next: Heard)
    requires t < |s.turns| && s.turns[t].holds.None? && after == ReconciledStep(s, t, k, w)
    requires LineOk(s, h, text, key) && (k == key ==> w == text)
    requires next == Hear(h, s, Reconciled(t, k, w), key)
    ensures LineOk(after, next, text, key)
  {
    if k != key {
      LineReconciledOther(s, h, t, k, w, text, key, after);
    } else if !IsLate(h, s, Reconciled(t, k, w), key) {
      if !h.whole {
        LineReconciledFirst(s, h, t, text, key, after);
      } else if !h.late {
        LineReconciledAgain(s, h, t, text, key, after);
      }
    }
  }

  lemma LineBusEmits(s: State, h: Heard, text: string, key: string)
    requires LineOk(s, h, text, key) && Enabled(s, BusEmits)
    ensures LineOk(Apply(s, BusEmits), h, text, key)
  {
    TextSnoc(s.out, s.bus.value, key);
  }

  lemma LineTurnEmits(s: State, h: Heard, t: nat, text: string, key: string, after: State, next: Heard)
    requires LineOk(s, h, text, key) && Enabled(s, TurnEmits(t)) && after == Apply(s, TurnEmits(t))
    requires next == Hear(h, s, TurnEmits(t), key)
    ensures LineOk(after, next, text, key)
  {
    var x := s.turns[t].holds.value;
    TextSnoc(s.out, x, key);
    if h.whole && !h.late {
      if TextIn(s.turns[t].holds, key) == "" {
        assert HeldBy(after, h.via, key) == HeldBy(s, h.via, key);
        assert TextOf(after.out, key) == TextOf(s.out, key) + "" == TextOf(s.out, key);
      } else {
        LineOvertakes(TextOf(s.out, key), TextIn(s.bus, key), x.text, h.early, text);
        assert HeldBy(s, h.via, key) == x.text && HeldBy(after, h.via, key) == "";
      }
    }
  }

  /** The history's slice q goes out before what the dispatcher holds, or after. */
  lemma LineOvertakes(got: string, p: string, q: string, early: string, text: string)
    ensures got + q + p + "" == got + q + p
    ensures p == "" ==> got + q + p + "" == got + p + q
    ensures got + p == early && q == Rest(text, |early|) ==> got + q + p + "" == Arranged(text, early, p)
  {
    if got + p == early { assert early[..|early| - |p|] == got; }
  }

  // ----- What every run keeps: the bytes, in any order -----

  /** What the goroutines of the first n turns hold of the part. */
  function Bag(turns: seq<Turn>, n: nat, key: string): multiset<char>
    requires n <= |turns|
  {
    if n == 0 then multiset{} else Bag(turns, n - 1, key) + multiset(TextIn(turns[n - 1].holds, key))
  }

  lemma {:induction false} BagSame(a: seq<Turn>, b: seq<Turn>, n: nat, key: string)
    requires n <= |a| && n <= |b| && forall t :: 0 <= t < n ==> a[t].holds == b[t].holds
    ensures Bag(a, n, key) == Bag(b, n, key)
  {
    if n > 0 { BagSame(a, b, n - 1, key); }
  }

  lemma Swapped(u: multiset<char>, a: multiset<char>, v: multiset<char>, b: multiset<char>, m: multiset<char>)
    requires u + a == v + b
    ensures u + m + a == v + m + b
  {
    assert u + m + a == (u + a) + m && v + m + b == (v + b) + m;
  }

  /** Turn t holds y where it held x. */
  lemma {:induction false} BagSet(turns: seq<Turn>, t: nat, next: seq<Turn>, n: nat, key: string)
    requires t < n <= |turns| == |next| && forall i :: 0 <= i < n && i != t ==> next[i].holds == turns[i].holds
    ensures Bag(next, n, key) + multiset(TextIn(turns[t].holds, key)) == Bag(turns, n, key) + multiset(TextIn(next[t].holds, key))
  {
    var a, b := multiset(TextIn(turns[t].holds, key)), multiset(TextIn(next[t].holds, key));
    if t == n - 1 {
      BagSame(turns, next, t, key);
      assert Bag(turns, t, key) + b + a == Bag(turns, t, key) + a + b;
    } else {
      BagSet(turns, t, next, n - 1, key);
      Swapped(Bag(next, n - 1, key), a, Bag(turns, n - 1, key), b, multiset(TextIn(turns[n - 1].holds, key)));
    }
  }

  lemma {:induction false} BagEmpty(turns: seq<Turn>, n: nat, key: string)
    requires n <= |turns| && forall t :: 0 <= t < |turns| ==> turns[t].holds.None?
    ensures Bag(turns, n, key) == multiset{}
  {
    if n > 0 { BagEmpty(turns, n - 1, key); }
  }

  /** Every byte of the part that was cut, out or held. */
  function Total(s: State, key: string): multiset<char> {
    multiset(TextOf(s.out, key)) + multiset(TextIn(s.bus, key)) + Bag(s.turns, |s.turns|, key)
  }

  /** Until it is heard whole those are the bytes of its deltas; from then on all
      of it is among them, and more once something came late. */
  predicate BagOf(total: multiset<char>, h: Heard, text: string) {
    && (!h.whole ==> !h.late && total == multiset(h.early))
    && (h.whole ==> multiset(Completed(text, h.early)) <= total)
    && (h.late ==> |total| > |text|)
  }

  predicate BagOk(s: State, h: Heard, text: string, key: string) { BagOf(Total(s, key), h, text) }

  lemma Moved(out: multiset<char>, x: multiset<char>, bus: multiset<char>, u: multiset<char>, v: multiset<char>)
    ensures out + x + multiset{} + u == out + x + u
    ensures u + x == v ==> out + x + bus + u == out + bus + v
  {
    if u + x == v {
      assert out + x + bus + u == out + bus + (u + x);
    }
  }

  /** Emitting moves bytes and makes none. */
  lemma BusEmitsKeepTotal(s: State, key: string, after: State)
    requires s.bus.Some? && after == s.(bus := None, out := s.out + [s.bus.value])
    ensures Total(after, key) == Total(s, key)
  {
    TextSnoc(s.out, s.bus.value, key);
    Moved(multiset(TextOf(s.out, key)), multiset(TextIn(s.bus, key)), multiset{}, Bag(s.turns, |s.turns|, key), multiset{});
  }

  lemma TurnEmitsKeepTotal(s: State, t: nat, key: string, after: State)
    requires t < |s.turns| && s.turns[t].holds.Some?
    requires after == s.(turns := s.turns[t := s.turns[t].(holds := None)], out := s.out + [s.turns[t].holds.value])
    ensures Total(after, key) == Total(s, key)
  {
    var x := multiset(TextIn(s.turns[t].holds, key));
    TextSnoc(s.out, s.turns[t].holds.value, key);
    BagSet(s.turns, t, after.turns, |s.turns|, key);
    Moved(multiset(TextOf(s.out, key)), x, multiset(TextIn(s.bus, key)), Bag(after.turns, |s.turns|, key), Bag(s.turns, |s.turns|, key));
  }

  lemma Added(out: multiset<char>, x: multiset<char>, u: multiset<char>)
    ensures out + x + u == out + multiset{} + u + x
  {
  }

  /** The dispatcher cuts one slice in a turn, and none out of one. */
  lemma DispatchAdds(s: State, k: string, n: nat, c: string, key: string, after: State)
    requires s.bus.None? && InTurn(s)
    requires after.out == s.out && after.turns == Noted(s.turns, s.current.value, k, n) && after.bus == Some(Slice(k, c))
    ensures Total(after, key) == Total(s, key) + multiset(TextIn(after.bus, key))
  {
    BagSame(s.turns, after.turns, |s.turns|, key);
    Added(multiset(TextOf(s.out, key)), multiset(TextIn(after.bus, key)), Bag(s.turns, |s.turns|, key));
  }

  lemma Held(out: multiset<char>, u: multiset<char>, v: multiset<char>, x: multiset<char>)
    requires v + multiset{} == u + x
    ensures out + v == out + u + x
  {
    assert v + multiset{} == v;
    assert out + (u + x) == out + u + x;
  }

  lemma HistoryAdds(s: State, t: nat, k: string, w: string, key: string, after: State)
    requires t < |s.turns| && s.turns[t].holds.None? && after == ReconciledStep(s, t, k, w)
    ensures Total(after, key) == Total(s, key) + multiset(TextIn(after.turns[t].holds, key))
  {
    var out := multiset(TextOf(s.out, key)) + multiset(TextIn(s.bus, key));
    BagSet(s.turns, t, after.turns, |s.turns|, key);
    Held(out, Bag(s.turns, |s.turns|, key), Bag(after.turns, |s.turns|, key), multiset(TextIn(after.turns[t].holds, key)));
  }

  lemma CompletedHolds(text: string, early: string)
    ensures |Completed(text, early)| >= |text|
    ensures multiset(Completed(text, early)) == multiset(early) + multiset(Rest(text, |early|))
  {
  }

  /** A slice from further back holds the rest and more. */
  lemma LongerRest(text: string, n: nat, early: string)
    requires n <= |early|
    ensures multiset(Rest(text, |early|)) <= multiset(Rest(text, n))
    ensures n < |text| && n < |early| ==> |early| + |Rest(text, n)| > |text|
  {
    if |early| < |text| {
      assert text[n..] == text[n..|early|] + text[|early|..];
    }
  }

  lemma {:induction false} SubsetSize(a: multiset<char>, b: multiset<char>)
    requires a <= b
    ensures |a| <= |b|
  {
    assert b == a + (b - a);
  }

  /** One more slice, once the part was heard whole. */
  lemma BagAfter(total: multiset<char>, h: Heard, c: string, text: string)
    requires BagOf(total, h, text) && h.whole
    ensures BagOf(total + multiset(c), h.(late := h.late || c != ""), text)
  {
    CompletedHolds(text, h.early);
    SubsetSize(multiset(Completed(text, h.early)), total);
    assert |total + multiset(c)| == |total| + |c|;
  }

  /** The slice with which it is. */
  lemma BagCompletes(total: multiset<char>, h: Heard, n: nat, text: string, h': Heard)
    requires BagOf(total, h, text) && !h.whole && n <= |h.early|
    requires h'.whole && h'.early == h.early && (h'.late ==> n < |text| && n < |h.early|)
    ensures BagOf(total + multiset(Rest(text, n)), h', text)
  {
    CompletedHolds(text, h.early);
    LongerRest(text, n, h.early);
    assert |total + multiset(Rest(text, n))| == |total| + |Rest(text, n)|;
  }

  lemma BagDelta(s: State, h: Heard, k: string, d: string, text: string, key: string, after: State, next: Heard)
    requires after == DeltaStep(s, k, d) && BagOk(s, h, text, key) && s.bus.None?
    requires next == Hear(h, s, Delta(k, d), key)
    ensures BagOk(after, next, text, key)
  {
    if InTurn(s) {
      DispatchAdds(s, k, LengthAt(s.partLen, k) + |d|, d, key, after);
      if k == key && h.whole { BagAfter(Total(s, key), h, d, text); }
    }
  }

  lemma BagEnded(s: State, h: Heard, text: string, key: string, after: State, next: Heard)
    requires after == EndedStep(s, key, text) && InTurn(s) && s.bus.None? && !h.ended
    requires BagOk(s, h, text, key) && (!h.whole ==> LengthAt(s.partLen, key) == |h.early|)
    requires next == Hear(h, s, Ended(key, text), key)
    ensures BagOk(after, next, text, key)
  {
    var n, total := LengthAt(s.partLen, key), Total(s, key);
    DispatchAdds(s, key, |text|, Rest(text, n), key, after);
    assert TextIn(after.bus, key) == Rest(text, n);
    if h.whole {
      BagAfter(total, h, Rest(text, n), text);
    } else {
      BagCompletes(total, h, n, text, next);
    }
  }

  lemma BagEndedOther(s: State, h: Heard, k: string, w: string, text: string, key: string, after: State, next: Heard)
    requires after == EndedStep(s, k, w) && s.bus.None? && BagOk(s, h, text, key) && (k != key || !InTurn(s))
    requires next == Hear(h, s, Ended(k, w), key)
    ensures BagOk(after, next, text, key)
  {
    if InTurn(s) { DispatchAdds(s, k, |w|, Rest(w, LengthAt(s.partLen, k)), key, after); }
  }

  lemma BagReconciled(s: State, h: Heard, t: nat, text: string, key: string, after: State, next: Heard)
    requires t < |s.turns| && s.turns[t].holds.None? && after == ReconciledStep(s, t, key, text)
    requires BagOk(s, h, text, key) && (!h.whole ==> LengthAt(s.turns[t].relayed, key) <= |h.early|)
    requires next == Hear(h, s, Reconciled(t, key, text), key)
    ensures BagOk(after, next, text, key)
  {
    var n, total := LengthAt(s.turns[t].relayed, key), Total(s, key);
    HistoryAdds(s, t, key, text, key, after);
    assert TextIn(after.turns[t].holds, key) == Rest(text, n);
    if h.whole {
      BagAfter(total, h, Rest(text, n), text);
    } else {
      BagCompletes(total, h, n, text, next);
    }
  }

  lemma BagReconciledOther(s: State, h: Heard, t: nat, k: string, w: string, text: string, key: string, after: State)
    requires t < |s.turns| && s.turns[t].holds.None? && after == ReconciledStep(s, t, k, w) && k != key
    requires BagOk(s, h, text, key)
    ensures BagOk(after, h, text, key)
  {
    HistoryAdds(s, t, k, w, key, after);
  }

  // ----- Every run -----

  lemma {:induction false} EndedIsHeard(events: seq<Event>, key: string)
    ensures HeardOf(events, key).ended <==> EndedIn(events, key)
  {
    if events != [] {
      var before, e := events[..|events| - 1], events[|events| - 1];
      EndedIsHeard(before, key);
      if EndedIn(before, key) {
        var i :| 0 <= i < |before| && before[i].Ended? && before[i].key == key;
        assert events[i] == before[i];
      }
    }
  }

  predicate PartOk(s: State, h: Heard, text: string, key: string) { LineOk(s, h, text, key) && BagOk(s, h, text, key) }

  lemma PartBegins(s: State, h: Heard, text: string, key: string, after: State)
    requires after == Apply(s, TurnBegins) && Enabled(s, TurnBegins) && PartOk(s, h, text, key)
    ensures PartOk(after, h, text, key)
  {
    LineBegins(s, h, text, key);
    BagSame(s.turns, after.turns, |s.turns|, key);
    assert Bag(after.turns, |after.turns|, key) == Bag(s.turns, |s.turns|, key) + multiset{};
  }

  lemma PartOver(s: State, h: Heard, text: string, key: string, after: State)
    requires after == s.(current := None) && PartOk(s, h, text, key)
    ensures PartOk(after, h, text, key)
  {
  }

  lemma PartDelta(s: State, h: Heard, k: string, d: string, text: string, key: string, after: State, next: Heard)
    requires after == DeltaStep(s, k, d) && s.bus.None? && PartOk(s, h, text, key) && (k == key ==> !h.ended)
    requires next == Hear(h, s, Delta(k, d), key)
    ensures PartOk(after, next, text, key)
  {
    LineDelta(s, h, k, d, text, key, after, next);
    BagDelta(s, h, k, d, text, key, after, next);
  }

  lemma PartEnded(s: State, h: Heard, k: string, w: string, text: string, key: string, after: State, next: Heard)
    requires after == EndedStep(s, k, w) && s.bus.None? && PartOk(s, h, text, key) && (k == key ==> !h.ended && w == text)
    requires next == Hear(h, s, Ended(k, w), key)
    ensures PartOk(after, next, text, key)
  {
    LineEnded(s, h, k, w, text, key, after, next);
    if k == key && InTurn(s) {
      BagEnded(s, h, text, key, after, next);
    } else {
      BagEndedOther(s, h, k, w, text, key, after, next);
    }
  }

  lemma PartReconciled(s: State, h: Heard, t: nat, k: string, w: string, text: string, key: string, after: State, next: Heard)
    requires t < |s.turns| && s.turns[t].holds.None? && after == ReconciledStep(s, t, k, w)
    requires PartOk(s, h, text, key) && (k == key ==> w == text)
    requires next == Hear(h, s, Reconciled(t, k, w), key)
    ensures PartOk(after, next, text, key)
  {
    if k == key {
      LineReconciled(s, h, t, key, text, text, key, after, next);
      BagReconciled(s, h, t, text, key, after, next);
    } else {
      LineReconciledOther(s, h, t, k, w, text, key, after);
      BagReconciledOther(s, h, t, k, w, text, key, after);
    }
  }

  lemma PartEmits(s: State, h: Heard, e: Event, text: string, key: string, after: State, next: Heard)
    requires after == Apply(s, e) && Enabled(s, e) && (e.BusEmits? || e.TurnEmits?) && PartOk(s, h, text, key)
    requires next == Hear(h, s, e, key)
    ensures PartOk(after, next, text, key)
  {
    if e.BusEmits? {
      LineBusEmits(s, h, text, key);
      BusEmitsKeepTotal(s, key, after);
    } else {
      LineTurnEmits(s, h, e.turn, text, key, after, next);
      TurnEmitsKeepTotal(s, e.turn, key, after);
    }
  }

  predicate Foretold(h: Heard, e: Event, text: string, key: string) {
    && ((e.Delta? || e.Ended?) && e.key == key ==> !h.ended)
    && ((e.Ended? || e.Reconciled?) && e.key == key ==> e.text == text)
  }

  lemma PartStep(s: State, h: Heard, e: Event, text: string, key: string, after: State, next: Heard)
    requires after == Apply(s, e) && Enabled(s, e) && PartOk(s, h, text, key) && Foretold(h, e, text, key)
    requires next == Hear(h, s, e, key)
    ensures PartOk(after, next, text, key)
  {
    if e.BusEmits? || e.TurnEmits? {
      PartEmits(s, h, e, text, key, after, next);
    } else if e.TurnBegins? {
      PartBegins(s, h, text, key, after);
    } else if e.TurnEnds? {
      PartOver(s, h, text, key, after);
    } else {
      PartCut(s, h, e, text, key, after, next);
    }
  }

  lemma PartCut(s: State, h: Heard, e: Event, text: string, key: string, after: State, next: Heard)
    requires e.Delta? || e.Ended? || e.Reconciled?
    requires after == Apply(s, e) && Enabled(s, e) && PartOk(s, h, text, key) && Foretold(h, e, text, key)
    requires next == Hear(h, s, e, key)
    ensures PartOk(after, next, text, key)
  {
    match e
    case Delta(k, d) => PartDelta(s, h, k, d, text, key, after, next);
    case Ended(k, w) => PartEnded(s, h, k, w, text, key, after, next);
    case Reconciled(t, k, w) => PartReconciled(s, h, t, k, w, text, key, after, next);
  }

  lemma {:induction false} RunKeepsPart(events: seq<Event>, whole: map<string, string>, key: string)
    requires Delivery(events, whole) && key in whole
    ensures PartOk(Run(START, events), HeardOf(events, key), whole[key], key)
  {
    if events != [] {
      var before, e := events[..|events| - 1], events[|events| - 1];
      RunKeepsPart(before, whole, key);
      EndedIsHeard(before, key);
      assert Delivered(before, e, whole);
      PartStep(Run(START, before), HeardOf(before, key), e, whole[key], key, Run(START, events), HeardOf(events, key));
    }
  }

  // ----- What was heard, from the events alone -----

  function Begins(events: seq<Event>): nat {
    if events == [] then 0 else Begins(events[..|events| - 1]) + if events[|events| - 1].TurnBegins? then 1 else 0
  }

  /** The turn in flight. */
  function Flight(events: seq<Event>): Option<nat> {
    if events == [] then None
    else
      var before := events[..|events| - 1];
      match events[|events| - 1]
      case TurnBegins => Some(Begins(before))
      case TurnEnds => None
      case _ => Flight(before)
  }

  /** The bytes of the part's deltas, those dispatched in a turn. */
  function Streamed(events: seq<Event>, key: string): string {
    if events == [] then ""
    else
      var before, e := events[..|events| - 1], events[|events| - 1];
      Streamed(before, key) + if e.Delta? && e.key == key && Flight(before).Some? then e.text else ""
  }

  /** Its end was dispatched in a turn, or a history had it. */
  predicate WholeIn(events: seq<Event>, key: string) {
    events != [] && (
      var before, e := events[..|events| - 1], events[|events| - 1];
      WholeIn(before, key)
      || (e.Ended? && e.key == key && Flight(before).Some?) || (e.Reconciled? && e.key == key))
  }

  /** What its deltas carried before that. */
  function EarlyIn(events: seq<Event>, key: string): string {
    if events == [] then ""
    else
      var before, e := events[..|events| - 1], events[|events| - 1];
      EarlyIn(before, key)
      + if e.Delta? && e.key == key && Flight(before).Some? && !WholeIn(before, key) then e.text else ""
  }

  function Most(a: nat, b: nat): nat { if a >= b then a else b }

  /** How much of the part turn t knows to be out: as far as its last delta in the
      turn brought the part, all of it once its end or a history came. */
  function Known(events: seq<Event>, t: nat, key: string): nat {
    if events == [] then 0
    else
      var before, e := events[..|events| - 1], events[|events| - 1];
      var n := Known(before, t, key);
      match e
      case Delta(k, d) => if k == key && Flight(before) == Some(t) then Most(n, |Streamed(before, key)| + |d|) else n
      case Ended(k, w) => if k == key && Flight(before) == Some(t) then Most(n, |w|) else n
      case Reconciled(u, k, w) => if k == key && u == t then Most(n, |w|) else n
      case _ => n
  }

  /** Something of the part came late: in a turn, after it was heard whole, a delta
      with something in it or an end its deltas fall short of; or a history with
      more than its turn knew to be out, though the part was heard whole or its
      deltas had brought it further. */
  predicate LateIn(events: seq<Event>, key: string) {
    events != [] && (
      var before, e := events[..|events| - 1], events[|events| - 1];
      LateIn(before, key) || LateNow(before, e, key))
  }

  predicate LateNow(before: seq<Event>, e: Event, key: string) {
    match e
    case Delta(k, d) => k == key && Flight(before).Some? && WholeIn(before, key) && d != ""
    case Ended(k, w) => k == key && Flight(before).Some? && WholeIn(before, key) && |Streamed(before, key)| < |w|
    case Reconciled(t, k, w) =>
      k == key && Known(before, t, key) < |w| && (WholeIn(before, key) || Known(before, t, key) < |EarlyIn(before, key)|)
    case _ => false
  }

  /** The session's lengths are those of the events. */
  predicate Counted(s: State, events: seq<Event>, t: nat, key: string) {
    && s.current == Flight(events) && |s.turns| == Begins(events) && (s.current.Some? ==> InTurn(s))
    && LengthAt(s.partLen, key) == (if EndedIn(events, key) then 0 else |Streamed(events, key)|)
    && Known(events, t, key) == if t < |s.turns| then LengthAt(s.turns[t].relayed, key) else 0
  }

  lemma EndedEarlier(events: seq<Event>, key: string)
    requires events != [] && EndedIn(events[..|events| - 1], key)
    ensures EndedIn(events, key)
  {
    var before := events[..|events| - 1];
    var i :| 0 <= i < |before| && before[i].Ended? && before[i].key == key;
    assert events[i] == before[i];
  }

  lemma EndedNow(events: seq<Event>, key: string)
    requires events != [] && events[|events| - 1].Ended? && events[|events| - 1].key == key
    ensures EndedIn(events, key)
  {
  }

  lemma CountedBegins(s: State, before: seq<Event>, t: nat, key: string, after: State, events: seq<Event>)
    requires Counted(s, before, t, key) && after == Apply(s, TurnBegins) && Enabled(s, TurnBegins)
    requires events != [] && before == events[..|events| - 1] && events[|events| - 1] == TurnBegins
    ensures Counted(after, events, t, key)
  {
    if EndedIn(before, key) { EndedEarlier(events, key); }
  }

  lemma CountedDelta(s: State, before: seq<Event>, t: nat, key: string, k: string, d: string, after: State, events: seq<Event>)
    requires Counted(s, before, t, key) && after == DeltaStep(s, k, d) && (k == key ==> !EndedIn(before, key))
    requires events != [] && before == events[..|events| - 1] && events[|events| - 1] == Delta(k, d)
    ensures Counted(after, events, t, key)
  {
    if EndedIn(before, key) { EndedEarlier(events, key); }
  }

  lemma CountedEnded(s: State, before: seq<Event>, t: nat, key: string, k: string, w: string, after: State, events: seq<Event>)
    requires Counted(s, before, t, key) && after == EndedStep(s, k, w)
    requires events != [] && before == events[..|events| - 1] && events[|events| - 1] == Ended(k, w)
    ensures Counted(after, events, t, key)
  {
    if EndedIn(before, key) { EndedEarlier(events, key); }
    if k == key { EndedNow(events, key); }
  }

  lemma CountedReconciled(s: State, before: seq<Event>, t: nat, key: string, u: nat, k: string, w: string, after: State, events: seq<Event>)
    requires Counted(s, before, t, key) && u < |s.turns| && after == ReconciledStep(s, u, k, w)
    requires events != [] && before == events[..|events| - 1] && events[|events| - 1] == Reconciled(u, k, w)
    ensures Counted(after, events, t, key)
  {
    if EndedIn(before, key) { EndedEarlier(events, key); }
  }

  lemma CountedElse(s: State, before: seq<Event>, t: nat, key: string, e: Event, after: State, events: seq<Event>)
    requires Counted(s, before, t, key) && (e.TurnEnds? || e.BusEmits? || e.TurnEmits?)
    requires after == Apply(s, e) && Enabled(s, e)
    requires events != [] && before == events[..|events| - 1] && events[|events| - 1] == e
    ensures Counted(after, events, t, key)
  {
    if EndedIn(before, key) { EndedEarlier(events, key); }
  }

  lemma {:induction false} RunKeepsCount(events: seq<Event>, whole: map<string, string>, t: nat, key: string)
    requires Delivery(events, whole)
    ensures Counted(Run(START, events), events, t, key)
  {
    if events != [] {
      var before, e := events[..|events| - 1], events[|events| - 1];
      RunKeepsCount(before, whole, t, key);
      var s, after := Run(START, before), Run(START, events);
      match e
      case TurnBegins => CountedBegins(s, before, t, key, after, events);
      case Delta(k, d) => CountedDelta(s, before, t, key, k, d, after, events);
      case Ended(k, w) => CountedEnded(s, before, t, key, k, w, after, events);
      case Reconciled(u, k, w) => CountedReconciled(s, before, t, key, u, k, w, after, events);
      case _ => CountedElse(s, before, t, key, e, after, events);
    }
  }

  predicate HeardFrom(h: Heard, events: seq<Event>, key: string) {
    h.whole == WholeIn(events, key) && h.early == EarlyIn(events, key) && h.late == LateIn(events, key)
  }

  lemma HeardNext(h: Heard, s: State, before: seq<Event>, e: Event, key: string, next: Heard, events: seq<Event>)
    requires HeardFrom(h, before, key) && Counted(s, before, if e.Reconciled? then e.turn else 0, key) && Enabled(s, e)
    requires e.Ended? && e.key == key ==> !EndedIn(before, key)
    requires next == Hear(h, s, e, key)
    requires events != [] && before == events[..|events| - 1] && events[|events| - 1] == e
    ensures HeardFrom(next, events, key)
  {
  }

  /** In every run, what was heard of a part is told by the events alone: the
      lengths the session keeps are the bytes its deltas brought, and those each
      turn keeps are what the turn knows to be out. */
  lemma {:induction false} HeardIs(events: seq<Event>, whole: map<string, string>, key: string)
    requires Delivery(events, whole)
    ensures HeardFrom(HeardOf(events, key), events, key)
  {
    if events != [] {
      var before, e := events[..|events| - 1], events[|events| - 1];
      HeardIs(before, whole, key);
      RunKeepsCount(before, whole, if e.Reconciled? then e.turn else 0, key);
      HeardNext(HeardOf(before, key), Run(START, before), before, e, key, HeardOf(events, key), events);
    }
  }

  // ----- Exactly once -----

  lemma RestTotal(s: State, key: string)
    requires AtRest(s)
    ensures Total(s, key) == multiset(TextOf(s.out, key))
    ensures forall v: Option<nat> :: HeldBy(s, v, key) == ""
  {
    BagEmpty(s.turns, |s.turns|, key);
  }

  /** Completing keeps to the text if and only if what came early does. */
  lemma CompletedIff(text: string, early: string)
    ensures Completed(text, early) == text <==> early <= text
  {
    var got := Completed(text, early);
    if early <= text {
      assert early + text[|early|..] == text;
    }
    if got == text {
      assert got[..|early|] == early;
    }
  }

  /** How a part stands when no emission is under way. */
  lemma {:induction false} StandsAtRest(events: seq<Event>, whole: map<string, string>, key: string)
    requires Delivery(events, whole) && key in whole && AtRest(Run(START, events))
    ensures var h, got, text := HeardOf(events, key), TextOf(Run(START, events).out, key), whole[key];
            && (!h.whole ==> !h.late && h.held == "" && got == h.early)
            && (h.whole && !h.late ==> got == Arranged(text, h.early, h.held))
            && (h.late ==> |got| > |text|)
            && (h.whole ==> multiset(Completed(text, h.early)) <= multiset(got) && |got| >= |text|)
  {
    var s, h, text := Run(START, events), HeardOf(events, key), whole[key];
    RunKeepsPart(events, whole, key);
    RestTotal(s, key);
    CompletedHolds(text, h.early);
    var got := TextOf(s.out, key);
    assert got + "" == got && got + "" + "" == got;
    if h.whole { SubsetSize(multiset(Completed(text, h.early)), multiset(got)); }
  }

  /** Over every run of the session, its turns, its dispatcher and the goroutines
      of its turns interleaved in any way: a part heard whole is relayed exactly
      if and only if nothing of it came late, and its deltas carried a prefix of
      it, or, when the history's slice overtook the last of them, a text that
      comes out right all the same. */
  lemma {:induction false} ExactlyOnceIff(events: seq<Event>, whole: map<string, string>, key: string)
    requires Delivery(events, whole) && key in whole && AtRest(Run(START, events)) && HeardOf(events, key).whole
    ensures var h := HeardOf(events, key);
            TextOf(Run(START, events).out, key) == whole[key] <==>
              !h.late && if h.held == "" then h.early <= whole[key] else Arranged(whole[key], h.early, h.held) == whole[key]
  {
    var h := HeardOf(events, key);
    StandsAtRest(events, whole, key);
    CompletedIff(whole[key], h.early);
    if h.held == "" { NothingHeld(whole[key], h.early); }
  }

  /** The same told by the events alone, for a part nothing overtook: exactly once
      if and only if nothing of it came late and its deltas carried a prefix. */
  lemma {:induction false} ExactlyOnceByEvents(events: seq<Event>, whole: map<string, string>, key: string)
    requires Delivery(events, whole) && key in whole && AtRest(Run(START, events)) && WholeIn(events, key)
    requires HeardOf(events, key).held == ""
    ensures TextOf(Run(START, events).out, key) == whole[key] <==> !LateIn(events, key) && EarlyIn(events, key) <= whole[key]
  {
    HeardIs(events, whole, key);
    ExactlyOnceIff(events, whole, key);
  }

  /** Overtaken, a part whose deltas carried a prefix of it comes out right if and
      only if the delta and the slice that overtook it may trade places. */
  lemma OvertakenIff(text: string, early: string, held: string)
    requires early <= text && held != "" && |held| <= |early| && early[|early| - |held|..] == held
    ensures var rest := Rest(text, |early|); Arranged(text, early, held) == text <==> rest + held == held + rest
  {
    var base, rest := early[..|early| - |held|], Rest(text, |early|);
    assert text == early + rest && early == base + held;
    assert text == base + (held + rest);
    assert Arranged(text, early, held) == base + (rest + held);
    assert (base + (rest + held))[|base|..] == rest + held && (base + (held + rest))[|base|..] == held + rest;
  }

  /** Whatever came late and whatever overtook: with deltas that carried a prefix,
      no byte of a part heard whole is lost, and when nothing came late none is
      relayed twice. */
  lemma {:induction false} NoneLost(events: seq<Event>, whole: map<string, string>, key: string)
    requires Delivery(events, whole) && key in whole && AtRest(Run(START, events)) && HeardOf(events, key).whole
    requires HeardOf(events, key).early <= whole[key]
    ensures multiset(whole[key]) <= multiset(TextOf(Run(START, events).out, key))
    ensures multiset(whole[key]) == multiset(TextOf(Run(START, events).out, key)) <==> !HeardOf(events, key).late
  {
    var h, text, got := HeardOf(events, key), whole[key], TextOf(Run(START, events).out, key);
    StandsAtRest(events, whole, key);
    CompletedIff(text, h.early);
    if h.late {
      assert |multiset(got)| == |got| && |multiset(text)| == |text|;
    } else {
      RunKeepsHeld(events, whole, key);
      ArrangedBytes(text, h.early, h.held);
    }
  }

  lemma ArrangedBytes(text: string, early: string, held: string)
    requires |held| <= |early| && early[|early| - |held|..] == held
    ensures multiset(Arranged(text, early, held)) == multiset(Completed(text, early))
  {
    var base, rest := early[..|early| - |held|], Rest(text, |early|);
    assert early == base + held;
    assert multiset(base + rest + held) == multiset(base) + multiset(rest) + multiset(held);
    assert multiset(base + held + rest) == multiset(base) + multiset(held) + multiset(rest);
  }

  /** What was overtaken is the last of what came early. */
  predicate HeldOk(h: Heard) {
    h.late || (|h.held| <= |h.early| && h.early[|h.early| - |h.held|..] == h.held && (h.held != "" ==> h.whole))
  }

  lemma HeldEmits(s: State, h: Heard, t: nat, text: string, key: string, next: Heard)
    requires LineOk(s, h, text, key) && HeldOk(h) && t < |s.turns| && next == Hear(h, s, TurnEmits(t), key)
    ensures HeldOk(next)
  {
    if Overtakes(s, TurnEmits(t), key) && !h.late {
      assert h.whole;
      var got, p := TextOf(s.out, key), TextIn(s.bus, key);
      assert HeldBy(s, h.via, key) != "" && got + p == h.early;
      EndsWith(got, p, h.early);
    }
  }

  lemma EndsWith(a: string, b: string, c: string)
    requires a + b == c
    ensures |b| <= |c| && c[|c| - |b|..] == b
  {
  }

  lemma HeldElse(s: State, h: Heard, e: Event, key: string, next: Heard)
    requires HeldOk(h) && !e.TurnEmits? && next == Hear(h, s, e, key)
    ensures HeldOk(next)
  {
  }

  lemma HeldStep(s: State, h: Heard, e: Event, text: string, key: string, next: Heard)
    requires LineOk(s, h, text, key) && HeldOk(h) && Enabled(s, e) && next == Hear(h, s, e, key)
    ensures HeldOk(next)
  {
    if e.TurnEmits? {
      HeldEmits(s, h, e.turn, text, key, next);
    } else {
      HeldElse(s, h, e, key, next);
    }
  }

  lemma {:induction false} RunKeepsHeld(events: seq<Event>, whole: map<string, string>, key: string)
    requires Delivery(events, whole) && key in whole
    ensures HeldOk(HeardOf(events, key))
  {
    if events != [] {
      var before, e := events[..|events| - 1], events[|events| - 1];
      RunKeepsPart(before, whole, key);
      RunKeepsHeld(before, whole, key);
      HeldStep(Run(START, before), HeardOf(before, key), e, whole[key], key, HeardOf(events, key));
    }
  }

  /** At every moment, emissions under way or not: while nothing came late or was
      overtaken, and the deltas carried a prefix, what is relayed of a part is a
      prefix of its text, no byte twice and none out of order. */
  lemma {:induction false} NeverTwice(events: seq<Event>, whole: map<string, string>, key: string)
    requires Delivery(events, whole) && key in whole
    requires var h := HeardOf(events, key); !h.late && h.held == "" && h.early <= whole[key]
    ensures TextOf(Run(START, events).out, key) <= whole[key]
  {
    var s, h, text := Run(START, events), HeardOf(events, key), whole[key];
    RunKeepsPart(events, whole, key);
    NothingHeld(text, h.early);
    CompletedIff(text, h.early);
    var got, p, q := TextOf(s.out, key), TextIn(s.bus, key), HeldBy(s, h.via, key);
    if h.whole {
      assert got + p + q == text && got <= got + p + q;
    } else {
      assert got <= got + p <= text;
    }
  }

  /** And at rest only then, but for an overtaken part that comes out right. */
  lemma {:induction false} NeverTwiceIff(events: seq<Event>, whole: map<string, string>, key: string)
    requires Delivery(events, whole) && key in whole && AtRest(Run(START, events))
    ensures var h := HeardOf(events, key);
            TextOf(Run(START, events).out, key) <= whole[key] <==>
              !h.late && if h.held == "" then h.early <= whole[key] else Arranged(whole[key], h.early, h.held) == whole[key]
  {
    var h, got, text := HeardOf(events, key), TextOf(Run(START, events).out, key), whole[key];
    StandsAtRest(events, whole, key);
    if h.whole {
      ExactlyOnceIff(events, whole, key);
      assert got <= text ==> got == text[..|got|] == text;
    }
  }

  /** No history: nothing comes late and nothing is overtaken. */
  predicate Unread(s: State, h: Heard, key: string) {
    && !h.late && h.held == "" && (h.whole ==> h.ended)
    && (forall t :: 0 <= t < |s.turns| ==> s.turns[t].holds.None? || s.turns[t].holds.value.key != key)
  }

  lemma UnreadStep(s: State, h: Heard, e: Event, key: string, after: State, next: Heard)
    requires Unread(s, h, key) && Enabled(s, e) && !(e.Reconciled? && e.key == key)
    requires (e.Delta? || e.Ended?) && e.key == key ==> !h.ended
    requires after == Apply(s, e) && next == Hear(h, s, e, key)
    ensures Unread(after, next, key)
  {
  }

  lemma {:induction false} UnreadRun(events: seq<Event>, whole: map<string, string>, key: string)
    requires Delivery(events, whole) && !ReconciledIn(events, key)
    ensures Unread(Run(START, events), HeardOf(events, key), key)
  {
    if events != [] {
      var before, e := events[..|events| - 1], events[|events| - 1];
      forall i | 0 <= i < |before| ensures !(before[i].Reconciled? && before[i].key == key) {
        assert before[i] == events[i];
      }
      UnreadRun(before, whole, key);
      EndedIsHeard(before, key);
      assert Delivered(before, e, whole);
      UnreadStep(Run(START, before), HeardOf(before, key), e, key, Run(START, events), HeardOf(events, key));
    }
  }

  /** A part the history never had repeats nothing: once it ended in a turn it was
      relayed exactly if and only if its deltas carried a prefix of it, in
      however many turns they came. */
  lemma {:induction false} ExactWithoutHistory(events: seq<Event>, whole: map<string, string>, key: string)
    requires Delivery(events, whole) && key in whole && !ReconciledIn(events, key)
    requires AtRest(Run(START, events)) && HeardOf(events, key).whole
    ensures TextOf(Run(START, events).out, key) == whole[key] <==> HeardOf(events, key).early <= whole[key]
  {
    UnreadRun(events, whole, key);
    ExactlyOnceIff(events, whole, key);
  }

  // ----- Runs that show it -----

  /** The deltas of one part in one turn, then its end. */
  function DeltasThenEnd(key: string, deltas: seq<string>, text: string): seq<Event> {
    Deltas(key, deltas) + [Ended(key, text)] + [BusEmits]
  }

  function Deltas(key: string, deltas: seq<string>): seq<Event> {
    if deltas == [] then [TurnBegins]
    else Deltas(key, deltas[..|deltas| - 1]) + [Delta(key, deltas[|deltas| - 1])] + [BusEmits]
  }

  function Joined(deltas: seq<string>): string {
    if deltas == [] then "" else Joined(deltas[..|deltas| - 1]) + deltas[|deltas| - 1]
  }

  /** A delta dispatched in a turn and emitted. */
  lemma DeltaRelayed(s: State, key: string, d: string, after: State)
    requires InTurn(s) && s.bus.None? && after == Apply(Apply(s, Delta(key, d)), BusEmits)
    ensures InTurn(after) && after.bus.None? && LengthAt(after.partLen, key) == LengthAt(s.partLen, key) + |d|
    ensures TextOf(after.out, key) == TextOf(s.out, key) + d
  {
    TextSnoc(s.out, Slice(key, d), key);
  }

  lemma {:induction false} DeltasRelay(key: string, deltas: seq<string>)
    ensures var s := Run(START, Deltas(key, deltas));
            InTurn(s) && s.bus.None? && LengthAt(s.partLen, key) == |Joined(deltas)| && TextOf(s.out, key) == Joined(deltas)
  {
    if deltas == [] {
      RunSnoc(START, [], TurnBegins);
      assert [] + [TurnBegins] == [TurnBegins];
    } else {
      var init, d := deltas[..|deltas| - 1], deltas[|deltas| - 1];
      var events := Deltas(key, init);
      DeltasRelay(key, init);
      RunSnoc(START, events, Delta(key, d));
      RunSnoc(START, events + [Delta(key, d)], BusEmits);
      DeltaRelayed(Run(START, events), key, d, Run(START, Deltas(key, deltas)));
    }
  }

  /** The lengths kept are lengths, not positions, so the prefix is needed: a
      part is relayed exactly if and only if the deltas that arrived join to a
      prefix of it. */
  lemma {:induction false} ExactWhenDeltasArePrefix(key: string, deltas: seq<string>, text: string)
    ensures TextOf(Run(START, DeltasThenEnd(key, deltas, text)).out, key) == text <==> Joined(deltas) <= text
  {
    var events := Deltas(key, deltas);
    DeltasRelay(key, deltas);
    RunSnoc(START, events, Ended(key, text));
    RunSnoc(START, events + [Ended(key, text)], BusEmits);
    TextSnoc(Run(START, events).out, Slice(key, Rest(text, |Joined(deltas)|)), key);
    CompletedIff(text, Joined(deltas));
  }

  /** One more event of a run over a single part. */
  lemma OneMore(events: seq<Event>, e: Event, key: string, text: string)
    requires Delivery(events, map[key := text]) && Enabled(Run(START, events), e)
    requires (e.Delta? || e.Ended?) ==> e.key == key && !HeardOf(events, key).ended
    requires (e.Ended? || e.Reconciled?) ==> e.key == key && e.text == text
    ensures Delivery(events + [e], map[key := text]) && Run(START, events + [e]) == Apply(Run(START, events), e)
    ensures HeardOf(events + [e], key) == Hear(HeardOf(events, key), Run(START, events), e, key)
  {
    var all := events + [e];
    EndedIsHeard(events, key);
    assert all[..|events|] == events && all[|events|] == e;
    assert Delivered(events, e, map[key := text]);
  }

  /** A history that has the part before anything else does, all of it. */
  lemma {:induction false} ReadWhole(key: string, text: string) returns (events: seq<Event>)
    ensures events == [] + [TurnBegins] + [Reconciled(0, key, text)] + [TurnEmits(0)]
    ensures Delivery(events, map[key := text]) && !HeardOf(events, key).ended
    ensures var s := Run(START, events);
            InTurn(s) && s.bus.None? && LengthAt(s.partLen, key) == 0 && s.out == [Slice(key, text)]
  {
    var one := [] + [TurnBegins];
    var two := one + [Reconciled(0, key, text)];
    OneMore([], TurnBegins, key, text);
    OneMore(one, Reconciled(0, key, text), key, text);
    assert Rest(text, 0) == text;
    assert Run(START, two).turns[0].holds == Some(Slice(key, text)) && Run(START, two).out == [];
    OneMore(two, TurnEmits(0), key, text);
    events := two + [TurnEmits(0)];
  }

  /** A part's end dispatched after the history had it is relayed again, but for
      what its deltas carried. */
  lemma {:induction false} LateEndRepeats(key: string, text: string) returns (events: seq<Event>)
    ensures events == [TurnBegins, Reconciled(0, key, text), TurnEmits(0), Ended(key, text), BusEmits]
    ensures Delivery(events, map[key := text]) && TextOf(Run(START, events).out, key) == text + text
  {
    var x := Slice(key, text);
    var three := ReadWhole(key, text);
    var four := three + [Ended(key, text)];
    OneMore(three, Ended(key, text), key, text);
    assert Rest(text, 0) == text;
    assert Run(START, four).bus == Some(x) && Run(START, four).out == [x];
    OneMore(four, BusEmits, key, text);
    TextTwo(x, x, key);
    events := four + [BusEmits];
    assert Run(START, events).out == [x, x];
  }

  lemma TextTwo(x: Slice, y: Slice, key: string)
    requires x.key == y.key == key
    ensures TextOf([x, y], key) == x.text + y.text
  {
    TextSnoc([], x, key);
    TextSnoc([x], y, key);
    assert [] + [x] == [x] && [x] + [y] == [x, y];
  }

  /** A delta cut, and the history read, before either is emitted. */
  lemma {:induction false} BothHold(key: string, d: string, rest: string, text: string) returns (events: seq<Event>)
    requires text == d + rest
    ensures events == [] + [TurnBegins] + [Delta(key, d)] + [Reconciled(0, key, text)]
    ensures Delivery(events, map[key := text])
    ensures var h := HeardOf(events, key); !h.late && h.early == d
    ensures var s := Run(START, events);
            |s.turns| == 1 && s.turns[0].holds == Some(Slice(key, rest)) && s.bus == Some(Slice(key, d)) && s.out == []
  {
    var one := [] + [TurnBegins];
    var two := one + [Delta(key, d)];
    OneMore([], TurnBegins, key, text);
    OneMore(one, Delta(key, d), key, text);
    assert "" + d == d;
    assert LengthAt(Run(START, two).turns[0].relayed, key) == |d| && HeardOf(two, key).early == d;
    assert Rest(text, |d|) == rest;
    OneMore(two, Reconciled(0, key, text), key, text);
    events := two + [Reconciled(0, key, text)];
  }

  lemma {:induction false} BothEmit(three: seq<Event>, key: string, d: string, rest: string, text: string)
    requires Delivery(three, map[key := text]) && !HeardOf(three, key).late && d != "" && rest != ""
    requires var s := Run(START, three);
             |s.turns| == 1 && s.turns[0].holds == Some(Slice(key, rest)) && s.bus == Some(Slice(key, d)) && s.out == []
    ensures var events, h := three + [TurnEmits(0)] + [BusEmits], HeardOf(three, key);
            && Delivery(events, map[key := text]) && Run(START, events).out == [Slice(key, rest), Slice(key, d)]
            && HeardOf(events, key) == h.(held := d)
  {
    var four := three + [TurnEmits(0)];
    OneMore(three, TurnEmits(0), key, text);
    TradesPlaces(Run(START, three), HeardOf(three, key), key, d, rest, Run(START, four), HeardOf(four, key));
    OneMore(four, BusEmits, key, text);
  }

  lemma TradesPlaces(s: State, h: Heard, key: string, d: string, rest: string, mid: State, heard: Heard)
    requires |s.turns| == 1 && s.turns[0].holds == Some(Slice(key, rest)) && s.bus == Some(Slice(key, d)) && s.out == []
    requires d != "" && rest != "" && !h.late
    requires mid == Apply(s, TurnEmits(0)) && heard == Hear(h, s, TurnEmits(0), key)
    ensures mid.bus.Some? && Apply(mid, BusEmits).out == [Slice(key, rest), Slice(key, d)]
    ensures heard == h.(held := d) && Hear(heard, mid, BusEmits, key) == heard
  {
  }

  /** A delta cut before the history was read, and emitted after its slice: the
      part comes out with the two the wrong way round, and nothing came late. */
  lemma {:induction false} HistoryOvertakes(key: string, d: string, rest: string, text: string) returns (events: seq<Event>)
    requires d != "" && rest != "" && text == d + rest
    ensures events == [] + [TurnBegins] + [Delta(key, d)] + [Reconciled(0, key, text)] + [TurnEmits(0)] + [BusEmits]
    ensures Delivery(events, map[key := text]) && Run(START, events).out == [Slice(key, rest), Slice(key, d)]
    ensures !HeardOf(events, key).late && HeardOf(events, key).early == HeardOf(events, key).held == d
  {
    var three := BothHold(key, d, rest, text);
    BothEmit(three, key, d, rest, text);
    events := three + [TurnEmits(0)] + [BusEmits];
  }

  // ----- The history -----

  datatype Content = Content(kind: string, text: string)

  datatype Item = Item(kind: string, id: string, content: seq<Content>)

  /** How many of the first n contents are of the kind. */
  function OrdinalOf(content: seq<Content>, n: nat, kind: string): nat
    requires n <= |content|
  {
    if n == 0 then 0 else OrdinalOf(content, n - 1, kind) + (if content[n - 1].kind == kind then 1 else 0)
  }

  /** What the turn's goroutine does with one message's first n contents: each
      streamed part cut under the lock, then emitted. */
  function ContentEvents(t: nat, item: Item, n: nat): seq<Event>
    requires n <= |item.content|
  {
    if n == 0 then []
    else
      var c := item.content[n - 1];
      ContentEvents(t, item, n - 1)
      + (if StreamedKind(c.kind)
         then [Reconciled(t, PartKey(c.kind, item.id, OrdinalOf(item.content, n - 1, c.kind)), c.text), TurnEmits(t)]
         else [])
  }

  function HistoryEvents(t: nat, items: seq<Item>): seq<Event> {
    if items == [] then []
    else
      var last := items[|items| - 1];
      HistoryEvents(t, items[..|items| - 1])
      + (if last.kind == "assistant" then ContentEvents(t, last, |last.content|) else [])
  }

  lemma OrdinalsDiffer(content: seq<Content>, i: nat, j: nat, kind: string)
    requires i < |content| && j < |content| && i != j && content[i].kind == content[j].kind == kind
    ensures OrdinalOf(content, i, kind) != OrdinalOf(content, j, kind)
  {
    if i < j {
      OrdinalGrows(content, i, j, kind);
    } else {
      OrdinalGrows(content, j, i, kind);
    }
  }

  lemma {:induction false} OrdinalGrows(content: seq<Content>, i: nat, j: nat, kind: string)
    requires i < j <= |content| && content[i].kind == kind
    ensures OrdinalOf(content, i, kind) < OrdinalOf(content, j, kind)
  {
    if i + 1 < j { OrdinalGrows(content, i, j - 1, kind); }
  }

  /** No two streamed contents of the history share a key, when no two messages
      share an id. */
  lemma HistoryKeysDistinct(items: seq<Item>, a: nat, i: nat, b: nat, j: nat)
    requires a < |items| && b < |items| && i < |items[a].content| && j < |items[b].content|
    requires a != b ==> items[a].id != items[b].id
    requires a != b || i != j
    requires StreamedKind(items[a].content[i].kind) && StreamedKind(items[b].content[j].kind)
    ensures var c, d := items[a].content[i], items[b].content[j];
            PartKey(c.kind, items[a].id, OrdinalOf(items[a].content, i, c.kind))
            != PartKey(d.kind, items[b].id, OrdinalOf(items[b].content, j, d.kind))
  {
    var c, d := items[a].content[i], items[b].content[j];
    var m, n := OrdinalOf(items[a].content, i, c.kind), OrdinalOf(items[b].content, j, d.kind);
    if a == b && c.kind == d.kind {
      OrdinalsDiffer(items[a].content, i, j, c.kind);
    }
    if PartKey(c.kind, items[a].id, m) == PartKey(d.kind, items[b].id, n) {
      PartKeyInjective(c.kind, items[a].id, m, d.kind, items[b].id, n);
    }
  }

  // ----- What the history keys, and what it relays -----

  /** Which of the first n contents are of the kind. */
  function OfKind(content: seq<Content>, n: nat, kind: string): set<nat>
    requires n <= |content|
  {
    set j: nat | j < n && content[j].kind == kind
  }

  /** The key the bus gives content i of a message: its ordinal is the number of
      contents of its kind before it. */
  function BusKey(item: Item, i: nat): string
    requires i < |item.content|
  {
    PartKey(item.content[i].kind, item.id, |OfKind(item.content, i, item.content[i].kind)|)
  }

  /** Content i of the message is prose or a thought of the assistant's. */
  predicate Streams(item: Item, i: nat) {
    item.kind == "assistant" && i < |item.content| && item.content[i].kind in ["text", "reasoning"]
  }

  lemma {:induction false} OrdinalCounts(content: seq<Content>, n: nat, kind: string)
    requires n <= |content|
    ensures OrdinalOf(content, n, kind) == |OfKind(content, n, kind)|
  {
    if n == 0 {
      assert OfKind(content, n, kind) == {};
    } else {
      OrdinalCounts(content, n - 1, kind);
      var before := OfKind(content, n - 1, kind);
      assert OfKind(content, n, kind) == if content[n - 1].kind == kind then before + {n - 1} else before;
    }
  }

  lemma BusKeyIs(item: Item, i: nat)
    requires i < |item.content|
    ensures BusKey(item, i) == PartKey(item.content[i].kind, item.id, OrdinalOf(item.content, i, item.content[i].kind))
  {
    OrdinalCounts(item.content, i, item.content[i].kind);
  }

  /** Messages have ids of their own. */
  predicate DistinctIds(items: seq<Item>) {
    forall a, b :: 0 <= a < b < |items| ==> items[a].id != items[b].id
  }

  lemma BusKeysDiffer(items: seq<Item>, a: nat, i: nat, b: nat, j: nat)
    requires DistinctIds(items) && a < |items| && b < |items| && (a != b || i != j)
    requires Streams(items[a], i) && Streams(items[b], j)
    ensures BusKey(items[a], i) != BusKey(items[b], j)
  {
    HistoryKeysDistinct(items, a, i, b, j);
    BusKeyIs(items[a], i);
    BusKeyIs(items[b], j);
  }

  /** Reading a text under the key for turn t: the key gains the rest of it past
      what the turn relayed; reading none, nothing. */
  predicate Gains(s: State, t: nat, key: string, text: Option<string>, after: State) {
    && t < |s.turns| == |after.turns| && after.turns[t].holds.None?
    && (text.Some? ==>
          TextOf(after.out, key) == TextOf(s.out, key) + Rest(text.value, LengthAt(s.turns[t].relayed, key)))
    && (text.None? ==>
          TextOf(after.out, key) == TextOf(s.out, key)
          && LengthAt(after.turns[t].relayed, key) == LengthAt(s.turns[t].relayed, key))
  }

  lemma ReadOne(s: State, t: nat, k: string, text: string, key: string, after: State)
    requires t < |s.turns| && s.turns[t].holds.None? && after == Apply(Apply(s, Reconciled(t, k, text)), TurnEmits(t))
    ensures Gains(s, t, key, if k == key then Some(text) else None, after)
  {
    var rest := Rest(text, LengthAt(s.turns[t].relayed, k));
    TextSnoc(s.out, Slice(k, rest), key);
    assert TextOf(s.out, key) + "" == TextOf(s.out, key);
  }

  lemma GainsNext(s: State, t: nat, key: string, one: Option<string>, mid: State, two: Option<string>, after: State)
    requires Gains(s, t, key, one, mid) && Gains(mid, t, key, two, after) && (one.None? || two.None?)
    ensures Gains(s, t, key, if two.Some? then two else one, after)
  {
  }

  /** Content i of the message goes by the key. */
  predicate KeyedAt(item: Item, i: nat, key: string) {
    i < |item.content| && StreamedKind(item.content[i].kind) && BusKey(item, i) == key
  }

  lemma KeysInMessage(item: Item, i: nat, j: nat)
    requires i < |item.content| && j < |item.content| && i != j
    requires StreamedKind(item.content[i].kind) && StreamedKind(item.content[j].kind)
    ensures BusKey(item, i) != BusKey(item, j)
  {
    HistoryKeysDistinct([item], 0, i, 0, j);
    BusKeyIs(item, i);
    BusKeyIs(item, j);
  }

  /** The text under the key among the first n contents. */
  function TextUnder(item: Item, n: nat, key: string): Option<string>
    requires n <= |item.content|
  {
    if n == 0 then None
    else if KeyedAt(item, n - 1, key) then Some(item.content[n - 1].text)
    else TextUnder(item, n - 1, key)
  }

  lemma {:induction false} TextUnderIs(item: Item, n: nat, key: string, i: nat)
    requires i < n <= |item.content| && KeyedAt(item, i, key)
    ensures TextUnder(item, n, key) == Some(item.content[i].text)
  {
    if i < n - 1 {
      KeysInMessageOnce(item, n - 1, key, i);
      TextUnderIs(item, n - 1, key, i);
    }
  }

  lemma KeysInMessageOnce(item: Item, j: nat, key: string, i: nat)
    requires i < j && KeyedAt(item, i, key)
    ensures !KeyedAt(item, j, key)
  {
    if j < |item.content| && StreamedKind(item.content[j].kind) { KeysInMessage(item, i, j); }
  }

  lemma {:induction false} NoTextUnder(item: Item, n: nat, key: string) returns (i: nat)
    requires n <= |item.content|
    ensures TextUnder(item, n, key).Some? ==> i < n && KeyedAt(item, i, key)
  {
    i := 0;
    if n > 0 {
      if KeyedAt(item, n - 1, key) {
        i := n - 1;
      } else {
        i := NoTextUnder(item, n - 1, key);
      }
    }
  }

  /** One content more. */
  lemma ReadNext(s: State, t: nat, item: Item, n: nat, key: string, mid: State, after: State)
    requires n < |item.content| && Gains(s, t, key, TextUnder(item, n, key), mid)
    requires mid == Run(s, ContentEvents(t, item, n)) && after == Run(s, ContentEvents(t, item, n + 1))
    ensures Gains(s, t, key, TextUnder(item, n + 1, key), after)
  {
    var c := item.content[n];
    if StreamedKind(c.kind) {
      BusKeyIs(item, n);
      NextContent(s, t, item, n, BusKey(item, n));
      ReadOne(mid, t, BusKey(item, n), c.text, key, after);
      var i := NoTextUnder(item, n, key);
      if TextUnder(item, n, key).Some? { KeysInMessageOnce(item, n, key, i); }
      GainsNext(s, t, key, TextUnder(item, n, key), mid, if BusKey(item, n) == key then Some(c.text) else None, after);
    } else {
      OtherContent(s, t, item, n);
    }
  }

  lemma {:induction false} ReadMessage(s: State, t: nat, item: Item, n: nat, key: string)
    requires t < |s.turns| && s.turns[t].holds.None? && n <= |item.content|
    ensures Gains(s, t, key, TextUnder(item, n, key), Run(s, ContentEvents(t, item, n)))
  {
    if n == 0 {
      ReadNothing(s, t, key);
    } else {
      ReadMessage(s, t, item, n - 1, key);
      ReadNext(s, t, item, n - 1, key, Run(s, ContentEvents(t, item, n - 1)), Run(s, ContentEvents(t, item, n)));
    }
  }

  lemma ReadNothing(s: State, t: nat, key: string)
    requires t < |s.turns| && s.turns[t].holds.None?
    ensures Gains(s, t, key, None, Run(s, []))
  {
  }

  // ----- The whole history -----

  /** The text under the key among the first n messages. */
  function TextInHistory(items: seq<Item>, n: nat, key: string): Option<string>
    requires n <= |items|
  {
    if n == 0 then None
    else
      var m := items[n - 1];
      if m.kind == "assistant" && TextUnder(m, |m.content|, key).Some? then TextUnder(m, |m.content|, key)
      else TextInHistory(items, n - 1, key)
  }

  lemma {:induction false} NoTextInHistory(items: seq<Item>, n: nat, key: string) returns (a: nat, i: nat)
    requires n <= |items|
    ensures TextInHistory(items, n, key).Some? ==> a < n && Streams(items[a], i) && BusKey(items[a], i) == key
  {
    a, i := 0, 0;
    if n > 0 {
      var m := items[n - 1];
      var j := NoTextUnder(m, |m.content|, key);
      if m.kind == "assistant" && TextUnder(m, |m.content|, key).Some? {
        a, i := n - 1, j;
      } else {
        a, i := NoTextInHistory(items, n - 1, key);
      }
    }
  }

  lemma {:induction false} TextInHistoryIs(items: seq<Item>, n: nat, key: string, a: nat, i: nat)
    requires DistinctIds(items) && a < n <= |items| && Streams(items[a], i) && BusKey(items[a], i) == key
    ensures TextInHistory(items, n, key) == Some(items[a].content[i].text)
  {
    var m := items[n - 1];
    if a == n - 1 {
      TextUnderIs(m, |m.content|, key, i);
    } else {
      var j := NoTextUnder(m, |m.content|, key);
      if m.kind == "assistant" && KeyedAt(m, j, key) { BusKeysDiffer(items, a, i, n - 1, j); }
      TextInHistoryIs(items, n - 1, key, a, i);
    }
  }

  lemma HistoryNext(s: State, t: nat, items: seq<Item>, n: nat, key: string, mid: State, after: State)
    requires n < |items| && DistinctIds(items) && Gains(s, t, key, TextInHistory(items, n, key), mid)
    requires mid == Run(s, HistoryEvents(t, items[..n])) && after == Run(s, HistoryEvents(t, items[..n + 1]))
    ensures Gains(s, t, key, TextInHistory(items, n + 1, key), after)
  {
    var m := items[n];
    NextMessage(s, t, items, n);
    if m.kind == "assistant" {
      var two := TextUnder(m, |m.content|, key);
      ReadMessage(mid, t, m, |m.content|, key);
      var j := NoTextUnder(m, |m.content|, key);
      if two.Some? { HistoryHasNot(items, n, key, j); }
      GainsNext(s, t, key, TextInHistory(items, n, key), mid, two, after);
    }
  }

  lemma HistoryHasNot(items: seq<Item>, n: nat, key: string, j: nat)
    requires n < |items| && DistinctIds(items) && Streams(items[n], j) && BusKey(items[n], j) == key
    ensures TextInHistory(items, n, key).None?
  {
    var a, i := NoTextInHistory(items, n, key);
    if a < n && Streams(items[a], i) { BusKeysDiffer(items, a, i, n, j); }
  }

  lemma {:induction false} ReadHistory(s: State, t: nat, items: seq<Item>, n: nat, key: string)
    requires t < |s.turns| && s.turns[t].holds.None? && n <= |items| && DistinctIds(items)
    ensures Gains(s, t, key, TextInHistory(items, n, key), Run(s, HistoryEvents(t, items[..n])))
  {
    if n == 0 {
      ReadNothing(s, t, key);
      assert items[..0] == [];
    } else {
      ReadHistory(s, t, items, n - 1, key);
      HistoryNext(s, t, items, n - 1, key, Run(s, HistoryEvents(t, items[..n - 1])), Run(s, HistoryEvents(t, items[..n])));
    }
  }

  /** Read undisturbed, the history adds to every text and every thought of the
      assistant's messages what the turn did not relay of it under the key the bus
      gives it. */
  lemma {:induction false} HistoryRelaysTheRest(s: State, t: nat, items: seq<Item>, a: nat, i: nat)
    requires t < |s.turns| && s.turns[t].holds.None? && DistinctIds(items) && a < |items| && Streams(items[a], i)
    ensures var key, after := BusKey(items[a], i), Run(s, HistoryEvents(t, items));
            TextOf(after.out, key) == TextOf(s.out, key) + Rest(items[a].content[i].text, LengthAt(s.turns[t].relayed, key))
  {
    var key := BusKey(items[a], i);
    assert items[..|items|] == items;
    ReadHistory(s, t, items, |items|, key);
    TextInHistoryIs(items, |items|, key, a, i);
  }

  /** And to nothing else. */
  lemma {:induction false} HistoryLeavesTheRest(s: State, t: nat, items: seq<Item>, key: string)
    requires t < |s.turns| && s.turns[t].holds.None? && DistinctIds(items)
    requires forall a: nat, i: nat :: a < |items| && Streams(items[a], i) ==> BusKey(items[a], i) != key
    ensures TextOf(Run(s, HistoryEvents(t, items)).out, key) == TextOf(s.out, key)
  {
    assert items[..|items|] == items;
    ReadHistory(s, t, items, |items|, key);
    var a, i := NoTextInHistory(items, |items|, key);
  }

  /** A part the turn had relayed whole gains no byte, and one it had nothing of is
      out whole; so is one it had a prefix of. */
  lemma {:induction false} HistoryMends(s: State, t: nat, items: seq<Item>, a: nat, i: nat)
    requires t < |s.turns| && s.turns[t].holds.None? && DistinctIds(items) && a < |items| && Streams(items[a], i)
    ensures var key, text := BusKey(items[a], i), items[a].content[i].text;
            var n, was, now := LengthAt(s.turns[t].relayed, key), TextOf(s.out, key), TextOf(Run(s, HistoryEvents(t, items)).out, key);
            && (n >= |text| ==> now == was)
            && (n == |was| && was <= text ==> now == text)
  {
    var key, text := BusKey(items[a], i), items[a].content[i].text;
    HistoryRelaysTheRest(s, t, items, a, i);
    Mended(TextOf(s.out, key), text, LengthAt(s.turns[t].relayed, key));
  }

  lemma Mended(was: string, text: string, n: nat)
    ensures n >= |text| ==> was + Rest(text, n) == was
    ensures n == |was| && was <= text ==> was + Rest(text, n) == text
  {
    if was <= text { assert was + text[|was|..] == text; }
  }

  /** After any run, the history read for a turn adds of each part what lies past
      all that turn knew to be out. */
  lemma {:induction false} HistoryAfterRun(
    events: seq<Event>, whole: map<string, string>, t: nat, items: seq<Item>, a: nat, i: nat)
    requires Delivery(events, whole) && t < |Run(START, events).turns| && Run(START, events).turns[t].holds.None?
    requires DistinctIds(items) && a < |items| && Streams(items[a], i)
    ensures var key, s := BusKey(items[a], i), Run(START, events);
            TextOf(Run(s, HistoryEvents(t, items)).out, key)
            == TextOf(s.out, key) + Rest(items[a].content[i].text, Known(events, t, key))
  {
    RunKeepsCount(events, whole, t, BusKey(items[a], i));
    HistoryRelaysTheRest(Run(START, events), t, items, a, i);
  }

  lemma {:induction false} MessageReads(t: nat, item: Item, n: nat, p: nat) returns (i: nat)
    requires n <= |item.content| && p < |ContentEvents(t, item, n)| && ContentEvents(t, item, n)[p].Reconciled?
    ensures i < n && StreamedKind(item.content[i].kind)
    ensures ContentEvents(t, item, n)[p] == Reconciled(t, BusKey(item, i), item.content[i].text)
  {
    if p < |ContentEvents(t, item, n - 1)| {
      i := MessageReads(t, item, n - 1, p);
    } else {
      i := n - 1;
      BusKeyIs(item, i);
    }
  }

  lemma {:induction false} MessageIsRead(t: nat, item: Item, n: nat, i: nat) returns (p: nat)
    requires i < n <= |item.content| && StreamedKind(item.content[i].kind)
    ensures p < |ContentEvents(t, item, n)|
    ensures ContentEvents(t, item, n)[p] == Reconciled(t, BusKey(item, i), item.content[i].text)
  {
    if i < n - 1 {
      p := MessageIsRead(t, item, n - 1, i);
    } else {
      p := |ContentEvents(t, item, n - 1)|;
      BusKeyIs(item, i);
    }
  }

  lemma {:induction false} MessageReadsOnce(t: nat, item: Item, n: nat, p: nat, q: nat)
    requires n <= |item.content| && p < q < |ContentEvents(t, item, n)|
    requires ContentEvents(t, item, n)[p].Reconciled? && ContentEvents(t, item, n)[q].Reconciled?
    ensures ContentEvents(t, item, n)[p].key != ContentEvents(t, item, n)[q].key
  {
    var before := ContentEvents(t, item, n - 1);
    if q < |before| {
      MessageReadsOnce(t, item, n - 1, p, q);
    } else {
      assert p < |before|;
      var i := MessageReads(t, item, n - 1, p);
      BusKeyIs(item, n - 1);
      KeysInMessage(item, i, n - 1);
    }
  }

  /** Whatever the goroutine reads is a text or a thought of the assistant's, under
      the key the bus gives it. */
  lemma {:induction false} ReadIsContent(t: nat, items: seq<Item>, p: nat) returns (a: nat, i: nat)
    requires p < |HistoryEvents(t, items)| && HistoryEvents(t, items)[p].Reconciled?
    ensures a < |items| && Streams(items[a], i)
    ensures HistoryEvents(t, items)[p] == Reconciled(t, BusKey(items[a], i), items[a].content[i].text)
  {
    var init, last := items[..|items| - 1], items[|items| - 1];
    if p < |HistoryEvents(t, init)| {
      a, i := ReadIsContent(t, init, p);
    } else {
      a := |items| - 1;
      i := MessageReads(t, last, |last.content|, p - |HistoryEvents(t, init)|);
    }
  }

  /** Every one of them is read. */
  lemma {:induction false} ContentIsRead(t: nat, items: seq<Item>, a: nat, i: nat) returns (p: nat)
    requires a < |items| && Streams(items[a], i)
    ensures p < |HistoryEvents(t, items)|
    ensures HistoryEvents(t, items)[p] == Reconciled(t, BusKey(items[a], i), items[a].content[i].text)
  {
    var init, last := items[..|items| - 1], items[|items| - 1];
    if a < |init| {
      p := ContentIsRead(t, init, a, i);
    } else {
      p := MessageIsRead(t, last, |last.content|, i);
      p := |HistoryEvents(t, init)| + p;
    }
  }

  /** And once: no two steps read one part. */
  lemma {:induction false} HistoryReadsOnce(t: nat, items: seq<Item>, p: nat, q: nat)
    requires DistinctIds(items) && p < q < |HistoryEvents(t, items)|
    requires HistoryEvents(t, items)[p].Reconciled? && HistoryEvents(t, items)[q].Reconciled?
    ensures HistoryEvents(t, items)[p].key != HistoryEvents(t, items)[q].key
  {
    var init, last := items[..|items| - 1], items[|items| - 1];
    var n := |HistoryEvents(t, init)|;
    if q < n {
      HistoryReadsOnce(t, init, p, q);
    } else if p < n {
      var a, i := ReadIsContent(t, init, p);
      var j := MessageReads(t, last, |last.content|, q - n);
      BusKeysDiffer(items, a, i, |items| - 1, j);
    } else {
      MessageReadsOnce(t, last, |last.content|, p - n, q - n);
    }
  }

  lemma NextContent(s: State, t: nat, item: Item, i: nat, key: string)
    requires i < |item.content| && StreamedKind(item.content[i].kind)
    requires key == PartKey(item.content[i].kind, item.id, OrdinalOf(item.content, i, item.content[i].kind))
    ensures Run(s, ContentEvents(t, item, i + 1))
         == Apply(Apply(Run(s, ContentEvents(t, item, i)), Reconciled(t, key, item.content[i].text)), TurnEmits(t))
  {
    var before, e := ContentEvents(t, item, i), Reconciled(t, key, item.content[i].text);
    RunSnoc(s, before, e);
    RunSnoc(s, before + [e], TurnEmits(t));
    assert before + [e] + [TurnEmits(t)] == before + [e, TurnEmits(t)];
  }

  lemma OtherContent(s: State, t: nat, item: Item, i: nat)
    requires i < |item.content| && !StreamedKind(item.content[i].kind)
    ensures Run(s, ContentEvents(t, item, i + 1)) == Run(s, ContentEvents(t, item, i))
  {
    RunConcat(s, ContentEvents(t, item, i), []);
  }

  lemma NextMessage(s: State, t: nat, items: seq<Item>, i: nat)
    requires i < |items|
    ensures Run(s, HistoryEvents(t, items[..i + 1]))
         == if items[i].kind == "assistant" then Run(Run(s, HistoryEvents(t, items[..i])), ContentEvents(t, items[i], |items[i].content|))
            else Run(s, HistoryEvents(t, items[..i]))
  {
    var m := items[i];
    assert items[..i + 1][..i] == items[..i];
    RunConcat(s, HistoryEvents(t, items[..i]), if m.kind == "assistant" then ContentEvents(t, m, |m.content|) else []);
  }

  // ----- The session object -----

  /** The guarded fields, each method one locked region or one emission. */
  class Relay {
    var current: Option<nat>
    var partLen: Lengths
    var turns: seq<Turn>
    var bus: Option<Slice>
    var out: seq<Slice>

    ghost function View(): State
      reads this
    {
      State(current, partLen, turns, bus, out)
    }

    constructor ()
      ensures View() == START
    {
      current, partLen, turns, bus, out := None, map[], [], None, [];
    }

    /** The next turn's object is new; the lengths its deltas count are the
        session's. */
    method BeginTurn() returns (t: nat)
      requires current.None?
      modifies this
      ensures View() == Apply(old(View()), TurnBegins) && t == old(|turns|)
    {
      t := |turns|;
      current, turns := Some(t), turns + [Turn(map[], None)];
    }

    method EndTurn()
      modifies this
      ensures View() == Apply(old(View()), TurnEnds)
    {
      current := None;
    }

    method NoteText(t: nat, key: string, n: nat)
      requires t < |turns|
      modifies this`turns
      ensures turns == Noted(old(turns), t, key, n)
      ensures LengthAt(turns[t].relayed, key) >= n && LengthAt(turns[t].relayed, key) in {old(LengthAt(turns[t].relayed, key)), n}
      ensures forall k :: LengthAt(turns[t].relayed, k) >= old(LengthAt(turns[t].relayed, k))
      ensures forall k :: k != key ==> LengthAt(turns[t].relayed, k) == old(LengthAt(turns[t].relayed, k))
    {
      var was := turns[t].relayed;
      var now := was[key := if LengthAt(was, key) > n then LengthAt(was, key) else n];
      turns := turns[t := turns[t].(relayed := now)];
    }

    method OnDelta(key: string, text: string)
      requires bus.None? && (current.Some? ==> current.value < |turns|)
      modifies this
      ensures View() == Apply(old(View()), Delta(key, text))
    {
      if current.Some? {
        partLen := partLen[key := LengthAt(partLen, key) + |text|];
        NoteText(current.value, key, partLen[key]);
        bus := Some(Slice(key, text));
      }
    }

    method OnEnded(key: string, text: string)
      requires bus.None? && (current.Some? ==> current.value < |turns|)
      modifies this
      ensures View() == Apply(old(View()), Ended(key, text))
    {
      var rest := "";
      var n := LengthAt(partLen, key);
      if current.Some? && n < |text| {
        rest := text[n..];
      }
      if current.Some? {
        NoteText(current.value, key, |text|);
      }
      partLen := partLen - {key};
      if current.Some? {
        bus := Some(Slice(key, rest));
      }
    }

    method BusEmit()
      requires bus.Some?
      modifies this
      ensures View() == Apply(old(View()), BusEmits)
    {
      out := out + [bus.value];
      bus := None;
    }

    method ReconcilePart(t: nat, key: string, text: string)
      requires t < |turns| && turns[t].holds.None?
      modifies this
      ensures View() == Apply(old(View()), Reconciled(t, key, text))
      ensures |turns| == old(|turns|) && turns[t].holds.Some?
    {
      var rest := "";
      var n := LengthAt(turns[t].relayed, key);
      if n < |text| {
        rest := text[n..];
      }
      NoteText(t, key, |text|);
      turns := turns[t := turns[t].(holds := Some(Slice(key, rest)))];
    }

    method TurnEmit(t: nat)
      requires t < |turns| && turns[t].holds.Some?
      modifies this
      ensures View() == Apply(old(View()), TurnEmits(t))
      ensures |turns| == old(|turns|) && turns[t].holds.None?
    {
      out := out + [turns[t].holds.value];
      turns := turns[t := turns[t].(holds := None)];
    }

    /** One message of the history: its streamed parts, each by its ordinal
        among those of its kind. */
    method ReconcileMessage(t: nat, item: Item)
      requires t < |turns| && turns[t].holds.None?
      modifies this
      ensures View() == Run(old(View()), ContentEvents(t, item, |item.content|))
      ensures |turns| == old(|turns|) && turns[t].holds.None?
    {
      ghost var was := View();
      var texts, thoughts := 0, 0;
      var i := 0;
      while i < |item.content|
        invariant 0 <= i <= |item.content|
        invariant texts == OrdinalOf(item.content, i, "text") && thoughts == OrdinalOf(item.content, i, "reasoning")
        invariant View() == Run(was, ContentEvents(t, item, i))
        invariant |turns| == old(|turns|) && turns[t].holds.None?
      {
        var c := item.content[i];
        if StreamedKind(c.kind) {
          var ordinal := if c.kind == "text" then texts else thoughts;
          var key := PartKey(c.kind, item.id, ordinal);
          NextContent(was, t, item, i, key);
          if c.kind == "text" { texts := texts + 1; } else { thoughts := thoughts + 1; }
          ReconcilePart(t, key, c.text);
          TurnEmit(t);
        } else {
          OtherContent(was, t, item, i);
        }
        i := i + 1;
      }
    }

    method ReconcileText(t: nat, items: seq<Item>)
      requires t < |turns| && turns[t].holds.None?
      modifies this
      ensures View() == Run(old(View()), HistoryEvents(t, items))
    {
      ghost var was := View();
      var i := 0;
      while i < |items|
        invariant 0 <= i <= |items|
        invariant View() == Run(was, HistoryEvents(t, items[..i]))
        invariant |turns| == old(|turns|) && turns[t].holds.None?
      {
        var m := items[i];
        NextMessage(was, t, items, i);
        if m.kind == "assistant" {
          ReconcileMessage(t, m);
        }
        i := i + 1;
      }
      assert items[..|items|] == items;
    }
  }
}
