/** Anchoring a line comment by the content around its line, and finding it
    again (internal/diffannot/diffannot.go).  The hash is a parameter. */
module DiffAnchor {

  type Hash = string -> string

  /** How many lines on each side the anchor covers. */
  const CONTEXT := 2

  function Payload(line: string): string {
    if line != "" && line[0] in "+- " then line[1..] else line
  }

  function Slot(lines: seq<string>, i: int): string { if 0 <= i < |lines| then Payload(lines[i]) else "" }

  /** The slots from i up to end. */
  function Slots(lines: seq<string>, i: int, end: int): seq<string>
    decreases end - i
  {
    if i >= end then [] else [Slot(lines, i)] + Slots(lines, i + 1, end)
  }

  /** Each slot closed by a newline. */
  function Closed(slots: seq<string>): string {
    if slots == [] then "" else slots[0] + "\n" + Closed(slots[1..])
  }

  function Around(lines: seq<string>, idx: int): seq<string> { Slots(lines, idx - CONTEXT, idx + CONTEXT + 1) }

  function AnchorOf(hash: Hash, lines: seq<string>, idx: int): string {
    if idx < 0 || idx >= |lines| then "" else hash(Closed(Around(lines, idx)))
  }

  method Anchor(hash: Hash, lines: seq<string>, idx: int) returns (anchor: string)
    ensures anchor == AnchorOf(hash, lines, idx)
  {
    if idx < 0 || idx >= |lines| {
      return "";
    }
    var b := "";
    var i := idx - CONTEXT;
    while i <= idx + CONTEXT
      invariant idx - CONTEXT <= i <= idx + CONTEXT + 1
      invariant b + Closed(Slots(lines, i, idx + CONTEXT + 1)) == Closed(Around(lines, idx))
    {
      TakeSlot(lines, i, idx + CONTEXT + 1, b);
      if i >= 0 && i < |lines| {
        b := b + Payload(lines[i]);
      }
      b := b + "\n";
      i := i + 1;
    }
    assert b + "" == b;
    anchor := hash(b);
  }

  lemma TakeSlot(lines: seq<string>, i: int, end: int, b: string)
    requires i < end
    ensures b + Closed(Slots(lines, i, end)) == b + Slot(lines, i) + "\n" + Closed(Slots(lines, i + 1, end))
    ensures Slot(lines, i) == "" ==> b + Slot(lines, i) == b
  {
    var slots := Slots(lines, i, end);
    assert slots[1..] == Slots(lines, i + 1, end);
  }

  // ----- What an anchor depends on -----

  function NewlineAt(x: string): (k: nat)
    ensures k <= |x| && (k < |x| ==> x[k] == '\n') && forall i :: 0 <= i < k ==> x[i] != '\n'
  {
    if x == "" || x[0] == '\n' then 0 else 1 + NewlineAt(x[1..])
  }

  lemma ClosedHead(s: string, v: string)
    requires '\n' !in s
    ensures var x := s + "\n" + v; NewlineAt(x) == |s| && x[..|s|] == s && x[|s| + 1..] == v
  {
    var x := s + "\n" + v;
    assert x[|s|] == '\n';
    forall i | 0 <= i < |s| ensures x[i] != '\n' { assert x[i] == s[i]; }
  }

  /** Slots without newlines can be read back from the hashed text. */
  lemma {:induction false} ClosedIsInjective(a: seq<string>, b: seq<string>)
    requires (forall k :: 0 <= k < |a| ==> '\n' !in a[k]) && (forall k :: 0 <= k < |b| ==> '\n' !in b[k])
    requires Closed(a) == Closed(b)
    ensures a == b
  {
    if a != [] && b != [] {
      ClosedHead(a[0], Closed(a[1..]));
      ClosedHead(b[0], Closed(b[1..]));
      ClosedIsInjective(a[1..], b[1..]);
      assert a == [a[0]] + a[1..] && b == [b[0]] + b[1..];
    }
  }

  lemma {:induction false} SlotsHaveNoNewline(lines: seq<string>, i: int, end: int)
    requires forall k :: 0 <= k < |lines| ==> '\n' !in lines[k]
    ensures forall k :: 0 <= k < |Slots(lines, i, end)| ==> '\n' !in Slots(lines, i, end)[k]
    decreases end - i
  {
    if i < end {
      SlotsHaveNoNewline(lines, i + 1, end);
      var rest := Slots(lines, i + 1, end);
      forall k | 0 <= k < |Slots(lines, i, end)| ensures '\n' !in Slots(lines, i, end)[k] {
        if k > 0 { assert Slots(lines, i, end)[k] == rest[k - 1]; }
      }
    }
  }

  /** With a hash that keeps texts apart, two lines share an anchor if and only
      if they and the two lines on each side read alike, markers aside: what is
      past an end of the diff reads like an empty line. */
  lemma SameAnchorIff(hash: Hash, a: seq<string>, i: nat, b: seq<string>, j: nat)
    requires i < |a| && j < |b|
    requires (forall k :: 0 <= k < |a| ==> '\n' !in a[k]) && (forall k :: 0 <= k < |b| ==> '\n' !in b[k])
    requires forall v, w :: hash(v) == hash(w) ==> v == w
    ensures AnchorOf(hash, a, i) == AnchorOf(hash, b, j) <==> Around(a, i) == Around(b, j)
  {
    SlotsHaveNoNewline(a, i - CONTEXT, i + CONTEXT + 1);
    SlotsHaveNoNewline(b, j - CONTEXT, j + CONTEXT + 1);
    if AnchorOf(hash, a, i) == AnchorOf(hash, b, j) { ClosedIsInjective(Around(a, i), Around(b, j)); }
  }

  lemma {:induction false} SlotsAt(lines: seq<string>, i: int, end: int, k: nat)
    requires i + k < end
    ensures |Slots(lines, i, end)| == end - i && Slots(lines, i, end)[k] == Slot(lines, i + k)
    decreases end - i
  {
    if k > 0 {
      SlotsAt(lines, i + 1, end, k - 1);
    } else if i + 1 < end {
      SlotsAt(lines, i + 1, end, 0);
    }
  }

  /** The anchor covers five lines, the two above first: each as it reads past its
      marker, and an empty one past either end of the diff. */
  lemma AroundReads(lines: seq<string>, idx: int, k: nat)
    requires k < 5
    ensures |Around(lines, idx)| == 5
    ensures var j := idx - 2 + k;
            Around(lines, idx)[k]
            == if j < 0 || j >= |lines| then "" else if lines[j] != "" && lines[j][0] in ['+', '-', ' '] then lines[j][1..] else lines[j]
  {
    SlotsAt(lines, idx - CONTEXT, idx + CONTEXT + 1, k);
  }

  /** The line differs from another in its marker alone. */
  predicate Remarked(a: string, b: string) {
    a == b || (a != "" && b != "" && a[0] in ['+', '-', ' '] && b[0] in ['+', '-', ' '] && a[1..] == b[1..])
  }

  /** An added line that has become context keeps its anchor, and so do the lines
      around it: markers never count. */
  lemma {:induction false} MarkersDoNotCount(hash: Hash, a: seq<string>, b: seq<string>, idx: int)
    requires |a| == |b| && forall k :: 0 <= k < |a| ==> Remarked(a[k], b[k])
    ensures AnchorOf(hash, a, idx) == AnchorOf(hash, b, idx)
  {
    SameSlots(a, b, idx - CONTEXT, idx + CONTEXT + 1);
  }

  lemma {:induction false} SameSlots(a: seq<string>, b: seq<string>, i: int, end: int)
    requires |a| == |b| && forall k :: 0 <= k < |a| ==> Remarked(a[k], b[k])
    ensures Slots(a, i, end) == Slots(b, i, end)
    decreases end - i
  {
    if i < end { SameSlots(a, b, i + 1, end); }
  }

  // ----- Finding one anchor, and many -----

  /** The first line from i on whose anchor is the wanted one; -1 if none. */
  function FirstFrom(hash: Hash, lines: seq<string>, want: string, i: nat): (r: int)
    requires i <= |lines|
    ensures r == -1 || i <= r < |lines|
    decreases |lines| - i
  {
    if i == |lines| then -1 else if AnchorOf(hash, lines, i) == want then i else FirstFrom(hash, lines, want, i + 1)
  }

  function Located(hash: Hash, lines: seq<string>, want: string): int {
    if want == "" then -1 else FirstFrom(hash, lines, want, 0)
  }

  lemma {:induction false} FirstFromIs(hash: Hash, lines: seq<string>, want: string, i: nat)
    requires i <= |lines|
    ensures var r := FirstFrom(hash, lines, want, i);
            && (r >= 0 ==> AnchorOf(hash, lines, r) == want && forall k :: i <= k < r ==> AnchorOf(hash, lines, k) != want)
            && (r == -1 ==> forall k :: i <= k < |lines| ==> AnchorOf(hash, lines, k) != want)
    decreases |lines| - i
  {
    if i < |lines| && AnchorOf(hash, lines, i) != want { FirstFromIs(hash, lines, want, i + 1); }
  }

  lemma FirstFromAt(hash: Hash, lines: seq<string>, want: string, r: nat)
    requires r < |lines| && AnchorOf(hash, lines, r) == want && forall k :: 0 <= k < r ==> AnchorOf(hash, lines, k) != want
    ensures FirstFrom(hash, lines, want, 0) == r
  {
    FirstFromIs(hash, lines, want, 0);
  }

  method Locate(hash: Hash, lines: seq<string>, want: string) returns (idx: int)
    ensures idx == Located(hash, lines, want)
  {
    if want == "" {
      return -1;
    }
    var i := 0;
    while i < |lines|
      invariant 0 <= i <= |lines|
      invariant FirstFrom(hash, lines, want, 0) == FirstFrom(hash, lines, want, i)
    {
      var a := Anchor(hash, lines, i);
      if a == want {
        return i;
      }
      i := i + 1;
    }
    idx := -1;
  }

  /** The table holds each anchor of the first n lines at its first line. */
  predicate Tabled(hash: Hash, lines: seq<string>, n: nat, m: map<string, nat>)
    requires n <= |lines|
  {
    && (forall i :: 0 <= i < n ==> AnchorOf(hash, lines, i) in m)
    && (forall a :: a in m ==>
          m[a] < n && AnchorOf(hash, lines, m[a]) == a && forall k :: 0 <= k < m[a] ==> AnchorOf(hash, lines, k) != a)
  }

  lemma {:induction false} TableLocates(hash: Hash, lines: seq<string>, m: map<string, nat>, want: string)
    requires Tabled(hash, lines, |lines|, m)
    ensures FirstFrom(hash, lines, want, 0) == if want in m then m[want] else -1
  {
    FirstFromIs(hash, lines, want, 0);
    if want in m { FirstFromAt(hash, lines, want, m[want]); }
  }

  method AddAnchor(hash: Hash, lines: seq<string>, n: nat, m: map<string, nat>) returns (next: map<string, nat>)
    requires n < |lines| && Tabled(hash, lines, n, m)
    ensures Tabled(hash, lines, n + 1, next)
  {
    var a := Anchor(hash, lines, n);
    next := if a !in m then m[a := n] else m;
  }

  /** Many anchors in one pass over the lines: each is located as it would be
      alone, whatever the hash. */
  method LocateAll(hash: Hash, lines: seq<string>, wants: seq<string>) returns (out: seq<int>)
    ensures |out| == |wants|
    ensures forall i :: 0 <= i < |wants| ==> out[i] == Located(hash, lines, wants[i])
  {
    var m: map<string, nat> := map[];
    var n := 0;
    while n < |lines|
      invariant 0 <= n <= |lines| && Tabled(hash, lines, n, m)
    {
      m := AddAnchor(hash, lines, n, m);
      n := n + 1;
    }
    out := [];
    var i := 0;
    while i < |wants|
      invariant 0 <= i <= |wants| && |out| == i
      invariant forall k :: 0 <= k < i ==> out[k] == Located(hash, lines, wants[k])
    {
      TableLocates(hash, lines, m, wants[i]);
      var w := wants[i];
      out := out + [if w != "" && w in m then m[w] else -1];
      i := i + 1;
    }
  }

  /** What locating promises: the lowest line with the wanted anchor, none when
      no line has it or nothing is wanted. */
  lemma LocatedIsLowest(hash: Hash, lines: seq<string>, want: string)
    ensures var r := Located(hash, lines, want);
            && (r == -1 <==> want == "" || forall k :: 0 <= k < |lines| ==> AnchorOf(hash, lines, k) != want)
            && (r != -1 ==> 0 <= r < |lines| && AnchorOf(hash, lines, r) == want
                            && forall k :: 0 <= k < r ==> AnchorOf(hash, lines, k) != want)
  {
    FirstFromIs(hash, lines, want, 0);
  }
}
