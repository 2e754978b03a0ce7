/** Writing one top-level key of a workspace config (internal/config/name.go):
    an edit of the file's lines.  Which lines are top-level key lines is the
    YAML decoder's answer and comes with the lines; so do the new key's
    rendered lines. */
module ConfigKey {
  import opened Basics

  /** A top-level key's own line, an unindented comment, a blank line, or any
      other. */
  datatype Line = Key(name: string, text: string) | Comment(text: string) | Blank(text: string) | Body(text: string)

  /** A comment or a blank line belongs to what follows it. */
  predicate IsSoft(l: Line) { l.Comment? || l.Blank? }

  predicate IsKeyOf(l: Line, key: string) { l.Key? && l.name == key }

  /** What rendering a key gives: its key line first, no other key's line, and
      no soft line last. */
  predicate IsRendered(block: seq<Line>, key: string) {
    && block != [] && IsKeyOf(block[0], key)
    && (forall i :: 0 < i < |block| ==> !block[i].Key?)
    && !IsSoft(block[|block| - 1])
  }

  predicate Has(lines: seq<Line>, key: string) {
    exists i :: 0 <= i < |lines| && IsKeyOf(lines[i], key)
  }

  predicate Keyless(lines: seq<Line>) {
    forall i :: 0 <= i < |lines| ==> !lines[i].Key?
  }

  // ----- Where the edit goes -----

  /** The last line of the key; the number of lines when it has none. */
  function KeyLine(lines: seq<Line>, key: string): (at: nat)
    ensures at <= |lines| && (at < |lines| <==> Has(lines, key))
    ensures at < |lines| ==> IsKeyOf(lines[at], key)
    ensures forall i :: at < i < |lines| ==> !IsKeyOf(lines[i], key)
  {
    if lines == [] then 0
    else if IsKeyOf(lines[|lines| - 1], key) then |lines| - 1
    else
      var init := lines[..|lines| - 1];
      var at := KeyLine(init, key);
      if at == |init| then |lines| else at
  }

  /** The first key line from i on. */
  function NextKey(lines: seq<Line>, i: nat): (n: nat)
    requires i <= |lines|
    ensures i <= n <= |lines|
    ensures n < |lines| ==> lines[n].Key?
    ensures forall j :: i <= j < n ==> !lines[j].Key?
    decreases |lines| - i
  {
    if i == |lines| || lines[i].Key? then i else NextKey(lines, i + 1)
  }

  /** Down from to past soft lines, not past the key line itself. */
  function EndOf(lines: seq<Line>, from: nat, to: nat): (end: nat)
    requires from < to <= |lines|
    ensures from < end <= to
    ensures forall i :: end <= i < to ==> IsSoft(lines[i])
    ensures end == from + 1 || !IsSoft(lines[end - 1])
  {
    if to > from + 1 && IsSoft(lines[to - 1]) then EndOf(lines, from, to - 1) else to
  }

  /** Up from i past unindented comments. */
  function AboveComments(lines: seq<Line>, i: nat): (top: nat)
    requires i <= |lines|
    ensures top <= i && forall j :: top <= j < i ==> lines[j].Comment?
  {
    if i > 0 && lines[i - 1].Comment? then AboveComments(lines, i - 1) else i
  }

  /** Lines from up to to, to be replaced. */
  datatype Slot = Slot(from: nat, to: nat)

  /** Where a new key goes: last; or first, of a file that holds a mapping or of
      one that holds nothing. */
  datatype Where = Last | First(mapping: bool)

  /** The place of a new first key: above the comments of the first key, or
      those that end a mapping that has no key; at the end of a file that holds
      nothing. */
  function FirstPlace(lines: seq<Line>, mapping: bool): (i: nat)
    ensures i <= |lines|
  {
    var first := NextKey(lines, 0);
    if first < |lines| || mapping then AboveComments(lines, first) else |lines|
  }

  function SlotOf(lines: seq<Line>, key: string, where: Where): (slot: Slot)
    ensures slot.from <= slot.to <= |lines|
  {
    var from := KeyLine(lines, key);
    if from < |lines| then Slot(from, EndOf(lines, from, NextKey(lines, from + 1)))
    else
      var at := if where.First? then FirstPlace(lines, where.mapping) else |lines|;
      Slot(at, at)
  }

  /** The edited lines; no rendered lines remove the key. */
  function Set(lines: seq<Line>, key: string, rendered: seq<Line>, where: Where): seq<Line> {
    var slot := SlotOf(lines, key, where);
    lines[..slot.from] + rendered + lines[slot.to..]
  }

  /** The key's own lines, and all the others. */
  function Block(lines: seq<Line>, key: string): seq<Line> {
    var slot := SlotOf(lines, key, Last);
    lines[slot.from..slot.to]
  }

  function Rest(lines: seq<Line>, key: string): seq<Line> {
    var slot := SlotOf(lines, key, Last);
    lines[..slot.from] + lines[slot.to..]
  }

  // ----- What a key's span is -----

  /** Soft lines up to a key line or the end. */
  predicate Loose(t: seq<Line>) {
    t == [] || t[0].Key? || (IsSoft(t[0]) && Loose(t[1..]))
  }

  /** The last block of a key: no soft line ends it, only soft lines follow it
      up to the next key. */
  predicate IsSpan(lines: seq<Line>, key: string, from: nat, to: nat) {
    && from < to <= |lines|
    && IsKeyOf(lines[from], key)
    && (forall i :: from < i < to ==> !lines[i].Key?)
    && (forall i :: to <= i < |lines| ==> !IsKeyOf(lines[i], key))
    && !IsSoft(lines[to - 1])
    && Loose(lines[to..])
  }

  lemma {:induction false} LooseUpTo(lines: seq<Line>, i: nat, n: nat)
    requires i <= n <= |lines| && (n < |lines| ==> lines[n].Key?)
    requires forall j :: i <= j < n ==> IsSoft(lines[j])
    ensures Loose(lines[i..])
    decreases n - i
  {
    if i < n {
      LooseUpTo(lines, i + 1, n);
      assert lines[i..][1..] == lines[i + 1..];
    }
  }

  predicate NoKey(lines: seq<Line>, i: nat, last: int) {
    forall j :: i <= j <= last && j < |lines| ==> !lines[j].Key?
  }

  lemma {:induction false} LooseMeans(lines: seq<Line>, i: nat)
    requires i <= |lines| && Loose(lines[i..])
    ensures forall j: nat :: i <= j < |lines| && NoKey(lines, i, j) ==> IsSoft(lines[j])
    decreases |lines| - i
  {
    if i < |lines| && !lines[i].Key? {
      assert lines[i..][1..] == lines[i + 1..];
      LooseMeans(lines, i + 1);
      forall j: nat | i <= j < |lines| && NoKey(lines, i, j) ensures IsSoft(lines[j]) {
        if j > i { assert NoKey(lines, i + 1, j); }
      }
    }
  }

  /** Soft lines stay loose before anything loose. */
  lemma {:induction false} LooseBefore(a: seq<Line>, x: seq<Line>, y: seq<Line>)
    requires Loose(a + x) && Loose(y)
    ensures Loose(a + y)
  {
    if a == [] {
      assert a + y == y;
    } else if !a[0].Key? {
      assert (a + x)[1..] == a[1..] + x && (a + y)[1..] == a[1..] + y;
      LooseBefore(a[1..], x, y);
    }
  }

  lemma SlotIsSpan(lines: seq<Line>, key: string, where: Where)
    requires Has(lines, key)
    ensures var slot := SlotOf(lines, key, where); IsSpan(lines, key, slot.from, slot.to)
  {
    var slot := SlotOf(lines, key, where);
    LooseUpTo(lines, slot.to, NextKey(lines, slot.from + 1));
  }

  lemma SpanIsUnique(lines: seq<Line>, key: string, from: nat, to: nat, where: Where)
    requires IsSpan(lines, key, from, to)
    ensures SlotOf(lines, key, where) == Slot(from, to)
  {
    SlotIsSpan(lines, key, where);
    var slot := SlotOf(lines, key, where);
    assert slot.from == from;
    LooseMeans(lines, slot.to);
    LooseMeans(lines, to);
    assert slot.to < to ==> NoKey(lines, slot.to, to - 1);
    assert to < slot.to ==> NoKey(lines, to, slot.to - 1);
  }

  /** Around the slot: the key is not below it, what follows is loose, and an
      empty slot splits no key's block. */
  predicate IsPlace(above: seq<Line>, block: seq<Line>, below: seq<Line>, key: string) {
    && (block == [] || IsRendered(block, key))
    && !Has(below, key) && Loose(below)
    && (block == [] ==> !Has(above, key) && (Keyless(above) || below == []))
  }

  lemma SpanIsPlace(lines: seq<Line>, key: string, from: nat, to: nat)
    requires IsSpan(lines, key, from, to)
    ensures IsPlace(lines[..from], lines[from..to], lines[to..], key)
  {
    var block, below := lines[from..to], lines[to..];
    forall i | 0 < i < |block| ensures !block[i].Key? { assert block[i] == lines[from + i]; }
    forall i | 0 <= i < |below| ensures !IsKeyOf(below[i], key) { assert below[i] == lines[to + i]; }
  }

  lemma SlotIsPlace(lines: seq<Line>, key: string, where: Where)
    ensures var slot := SlotOf(lines, key, where); IsPlace(lines[..slot.from], lines[slot.from..slot.to], lines[slot.to..], key)
  {
    if Has(lines, key) {
      SlotIsSpan(lines, key, where);
      SpanIsPlace(lines, key, SlotOf(lines, key, where).from, SlotOf(lines, key, where).to);
    } else if where.First? {
      var at := FirstPlace(lines, where.mapping);
      assert Keyless(lines[..at]);
      LooseUpTo(lines, at, NextKey(lines, 0));
    }
  }

  lemma PlaceIsSpan(above: seq<Line>, block: seq<Line>, below: seq<Line>, key: string)
    requires IsRendered(block, key) && !Has(below, key) && Loose(below)
    ensures IsSpan(above + block + below, key, |above|, |above| + |block|)
  {
    var lines := above + block + below;
    assert lines[|above| + |block|..] == below;
    forall i | |above| + |block| <= i < |lines| ensures !IsKeyOf(lines[i], key) {
      assert lines[i] == below[i - |above| - |block|];
    }
  }

  // ----- Where the edit lands -----

  /** The first top-level key is on line f; the number of lines when there is
      none. */
  predicate FirstKeyAt(lines: seq<Line>, f: nat) {
    f <= |lines| && Keyless(lines[..f]) && (f < |lines| ==> lines[f].Key?)
  }

  /** Line at heads the unindented comments right above line f: no such comment is
      above it, and there is nothing else down to f. */
  predicate HeadsComments(lines: seq<Line>, at: nat, f: nat) {
    at <= f <= |lines| && (at > 0 ==> !lines[at - 1].Comment?) && forall i :: at <= i < f ==> lines[i].Comment?
  }

  /** A new first key goes above the comments of the first key, or those that end
      a mapping without keys, and else at the end. */
  lemma FirstPlaceIs(lines: seq<Line>, mapping: bool, f: nat)
    requires FirstKeyAt(lines, f)
    ensures if f < |lines| || mapping then HeadsComments(lines, FirstPlace(lines, mapping), f)
            else FirstPlace(lines, mapping) == |lines|
  {
    NextKeyIs(lines, 0, f);
    AboveCommentsHeads(lines, f);
  }

  lemma {:induction false} NextKeyIs(lines: seq<Line>, i: nat, f: nat)
    requires i <= f && FirstKeyAt(lines, f)
    ensures NextKey(lines, i) == f
    decreases f - i
  {
    if i < f {
      assert lines[..f][i] == lines[i];
      NextKeyIs(lines, i + 1, f);
    }
  }

  lemma {:induction false} AboveCommentsHeads(lines: seq<Line>, i: nat)
    requires i <= |lines|
    ensures HeadsComments(lines, AboveComments(lines, i), i)
  {
    if i > 0 && lines[i - 1].Comment? { AboveCommentsHeads(lines, i - 1); }
  }

  /** A key the file lacks is put in whole at one place and moves no line. */
  lemma NewKeyLands(lines: seq<Line>, key: string, rendered: seq<Line>, where: Where, f: nat)
    requires !Has(lines, key) && FirstKeyAt(lines, f)
    ensures exists at: nat :: at <= |lines| && Set(lines, key, rendered, where) == lines[..at] + rendered + lines[at..]
              && if where.First? && (f < |lines| || where.mapping) then HeadsComments(lines, at, f) else at == |lines|
  {
    if where.First? { FirstPlaceIs(lines, where.mapping, f); }
    var at := SlotOf(lines, key, where).from;
    assert Set(lines, key, rendered, where) == lines[..at] + rendered + lines[at..];
  }

  /** The lines from up to to are the key's: its last line first, no other key's,
      the last of them no soft line, and only soft lines from there to the next
      key or the end. */
  predicate IsLines(lines: seq<Line>, key: string, from: nat, to: nat) {
    && from < to <= |lines| && IsKeyOf(lines[from], key) && !Has(lines[from + 1..], key)
    && Keyless(lines[from + 1..to]) && !lines[to - 1].Comment? && !lines[to - 1].Blank?
    && exists n :: to <= n <= |lines| && (n < |lines| ==> lines[n].Key?)
         && forall i :: to <= i < n ==> lines[i].Comment? || lines[i].Blank?
  }

  /** A key the file has is replaced where it stands. */
  lemma KeyIsReplaced(lines: seq<Line>, key: string, rendered: seq<Line>, where: Where)
    requires Has(lines, key)
    ensures exists from: nat, to: nat :: IsLines(lines, key, from, to)
              && Set(lines, key, rendered, where) == lines[..from] + rendered + lines[to..]
  {
    var slot := SlotOf(lines, key, where);
    var n := NextKey(lines, slot.from + 1);
    assert slot.to <= n;
    assert IsLines(lines, key, slot.from, slot.to);
    assert Set(lines, key, rendered, where) == lines[..slot.from] + rendered + lines[slot.to..];
  }

  // ----- The lens laws -----

  lemma WrittenSlot(lines: seq<Line>, key: string, rendered: seq<Line>, where: Where, again: Where)
    requires IsRendered(rendered, key)
    ensures var from := SlotOf(lines, key, where).from;
            SlotOf(Set(lines, key, rendered, where), key, again) == Slot(from, from + |rendered|)
  {
    var slot := SlotOf(lines, key, where);
    SlotIsPlace(lines, key, where);
    PlaceIsSpan(lines[..slot.from], rendered, lines[slot.to..], key);
    SpanIsUnique(Set(lines, key, rendered, where), key, slot.from, slot.from + |rendered|, again);
  }

  lemma Parts(a: seq<Line>, b: seq<Line>, c: seq<Line>)
    ensures (a + b + c)[..|a|] == a && (a + b + c)[|a|..|a| + |b|] == b && (a + b + c)[|a| + |b|..] == c
  {
  }

  /** The key then reads as the rendered block, and every other line of the
      file, comments and blank lines with them, is where it was, in order. */
  lemma WriteThenRead(lines: seq<Line>, key: string, rendered: seq<Line>, where: Where)
    requires IsRendered(rendered, key)
    ensures var after := Set(lines, key, rendered, where);
            Has(after, key) && Block(after, key) == rendered && Rest(after, key) == Rest(lines, key)
  {
    WrittenSlot(lines, key, rendered, where, Last);
    var slot := SlotOf(lines, key, where);
    Parts(lines[..slot.from], rendered, lines[slot.to..]);
    assert IsKeyOf(Set(lines, key, rendered, where)[slot.from], key);
    RestOfSlot(lines, key, where);
  }

  lemma RestOfSlot(lines: seq<Line>, key: string, where: Where)
    ensures var slot := SlotOf(lines, key, where); lines[..slot.from] + lines[slot.to..] == Rest(lines, key)
  {
  }

  /** Writing what is there changes nothing. */
  lemma ReadThenWrite(lines: seq<Line>, key: string, where: Where)
    requires Has(lines, key)
    ensures Set(lines, key, Block(lines, key), where) == lines
  {
  }

  /** The last of two writes wins, line for line: as if it had been the only
      one.  A removal that comes last leaves what a removal alone would. */
  lemma LastWriteWins(lines: seq<Line>, key: string, one: seq<Line>, two: seq<Line>, where: Where, again: Where)
    requires IsRendered(one, key)
    ensures Set(Set(lines, key, one, where), key, two, again) == Set(lines, key, two, where)
  {
    WrittenSlot(lines, key, one, where, again);
    var slot := SlotOf(lines, key, where);
    var after := Set(lines, key, one, where);
    assert after[..slot.from] == lines[..slot.from];
    assert after[slot.from + |one|..] == lines[slot.to..];
  }

  /** Adding an absent key and removing it restores the lines. */
  lemma AddThenRemove(lines: seq<Line>, key: string, rendered: seq<Line>, where: Where, again: Where)
    requires IsRendered(rendered, key) && !Has(lines, key)
    ensures Set(Set(lines, key, rendered, where), key, [], again) == lines
  {
    LastWriteWins(lines, key, rendered, [], where, again);
  }

  /** A removed key is gone if and only if the file had it once at most; the
      decoder does not refuse a second one, and only the last is edited. */
  lemma RemovedIsGone(lines: seq<Line>, key: string, where: Where)
    ensures !Has(Set(lines, key, [], where), key)
            <==> (forall i, j :: 0 <= i < j < |lines| && IsKeyOf(lines[i], key) ==> !IsKeyOf(lines[j], key))
  {
    var slot := SlotOf(lines, key, where);
    var above, below := lines[..slot.from], lines[slot.to..];
    SlotIsPlace(lines, key, where);
    assert Set(lines, key, [], where) == above + below;
    HasConcat(above, below, key);
    EarlierTwin(lines, key);
  }

  const TWICE: seq<Line> := [Key("name", "name: a\n"), Key("name", "name: b\n")]

  /** Removing the name from a file that gives it twice leaves the first. */
  lemma RemovedIsThere(where: Where)
    ensures Set(TWICE, "name", [], where) == [Key("name", "name: a\n")] && Has(Set(TWICE, "name", [], where), "name")
  {
    assert KeyLine(TWICE, "name") == 1 && NextKey(TWICE, 2) == 2 && EndOf(TWICE, 1, 2) == 2;
    assert IsKeyOf(TWICE[..1][0], "name");
  }

  lemma HasConcat(a: seq<Line>, b: seq<Line>, key: string)
    ensures Has(a + b, key) <==> Has(a, key) || Has(b, key)
  {
    if Has(a, key) {
      var i :| 0 <= i < |a| && IsKeyOf(a[i], key);
      assert IsKeyOf((a + b)[i], key);
    }
    if Has(b, key) {
      var i :| 0 <= i < |b| && IsKeyOf(b[i], key);
      assert IsKeyOf((a + b)[|a| + i], key);
    }
  }

  lemma EarlierTwin(lines: seq<Line>, key: string)
    ensures Has(lines[..KeyLine(lines, key)], key)
            <==> exists i, j :: 0 <= i < j < |lines| && IsKeyOf(lines[i], key) && IsKeyOf(lines[j], key)
  {
    var at := KeyLine(lines, key);
    if Has(lines[..at], key) {
      var i :| 0 <= i < at && IsKeyOf(lines[..at][i], key);
      assert IsKeyOf(lines[i], key) && IsKeyOf(lines[at], key);
    }
    if i, j :| 0 <= i < j < |lines| && IsKeyOf(lines[i], key) && IsKeyOf(lines[j], key) {
      assert IsKeyOf(lines[..at][i], key);
    }
  }

  // ----- The other keys -----

  /** A key above the place keeps its span, whatever loose lines follow. */
  lemma SpanAbove(above: seq<Line>, x: seq<Line>, y: seq<Line>, k: string, from: nat, to: nat)
    requires IsSpan(above + x, k, from, to) && from < |above| && (x != [] ==> x[0].Key?)
    requires Loose(y) && !Has(y, k)
    ensures to <= |above| && IsSpan(above + y, k, from, to)
  {
    var was, now := above + x, above + y;
    if x != [] { assert was[|above|].Key?; }
    assert to <= |above|;
    assert was[to..] == above[to..] + x && now[to..] == above[to..] + y;
    LooseBefore(above[to..], x, y);
    forall i | from < i < to ensures !now[i].Key? { assert was[i] == now[i]; }
    forall i | to <= i < |now| ensures !IsKeyOf(now[i], k) {
      if i < |above| {
        assert now[i] == was[i];
      } else {
        assert now[i] == y[i - |above|];
      }
    }
  }

  lemma SpanInTail(a: seq<Line>, b: seq<Line>, k: string, from: nat, to: nat)
    requires from < to <= |b|
    ensures IsSpan(a + b, k, |a| + from, |a| + to) <==> IsSpan(b, k, from, to)
  {
    var ab := a + b;
    assert ab[|a| + to..] == b[to..];
    assert ab[|a| + from] == b[from] && ab[|a| + to - 1] == b[to - 1];
    if IsSpan(ab, k, |a| + from, |a| + to) {
      forall i | to <= i < |b| ensures !IsKeyOf(b[i], k) { assert ab[|a| + i] == b[i]; }
      forall i | from < i < to ensures !b[i].Key? { assert ab[|a| + i] == b[i]; }
    }
    if IsSpan(b, k, from, to) {
      forall i | |a| + to <= i < |ab| ensures !IsKeyOf(ab[i], k) { assert ab[i] == b[i - |a|]; }
      forall i | |a| + from < i < |a| + to ensures !ab[i].Key? { assert ab[i] == b[i - |a|]; }
    }
  }

  lemma SpanIsBlock(lines: seq<Line>, k: string, from: nat, to: nat)
    requires IsSpan(lines, k, from, to)
    ensures Has(lines, k) && Block(lines, k) == lines[from..to]
  {
    assert IsKeyOf(lines[from], k);
    SpanIsUnique(lines, k, from, to, Last);
  }

  lemma SliceBefore(a: seq<Line>, b: seq<Line>, i: nat, j: nat)
    requires i <= j <= |a|
    ensures (a + b)[i..j] == a[i..j]
  {
  }

  lemma AboveKept(above: seq<Line>, x: seq<Line>, y: seq<Line>, k: string, from: nat, to: nat)
    requires IsSpan(above + x, k, from, to) && from < |above| && (x != [] ==> x[0].Key?)
    requires Loose(y) && !Has(y, k)
    ensures Has(above + y, k) && Block(above + y, k) == (above + x)[from..to]
  {
    SpanAbove(above, x, y, k, from, to);
    SpanIsBlock(above + y, k, from, to);
    SliceBefore(above, x, from, to);
    SliceBefore(above, y, from, to);
  }

  lemma SliceAfter(a: seq<Line>, b: seq<Line>, i: nat, j: nat)
    requires i <= j <= |b|
    ensures (a + b)[|a| + i..|a| + j] == b[i..j]
  {
  }

  lemma BelowKept(a: seq<Line>, b: seq<Line>, below: seq<Line>, k: string, from: nat, to: nat)
    requires from < to <= |below| && IsSpan(a + below, k, |a| + from, |a| + to)
    ensures Has(b + below, k) && Block(b + below, k) == (a + below)[|a| + from..|a| + to]
  {
    SpanInTail(a, below, k, from, to);
    SpanInTail(b, below, k, from, to);
    SpanIsBlock(b + below, k, |b| + from, |b| + to);
    SliceAfter(a, below, from, to);
    SliceAfter(b, below, from, to);
  }

  lemma RenderedHasNoOther(block: seq<Line>, key: string, k: string)
    requires k != key && (block == [] || IsRendered(block, key))
    ensures !Has(block, k)
  {
  }

  lemma LastAbove(above: seq<Line>, x: seq<Line>, k: string, from: nat, to: nat)
    requires IsSpan(above + x, k, from, to) && from < |above|
    ensures !Has(x, k)
  {
    forall i | 0 <= i < |x| ensures !IsKeyOf(x[i], k) {
      assert (above + x)[|above| + i] == x[i];
    }
  }

  lemma LooseSpliced(block: seq<Line>, below: seq<Line>, key: string)
    requires (block == [] || IsRendered(block, key)) && Loose(below)
    ensures Loose(block + below)
  {
    if block == [] {
      assert block + below == below;
    } else {
      assert (block + below)[0] == block[0];
    }
  }

  lemma OtherAbove(above: seq<Line>, one: seq<Line>, two: seq<Line>, below: seq<Line>, key: string, k: string, from: nat, to: nat)
    requires k != key && IsPlace(above, one, below, key) && (two == [] || IsRendered(two, key))
    requires IsSpan(above + (one + below), k, from, to) && from < |above|
    ensures Has(above + (two + below), k) && Block(above + (two + below), k) == (above + (one + below))[from..to]
  {
    LastAbove(above, one + below, k, from, to);
    HasConcat(one, below, k);
    RenderedHasNoOther(two, key, k);
    HasConcat(two, below, k);
    LooseSpliced(two, below, key);
    assert above[from].Key?;
    assert one + below == [] || (one + below)[0].Key?;
    AboveKept(above, one + below, two + below, k, from, to);
  }

  lemma OtherBelow(above: seq<Line>, one: seq<Line>, two: seq<Line>, below: seq<Line>, key: string, k: string, from: nat, to: nat)
    requires k != key && (one == [] || IsRendered(one, key))
    requires IsSpan(above + one + below, k, from, to) && from >= |above|
    ensures Has(above + two + below, k) && Block(above + two + below, k) == (above + one + below)[from..to]
  {
    OutsideSlot(above, one, below, key, k, from);
    var head := |above| + |one|;
    BelowKept(above + one, above + two, below, k, from - head, to - head);
  }

  lemma NoOtherComes(above: seq<Line>, one: seq<Line>, two: seq<Line>, below: seq<Line>, key: string, k: string)
    requires k != key && (two == [] || IsRendered(two, key)) && !Has(above + (one + below), k)
    ensures !Has(above + (two + below), k)
  {
    RenderedHasNoOther(two, key, k);
    HasConcat(above, one + below, k);
    HasConcat(one, below, k);
    HasConcat(two, below, k);
    HasConcat(above, two + below, k);
  }

  lemma OutsideSlot(above: seq<Line>, one: seq<Line>, below: seq<Line>, key: string, k: string, i: nat)
    requires k != key && (one == [] || IsRendered(one, key)) && i < |above + one + below|
    requires IsKeyOf((above + one + below)[i], k)
    ensures i < |above| || i >= |above| + |one|
  {
    RenderedHasNoOther(one, key, k);
    HasAt(above, one, below, k, i);
  }

  lemma HasAt(a: seq<Line>, b: seq<Line>, c: seq<Line>, k: string, i: nat)
    requires i < |a + b + c| && IsKeyOf((a + b + c)[i], k)
    ensures |a| <= i < |a| + |b| ==> Has(b, k)
  {
    if |a| <= i < |a| + |b| {
      assert (a + b + c)[i] == b[i - |a|];
    }
  }

  lemma {:induction false} SetParts(lines: seq<Line>, key: string, rendered: seq<Line>, where: Where)
    ensures var slot := SlotOf(lines, key, where);
            var above, one, below := lines[..slot.from], lines[slot.from..slot.to], lines[slot.to..];
            var after := Set(lines, key, rendered, where);
            && lines == above + one + below == above + (one + below)
            && after == above + rendered + below == above + (rendered + below)
  {
    var slot := SlotOf(lines, key, where);
    Cut(lines, slot.from, slot.to);
    Associate(lines[..slot.from], lines[slot.from..slot.to], lines[slot.to..]);
    Associate(lines[..slot.from], rendered, lines[slot.to..]);
  }

  lemma Cut(lines: seq<Line>, i: nat, j: nat)
    requires i <= j <= |lines|
    ensures lines == lines[..i] + lines[i..j] + lines[j..]
  {
  }

  lemma Associate(a: seq<Line>, b: seq<Line>, c: seq<Line>)
    ensures a + b + c == a + (b + c)
  {
  }

  /** Writing or removing a key leaves every other key's lines as they were. */
  lemma OthersKept(lines: seq<Line>, key: string, rendered: seq<Line>, where: Where, k: string)
    requires (rendered == [] || IsRendered(rendered, key)) && k != key
    ensures var after := Set(lines, key, rendered, where);
            Has(after, k) == Has(lines, k) && (Has(lines, k) ==> Block(after, k) == Block(lines, k))
  {
    var slot := SlotOf(lines, key, where);
    var above, one, below := lines[..slot.from], lines[slot.from..slot.to], lines[slot.to..];
    SlotIsPlace(lines, key, where);
    SetParts(lines, key, rendered, where);
    if Has(lines, k) {
      SlotIsSpan(lines, k, Last);
      var span := SlotOf(lines, k, Last);
      if span.from < |above| {
        OtherAbove(above, one, rendered, below, key, k, span.from, span.to);
      } else {
        OtherBelow(above, one, rendered, below, key, k, span.from, span.to);
      }
    } else {
      NoOtherComes(above, one, rendered, below, key, k);
    }
  }

  // ----- The edit -----

  datatype Root = Nothing | Mapping | Other

  /** The decoder's mapping entries: each key with its line, in order. */
  datatype Entry = Entry(name: string, line: nat)

  function Entries(lines: seq<Line>): (content: seq<Entry>)
    ensures forall n :: 0 <= n < |content| ==> content[n].line < |lines|
  {
    if lines == [] then []
    else
      var init, last := lines[..|lines| - 1], lines[|lines| - 1];
      if last.Key? then Entries(init) + [Entry(last.name, |init|)] else Entries(init)
  }

  /** Every key line once, in order. */
  ghost predicate ListsKeys(content: seq<Entry>, lines: seq<Line>) {
    && (forall n :: 0 <= n < |content| ==> content[n].line < |lines| && IsKeyOf(lines[content[n].line], content[n].name))
    && (forall m, n :: 0 <= m < n < |content| ==> content[m].line < content[n].line)
    && (forall i :: 0 <= i < |lines| && lines[i].Key? ==> exists n :: 0 <= n < |content| && content[n].line == i)
  }

  lemma {:induction false} KeyIsListed(lines: seq<Line>, i: nat) returns (n: nat)
    requires i < |lines| && lines[i].Key?
    ensures n < |Entries(lines)| && Entries(lines)[n].line == i
  {
    if i == |lines| - 1 {
      n := |Entries(lines)| - 1;
    } else {
      n := KeyIsListed(lines[..|lines| - 1], i);
    }
  }

  lemma {:induction false} EntriesAreKeys(lines: seq<Line>, n: nat)
    requires n < |Entries(lines)|
    ensures var e := Entries(lines)[n]; IsKeyOf(lines[e.line], e.name)
    ensures forall m :: 0 <= m < n ==> Entries(lines)[m].line < Entries(lines)[n].line
  {
    var init := lines[..|lines| - 1];
    if n < |Entries(init)| { EntriesAreKeys(init, n); }
  }

  lemma EntriesListKeys(lines: seq<Line>)
    ensures ListsKeys(Entries(lines), lines)
  {
    forall n: nat | n < |Entries(lines)|
      ensures IsKeyOf(lines[Entries(lines)[n].line], Entries(lines)[n].name)
      ensures forall m :: 0 <= m < n ==> Entries(lines)[m].line < Entries(lines)[n].line
    {
      EntriesAreKeys(lines, n);
    }
    forall i | 0 <= i < |lines| && lines[i].Key? ensures exists n :: 0 <= n < |Entries(lines)| && Entries(lines)[n].line == i {
      var n := KeyIsListed(lines, i);
    }
  }

  predicate AgreesWith(root: Root, content: seq<Entry>, lines: seq<Line>) {
    && content == Entries(lines)
    && (content != [] ==> root.Mapping?)
  }

  datatype Outcome = Written(lines: seq<Line>) | Untouched | NotAMapping

  method TrimSoft(lines: seq<Line>, from: nat, next: nat) returns (to: nat)
    requires from < next <= |lines|
    ensures to == EndOf(lines, from, next)
  {
    to := next;
    while to > from + 1 && IsSoft(lines[to - 1])
      invariant from < to <= next
      invariant EndOf(lines, from, next) == EndOf(lines, from, to)
    {
      to := to - 1;
    }
  }

  lemma NextEntry(content: seq<Entry>, lines: seq<Line>, n: nat)
    requires content == Entries(lines) && n < |content|
    ensures NextKey(lines, content[n].line + 1) == if n + 1 < |content| then content[n + 1].line else |lines|
  {
    var next := NextKey(lines, content[n].line + 1);
    EntriesListKeys(lines);
    if n + 1 < |content| {
      assert lines[content[n + 1].line].Key?;
    }
    if next < |lines| {
      var m := KeyIsListed(lines, next);
      assert m > n;
    }
  }

  /** The last of the first n entries with the name; -1 when there is none. */
  function LastNamed(content: seq<Entry>, key: string, n: nat): (m: int)
    requires n <= |content|
    ensures -1 <= m < n && (m >= 0 ==> content[m].name == key)
    ensures forall i :: m < i < n ==> content[i].name != key
  {
    if n == 0 then -1 else if content[n - 1].name == key then n - 1 else LastNamed(content, key, n - 1)
  }

  lemma LastEntry(content: seq<Entry>, lines: seq<Line>, key: string, n: nat)
    requires content == Entries(lines) && n < |content| && LastNamed(content, key, |content|) == n
    ensures Has(lines, key) && KeyLine(lines, key) == content[n].line
  {
    EntriesAreKeys(lines, n);
    var at := KeyLine(lines, key);
    var m := KeyIsListed(lines, at);
    EntriesAreKeys(lines, m);
  }

  lemma NoEntry(content: seq<Entry>, lines: seq<Line>, key: string)
    requires content == Entries(lines) && LastNamed(content, key, |content|) == -1
    ensures !Has(lines, key)
  {
    EntriesListKeys(lines);
    forall i | 0 <= i < |lines| ensures !IsKeyOf(lines[i], key) {
      if lines[i].Key? {
        var m :| 0 <= m < |content| && content[m].line == i;
      }
    }
  }

  /** The slot found over the first n entries. */
  predicate Found(lines: seq<Line>, content: seq<Entry>, key: string, n: nat, slot: Option<Slot>)
    requires n <= |content| && content == Entries(lines)
  {
    var m := LastNamed(content, key, n);
    slot == if m == -1 then None else Some(EntrySlot(lines, content, m))
  }

  function EntrySlot(lines: seq<Line>, content: seq<Entry>, m: nat): Slot
    requires m < |content| && content == Entries(lines)
  {
    var from := content[m].line;
    Slot(from, EndOf(lines, from, NextKey(lines, from + 1)))
  }

  method FindEntrySlot(lines: seq<Line>, content: seq<Entry>, n: nat) returns (slot: Slot)
    requires content == Entries(lines) && n < |content|
    ensures slot == EntrySlot(lines, content, n)
  {
    NextEntry(content, lines, n);
    var to := TrimSoft(lines, content[n].line, if n + 1 < |content| then content[n + 1].line else |lines|);
    slot := Slot(content[n].line, to);
  }

  lemma FoundIsSlot(lines: seq<Line>, content: seq<Entry>, key: string, slot: Option<Slot>)
    requires content == Entries(lines) && Found(lines, content, key, |content|, slot)
    ensures slot.Some? <==> Has(lines, key)
    ensures slot.Some? ==> slot.value == SlotOf(lines, key, Last)
  {
    var m := LastNamed(content, key, |content|);
    if m == -1 {
      NoEntry(content, lines, key);
    } else {
      LastEntry(content, lines, key, m);
    }
  }

  method TakeEntry(lines: seq<Line>, content: seq<Entry>, key: string, n: nat, slot: Option<Slot>)
    returns (next: Option<Slot>)
    requires content == Entries(lines) && n < |content| && Found(lines, content, key, n, slot)
    ensures Found(lines, content, key, n + 1, next)
  {
    next := slot;
    if content[n].name == key {
      var found := FindEntrySlot(lines, content, n);
      next := Some(found);
    }
  }

  method FindSlot(lines: seq<Line>, content: seq<Entry>, key: string) returns (slot: Option<Slot>)
    requires content == Entries(lines)
    ensures slot.Some? <==> Has(lines, key)
    ensures slot.Some? ==> slot.value == SlotOf(lines, key, Last)
  {
    slot := None;
    var n := 0;
    while n < |content|
      invariant 0 <= n <= |content| && Found(lines, content, key, n, slot)
    {
      slot := TakeEntry(lines, content, key, n, slot);
      n := n + 1;
    }
    FoundIsSlot(lines, content, key, slot);
  }

  method FindFirstPlace(lines: seq<Line>, root: Root, content: seq<Entry>) returns (at: nat)
    requires AgreesWith(root, content, lines)
    ensures at == FirstPlace(lines, root.Mapping?)
  {
    at := |lines|;
    FirstEntry(content, lines);
    if root == Mapping {
      if content != [] {
        at := content[0].line;
      }
      ghost var from := at;
      while at > 0 && lines[at - 1].Comment?
        invariant at <= from
        invariant AboveComments(lines, from) == AboveComments(lines, at)
      {
        at := at - 1;
      }
    }
  }

  lemma FirstEntry(content: seq<Entry>, lines: seq<Line>)
    requires content == Entries(lines)
    ensures NextKey(lines, 0) == if content != [] then content[0].line else |lines|
  {
    EntriesListKeys(lines);
    var first := NextKey(lines, 0);
    if first < |lines| {
      var n :| 0 <= n < |content| && content[n].line == first;
      assert content[0].line <= content[n].line;
    }
  }

  /** The edit of a parsed file: no rendered lines remove the key, and a file
      whose top level is something else is refused. */
  method SetKey(lines: seq<Line>, root: Root, content: seq<Entry>, key: string, rendered: seq<Line>, first: bool)
    returns (outcome: Outcome)
    requires root != Other ==> AgreesWith(root, content, lines)
    ensures outcome == NotAMapping <==> root == Other
    ensures outcome == Untouched <==> root != Other && rendered == [] && !Has(lines, key)
    ensures outcome.Written? ==> outcome.lines == Set(lines, key, rendered, if first then First(root.Mapping?) else Last)
    ensures outcome == Untouched ==> lines == Set(lines, key, rendered, if first then First(root.Mapping?) else Last)
  {
    if root == Other {
      return NotAMapping;
    }
    var slot := FindSlot(lines, content, key);
    var firstKey := FindFirstPlace(lines, root, content);
    if slot.Some? {
      return Written(lines[..slot.value.from] + rendered + lines[slot.value.to..]);
    } else if rendered == [] {
      return Untouched;
    } else if first {
      return Written(lines[..firstKey] + rendered + lines[firstKey..]);
    } else {
      return Written(lines + rendered);
    }
  }
}
