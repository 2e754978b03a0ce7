/** What a parsed diff promises of any lines whatever
    (internal/diffannot/parse.go): where its hunk lines come from, which lines
    they are, and how they are numbered and counted. */
module DiffLines {
  import opened Basics
  import opened DiffParse

  /** What any line's token has: a file's or a hunk's header is no body line,
      and a body line is its operator and its text. */
  predicate WellRead(t: Token) {
    && (t.head.DiffGit? || t.head.HunkHead? ==> t.body == Outside)
    && (t.body.Content? ==> t.body.op in " +-" && (t.text == [t.body.op] + t.body.text || (t.text == "" && t.body == Content(' ', ""))))
    && (t.head.HunkHead? ==> t.head.at == HunkStarts(t.text) && InRange(t.head.at))
  }

  predicate InRange(at: Starts) { Wrap(at.oldNo) == at.oldNo && Wrap(at.newNo) == at.newNo }

  predicate AllWellRead(ts: seq<Token>) { forall k :: 0 <= k < |ts| ==> WellRead(ts[k]) }

  lemma {:induction false} StartsInRange(fields: seq<string>, k: nat, at: Starts)
    requires k <= |fields| && InRange(at)
    ensures InRange(StartsOf(fields, k, at))
    decreases |fields| - k
  {
    if k < |fields| {
      var f := fields[k];
      if "-" <= f {
        StartInRange(f[1..]);
        StartsInRange(fields, k + 1, at.(oldNo := RangeStart(f[1..])));
      } else if "+" <= f {
        StartInRange(f[1..]);
        StartsInRange(fields, k + 1, at.(newNo := RangeStart(f[1..])));
      } else {
        StartsInRange(fields, k + 1, at);
      }
    }
  }

  lemma StartInRange(r: string)
    ensures Wrap(RangeStart(r)) == RangeStart(r)
  {
  }

  lemma HeaderInRange(l: string)
    ensures InRange(HunkStarts(l))
  {
    if Fields(l) != [] { StartsInRange(Fields(l), 1, Starts(0, 0)); }
  }

  lemma TokenWellRead(uq: Unquote, l: string)
    ensures WellRead(TokenOf(uq, l))
  {
    if DIFF <= l { assert l[0] == DIFF[0]; }
    if "@@" <= l { assert l[0] == "@@"[0]; }
    if l != "" { assert l == [l[0]] + l[1..]; }
    HeaderInRange(l);
  }

  lemma TokensWellRead(uq: Unquote, lines: seq<string>)
    ensures AllWellRead(Tokens(uq, lines))
  {
    forall k | 0 <= k < |lines| ensures WellRead(Tokens(uq, lines)[k]) { TokenWellRead(uq, lines[k]); }
  }

  // ----- Every hunk line of a result, in order -----

  function HunksLines(hs: seq<Hunk>): seq<Line> {
    if hs == [] then [] else HunksLines(hs[..|hs| - 1]) + hs[|hs| - 1].lines
  }

  function FilesLines(fs: seq<File>): seq<Line> {
    if fs == [] then [] else FilesLines(fs[..|fs| - 1]) + HunksLines(fs[|fs| - 1].hunks)
  }

  function OpenLines(s: State): seq<Line> {
    var cur := if s.cur.Some? then HunksLines(s.cur.value.hunks) else [];
    cur + if s.hunk.Some? then s.hunk.value.lines else []
  }

  function AllLines(s: State): seq<Line> { FilesLines(s.files) + OpenLines(s) }

  predicate WellOpen(s: State) { s.hunk.Some? ==> s.cur.Some? }

  lemma FlushHunkLines(s: State)
    requires WellOpen(s)
    ensures AllLines(FlushHunk(s)) == AllLines(s) && WellOpen(FlushHunk(s)) && FlushHunk(s).hunk.None?
  {
    if s.hunk.Some? {
      var hs := s.cur.value.hunks;
      assert (hs + [s.hunk.value])[..|hs|] == hs;
      assert OpenLines(FlushHunk(s)) == OpenLines(s);
    }
  }

  lemma FlushFileLines(s: State)
    requires WellOpen(s)
    ensures AllLines(FlushFile(s)) == AllLines(s) == FilesLines(FlushFile(s).files)
    ensures FlushFile(s).hunk.None? && FlushFile(s).cur.None?
  {
    FlushHunkLines(s);
    var u := FlushHunk(s);
    if u.cur.Some? {
      assert (u.files + [u.cur.value])[..|u.files|] == u.files;
      assert OpenLines(u) == HunksLines(u.cur.value.hunks);
    }
    assert OpenLines(FlushFile(s)) == [];
  }

  lemma RetitleKeeps(f: File, head: Head)
    ensures var g := Retitle(f, head); g.hunks == f.hunks && g.add == f.add && g.del == f.del
  {
  }

  function LineFor(s: State, i: nat, op: char, text: string): Line {
    Line(op, if op == '+' then 0 else s.oldNo, if op == '-' then 0 else s.newNo, text, i)
  }

  /** The line a step adds, if it adds one. */
  function Taken(s: State, i: nat, t: Token): seq<Line> {
    if s.cur.Some? && s.hunk.Some? && !t.head.DiffGit? && t.body.Content? then [LineFor(s, i, t.body.op, t.body.text)] else []
  }

  lemma OpenFileLines(s: State, f: File)
    requires s.cur.None? && s.hunk.None? && f.hunks == []
    ensures AllLines(s.(cur := Some(f))) == AllLines(s)
  {
  }

  lemma AddLineLines(s: State, i: nat, op: char, text: string)
    requires s.cur.Some? && s.hunk.Some?
    ensures AllLines(AddLine(s, i, op, text)) == AllLines(s) + [LineFor(s, i, op, text)]
  {
    assert OpenLines(AddLine(s, i, op, text)) == OpenLines(s) + [LineFor(s, i, op, text)];
  }

  lemma OpenHunkLines(s: State, header: string, at: Starts)
    requires s.cur.Some? && s.hunk.None?
    ensures AllLines(OpenHunk(s, header, at)) == AllLines(s)
  {
    assert OpenLines(OpenHunk(s, header, at)) == OpenLines(s);
  }

  lemma SameHunksLines(s: State, f: File)
    requires s.cur.Some? && f.hunks == s.cur.value.hunks
    ensures AllLines(s.(cur := Some(f))) == AllLines(s)
  {
  }

  lemma {:induction false} StepLines(s: State, i: nat, t: Token)
    requires WellOpen(s)
    ensures WellOpen(Step(s, i, t)) && AllLines(Step(s, i, t)) == AllLines(s) + Taken(s, i, t)
  {
    if t.head.DiffGit? {
      FlushFileLines(s);
      OpenFileLines(FlushFile(s), Opened(t.head.oldPath, t.head.newPath));
    } else if s.cur.Some? {
      if s.hunk.Some? && t.body != Outside {
        if t.body.Content? { AddLineLines(s, i, t.body.op, t.body.text); }
      } else {
        FlushHunkLines(s);
        var u := FlushHunk(s);
        if t.head.HunkHead? {
          OpenHunkLines(u, t.text, t.head.at);
        } else {
          RetitleKeeps(u.cur.value, t.head);
          SameHunksLines(u, Retitle(u.cur.value, t.head));
        }
      }
    }
  }

  // ----- Which lines those are -----

  ghost predicate InFile(ts: seq<Token>, i: nat)
    requires i <= |ts|
  {
    exists g: nat :: g < i && ts[g].head.DiffGit?
  }

  ghost predicate OpensHunk(ts: seq<Token>, j: nat)
    requires j < |ts|
  {
    ts[j].head.HunkHead? && InFile(ts, j)
  }

  predicate BodyBetween(ts: seq<Token>, j: nat, i: nat)
    requires j < i <= |ts|
  {
    forall k :: j < k < i ==> ts[k].body != Outside
  }

  /** A place in a hunk: a file was opened before it, then a hunk, and only body
      lines and markers are between that and it. */
  ghost predicate InHunk(ts: seq<Token>, i: nat)
    requires i <= |ts|
  {
    exists j: nat :: j < i && OpensHunk(ts, j) && BodyBetween(ts, j, i)
  }

  ghost predicate Drawn(ts: seq<Token>, i: nat)
    requires i < |ts|
  {
    ts[i].body.Content? && InHunk(ts, i)
  }

  ghost predicate At(ts: seq<Token>, n: nat, s: State)
    requires n <= |ts|
  {
    (s.cur.Some? <==> InFile(ts, n)) && (s.hunk.Some? <==> InHunk(ts, n))
  }

  lemma InFileNext(ts: seq<Token>, n: nat)
    requires n < |ts|
    ensures InFile(ts, n + 1) <==> InFile(ts, n) || ts[n].head.DiffGit?
  {
  }

  lemma InHunkNext(ts: seq<Token>, n: nat)
    requires n < |ts|
    ensures InHunk(ts, n + 1) <==> OpensHunk(ts, n) || (InHunk(ts, n) && ts[n].body != Outside)
  {
    if InHunk(ts, n + 1) { HunkFromBefore(ts, n); }
    if OpensHunk(ts, n) { assert BodyBetween(ts, n, n + 1); }
    if InHunk(ts, n) && ts[n].body != Outside { HunkGoesOn(ts, n); }
  }

  lemma HunkFromBefore(ts: seq<Token>, n: nat)
    requires n < |ts| && InHunk(ts, n + 1)
    ensures OpensHunk(ts, n) || (InHunk(ts, n) && ts[n].body != Outside)
  {
    var j: nat :| j < n + 1 && OpensHunk(ts, j) && BodyBetween(ts, j, n + 1);
    if j < n { assert BodyBetween(ts, j, n); }
  }

  lemma HunkGoesOn(ts: seq<Token>, n: nat)
    requires n < |ts| && InHunk(ts, n) && ts[n].body != Outside
    ensures InHunk(ts, n + 1)
  {
    var j: nat :| j < n && OpensHunk(ts, j) && BodyBetween(ts, j, n);
    assert BodyBetween(ts, j, n + 1);
  }

  lemma StepAt(ts: seq<Token>, n: nat, s: State)
    requires n < |ts| && WellRead(ts[n]) && At(ts, n, s) && WellOpen(s)
    ensures At(ts, n + 1, Step(s, n, ts[n]))
  {
    InFileNext(ts, n);
    InHunkNext(ts, n);
  }

  // ----- Pointing back -----

  predicate PointsBack(ts: seq<Token>, l: Line) {
    && l.idx < |ts|
    && (ts[l.idx].text == [l.op] + l.text || (ts[l.idx].text == "" && l.op == ' ' && l.text == ""))
    && l.op in " +-"
  }

  /** The lines drawn among the first n, once each and in order. */
  ghost predicate Draws(ts: seq<Token>, n: nat, ls: seq<Line>)
    requires n <= |ts|
  {
    && (forall k :: 0 <= k < |ls| ==> PointsBack(ts, ls[k]) && ls[k].idx < n)
    && (forall j, k :: 0 <= j < k < |ls| ==> ls[j].idx < ls[k].idx)
    && (forall k :: 0 <= k < |ls| ==> Drawn(ts, ls[k].idx))
    && (forall i: nat :: i < n && Drawn(ts, i) ==> exists k :: 0 <= k < |ls| && ls[k].idx == i)
  }

  lemma DrawsNone(ts: seq<Token>, n: nat, ls: seq<Line>)
    requires n < |ts| && Draws(ts, n, ls) && !Drawn(ts, n)
    ensures Draws(ts, n + 1, ls)
  {
  }

  lemma DrawsOne(ts: seq<Token>, n: nat, ls: seq<Line>, l: Line)
    requires n < |ts| && Draws(ts, n, ls) && Drawn(ts, n) && l.idx == n && PointsBack(ts, l)
    ensures Draws(ts, n + 1, ls + [l])
  {
    var all := ls + [l];
    forall i: nat | i < n + 1 && Drawn(ts, i) ensures exists k :: 0 <= k < |all| && all[k].idx == i {
      if i < n {
        var k :| 0 <= k < |ls| && ls[k].idx == i;
        assert all[k].idx == i;
      } else {
        assert all[|ls|].idx == i;
      }
    }
  }

  lemma {:induction false} TakenDraws(ts: seq<Token>, n: nat, s: State)
    requires n < |ts| && WellRead(ts[n]) && WellOpen(s) && At(ts, n, s) && Draws(ts, n, AllLines(s))
    ensures Draws(ts, n + 1, AllLines(s) + Taken(s, n, ts[n]))
  {
    if Drawn(ts, n) {
      DrawsOne(ts, n, AllLines(s), LineFor(s, n, ts[n].body.op, ts[n].body.text));
    } else {
      DrawsNone(ts, n, AllLines(s));
      assert AllLines(s) + [] == AllLines(s);
    }
  }

  ghost predicate Standing(ts: seq<Token>, n: nat, s: State)
    requires n <= |ts|
  {
    WellOpen(s) && At(ts, n, s) && Draws(ts, n, AllLines(s))
  }

  lemma NothingRead(ts: seq<Token>)
    ensures Standing(ts, 0, START)
  {
    assert AllLines(START) == [];
  }

  lemma {:induction false} StepDraws(ts: seq<Token>, n: nat, s: State)
    requires n < |ts| && WellRead(ts[n]) && Standing(ts, n, s)
    ensures Standing(ts, n + 1, Step(s, n, ts[n]))
  {
    StepLines(s, n, ts[n]);
    StepAt(ts, n, s);
    TakenDraws(ts, n, s);
  }

  lemma FeedPrefix(ts: seq<Token>, n: nat)
    requires n < |ts|
    ensures Feed(START, 0, ts[..n + 1]) == Step(Feed(START, 0, ts[..n]), n, ts[n])
  {
    FeedSnoc(START, 0, ts[..n], ts[n]);
    assert ts[..n + 1] == ts[..n] + [ts[n]];
  }

  lemma FeedDraws(ts: seq<Token>)
    requires AllWellRead(ts)
    ensures Standing(ts, |ts|, Feed(START, 0, ts))
  {
    var s, n := START, 0;
    NothingRead(ts);
    assert ts[..0] == [];
    while n < |ts|
      invariant 0 <= n <= |ts|
      invariant s == Feed(START, 0, ts[..n])
      invariant Standing(ts, n, s)
    {
      FeedPrefix(ts, n);
      StepDraws(ts, n, s);
      s, n := Step(s, n, ts[n]), n + 1;
    }
    assert ts[..n] == ts;
  }

  lemma {:induction false} SettledLines(fs: seq<File>)
    ensures FilesLines(SettleAll(fs)) == FilesLines(fs)
  {
    if fs != [] {
      var init := fs[..|fs| - 1];
      SettledLines(init);
      assert SettleAll(fs)[..|fs| - 1] == SettleAll(init);
    }
  }

  /** Over any lines: each hunk line of the result points back at its source,
      they come in the order of the diff, none twice, and they are exactly the
      body lines that follow a hunk header inside a file's section. */
  lemma {:induction false} HunkLinesPointBack(uq: Unquote, lines: seq<string>)
    ensures Draws(Tokens(uq, lines), |lines|, FilesLines(Parsed(uq, lines)))
    ensures forall k :: 0 <= k < |lines| ==> Tokens(uq, lines)[k].text == lines[k]
  {
    var ts := Tokens(uq, lines);
    TokensWellRead(uq, lines);
    FeedDraws(ts);
    FlushFileLines(Feed(START, 0, ts));
    SettledLines(FlushFile(Feed(START, 0, ts)).files);
  }

  // ----- The same on the lines themselves -----

  /** A line a hunk lists: blank, or an operator and its text. */
  predicate Lists(l: string) { l == "" || l[0] == ' ' || l[0] == '+' || l[0] == '-' }

  /** A line that keeps a hunk open: one it lists, or a mark on the line above. */
  predicate KeepsOpen(l: string) { Lists(l) || l[0] == '\\' }

  predicate InSection(lines: seq<string>, j: nat)
    requires j <= |lines|
  {
    exists g: nat :: g < j && "diff --git " <= lines[g]
  }

  /** A hunk header inside a file. */
  predicate OpensAt(lines: seq<string>, j: nat)
    requires j < |lines|
  {
    "@@" <= lines[j] && InSection(lines, j)
  }

  predicate OpenBetween(lines: seq<string>, j: nat, i: nat)
    requires j < i <= |lines|
  {
    forall k :: j < k < i ==> KeepsOpen(lines[k])
  }

  /** Line i is one of a hunk's: there is a hunk header inside a file above it,
      and nothing between closes the hunk. */
  predicate ListedAt(lines: seq<string>, i: nat)
    requires i < |lines|
  {
    Lists(lines[i]) && exists j: nat :: j < i && OpensAt(lines, j) && OpenBetween(lines, j, i)
  }

  /** A blank line lists as context with no text, any other as its operator and
      the rest. */
  predicate ReadsAs(l: Line, s: string) {
    if s == "" then l.op == ' ' && l.text == "" else l.op == s[0] && l.text == s[1..]
  }

  lemma TokenReads(uq: Unquote, l: string)
    ensures var t := TokenOf(uq, l);
            && (t.head.DiffGit? <==> "diff --git " <= l) && (t.head.HunkHead? <==> "@@" <= l)
            && (t.body.Content? <==> Lists(l)) && (t.body != Outside <==> KeepsOpen(l))
  {
    if "diff --git " <= l { assert l[0] == 'd'; }
    if "@@" <= l { assert l[0] == '@'; }
  }

  lemma SectionReads(uq: Unquote, lines: seq<string>, j: nat)
    requires j <= |lines|
    ensures InFile(Tokens(uq, lines), j) <==> InSection(lines, j)
  {
    var ts := Tokens(uq, lines);
    if InFile(ts, j) {
      var g: nat :| g < j && ts[g].head.DiffGit?;
      TokenReads(uq, lines[g]);
    }
    if InSection(lines, j) {
      var g: nat :| g < j && "diff --git " <= lines[g];
      TokenReads(uq, lines[g]);
      assert ts[g].head.DiffGit?;
    }
  }

  lemma OpensReads(uq: Unquote, lines: seq<string>, j: nat, i: nat)
    requires j < i <= |lines|
    ensures OpensHunk(Tokens(uq, lines), j) <==> OpensAt(lines, j)
    ensures BodyBetween(Tokens(uq, lines), j, i) <==> OpenBetween(lines, j, i)
  {
    var ts := Tokens(uq, lines);
    SectionReads(uq, lines, j);
    TokenReads(uq, lines[j]);
    forall k: nat | j < k < i ensures ts[k].body != Outside <==> KeepsOpen(lines[k]) {
      TokenReads(uq, lines[k]);
    }
  }

  lemma DrawnIsListed(uq: Unquote, lines: seq<string>, i: nat)
    requires i < |lines|
    ensures Drawn(Tokens(uq, lines), i) <==> ListedAt(lines, i)
  {
    var ts := Tokens(uq, lines);
    TokenReads(uq, lines[i]);
    if InHunk(ts, i) {
      var j: nat :| j < i && OpensHunk(ts, j) && BodyBetween(ts, j, i);
      OpensReads(uq, lines, j, i);
    }
    if ListedAt(lines, i) {
      var j: nat :| j < i && OpensAt(lines, j) && OpenBetween(lines, j, i);
      OpensReads(uq, lines, j, i);
    }
  }

  lemma PointsAtText(ts: seq<Token>, l: Line)
    requires PointsBack(ts, l)
    ensures ReadsAs(l, ts[l.idx].text)
  {
    var s := ts[l.idx].text;
    if s != "" { assert s[0] == l.op && s[1..] == l.text; }
  }

  /** Over any lines: line i is listed if and only if it is blank or starts with an
      operator and stands in a hunk inside a file; each once and in order, as its
      operator and its text. */
  lemma {:induction false} ListedIff(uq: Unquote, lines: seq<string>, i: nat)
    requires i < |lines|
    ensures var ls := FilesLines(Parsed(uq, lines));
            && (ListedAt(lines, i) <==> exists k :: 0 <= k < |ls| && ls[k].idx == i)
            && (forall k :: 0 <= k < |ls| && ls[k].idx == i ==> ReadsAs(ls[k], lines[i]))
            && (forall j, k :: 0 <= j < k < |ls| ==> ls[j].idx < ls[k].idx < |lines|)
  {
    var ts, ls := Tokens(uq, lines), FilesLines(Parsed(uq, lines));
    HunkLinesPointBack(uq, lines);
    DrawnIsListed(uq, lines, i);
    forall k | 0 <= k < |ls| && ls[k].idx == i ensures ReadsAs(ls[k], lines[i]) && ListedAt(lines, i) {
      PointsAtText(ts, ls[k]);
    }
  }

  // ----- Numbers and counts -----

  function Count(ls: seq<Line>, op: char): (c: nat)
    ensures c <= |ls|
  {
    if ls == [] then 0 else Count(ls[..|ls| - 1], op) + if ls[|ls| - 1].op == op then 1 else 0
  }

  lemma CountSnoc(ls: seq<Line>, l: Line, op: char)
    ensures Count(ls + [l], op) == Count(ls, op) + if l.op == op then 1 else 0
  {
    assert (ls + [l])[..|ls|] == ls;
  }

  /** The number of a side's next line: the header's, on by the lines that were
      not the other side's alone. */
  function NextNo(ls: seq<Line>, start: int, other: char): int { Wrap(start + |ls| - Count(ls, other)) }

  predicate NumberedFrom(ls: seq<Line>, at: Starts) {
    ls == []
    || var init, l := ls[..|ls| - 1], ls[|ls| - 1];
       && NumberedFrom(init, at)
       && l.oldNo == (if l.op == '+' then 0 else NextNo(init, at.oldNo, '+'))
       && l.newNo == (if l.op == '-' then 0 else NextNo(init, at.newNo, '-'))
  }

  predicate HunkNumbered(h: Hunk) { NumberedFrom(h.lines, HunkStarts(h.header)) }

  predicate FileOk(f: File, lines: seq<Line>) {
    && f.add == Count(lines, '+') && f.del == Count(lines, '-')
    && (forall k :: 0 <= k < |f.hunks| ==> HunkNumbered(f.hunks[k]))
  }

  predicate FilesOk(fs: seq<File>) {
    forall k :: 0 <= k < |fs| ==> FileOk(fs[k], HunksLines(fs[k].hunks))
  }

  predicate OpenOk(s: State) {
    && WellOpen(s)
    && (s.cur.Some? ==> FileOk(s.cur.value, OpenLines(s)))
    && (s.hunk.Some? ==>
          var h := s.hunk.value;
          var at := HunkStarts(h.header);
          HunkNumbered(h) && s.oldNo == NextNo(h.lines, at.oldNo, '+') && s.newNo == NextNo(h.lines, at.newNo, '-'))
  }

  lemma WrapNext(x: int)
    ensures Wrap(Wrap(x) + 1) == Wrap(x + 1)
  {
    var y := x - MIN_INT;
    var q, r := y / WIDTH, y % WIDTH;
    assert y == q * WIDTH + r;
    if r == WIDTH - 1 {
      ModIs(y + 1, q + 1, 0);
      ModIs(r + 1, 1, 0);
    } else {
      ModIs(y + 1, q, r + 1);
      ModIs(r + 1, 0, r + 1);
    }
  }

  lemma ModIs(y: int, q: int, r: int)
    requires y == q * WIDTH + r && 0 <= r < WIDTH
    ensures y % WIDTH == r
  {
    assert (y / WIDTH - q) * WIDTH == r - y % WIDTH;
  }

  lemma FlushHunkOk(s: State)
    requires OpenOk(s)
    ensures OpenOk(FlushHunk(s))
  {
    if s.hunk.Some? {
      var hs := s.cur.value.hunks;
      assert (hs + [s.hunk.value])[..|hs|] == hs;
      assert OpenLines(FlushHunk(s)) == OpenLines(s);
    }
  }

  lemma FlushFileOk(s: State)
    requires OpenOk(s) && FilesOk(s.files)
    ensures FilesOk(FlushFile(s).files)
  {
    FlushHunkOk(s);
    var u := FlushHunk(s);
    if u.cur.Some? { assert OpenLines(u) == HunksLines(u.cur.value.hunks); }
  }

  lemma NextNoSnoc(ls: seq<Line>, l: Line, start: int, other: char)
    ensures NextNo(ls + [l], start, other) == if l.op == other then NextNo(ls, start, other) else Wrap(NextNo(ls, start, other) + 1)
  {
    CountSnoc(ls, l, other);
    WrapNext(start + |ls| - Count(ls, other));
  }

  lemma CountsAdd(cur: seq<Line>, ls: seq<Line>, l: Line, op: char)
    ensures Count(cur + (ls + [l]), op) == Count(cur + ls, op) + if l.op == op then 1 else 0
  {
    assert cur + (ls + [l]) == (cur + ls) + [l];
    CountSnoc(cur + ls, l, op);
  }

  lemma {:induction false} AddLineOk(s: State, i: nat, op: char, text: string)
    requires OpenOk(s) && s.cur.Some? && s.hunk.Some? && op in " +-"
    ensures OpenOk(AddLine(s, i, op, text))
  {
    var ls, at, l := s.hunk.value.lines, HunkStarts(s.hunk.value.header), LineFor(s, i, op, text);
    AddLineNumbers(ls, l, at, '+', '-');
    NextNoSnoc(ls, l, at.oldNo, '+');
    NextNoSnoc(ls, l, at.newNo, '-');
    CountsAdd(HunksLines(s.cur.value.hunks), ls, l, '+');
    CountsAdd(HunksLines(s.cur.value.hunks), ls, l, '-');
  }

  lemma AddLineNumbers(ls: seq<Line>, l: Line, at: Starts, plus: char, minus: char)
    requires NumberedFrom(ls, at) && plus == '+' && minus == '-'
    requires l.oldNo == (if l.op == plus then 0 else NextNo(ls, at.oldNo, plus))
    requires l.newNo == (if l.op == minus then 0 else NextNo(ls, at.newNo, minus))
    ensures NumberedFrom(ls + [l], at)
  {
    assert (ls + [l])[..|ls|] == ls;
  }

  lemma OpenHunkOk(s: State, header: string)
    requires OpenOk(s) && s.cur.Some? && s.hunk.None? && InRange(HunkStarts(header))
    ensures OpenOk(OpenHunk(s, header, HunkStarts(header)))
  {
    assert OpenLines(OpenHunk(s, header, HunkStarts(header))) == OpenLines(s);
  }

  lemma RetitleOk(s: State, head: Head)
    requires OpenOk(s) && s.cur.Some? && s.hunk.None?
    ensures OpenOk(s.(cur := Some(Retitle(s.cur.value, head))))
  {
    RetitleKeeps(s.cur.value, head);
  }

  lemma StepOk(s: State, i: nat, t: Token)
    requires OpenOk(s) && FilesOk(s.files) && WellRead(t)
    ensures OpenOk(Step(s, i, t)) && FilesOk(Step(s, i, t).files)
  {
    if t.head.DiffGit? {
      FlushFileOk(s);
      FlushFileLines(s);
    } else if s.cur.Some? {
      if s.hunk.Some? && t.body != Outside {
        if t.body.Content? { AddLineOk(s, i, t.body.op, t.body.text); }
      } else {
        FlushHunkOk(s);
        if t.head.HunkHead? {
          OpenHunkOk(FlushHunk(s), t.text);
        } else {
          RetitleOk(FlushHunk(s), t.head);
        }
      }
    }
  }

  lemma {:induction false} FeedOk(ts: seq<Token>)
    requires AllWellRead(ts)
    ensures var s := Feed(START, 0, ts); OpenOk(s) && FilesOk(s.files)
  {
    if ts != [] {
      var init, t := ts[..|ts| - 1], ts[|ts| - 1];
      FeedOk(init);
      FeedSnoc(START, 0, init, t);
      assert ts == init + [t];
      StepOk(Feed(START, 0, init), |init|, t);
    }
  }

  lemma {:induction false} NumberedAt(ls: seq<Line>, at: Starts, k: nat)
    requires NumberedFrom(ls, at) && k < |ls|
    ensures ls[k].oldNo == (if ls[k].op == '+' then 0 else NextNo(ls[..k], at.oldNo, '+'))
    ensures ls[k].newNo == (if ls[k].op == '-' then 0 else NextNo(ls[..k], at.newNo, '-'))
  {
    if k < |ls| - 1 {
      var init := ls[..|ls| - 1];
      NumberedAt(init, at, k);
      assert init[..k] == ls[..k];
    }
  }

  lemma ParsedFileOk(uq: Unquote, lines: seq<string>, file: File)
    requires file in Parsed(uq, lines)
    ensures FileOk(file, HunksLines(file.hunks))
  {
    var s := Feed(START, 0, Tokens(uq, lines));
    TokensWellRead(uq, lines);
    FeedOk(Tokens(uq, lines));
    FlushFileOk(s);
    var f: nat :| f < |Parsed(uq, lines)| && Parsed(uq, lines)[f] == file;
    assert Settle(FlushFile(s).files[f]).hunks == FlushFile(s).files[f].hunks;
  }

  /** Over any lines: a file's counts are those of its added and removed lines. */
  lemma CountsAreOfLines(uq: Unquote, lines: seq<string>, file: File)
    requires file in Parsed(uq, lines)
    ensures file.add == Count(HunksLines(file.hunks), '+') && file.del == Count(HunksLines(file.hunks), '-')
  {
    ParsedFileOk(uq, lines, file);
  }

  lemma HunkNumbersAt(hunk: Hunk, k: nat)
    requires HunkNumbered(hunk) && k < |hunk.lines|
    ensures var at, before, l := HunkStarts(hunk.header), hunk.lines[..k], hunk.lines[k];
            && l.oldNo == (if l.op == '+' then 0 else Wrap(at.oldNo + k - Count(before, '+')))
            && l.newNo == (if l.op == '-' then 0 else Wrap(at.newNo + k - Count(before, '-')))
  {
    NumberedAt(hunk.lines, HunkStarts(hunk.header), k);
  }

  /** Over any lines: on each side a hunk's lines are numbered one after another
      from the header's number, and a line on one side only has none on the
      other. */
  lemma LinesAreNumbered(uq: Unquote, lines: seq<string>, file: File, hunk: Hunk, k: nat)
    requires file in Parsed(uq, lines) && hunk in file.hunks && k < |hunk.lines|
    ensures var at, before, l := HunkStarts(hunk.header), hunk.lines[..k], hunk.lines[k];
            && l.oldNo == (if l.op == '+' then 0 else Wrap(at.oldNo + k - Count(before, '+')))
            && l.newNo == (if l.op == '-' then 0 else Wrap(at.newNo + k - Count(before, '-')))
  {
    assert HunkNumbered(hunk) by { ParsedFileOk(uq, lines, file); }
    HunkNumbersAt(hunk, k);
  }
}
