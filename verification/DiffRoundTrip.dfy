/** A written diff parses back (internal/diffannot/parse.go). */
module DiffRoundTrip {
  import opened Basics
  import opened DiffParse
  import opened DiffLines
  import opened DiffWriting

  // ----- What a diff stands for, with the places its lines are written to -----

  function PartCount(body: seq<Part>, op: char): nat {
    if body == [] then 0 else PartCount(body[..|body| - 1], op) + if body[|body| - 1].op == op then 1 else 0
  }

  /** The number after a body's lines on the side the operator is missing from; a
      mark on the line above counts on neither. */
  function NumberAfter(body: seq<Part>, start: int, other: char): int {
    Wrap(start + |body| - PartCount(body, other) - PartCount(body, '\\'))
  }

  /** A body whose first line is the i-th of the diff; a mark is no line of its
      own. */
  function PlacedLines(body: seq<Part>, at: Starts, i: nat): (ls: seq<Line>)
    ensures |ls| == |body| - PartCount(body, '\\')
  {
    if body == [] then []
    else if body[|body| - 1].op == '\\' then PlacedLines(body[..|body| - 1], at, i)
    else
      var init, p := body[..|body| - 1], body[|body| - 1];
      var l := Line(p.op,
                    if p.op == '+' then 0 else NumberAfter(init, at.oldNo, '+'),
                    if p.op == '-' then 0 else NumberAfter(init, at.newNo, '-'),
                    p.text, i + |init|);
      PlacedLines(init, at, i) + [l]
  }

  function PlacedHunk(b: Block, i: nat): Hunk { Hunk(b.header, PlacedLines(b.body, b.at, i + 1)) }

  function PlacedHunks(bs: seq<Block>, i: nat): (hs: seq<Hunk>)
    ensures |hs| == |bs|
  {
    if bs == [] then [] else PlacedHunks(bs[..|bs| - 1], i) + [PlacedHunk(bs[|bs| - 1], i + BlocksSize(bs[..|bs| - 1]))]
  }

  function BlocksCount(bs: seq<Block>, op: char): nat {
    if bs == [] then 0 else BlocksCount(bs[..|bs| - 1], op) + PartCount(bs[|bs| - 1].body, op)
  }

  function PlacedFile(x: Section, i: nat): File {
    File(x.path, x.oldPath, x.status, x.binary, BlocksCount(x.blocks, '+'), BlocksCount(x.blocks, '-'),
         PlacedHunks(x.blocks, i + TopSize(x)))
  }

  function PlacedFiles(d: seq<Section>): (fs: seq<File>)
    ensures |fs| == |d|
  {
    if d == [] then [] else PlacedFiles(d[..|d| - 1]) + [PlacedFile(d[|d| - 1], DiffSize(d[..|d| - 1]))]
  }

  /** What the scan makes of a section: the file under the paths it reads off the
      lines above the hunks. */
  function ReadFile(x: Section, i: nat): File {
    PlacedFile(x, i).(path := Bare(x).path, oldPath := Bare(x).oldPath)
  }

  function ReadFiles(d: seq<Section>): (fs: seq<File>)
    ensures |fs| == |d|
  {
    if d == [] then [] else ReadFiles(d[..|d| - 1]) + [ReadFile(d[|d| - 1], DiffSize(d[..|d| - 1]))]
  }

  // ----- Bodies -----

  /** The state after a body was read. */
  function AfterBody(s: State, body: seq<Part>, at: Starts, i: nat): State
    requires s.cur.Some? && s.hunk.Some?
  {
    var f := s.cur.value;
    s.(hunk := Some(Hunk(s.hunk.value.header, PlacedLines(body, at, i))),
       oldNo := NumberAfter(body, at.oldNo, '+'),
       newNo := NumberAfter(body, at.newNo, '-'),
       cur := Some(f.(add := f.add + PartCount(body, '+'), del := f.del + PartCount(body, '-'))))
  }

  lemma NumberGoesOn(body: seq<Part>, start: int, other: char)
    requires body != [] && other != '\\'
    ensures var init := NumberAfter(body[..|body| - 1], start, other);
            NumberAfter(body, start, other) == if body[|body| - 1].op in [other, '\\'] then init else Wrap(init + 1)
  {
    var init := body[..|body| - 1];
    WrapNext(start + |body| - 1 - PartCount(init, other) - PartCount(init, '\\'));
  }

  lemma AfterNothing(s: State, at: Starts, i: nat)
    requires s.cur.Some? && s.hunk.Some? && s.hunk.value.lines == []
    requires at == Starts(s.oldNo, s.newNo) && InRange(at)
    ensures AfterBody(s, [], at, i) == s
  {
  }

  lemma {:induction false} AfterPart(s: State, body: seq<Part>, at: Starts, i: nat)
    requires s.cur.Some? && s.hunk.Some? && body != []
    ensures var init, p := body[..|body| - 1], body[|body| - 1];
            AfterBody(s, body, at, i)
            == if p.op == '\\' then AfterBody(s, init, at, i) else AddLine(AfterBody(s, init, at, i), i + |init|, p.op, p.text)
  {
    NumberGoesOn(body, at.oldNo, '+');
    NumberGoesOn(body, at.newNo, '-');
  }

  lemma {:induction false} FeedBody(s: State, i: nat, ts: seq<Token>, body: seq<Part>, at: Starts)
    requires s.cur.Some? && s.hunk.Some? && s.hunk.value.lines == [] && IsBody(ts, body)
    requires at == Starts(s.oldNo, s.newNo) && InRange(at)
    ensures Feed(s, i, ts) == AfterBody(s, body, at, i)
  {
    if body == [] {
      AfterNothing(s, at, i);
    } else {
      var init, t := ts[..|ts| - 1], ts[|ts| - 1];
      FeedBody(s, i, init, body[..|body| - 1], at);
      FeedSnoc(s, i, init, t);
      assert ts == init + [t];
      AfterPart(s, body, at, i);
    }
  }

  // ----- Blocks -----

  /** The state's open file, with its open hunk if any. */
  predicate Holding(s: State, files: seq<File>, f: File) {
    s.cur.Some? && s.files == files && FlushHunk(s).cur == Some(f)
  }

  function WithBlock(f: File, b: Block, i: nat): File {
    f.(add := f.add + PartCount(b.body, '+'), del := f.del + PartCount(b.body, '-'), hunks := f.hunks + [PlacedHunk(b, i)])
  }

  function WithBlocks(f: File, bs: seq<Block>, i: nat): File {
    if bs == [] then f
    else WithBlock(WithBlocks(f, bs[..|bs| - 1], i), bs[|bs| - 1], i + BlocksSize(bs[..|bs| - 1]))
  }

  lemma {:induction false} WithBlocksIs(f: File, bs: seq<Block>, i: nat)
    ensures WithBlocks(f, bs, i)
            == f.(add := f.add + BlocksCount(bs, '+'), del := f.del + BlocksCount(bs, '-'), hunks := f.hunks + PlacedHunks(bs, i))
  {
    if bs == [] {
      assert f.hunks + [] == f.hunks;
    } else {
      var init, b := bs[..|bs| - 1], bs[|bs| - 1];
      WithBlocksIs(f, init, i);
      var h := PlacedHunk(b, i + BlocksSize(init));
      assert (f.hunks + PlacedHunks(init, i)) + [h] == f.hunks + (PlacedHunks(init, i) + [h]);
    }
  }

  lemma ReadBlock(s: State, files: seq<File>, f: File, b: Block, i: nat)
    requires Holding(s, files, f)
    ensures Holding(AfterBody(OpenHunk(FlushHunk(s), b.header, b.at), b.body, b.at, i + 1), files, WithBlock(f, b, i))
  {
  }

  lemma FeedBlock(s: State, i: nat, ts: seq<Token>, b: Block, files: seq<File>, f: File)
    requires Holding(s, files, f) && IsBlock(ts, b)
    ensures Holding(Feed(s, i, ts), files, WithBlock(f, b, i))
  {
    assert ts == [ts[0]] + ts[1..];
    FeedConcat(s, i, [ts[0]], ts[1..]);
    FeedOne(s, i, ts[0]);
    FeedBody(OpenHunk(FlushHunk(s), b.header, b.at), i + 1, ts[1..], b.body, b.at);
    ReadBlock(s, files, f, b, i);
  }

  lemma {:induction false} FeedBlocks(s: State, i: nat, ts: seq<Token>, bs: seq<Block>, files: seq<File>, f: File, g: File)
    requires Holding(s, files, f) && AreBlocks(ts, bs) && g == WithBlocks(f, bs, i)
    ensures Holding(Feed(s, i, ts), files, g)
  {
    if bs == [] {
      assert Feed(s, i, ts) == s;
    } else {
      var init, n := bs[..|bs| - 1], BlocksSize(bs[..|bs| - 1]);
      var a, rest, mid := ts[..n], ts[n..], WithBlocks(f, bs[..|bs| - 1], i);
      LastBlock(ts, bs, a, rest);
      FeedBlocks(s, i, a, init, files, f, mid);
      FeedLast(s, i, a, rest, bs[|bs| - 1], files, mid, ts, g);
    }
  }

  lemma LastBlock(ts: seq<Token>, bs: seq<Block>, a: seq<Token>, rest: seq<Token>)
    requires AreBlocks(ts, bs) && bs != [] && a == ts[..BlocksSize(bs[..|bs| - 1])] && rest == ts[BlocksSize(bs[..|bs| - 1])..]
    ensures AreBlocks(a, bs[..|bs| - 1]) && IsBlock(rest, bs[|bs| - 1]) && ts == a + rest && |a| == BlocksSize(bs[..|bs| - 1])
  {
  }

  lemma FeedLast(s: State, i: nat, a: seq<Token>, ts: seq<Token>, b: Block, files: seq<File>, f: File, all: seq<Token>, g: File)
    requires Holding(Feed(s, i, a), files, f) && IsBlock(ts, b) && all == a + ts && g == WithBlock(f, b, i + |a|)
    ensures Holding(Feed(s, i, all), files, g)
  {
    FeedBlock(Feed(s, i, a), i + |a|, ts, b, files, f);
    FeedConcat(s, i, a, ts);
  }

  // ----- Sections -----

  /** The state with a file open and no hunk. */
  predicate Opens(s: State, files: seq<File>, f: File) {
    s.files == files && s.cur == Some(f) && s.hunk.None?
  }

  lemma {:induction false} FeedTitles(s: State, i: nat, ts: seq<Token>, files: seq<File>, f: File)
    requires Opens(s, files, f) && forall k :: 0 <= k < |ts| ==> IsTitle(ts[k])
    ensures Opens(Feed(s, i, ts), files, Titled(f, ts))
  {
    if ts != [] {
      var init, t := ts[..|ts| - 1], ts[|ts| - 1];
      FeedTitles(s, i, init, files, f);
      FeedSnoc(s, i, init, t);
      assert ts == init + [t];
    }
  }

  lemma FeedTop(s: State, i: nat, ts: seq<Token>, x: Section)
    requires IsTop(ts, x)
    ensures Opens(Feed(s, i, ts), FlushFile(s).files, Bare(x))
  {
    assert ts == [ts[0]] + ts[1..];
    FeedConcat(s, i, [ts[0]], ts[1..]);
    FeedOne(s, i, ts[0]);
    FeedTitles(Step(s, i, ts[0]), i + 1, ts[1..], FlushFile(s).files, Untouched(x));
  }

  lemma FlushHeld(s: State, files: seq<File>, f: File)
    requires Holding(s, files, f)
    ensures FlushFile(s).files == files + [f]
  {
  }

  lemma BareWithBlocks(x: Section, i: nat)
    ensures WithBlocks(Bare(x), x.blocks, i + TopSize(x)) == ReadFile(x, i)
  {
    WithBlocksIs(Bare(x), x.blocks, i + TopSize(x));
    assert [] + PlacedHunks(x.blocks, i + TopSize(x)) == PlacedHunks(x.blocks, i + TopSize(x));
  }

  lemma FeedSection(s: State, i: nat, top: seq<Token>, rest: seq<Token>, x: Section)
    requires IsTop(top, x) && |top| == TopSize(x) && AreBlocks(rest, x.blocks)
    ensures FlushFile(Feed(s, i, top + rest)).files == FlushFile(s).files + [ReadFile(x, i)]
  {
    FeedTop(s, i, top, x);
    FeedHunks(Feed(s, i, top), i + |top|, rest, x, i, FlushFile(s).files);
    FeedConcat(s, i, top, rest);
  }

  lemma FeedHunks(s: State, j: nat, ts: seq<Token>, x: Section, i: nat, files: seq<File>)
    requires Opens(s, files, Bare(x)) && AreBlocks(ts, x.blocks) && j == i + TopSize(x)
    ensures FlushFile(Feed(s, j, ts)).files == files + [ReadFile(x, i)]
  {
    BareWithBlocks(x, i);
    FeedHunksTo(s, j, ts, x.blocks, files, Bare(x), ReadFile(x, i));
  }

  lemma FeedHunksTo(s: State, j: nat, ts: seq<Token>, bs: seq<Block>, files: seq<File>, f: File, g: File)
    requires Opens(s, files, f) && AreBlocks(ts, bs) && g == WithBlocks(f, bs, j)
    ensures FlushFile(Feed(s, j, ts)).files == files + [g]
  {
    FeedBlocks(s, j, ts, bs, files, f, g);
    FlushHeld(Feed(s, j, ts), files, g);
  }

  // ----- The whole diff -----

  lemma FeedAfter(before: seq<Token>, top: seq<Token>, rest: seq<Token>, x: Section)
    requires IsTop(top, x) && |top| == TopSize(x) && AreBlocks(rest, x.blocks)
    ensures FlushFile(Feed(START, 0, before + (top + rest))).files
            == FlushFile(Feed(START, 0, before)).files + [ReadFile(x, |before|)]
  {
    FeedConcat(START, 0, before, top + rest);
    FeedSection(Feed(START, 0, before), |before|, top, rest, x);
  }

  lemma {:induction false} FeedWrittenAfter(uq: Unquote, before: seq<Token>, x: Section)
    requires SectionWritable(x)
    ensures FlushFile(Feed(START, 0, before + Tokens(uq, SectionLines(x)))).files
            == FlushFile(Feed(START, 0, before)).files + [ReadFile(x, |before|)]
  {
    TopTokens(uq, x);
    BlocksTokens(uq, x.blocks);
    TokensConcat(uq, TopLines(x), BlocksLines(x.blocks));
    FeedAfter(before, Tokens(uq, TopLines(x)), Tokens(uq, BlocksLines(x.blocks)), x);
  }

  lemma {:induction false} FeedWrite(uq: Unquote, d: seq<Section>)
    requires Writable(d)
    ensures FlushFile(Feed(START, 0, Tokens(uq, Write(d)))).files == ReadFiles(d)
  {
    if d == [] {
      assert Tokens(uq, Write(d)) == [];
    } else {
      var init, x := d[..|d| - 1], d[|d| - 1];
      FeedWrite(uq, init);
      TokensConcat(uq, Write(init), SectionLines(x));
      FeedWrittenAfter(uq, Tokens(uq, Write(init)), x);
    }
  }

  lemma {:induction false} FilesAt(d: seq<Section>, k: nat)
    requires k < |d|
    ensures PlacedFiles(d)[k] == PlacedFile(d[k], DiffSize(d[..k])) && ReadFiles(d)[k] == ReadFile(d[k], DiffSize(d[..k]))
  {
    var init := d[..|d| - 1];
    if k < |d| - 1 {
      FilesAt(init, k);
      assert init[..k] == d[..k];
    }
  }

  /** For any written diff, the files under the paths its lines give. */
  lemma {:induction false} WrittenParses(uq: Unquote, d: seq<Section>)
    requires Writable(d)
    ensures Parsed(uq, Write(d)) == SettleAll(ReadFiles(d))
  {
    FeedWrite(uq, d);
  }

  // ----- Whose paths come back -----

  /** The header line blurs a path that holds the mark between the two.  The
      lines below it name both paths of a rename or a copy, and the one path of a
      file added with text. */
  predicate Legible(x: Section) {
    || !Holds(x.path, SPLIT)
    || x.status.Renamed? || x.status.Copied?
    || (x.status.Added? && !x.binary && x.blocks != [])
  }

  lemma BlurredPaths(x: Section)
    requires SectionWritable(x) && Holds(x.path, SPLIT)
    ensures var f := Untouched(x); |f.path| < |x.path| && (From(x) == x.path ==> f.oldPath != "" && f.oldPath != x.path)
  {
    SplitIff(x.path);
    var k := SplitAt(x.path);
    assert |From(x) + SPLIT + x.path[..k]| > |From(x)|;
  }

  /** A section comes back as written if and only if its paths can be read. */
  lemma LegibleIff(x: Section, i: nat)
    requires SectionWritable(x)
    ensures Settle(ReadFile(x, i)) == PlacedFile(x, i) <==> Legible(x)
  {
    if Holds(x.path, SPLIT) {
      BlurredPaths(x);
    } else {
      SplitIff(x.path);
    }
  }

  /** A written diff parses back to what was written, every file with its paths,
      status and counts, every hunk with its header, every line with its text,
      its numbers and the place it was written to, if and only if every path can
      be read. */
  lemma {:induction false} WrittenParsesBack(uq: Unquote, d: seq<Section>)
    requires Writable(d)
    ensures Parsed(uq, Write(d)) == PlacedFiles(d) <==> forall k :: 0 <= k < |d| ==> Legible(d[k])
  {
    WrittenParses(uq, d);
    var read, placed := SettleAll(ReadFiles(d)), PlacedFiles(d);
    forall k: nat | k < |d| ensures read[k] == placed[k] <==> Legible(d[k]) {
      FilesAt(d, k);
      assert SectionWritable(d[k]);
      LegibleIff(d[k], DiffSize(d[..k]));
    }
  }

  // ----- A path the lines below the header do not mend -----

  lemma OneRead(uq: Unquote, x: Section)
    requires SectionWritable(x)
    ensures Parsed(uq, Write([x])) == [Settle(ReadFile(x, 0))]
  {
    WrittenParses(uq, [x]);
    FilesAt([x], 0);
    assert [x][..0] == [];
  }

  lemma CutInTwo(u: string, v: string, p: string)
    requires p == u + SPLIT + v && !Holds(v, SPLIT)
    ensures HeaderPaths(p, p) == (p + SPLIT + u, v)
  {
    var j := |p| - |SPLIT|;
    LastSplit(u, v, j);
    LastOf(v, j - |u| - |SPLIT|);
    assert SplitAt(p) == |u|;
    CutParts(u, v, p);
  }

  lemma LastOf(v: string, j: int)
    requires !Holds(v, SPLIT) && j + |SPLIT| <= |v|
    ensures LastIndex(v, SPLIT, j) < 0
  {
  }

  lemma BlurredRead(x: Section, u: string, v: string, p: string)
    requires p == u + SPLIT + v && !Holds(v, SPLIT) && SectionWritable(x) && x.path == p && x.blocks != []
    requires x.oldPath == ""
    ensures x.status.Modified? ==> Settle(ReadFile(x, 0)).path == p && Settle(ReadFile(x, 0)).oldPath == p + SPLIT + u
    ensures x.status.Deleted? ==> Settle(ReadFile(x, 0)).path == v
  {
    CutInTwo(u, v, p);
    assert |p + SPLIT + u| > |p| > |v|;
  }

  /** A file whose path holds the mark, changed: +++ gives its path back, and what
      the header line took for its old path stays.  Deleted, it is listed under
      the end of its path. */
  lemma {:induction false} BlurredPathStays(uq: Unquote, x: Section, u: string, v: string)
    requires SectionWritable(x) && x.path == u + SPLIT + v && !Holds(v, SPLIT) && x.blocks != [] && x.oldPath == ""
    ensures |Parsed(uq, Write([x]))| == 1
    ensures var f := Parsed(uq, Write([x]))[0];
            && (x.status.Modified? ==> f.path == x.path && f.oldPath == x.path + SPLIT + u)
            && (x.status.Deleted? ==> f.path == v)
  {
    OneRead(uq, x);
    BlurredRead(x, u, v, x.path);
  }

  /** For one, a change to "x b/y" is reported as coming from "x b/y b/x". */
  lemma {:induction false} BlurredChange(uq: Unquote, b: Block)
    requires BlockWritable(b)
    ensures var d := [Section("x b/y", "", Modified, false, [b], "", "")];
            Writable(d) && |Parsed(uq, Write(d))| == 1 && Parsed(uq, Write(d))[0].oldPath == "x b/y b/x"
  {
    assert "x" + SPLIT + "y" == "x b/y" && "x b/y" + SPLIT + "x" == "x b/y b/x";
    assert forall j :: 0 <= j <= 1 ==> !(SPLIT <= "y"[j..]);
    BlurredPathStays(uq, Section("x b/y", "", Modified, false, [b], "", ""), "x", "y");
  }
}
