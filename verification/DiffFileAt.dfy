/** The file a diff's line belongs to (internal/diffannot/diffannot.go), and
    when it is the file the parse of internal/diffannot/parse.go gives it. */
module DiffFileAt {
  import opened Basics
  import opened DiffParse
  import opened DiffLines
  import opened DiffWriting
  import opened DiffRoundTrip

  function NameStep(name: string, t: Token): string {
    if t.head.PlusSide? && t.head.side.Some? then t.head.side.value
    else if t.head.DiffGit? then t.head.newPath
    else name
  }

  /** The name in force after the tokens. */
  function NameFrom(name: string, ts: seq<Token>): string {
    if ts == [] then name else NameStep(NameFrom(name, ts[..|ts| - 1]), ts[|ts| - 1])
  }

  /** The name after the q-th token. */
  function NameAfter(path: string, ts: seq<Token>, q: nat): string
    requires q < |ts|
  {
    NameFrom(path, ts[..q + 1])
  }

  function UpTo(ts: seq<Token>, idx: int): seq<Token> {
    if idx < 0 then [] else if idx < |ts| then ts[..idx + 1] else ts
  }

  /** The name at a line; empty above the first header. */
  function NameAt(uq: Unquote, lines: seq<string>, idx: int): string { NameFrom("", UpTo(Tokens(uq, lines), idx)) }

  method FileAt(uq: Unquote, lines: seq<string>, idx: int) returns (file: string)
    ensures file == NameAt(uq, lines, idx)
  {
    file := "";
    var i := 0;
    while i <= idx && i < |lines|
      invariant 0 <= i <= |lines| && (i == 0 || i <= idx + 1)
      invariant file == NameFrom("", Tokens(uq, lines[..i]))
    {
      TokensSnoc(uq, lines, i);
      file := NextName(uq, lines[i], Tokens(uq, lines[..i]), file);
      i := i + 1;
    }
    assert Tokens(uq, lines[..i]) == UpTo(Tokens(uq, lines), idx);
  }

  lemma TokensSnoc(uq: Unquote, lines: seq<string>, i: nat)
    requires i < |lines|
    ensures Tokens(uq, lines[..i + 1]) == Tokens(uq, lines[..i]) + [TokenOf(uq, lines[i])]
  {
  }

  method NextName(uq: Unquote, l: string, before: seq<Token>, file: string) returns (name: string)
    requires file == NameFrom("", before)
    ensures name == NameFrom("", before + [TokenOf(uq, l)])
  {
    name := NamedBy(uq, l, file);
    NameSnoc("", before, TokenOf(uq, l));
  }

  method NamedBy(uq: Unquote, l: string, file: string) returns (name: string)
    ensures name == NameStep(file, TokenOf(uq, l))
  {
    name := file;
    match HeadOf(uq, l)
    case PlusSide(side) =>
      if side.Some? {
        name := side.value;
      }
    case DiffGit(_, newPath) => name := newPath;
    case _ =>
  }

  lemma NameSnoc(name: string, ts: seq<Token>, t: Token)
    ensures NameFrom(name, ts + [t]) == NameStep(NameFrom(name, ts), t)
  {
    assert (ts + [t])[..|ts|] == ts;
  }

  lemma {:induction false} NameConcat(name: string, a: seq<Token>, b: seq<Token>)
    ensures NameFrom(name, a + b) == NameFrom(NameFrom(name, a), b)
  {
    if b == [] {
      assert a + b == a;
    } else {
      var init := b[..|b| - 1];
      NameConcat(name, a, init);
      NameSnoc(name, a + init, b[|b| - 1]);
      assert a + b == (a + init) + [b[|b| - 1]];
    }
  }

  // ----- Tokens that leave a name as it is -----

  predicate Keeps(t: Token, path: string) {
    !t.head.DiffGit? && (t.head.PlusSide? && t.head.side.Some? ==> t.head.side.value == path)
  }

  lemma {:induction false} AllKeep(path: string, ts: seq<Token>)
    requires forall k :: 0 <= k < |ts| ==> Keeps(ts[k], path)
    ensures NameFrom(path, ts) == path
  {
    if ts != [] { AllKeep(path, ts[..|ts| - 1]); }
  }

  /** The name is the path after each of the tokens. */
  ghost predicate Stays(path: string, ts: seq<Token>) {
    forall q: nat :: q < |ts| ==> NameAfter(path, ts, q) == path
  }

  predicate AllKept(path: string, ts: seq<Token>) { forall k :: 0 <= k < |ts| ==> Keeps(ts[k], path) }

  /** The name stays the path if and only if every token keeps it. */
  lemma StaysIffKept(path: string, ts: seq<Token>)
    requires forall k :: 0 <= k < |ts| ==> !ts[k].head.DiffGit?
    ensures Stays(path, ts) <==> AllKept(path, ts)
  {
    if AllKept(path, ts) {
      forall q: nat | q < |ts| ensures NameAfter(path, ts, q) == path { AllKeep(path, ts[..q + 1]); }
    }
    if Stays(path, ts) {
      forall k: nat | k < |ts| ensures Keeps(ts[k], path) {
        assert NameAfter(path, ts, k) == path;
        assert k > 0 ==> NameAfter(path, ts, k - 1) == path;
        assert ts[..k + 1] == ts[..k] + [ts[k]];
        NameSnoc(path, ts[..k], ts[k]);
      }
    }
  }

  // ----- A written diff -----

  /** The tokens of a section's hunks. */
  function HunkTokens(uq: Unquote, x: Section): seq<Token> { Tokens(uq, BlocksLines(x.blocks)) }

  /** Where a section's hunks start in the written diff. */
  function HunksAt(d: seq<Section>, k: nat): nat
    requires k < |d|
  {
    DiffSize(d[..k]) + TopSize(d[k])
  }

  lemma StatusKeeps(uq: Unquote, x: Section, path: string)
    ensures forall k :: 0 <= k < |StatusLines(x)| ==> Keeps(TokenOf(uq, StatusLines(x)[k]), path)
  {
    match x.status
    case Modified =>
    case Added => HeadOfMode(uq);
    case Deleted => HeadOfMode(uq);
    case Renamed => RenameKeeps(uq, x.similarity, x.oldPath, x.path, path);
    case Copied => CopyKeeps(uq, x.similarity, x.oldPath, x.path, path);
  }

  lemma RenameKeeps(uq: Unquote, sim: string, a: string, b: string, path: string)
    ensures Keeps(TokenOf(uq, "similarity index " + sim), path)
    ensures Keeps(TokenOf(uq, RENAME_FROM + a), path) && Keeps(TokenOf(uq, RENAME_TO + b), path)
  {
    HeadOfNotes(uq, sim);
    HeadOfRename(uq, a);
    HeadOfRename(uq, b);
  }

  lemma CopyKeeps(uq: Unquote, sim: string, a: string, b: string, path: string)
    ensures Keeps(TokenOf(uq, "similarity index " + sim), path)
    ensures Keeps(TokenOf(uq, COPY_FROM + a), path) && Keeps(TokenOf(uq, COPY_TO + b), path)
  {
    HeadOfNotes(uq, sim);
    HeadOfCopy(uq, a);
    HeadOfCopy(uq, b);
  }

  lemma NotesKeep(uq: Unquote, x: Section, path: string)
    ensures forall k :: 0 <= k < |NoteLines(x)| ==> Keeps(TokenOf(uq, NoteLines(x)[k]), path)
  {
    StatusKeeps(uq, x, path);
    if x.index != "" { HeadOfNotes(uq, x.index); }
    KeepBoth(uq, StatusLines(x), IndexLines(x), path);
  }

  /** The name the header line puts in force. */
  function HeaderName(x: Section): string { HeaderPaths(From(x), x.path).1 }

  /** Above a section's hunks, the name is the path the parse gives it. */
  lemma {:induction false} TopNames(uq: Unquote, name: string, x: Section)
    requires SectionWritable(x) && x.blocks != []
    ensures NameFrom(name, Tokens(uq, TopLines(x))) == Bare(x).path
  {
    var minus, plus := "--- " + Tabbed(MinusSide(x)), PLUS + Tabbed(NewSide(x));
    var above := NoteLines(x) + [minus];
    NotesKeep(uq, x, HeaderName(x));
    HeadOfMinus(uq, Tabbed(MinusSide(x)));
    KeepBoth(uq, NoteLines(x), [minus], HeaderName(x));
    AllKeep(HeaderName(x), Tokens(uq, above));
    GitToken(uq, x);
    GitNames(uq, name, GitLine(x), above, HeaderName(x));
    SideNames(uq, name, [GitLine(x)] + above, plus, Tabbed(NewSide(x)));
    NewSidePath(uq, x);
    PathAfterSides(x);
    Regroup([GitLine(x)], NoteLines(x), [minus, plus]);
    TwoLines(NoteLines(x), [GitLine(x)], minus, plus);
  }

  lemma TwoLines(b: seq<string>, a: seq<string>, minus: string, plus: string)
    ensures a + (b + [minus, plus]) == (a + (b + [minus])) + [plus]
  {
  }

  lemma PathAfterSides(x: Section)
    requires SectionWritable(x) && x.blocks != []
    ensures Bare(x).path == if x.status.Deleted? then HeaderName(x) else x.path
  {
  }

  lemma NewSidePath(uq: Unquote, x: Section)
    requires SectionWritable(x)
    ensures SidePath(uq, Tabbed(NewSide(x)), "b/") == if x.status.Deleted? then None else Some(x.path)
  {
    PlusPath(uq, x.path);
  }

  lemma SideNames(uq: Unquote, name: string, above: seq<string>, plus: string, p: string)
    requires plus == PLUS + p
    ensures var (before, side) := (NameFrom(name, Tokens(uq, above)), SidePath(uq, p, "b/"));
            NameFrom(name, Tokens(uq, above + [plus])) == if side.Some? then side.value else before
  {
    HeadOfPlus(uq, p);
    TokensConcat(uq, above, [plus]);
    NameSnoc(name, Tokens(uq, above), TokenOf(uq, plus));
    assert Tokens(uq, [plus]) == [TokenOf(uq, plus)];
  }

  lemma KeepBoth(uq: Unquote, a: seq<string>, b: seq<string>, path: string)
    requires (forall k :: 0 <= k < |a| ==> Keeps(TokenOf(uq, a[k]), path)) && (forall k :: 0 <= k < |b| ==> Keeps(TokenOf(uq, b[k]), path))
    ensures forall k :: 0 <= k < |a + b| ==> Keeps(Tokens(uq, a + b)[k], path)
  {
  }

  lemma {:induction false} GitNames(uq: Unquote, name: string, l: string, rest: seq<string>, path: string)
    requires HeadOf(uq, l).DiffGit? && HeadOf(uq, l).newPath == path && NameFrom(path, Tokens(uq, rest)) == path
    ensures NameFrom(name, Tokens(uq, [l] + rest)) == path
  {
    TokensConcat(uq, [l], rest);
    NameConcat(name, Tokens(uq, [l]), Tokens(uq, rest));
    NameSnoc(name, [], TokenOf(uq, l));
    assert Tokens(uq, [l]) == [] + [TokenOf(uq, l)];
  }

  /** Where a section stands in the whole. */
  lemma {:induction false} SectionStands(d: seq<Section>, k: nat) returns (rest: seq<string>)
    requires k < |d|
    ensures Write(d) == Write(d[..k]) + (SectionLines(d[k]) + rest)
  {
    var init, x := d[..|d| - 1], d[|d| - 1];
    if k == |d| - 1 {
      rest := [];
      assert SectionLines(x) + [] == SectionLines(x);
    } else {
      var more := SectionStands(init, k);
      assert init[..k] == d[..k];
      rest := more + SectionLines(x);
      Regroup(Write(d[..k]), SectionLines(d[k]) + more, SectionLines(x));
      Regroup(SectionLines(d[k]), more, SectionLines(x));
    }
  }

  lemma Prefix(a: seq<Token>, top: seq<Token>, ts: seq<Token>, rest: seq<Token>, q: nat)
    requires q < |ts|
    ensures UpTo(a + ((top + ts) + rest), |a| + |top| + q) == a + (top + ts[..q + 1])
  {
  }

  /** Past two stretches of tokens that give the name and then the path. */
  lemma NameAtPlace(a: seq<Token>, top: seq<Token>, ts: seq<Token>, rest: seq<Token>, q: nat, name: string, path: string)
    requires NameFrom("", a) == name && NameFrom(name, top) == path && q < |ts|
    ensures NameFrom("", UpTo(a + ((top + ts) + rest), |a| + |top| + q)) == NameAfter(path, ts, q)
  {
    var some := ts[..q + 1];
    Prefix(a, top, ts, rest, q);
    NameConcat("", a, top + some);
    NameConcat(name, top, some);
  }

  lemma {:induction false} FourTokens(uq: Unquote, a: seq<string>, b: seq<string>, c: seq<string>, d: seq<string>)
    ensures Tokens(uq, a + ((b + c) + d)) == Tokens(uq, a) + ((Tokens(uq, b) + Tokens(uq, c)) + Tokens(uq, d))
  {
    TokensConcat(uq, a, (b + c) + d);
    TokensConcat(uq, b + c, d);
    TokensConcat(uq, b, c);
  }

  /** A section's place in the written diff, and the lines of its hunks there. */
  lemma {:induction false} NameInSection(uq: Unquote, d: seq<Section>, k: nat, q: nat, p: nat)
    requires k < |d| && SectionWritable(d[k]) && q < |HunkTokens(uq, d[k])| && p == HunksAt(d, k) + q
    ensures NameAt(uq, Write(d), p) == NameAfter(Bare(d[k]).path, HunkTokens(uq, d[k]), q)
  {
    var before, x := Write(d[..k]), d[k];
    var rest := SectionStands(d, k);
    var name := NameFrom("", Tokens(uq, before));
    TopNames(uq, name, x);
    FourTokens(uq, before, TopLines(x), BlocksLines(x.blocks), rest);
    NameAtPlace(Tokens(uq, before), Tokens(uq, TopLines(x)), HunkTokens(uq, x), Tokens(uq, rest), q, name, Bare(x).path);
  }

  lemma {:induction false} BlocksOpenNoFile(ts: seq<Token>, bs: seq<Block>)
    requires AreBlocks(ts, bs)
    ensures forall k :: 0 <= k < |ts| ==> !ts[k].head.DiffGit?
  {
    if bs != [] {
      var n := BlocksSize(bs[..|bs| - 1]);
      var a, rest := ts[..n], ts[n..];
      LastBlock(ts, bs, a, rest);
      BlocksOpenNoFile(a, bs[..|bs| - 1]);
      BlockOpensNoFile(rest, bs[|bs| - 1]);
    }
  }

  lemma BlockOpensNoFile(ts: seq<Token>, b: Block)
    requires IsBlock(ts, b)
    ensures forall k :: 0 <= k < |ts| ==> !ts[k].head.DiffGit?
  {
    forall k | 0 <= k < |ts| ensures !ts[k].head.DiffGit? {
      if k > 0 { assert ts[k] == ts[1..][k - 1]; }
    }
  }

  /** Every line of a section's hunks is named after a path. */
  ghost predicate AllNamed(uq: Unquote, d: seq<Section>, k: nat, path: string)
    requires k < |d|
  {
    forall p: nat :: HunksAt(d, k) <= p < HunksAt(d, k) + BlocksSize(d[k].blocks) ==> NameAt(uq, Write(d), p) == path
  }

  lemma NamedIffStays(uq: Unquote, d: seq<Section>, k: nat)
    requires k < |d| && SectionWritable(d[k])
    ensures AllNamed(uq, d, k, Bare(d[k]).path) <==> Stays(Bare(d[k]).path, HunkTokens(uq, d[k]))
  {
    var path, ts, at := Bare(d[k]).path, HunkTokens(uq, d[k]), HunksAt(d, k);
    forall p: nat | at <= p < at + |ts| ensures NameAt(uq, Write(d), p) == NameAfter(path, ts, p - at) {
      NameInSection(uq, d, k, p - at, p);
    }
    if AllNamed(uq, d, k, path) {
      forall q: nat | q < |ts| ensures NameAfter(path, ts, q) == path {
        assert NameAt(uq, Write(d), at + q) == path;
      }
    }
  }

  lemma {:induction false} ParsedPath(uq: Unquote, d: seq<Section>, k: nat)
    requires Writable(d) && k < |d|
    ensures |Parsed(uq, Write(d))| == |d|
    ensures var f := Parsed(uq, Write(d))[k];
            f.path == Bare(d[k]).path && f.hunks == PlacedHunks(d[k].blocks, HunksAt(d, k))
  {
    WrittenParses(uq, d);
    FilesAt(d, k);
  }

  /** Every line of a section's hunks is named after the path the parse gives
      the section, if and only if none of them reads as a +++ header that names
      another path. */
  lemma {:induction false} AgreesIff(uq: Unquote, d: seq<Section>, k: nat, file: File)
    requires Writable(d) && k < |d| == |Parsed(uq, Write(d))| && file == Parsed(uq, Write(d))[k]
    ensures AllNamed(uq, d, k, file.path) <==> AllKept(file.path, HunkTokens(uq, d[k]))
  {
    ParsedPath(uq, d, k);
    BlocksTokens(uq, d[k].blocks);
    BlocksOpenNoFile(HunkTokens(uq, d[k]), d[k].blocks);
    StaysIffKept(Bare(d[k]).path, HunkTokens(uq, d[k]));
    NamedIffStays(uq, d, k);
  }

  // ----- No line of a hunk reads as a header -----

  predicate NoPlusLine(b: Block) { forall k :: 0 <= k < |b.body| ==> !(PLUS <= PartLine(b.body[k])) }

  lemma KeepsUnlessPlus(uq: Unquote, l: string, path: string)
    requires !(PLUS <= l) && !HeadOf(uq, l).DiffGit?
    ensures Keeps(TokenOf(uq, l), path)
  {
  }

  lemma PartKeeps(uq: Unquote, p: Part, path: string)
    requires PartWritable(p) && !(PLUS <= PartLine(p))
    ensures Keeps(TokenOf(uq, PartLine(p)), path)
  {
    PartToken(uq, p);
    KeepsUnlessPlus(uq, PartLine(p), path);
  }

  lemma BlockKeeps(uq: Unquote, b: Block, path: string)
    requires BlockWritable(b) && NoPlusLine(b)
    ensures AllKept(path, Tokens(uq, BlockLines(b)))
  {
    var ts := Tokens(uq, BlockLines(b));
    HeaderToken(uq, b);
    forall k | 0 <= k < |ts| ensures Keeps(ts[k], path) {
      if k > 0 {
        assert BlockLines(b)[k] == PartLine(b.body[k - 1]);
        PartKeeps(uq, b.body[k - 1], path);
      }
    }
  }

  lemma KeptBoth(path: string, a: seq<Token>, b: seq<Token>)
    requires AllKept(path, a) && AllKept(path, b)
    ensures AllKept(path, a + b)
  {
  }

  lemma {:induction false} BlocksKeep(uq: Unquote, bs: seq<Block>, path: string)
    requires forall k :: 0 <= k < |bs| ==> BlockWritable(bs[k]) && NoPlusLine(bs[k])
    ensures AllKept(path, Tokens(uq, BlocksLines(bs)))
  {
    if bs != [] {
      var init, b := bs[..|bs| - 1], bs[|bs| - 1];
      BlocksKeep(uq, init, path);
      BlockKeeps(uq, b, path);
      TokensConcat(uq, BlocksLines(init), BlockLines(b));
      KeptBoth(path, Tokens(uq, BlocksLines(init)), Tokens(uq, BlockLines(b)));
    }
  }

  lemma {:induction false} LinesWithin(bs: seq<Block>, i: nat, hunk: Hunk, line: Line)
    requires hunk in PlacedHunks(bs, i) && line in hunk.lines
    ensures i <= line.idx < i + BlocksSize(bs)
  {
    var init, b := bs[..|bs| - 1], bs[|bs| - 1];
    if hunk in PlacedHunks(init, i) {
      LinesWithin(init, i, hunk, line);
    } else {
      BodyWithin(b.body, b.at, i + BlocksSize(init) + 1, line);
    }
  }

  lemma {:induction false} BodyWithin(body: seq<Part>, at: Starts, i: nat, line: Line)
    requires line in PlacedLines(body, at, i)
    ensures i <= line.idx < i + |body|
  {
    if line in PlacedLines(body[..|body| - 1], at, i) { BodyWithin(body[..|body| - 1], at, i, line); }
  }

  /** In a written diff with no such line, every line the parse lists is named
      after the file the parse lists it under. */
  lemma {:induction false} FileAtAgreesWithParse(uq: Unquote, d: seq<Section>, k: nat, file: File, hunk: Hunk, line: Line)
    requires Writable(d) && k < |d| == |Parsed(uq, Write(d))| && file == Parsed(uq, Write(d))[k]
    requires hunk in file.hunks && line in hunk.lines && forall j :: 0 <= j < |d[k].blocks| ==> NoPlusLine(d[k].blocks[j])
    ensures NameAt(uq, Write(d), line.idx) == file.path
  {
    ParsedPath(uq, d, k);
    LinesWithin(d[k].blocks, HunksAt(d, k), hunk, line);
    BlocksKeep(uq, d[k].blocks, file.path);
    AgreesIff(uq, d, k, file);
  }

  // ----- A line that reads as a header -----

  lemma OneBlock(b: Block)
    ensures BlocksLines([b]) == BlockLines(b) && BlocksSize([b]) == 1 + |b.body|
  {
    assert [b][..0] == [];
    assert BlocksLines([]) + BlockLines(b) == BlockLines(b);
  }

  lemma OneSection(x: Section)
    ensures Write([x]) == SectionLines(x) && HunksAt([x], 0) == TopSize(x)
  {
    assert [x][..0] == [];
    assert Write([]) + SectionLines(x) == SectionLines(x);
  }

  lemma LastNames(path: string, ts: seq<Token>, name: string)
    requires |ts| == 2 && ts[1].head == PlusSide(Some(name))
    ensures NameAfter(path, ts, 1) == name
  {
    NameSnoc(path, ts[..1], ts[1]);
    assert ts[..2] == ts[..1] + [ts[1]];
  }

  /** A hunk that adds one line, which reads as a +++ header. */
  predicate AddsHeader(b: Block, name: string) {
    BlockWritable(b) && |b.body| == 1 && b.body[0].op == '+' && PartLine(b.body[0]) == PLUS + name
  }

  lemma OnePlaced(uq: Unquote, d: seq<Section>, x: Section)
    requires d == [x] && SectionWritable(x) && Legible(x)
    ensures Writable(d) && Parsed(uq, Write(d)) == [PlacedFile(x, 0)]
  {
    WrittenParsesBack(uq, d);
    FilesAt(d, 0);
    assert d[..0] == [];
  }

  /** The line is listed under its file, and named after the header it reads
      as. */
  lemma {:induction false} AddedHeaderMovesAway(uq: Unquote, d: seq<Section>, x: Section, b: Block, name: string, p: nat)
    requires d == [x] && SectionWritable(x) && x.blocks == [b] && AddsHeader(b, name)
    requires SidePath(uq, name, "b/").Some? && p == TopSize(x) + 1 && Legible(x)
    ensures Writable(d) && Parsed(uq, Write(d)) == [PlacedFile(x, 0)]
    ensures |Write(d)| == p + 1 && Write(d)[p] == PLUS + name
    ensures NameAt(uq, Write(d), p) == SidePath(uq, name, "b/").value
  {
    OneBlock(b);
    OneSection(x);
    HeadOfPlus(uq, name);
    assert BlocksLines(x.blocks)[1] == PLUS + name;
    LastNames(Bare(x).path, HunkTokens(uq, x), SidePath(uq, name, "b/").value);
    NameInSection(uq, d, 0, 1, p);
    OnePlaced(uq, d, x);
  }

  /** A change to notes.md: one hunk, which adds the line "++ other". */
  function Notes(header: string): Section {
    Section("notes.md", "", Modified, false, [Block(header, HunkStarts(header), [Part('+', "++ other", false)])], "", "")
  }

  /** The parse lists that line under notes.md, and FileAt names it other. */
  lemma {:induction false} AddedLineMovesAway(uq: Unquote, header: string, d: seq<Section>)
    requires "@@" <= header && d == [Notes(header)]
    ensures Writable(d) && |Parsed(uq, Write(d))| == 1 && Parsed(uq, Write(d))[0].path == "notes.md"
    ensures |Write(d)| == 5 && Write(d)[4] == "+++ other" && NameAt(uq, Write(d), 4) == "other"
  {
    var x := Notes(header);
    NotesWritable(x, x.blocks[0], header);
    OtherSide(uq);
    AddedHeaderMovesAway(uq, d, x, x.blocks[0], "other", 4);
  }

  lemma NotesWritable(x: Section, b: Block, header: string)
    requires "@@" <= header && b == Block(header, HunkStarts(header), [Part('+', "++ other", false)])
    requires x == Section("notes.md", "", Modified, false, [b], "", "")
    ensures SectionWritable(x) && Legible(x) && AddsHeader(b, "other") && TopSize(x) == 3
  {
    NoSpaceNoSplit("notes.md");
    assert "+" + "++ other" == "+++ other" == PLUS + "other";
  }

  lemma OtherSide(uq: Unquote)
    ensures SidePath(uq, "other", "b/") == Some("other") && PLUS + "other" == "+++ other"
  {
    var name := "other";
    assert name[0] == 'o' && name[|name| - 1] == 'r' && "b/"[0] == 'b' && "/dev/null"[0] == '/';
  }

  lemma NoSpaceNoSplit(p: string)
    requires ' ' !in p
    ensures !Holds(p, SPLIT)
  {
    forall j: nat | j <= |p| ensures !(SPLIT <= p[j..]) {
      if j < |p| {
        assert p[j] != SPLIT[0];
      }
    }
  }
}
