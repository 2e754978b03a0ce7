/** A git diff written out line by line, and how the scan of
    internal/diffannot/parse.go reads each line. */
module DiffWriting {
  import opened Basics
  import opened Decimal
  import opened DiffParse
  import opened DiffLines

  /** A line of a hunk: its operator and its text; a backslash marks the line
      above as one without an end of line.  A blank line of context may have lost
      its operator. */
  datatype Part = Part(op: char, text: string, stripped: bool)

  /** A hunk: its header and the two starts the header gives. */
  datatype Block = Block(header: string, at: Starts, body: seq<Part>)

  /** One file's change; an old path only for a rename or a copy.  The notes are
      what git says of the two blobs, on an index line unless empty, and of how
      alike they are. */
  datatype Section = Section(
    path: string, oldPath: string, status: Status, binary: bool, blocks: seq<Block>, index: string, similarity: string)

  // ----- The writer -----

  function PartLine(p: Part): string { if p.stripped then "" else [p.op] + p.text }

  function BodyLines(body: seq<Part>): (ls: seq<string>)
    ensures |ls| == |body| && forall k :: 0 <= k < |body| ==> ls[k] == PartLine(body[k])
  {
    seq(|body|, k requires 0 <= k < |body| => PartLine(body[k]))
  }

  function BlockLines(b: Block): seq<string> { [b.header] + BodyLines(b.body) }

  function BlocksLines(bs: seq<Block>): (ls: seq<string>)
    ensures |ls| == BlocksSize(bs)
  {
    if bs == [] then [] else BlocksLines(bs[..|bs| - 1]) + BlockLines(bs[|bs| - 1])
  }

  function BlocksSize(bs: seq<Block>): nat {
    if bs == [] then 0 else BlocksSize(bs[..|bs| - 1]) + 1 + |bs[|bs| - 1].body|
  }

  function From(x: Section): string { if x.oldPath != "" then x.oldPath else x.path }

  function StatusLines(x: Section): seq<string> {
    match x.status
    case Modified => []
    case Added => ["new file mode 100644"]
    case Deleted => ["deleted file mode 100644"]
    case Renamed => ["similarity index " + x.similarity, RENAME_FROM + x.oldPath, RENAME_TO + x.path]
    case Copied => ["similarity index " + x.similarity, COPY_FROM + x.oldPath, COPY_TO + x.path]
  }

  function IndexLines(x: Section): seq<string> { if x.index == "" then [] else ["index " + x.index] }

  const NOWHERE := "/dev/null"

  function MinusSide(x: Section): string { if x.status == Added then NOWHERE else "a/" + From(x) }

  function NewSide(x: Section): string { if x.status == Deleted then NOWHERE else "b/" + x.path }

  /** A name as a side line ends it: a tab after one that holds a space. */
  function Tabbed(name: string): string { if ' ' in name then name + "\t" else name }

  function SideLines(x: Section): seq<string> {
    if x.binary then ["Binary files a/" + (From(x) + " and b/" + x.path + " differ")]
    else if x.blocks == [] then []
    else ["--- " + Tabbed(MinusSide(x)), PLUS + Tabbed(NewSide(x))]
  }

  function GitLine(x: Section): string { DIFF + ("a/" + From(x) + SPLIT + x.path) }

  /** How many lines are above a section's hunks. */
  function TopSize(x: Section): nat {
    var status := if x.status.Modified? then 0 else if x.status.Renamed? || x.status.Copied? then 3 else 1;
    var index := if x.index == "" then 0 else 1;
    var sides := if x.binary then 1 else if x.blocks == [] then 0 else 2;
    1 + (status + index) + sides
  }

  function TopLines(x: Section): (ls: seq<string>)
    ensures |ls| == TopSize(x)
  {
    [GitLine(x)] + NoteLines(x) + SideLines(x)
  }

  /** The lines between the header and the side lines. */
  function NoteLines(x: Section): seq<string> { StatusLines(x) + IndexLines(x) }

  function SectionLines(x: Section): (ls: seq<string>)
    ensures |ls| == TopSize(x) + BlocksSize(x.blocks)
  {
    TopLines(x) + BlocksLines(x.blocks)
  }

  function DiffSize(d: seq<Section>): nat {
    if d == [] then 0 else DiffSize(d[..|d| - 1]) + TopSize(d[|d| - 1]) + BlocksSize(d[|d| - 1].blocks)
  }

  function Write(d: seq<Section>): (ls: seq<string>)
    ensures |ls| == DiffSize(d)
  {
    if d == [] then [] else Write(d[..|d| - 1]) + SectionLines(d[|d| - 1])
  }

  // ----- What can be written so -----

  predicate Holds(s: string, sub: string) { exists j :: 0 <= j <= |s| && sub <= s[j..] }

  /** A path that needs no quotes. */
  predicate IsPlain(p: string) { '"' !in p && '\t' !in p }

  predicate PartWritable(p: Part) { p.op in " +-\\" && (p.stripped ==> p.op == ' ' && p.text == "") }

  predicate BlockWritable(b: Block) {
    && "@@" <= b.header && b.at == HunkStarts(b.header)
    && (forall k :: 0 <= k < |b.body| ==> PartWritable(b.body[k]))
  }

  predicate SectionWritable(x: Section) {
    && IsPlain(x.path) && '"' !in x.oldPath
    && (x.status.Renamed? || x.status.Copied? <==> x.oldPath != "") && x.oldPath != x.path
    && (x.binary ==> x.blocks == [])
    && (forall k :: 0 <= k < |x.blocks| ==> BlockWritable(x.blocks[k]))
  }

  predicate Writable(d: seq<Section>) { forall k :: 0 <= k < |d| ==> SectionWritable(d[k]) }

  // ----- Reading each kind of line -----

  /** What tells the prefixes apart. */
  lemma Marks(l: string)
    ensures DIFF <= l ==> |l| > 1 && l[0] == 'd' && l[1] == 'i'
    ensures "@@" <= l ==> l[0] == '@'
    ensures "new file mode" <= l ==> l[0] == 'n'
    ensures "deleted file mode" <= l ==> |l| > 1 && l[0] == 'd' && l[1] == 'e'
    ensures RENAME_FROM <= l ==> |l| > 7 && l[0] == 'r' && l[7] == 'f'
    ensures RENAME_TO <= l ==> |l| > 7 && l[0] == 'r' && l[7] == 't'
    ensures COPY_FROM <= l ==> |l| > 5 && l[0] == 'c' && l[5] == 'f'
    ensures COPY_TO <= l ==> |l| > 5 && l[0] == 'c' && l[5] == 't'
    ensures "Binary files " <= l ==> l[0] == 'B'
    ensures PLUS <= l ==> l[0] == '+'
    ensures l == "GIT binary patch" ==> l[0] == 'G'
    ensures "similarity index " <= l ==> l[0] == 's'
    ensures "index " <= l ==> l[0] == 'i'
  {
  }

  lemma PrefixOf(p: string, rest: string)
    ensures p <= p + rest && (p + rest)[|p|..] == rest
  {
  }

  lemma HeadOfRename(uq: Unquote, p: string)
    ensures HeadOf(uq, RENAME_FROM + p) == RenameFrom(p) && HeadOf(uq, RENAME_TO + p) == RenameTo(p)
  {
    PrefixOf(RENAME_FROM, p);
    PrefixOf(RENAME_TO, p);
    Marks(RENAME_FROM + p);
    Marks(RENAME_TO + p);
  }

  lemma HeadOfCopy(uq: Unquote, p: string)
    ensures HeadOf(uq, COPY_FROM + p) == CopyFrom(p) && HeadOf(uq, COPY_TO + p) == CopyTo(p)
  {
    PrefixOf(COPY_FROM, p);
    PrefixOf(COPY_TO, p);
    Marks(COPY_FROM + p);
    Marks(COPY_TO + p);
  }

  lemma {:induction false} HeadOfMode(uq: Unquote)
    ensures HeadOf(uq, "new file mode 100644") == NewMode && HeadOf(uq, "deleted file mode 100644") == DeletedMode
  {
    PrefixOf("new file mode", " 100644");
    PrefixOf("deleted file mode", " 100644");
    assert "new file mode" + " 100644" == "new file mode 100644";
    assert "deleted file mode" + " 100644" == "deleted file mode 100644";
    Marks("new file mode 100644");
    Marks("deleted file mode 100644");
  }

  /** The notes on the two blobs are passed over. */
  lemma HeadOfNotes(uq: Unquote, p: string)
    ensures HeadOf(uq, "similarity index " + p) == HeadOf(uq, "index " + p) == Other
  {
    PrefixOf("similarity index ", p);
    PrefixOf("index ", p);
    Marks("similarity index " + p);
    Marks("index " + p);
  }

  lemma HeadOfMinus(uq: Unquote, p: string)
    ensures HeadOf(uq, "--- " + p) == Other
  {
    var l := "--- " + p;
    assert l[0] == '-';
    Marks(l);
  }

  lemma HeadOfPlus(uq: Unquote, p: string)
    ensures HeadOf(uq, PLUS + p) == PlusSide(SidePath(uq, p, "b/"))
  {
    PrefixOf(PLUS, p);
    Marks(PLUS + p);
  }

  lemma HeadOfBinary(uq: Unquote, rest: string)
    ensures HeadOf(uq, "Binary files a/" + rest) == BinaryMark
  {
    var l := "Binary files a/" + rest;
    assert l == "Binary files " + ("a/" + rest);
    PrefixOf("Binary files ", "a/" + rest);
    Marks(l);
  }

  // ----- Paths -----

  lemma UnquotedPlain(uq: Unquote, p: string)
    requires '"' !in p
    ensures Unquoted(uq, p) == p
  {
  }

  /** The last place the mark between the header's two paths has in a path. */
  function SplitAt(p: string): (k: int)
    ensures -1 <= k && (k >= 0 ==> k + |SPLIT| <= |p| && SPLIT <= p[k..])
  {
    LastIndex(p, SPLIT, |p| - |SPLIT|)
  }

  /** The two paths the header line is read as: a new path that holds the mark is
      cut at the last. */
  function HeaderPaths(a: string, b: string): (string, string) {
    var k := SplitAt(b);
    if k < 0 then (a, b) else (a + SPLIT + b[..k], b[k + |SPLIT|..])
  }

  lemma {:induction false} GitPaths(uq: Unquote, a: string, b: string)
    requires '"' !in a && '"' !in b
    ensures GitHeaderPaths(uq, "a/" + a + SPLIT + b) == HeaderPaths(a, b)
  {
    var head := "a/" + a;
    GitPathsFrom(uq, a, b, head, head + SPLIT + b, SplitAt(b));
  }

  lemma {:induction false} GitPathsFrom(uq: Unquote, a: string, b: string, head: string, rest: string, k: int)
    requires '"' !in a && '"' !in b && head == "a/" + a && rest == head + SPLIT + b && k == SplitAt(b)
    ensures GitHeaderPaths(uq, rest) == if k < 0 then (a, b) else (a + SPLIT + b[..k], b[k + |SPLIT|..])
  {
    var j := |rest| - |SPLIT|;
    LastSplit(head, b, j);
    if k < 0 {
      assert LastIndex(rest, SPLIT, j) == |head|;
      CutAt(uq, rest, head, b, a);
    } else {
      assert LastIndex(rest, SPLIT, j) == |head| + |SPLIT| + k;
      CutAtMark(uq, rest, head, a, b, k, b[..k], b[k + |SPLIT|..]);
    }
  }

  lemma CutAtMark(uq: Unquote, rest: string, head: string, a: string, b: string, k: nat, c: string, d: string)
    requires k + |SPLIT| <= |b| && SPLIT <= b[k..] && c == b[..k] && d == b[k + |SPLIT|..]
    requires rest == head + SPLIT + b && LastIndex(rest, SPLIT, |rest| - |SPLIT|) == |head| + |SPLIT| + k
    requires head == "a/" + a && '"' !in a && '"' !in b
    ensures GitHeaderPaths(uq, rest) == (a + SPLIT + c, d)
  {
    CutTwice(head, b, k);
    OldWithMark(a, head, c);
    NoQuote(a, c);
    CutAt(uq, rest, head + SPLIT + c, d, a + SPLIT + c);
  }

  lemma NoQuote(a: string, c: string)
    requires '"' !in a && '"' !in c
    ensures '"' !in a + SPLIT + c
  {
  }

  lemma OldWithMark(a: string, head: string, c: string)
    requires head == "a/" + a
    ensures head + SPLIT + c == "a/" + (a + SPLIT + c)
  {
  }

  lemma CutTwice(head: string, b: string, k: nat)
    requires k + |SPLIT| <= |b| && SPLIT <= b[k..]
    ensures head + SPLIT + b == (head + SPLIT + b[..k]) + SPLIT + b[k + |SPLIT|..]
  {
    assert b == b[..k] + SPLIT + b[k + |SPLIT|..];
  }

  lemma CutAt(uq: Unquote, rest: string, head: string, b: string, a: string)
    requires rest == head + SPLIT + b && LastIndex(rest, SPLIT, |rest| - |SPLIT|) == |head|
    requires head == "a/" + a && '"' !in a && '"' !in b
    ensures GitHeaderPaths(uq, rest) == (a, b)
  {
    CutParts(head, b, rest);
    OldTrimmed(head, a);
    UnquotedPlain(uq, a);
    UnquotedPlain(uq, b);
  }

  lemma CutParts(head: string, b: string, rest: string)
    requires rest == head + SPLIT + b
    ensures rest[..|head|] == head && rest[|head| + |SPLIT|..] == b
  {
  }

  lemma OldTrimmed(head: string, a: string)
    requires head == "a/" + a
    ensures TrimPrefix(head, "a/") == a
  {
    PrefixOf("a/", a);
  }

  /** From a place on down, the last mark is the last of the new path's, else the
      header's own. */
  lemma {:induction false} LastSplit(head: string, b: string, j: nat)
    requires |head| <= j <= |head| + |b|
    ensures var k := LastIndex(b, SPLIT, j - |head| - |SPLIT|);
            LastIndex(head + SPLIT + b, SPLIT, j) == if k < 0 then |head| else |head| + |SPLIT| + k
    decreases j
  {
    var s, i := head + SPLIT + b, j - |head| - |SPLIT|;
    if j == |head| {
      assert s[j..] == SPLIT + b;
    } else {
      if i >= 0 {
        assert s[j..] == b[i..];
      } else {
        assert s[j] == SPLIT[j - |head|] != ' ';
      }
      LastSplit(head, b, j - 1);
    }
  }

  lemma {:induction false} LastIndexIsLast(s: string, sub: string, j: int, i: nat)
    requires j + |sub| <= |s| && i <= j && sub <= s[i..]
    ensures LastIndex(s, sub, j) >= i
    decreases j
  {
    if j > i { LastIndexIsLast(s, sub, j - 1, i); }
  }

  lemma SplitIff(p: string)
    ensures SplitAt(p) >= 0 <==> Holds(p, SPLIT)
  {
    forall i: nat | i <= |p| && SPLIT <= p[i..] ensures SplitAt(p) >= 0 {
      LastIndexIsLast(p, SPLIT, |p| - |SPLIT|, i);
    }
    if SplitAt(p) >= 0 { assert SPLIT <= p[SplitAt(p)..]; }
  }

  /** The header line alone gives both paths back if and only if the new one does
      not hold the mark. */
  lemma GitPathsIff(uq: Unquote, a: string, b: string)
    requires '"' !in a && '"' !in b
    ensures GitHeaderPaths(uq, "a/" + a + SPLIT + b) == (a, b) <==> !Holds(b, SPLIT)
  {
    GitPaths(uq, a, b);
    SplitIff(b);
  }

  lemma TabIsTrimmed(name: string)
    requires name != "" && '\t' !in name
    ensures TrimTab(Tabbed(name)) == name
  {
    assert (name + "\t")[..|name|] == name;
  }

  lemma PlusPath(uq: Unquote, p: string)
    requires IsPlain(p)
    ensures SidePath(uq, Tabbed("b/" + p), "b/") == Some(p) && SidePath(uq, Tabbed(NOWHERE), "b/").None?
  {
    var l := "b/" + p;
    PrefixOf("b/", p);
    TabIsTrimmed(l);
    TabIsTrimmed(NOWHERE);
    assert l[0] != NOWHERE[0];
  }

  predicate InQuotes(q: string) { |q| >= 2 && q[0] == '"' && q[|q| - 1] == '"' }

  /** A side line in quotes gives the path its quoting stands for; one whose quoting
      makes no sense gives itself. */
  lemma QuotedPath(uq: Unquote, q: string, p: string)
    requires InQuotes(q) && (uq(q) == Some("b/" + p) || (uq(q).None? && p == q))
    ensures SidePath(uq, q, "b/") == Some(p) && SidePath(uq, q + "\t", "b/") == Some(p)
  {
    PrefixOf("b/", p);
    assert (q + "\t")[..|q|] == q && q[0] != NOWHERE[0] && !("b/" <= q);
  }

  // ----- Hunk headers -----

  function Range(start: nat, count: nat): string {
    FormatNat(start) + if count == 1 then "" else "," + FormatNat(count)
  }

  /** A header as git writes it: a count of one is left out, and the enclosing
      function may follow. */
  function HeaderText(oldNo: nat, oldCount: nat, newNo: nat, newCount: nat, tail: string): string {
    "@@ -" + Range(oldNo, oldCount) + " +" + Range(newNo, newCount) + " @@" + tail
  }

  lemma {:induction false} WordEndIs(w: string, rest: string)
    requires (forall i :: 0 <= i < |w| ==> !IsSpace(w[i])) && (rest == "" || IsSpace(rest[0]))
    ensures WordEnd(w + rest) == |w|
  {
    if w == "" {
      assert w + rest == rest;
    } else {
      assert (w + rest)[1..] == w[1..] + rest;
      WordEndIs(w[1..], rest);
    }
  }

  lemma {:induction false} FieldsWord(w: string, rest: string)
    requires w != "" && (forall i :: 0 <= i < |w| ==> !IsSpace(w[i])) && (rest == "" || IsSpace(rest[0]))
    ensures Fields(w + rest) == [w] + Fields(rest)
  {
    WordEndIs(w, rest);
    assert (w + rest)[..|w|] == w && (w + rest)[|w|..] == rest;
  }

  predicate IsWord(w: string) { w != "" && forall i :: 0 <= i < |w| ==> !IsSpace(w[i]) }

  lemma NextWord(w: string, rest: string)
    requires IsWord(w) && (rest == "" || rest[0] == ' ')
    ensures Fields(w + rest) == [w] + Fields(rest) && Fields(" " + (w + rest)) == [w] + Fields(rest)
  {
    FieldsWord(w, rest);
    assert (" " + (w + rest))[1..] == w + rest;
  }

  lemma RangeHasNoSpace(start: nat, count: nat)
    ensures forall i :: 0 <= i < |Range(start, count)| ==> !IsSpace(Range(start, count)[i])
  {
    forall i | 0 <= i < |Range(start, count)| ensures !IsSpace(Range(start, count)[i]) {
      var c := Range(start, count)[i];
      assert IsDigit(c) || c == ',';
    }
  }

  lemma {:induction false} CommaAtIs(w: string, rest: string)
    requires ',' !in w && (rest == "" || rest[0] == ',')
    ensures CommaAt(w + rest) == |w|
  {
    if w == "" {
      assert w + rest == rest;
    } else {
      assert (w + rest)[1..] == w[1..] + rest;
      CommaAtIs(w[1..], rest);
    }
  }

  lemma RangeStarts(start: nat, count: nat)
    requires start <= MAX_INT
    ensures RangeStart(Range(start, count)) == start
  {
    var digits, rest := FormatNat(start), if count == 1 then "" else "," + FormatNat(count);
    assert forall i :: 0 <= i < |digits| ==> IsDigit(digits[i]);
    CommaAtIs(digits, rest);
    assert (digits + rest)[..|digits|] == digits;
    ParseFormat(start);
    assert IsDigit(digits[0]);
  }

  lemma WordRange(sign: string, start: nat, count: nat)
    requires sign in {"-", "+"}
    ensures sign <= sign + Range(start, count) && (sign + Range(start, count))[1..] == Range(start, count)
    ensures IsWord(sign + Range(start, count))
  {
    RangeHasNoSpace(start, count);
    PrefixOf(sign, Range(start, count));
  }

  lemma HeaderWords(a: string, b: string, tail: string)
    ensures "@@ " + a + " " + b + " @@" + tail == "@@" + (" " + (a + (" " + (b + (" " + ("@@" + tail))))))
  {
    assert "@@ " == "@@" + " " && " @@" == " " + "@@";
  }

  lemma HeaderFields(a: string, b: string, tail: string)
    requires IsWord(a) && IsWord(b) && (tail == "" || tail[0] == ' ')
    ensures Fields("@@ " + a + " " + b + " @@" + tail) == ["@@", a, b, "@@"] + Fields(tail)
  {
    var t3 := " " + ("@@" + tail);
    var t2 := " " + (b + t3);
    var t1 := " " + (a + t2);
    HeaderWords(a, b, tail);
    NextWord("@@", t1);
    NextWord(a, t2);
    NextWord(b, t3);
    NextWord("@@", tail);
    FourWords("@@", a, b, "@@", Fields(tail));
  }

  lemma FourWords(a: string, b: string, c: string, d: string, more: seq<string>)
    ensures [a] + ([b] + ([c] + ([d] + more))) == [a, b, c, d] + more
  {
  }

  /** A written header is read back to its two starts. */
  lemma HeaderIsRead(oldNo: nat, oldCount: nat, newNo: nat, newCount: nat, tail: string)
    requires oldNo <= MAX_INT && newNo <= MAX_INT && (tail == "" || tail[0] == ' ')
    ensures HunkStarts(HeaderText(oldNo, oldCount, newNo, newCount, tail)) == Starts(oldNo, newNo)
  {
    var x, y := "-" + Range(oldNo, oldCount), "+" + Range(newNo, newCount);
    WordRange("-", oldNo, oldCount);
    WordRange("+", newNo, newCount);
    HeaderFields(x, y, tail);
    HeaderSigns(Range(oldNo, oldCount), Range(newNo, newCount), tail);
    RangeStarts(oldNo, oldCount);
    RangeStarts(newNo, newCount);
    StartsRead(x, y, Fields(tail));
  }

  lemma HeaderSigns(a: string, b: string, tail: string)
    ensures "@@ -" + a + " +" + b + " @@" + tail == "@@ " + ("-" + a) + " " + ("+" + b) + " @@" + tail
  {
    assert "@@ -" == "@@ " + "-" && " +" == " " + "+";
  }

  lemma StartsRead(x: string, y: string, more: seq<string>)
    requires "-" <= x && "+" <= y
    ensures StartsOf(["@@", x, y, "@@"] + more, 1, Starts(0, 0)) == Starts(RangeStart(x[1..]), RangeStart(y[1..]))
  {
    var fields := ["@@", x, y, "@@"] + more;
    var a, c := RangeStart(x[1..]), RangeStart(y[1..]);
    assert y[0] == '+' && !("-" <= y);
    assert "@@"[0] == '@' && !("-" <= "@@") && !("+" <= "@@");
    assert fields[1] == x && fields[2] == y && fields[3] == "@@";
    StartsThird(fields, Starts(a, c));
    assert StartsOf(fields, 2, Starts(a, 0)) == StartsOf(fields, 3, Starts(a, c));
  }

  lemma StartsThird(fields: seq<string>, at: Starts)
    requires |fields| > 3 && fields[3] == "@@"
    ensures StartsOf(fields, 3, at) == at
  {
    assert "@@"[0] == '@' && !("-" <= "@@") && !("+" <= "@@");
  }

  // ----- The tokens of what is written -----

  predicate IsBody(ts: seq<Token>, body: seq<Part>) {
    && |ts| == |body|
    && (forall k :: 0 <= k < |body| ==> !ts[k].head.DiffGit? && ts[k].body == PartBody(body[k]))
  }

  /** What a line of a hunk is read as. */
  function PartBody(p: Part): Body { if p.op == '\\' then Marker else Content(p.op, p.text) }

  predicate IsHeader(t: Token, b: Block) {
    t.text == b.header && t.head == HunkHead(b.at) && t.body == Outside && InRange(b.at)
  }

  predicate IsBlock(ts: seq<Token>, b: Block) {
    |ts| == 1 + |b.body| && IsHeader(ts[0], b) && IsBody(ts[1..], b.body)
  }

  predicate AreBlocks(ts: seq<Token>, bs: seq<Block>) {
    && |ts| == BlocksSize(bs)
    && (bs != [] ==>
          var n := BlocksSize(bs[..|bs| - 1]);
          AreBlocks(ts[..n], bs[..|bs| - 1]) && IsBlock(ts[n..], bs[|bs| - 1]))
  }

  predicate IsTitle(t: Token) { !t.head.DiffGit? && !t.head.HunkHead? }

  /** A file as the lines above its hunks leave it. */
  function Titled(f: File, ts: seq<Token>): File {
    if ts == [] then f else Retitle(Titled(f, ts[..|ts| - 1]), ts[|ts| - 1].head)
  }

  /** The file the header line opens. */
  function Untouched(x: Section): File {
    var (a, b) := HeaderPaths(From(x), x.path);
    Opened(a, b)
  }

  /** That file as the status lines leave it: a rename and a copy name both
      paths. */
  function Named(x: Section): File {
    var f := Untouched(x).(status := x.status);
    if x.status.Renamed? || x.status.Copied? then f.(path := x.path, oldPath := x.oldPath) else f
  }

  /** A file as the side lines leave it: +++ names the path, unless the file is
      deleted. */
  function Sided(x: Section, f: File): File {
    if x.binary then f.(binary := true)
    else if x.blocks == [] || x.status.Deleted? then f
    else f.(path := x.path)
  }

  function Bare(x: Section): File { Sided(x, Named(x)) }

  predicate IsTop(ts: seq<Token>, x: Section) {
    && ts != [] && ts[0].head.DiffGit? && Opened(ts[0].head.oldPath, ts[0].head.newPath) == Untouched(x)
    && (forall k :: 0 < k < |ts| ==> IsTitle(ts[k]))
    && Titled(Untouched(x), ts[1..]) == Bare(x)
  }

  lemma TokensConcat(uq: Unquote, a: seq<string>, b: seq<string>)
    ensures Tokens(uq, a + b) == Tokens(uq, a) + Tokens(uq, b)
  {
  }

  lemma PartToken(uq: Unquote, p: Part)
    requires PartWritable(p)
    ensures var t := TokenOf(uq, PartLine(p)); !t.head.DiffGit? && t.body == PartBody(p)
  {
    var l := PartLine(p);
    if !p.stripped {
      assert l[0] == p.op && l[1..] == p.text;
      Marks(l);
    }
  }

  lemma HeaderToken(uq: Unquote, b: Block)
    requires BlockWritable(b)
    ensures IsHeader(TokenOf(uq, b.header), b)
  {
    HeaderInRange(b.header);
    Marks(b.header);
  }

  lemma BodyTokens(uq: Unquote, body: seq<Part>)
    requires forall k :: 0 <= k < |body| ==> PartWritable(body[k])
    ensures IsBody(Tokens(uq, BodyLines(body)), body)
  {
    forall k | 0 <= k < |body|
      ensures var t := Tokens(uq, BodyLines(body))[k]; !t.head.DiffGit? && t.body == PartBody(body[k])
    {
      PartToken(uq, body[k]);
    }
  }

  lemma BlockTokens(uq: Unquote, b: Block)
    requires BlockWritable(b)
    ensures IsBlock(Tokens(uq, BlockLines(b)), b)
  {
    HeaderToken(uq, b);
    BodyTokens(uq, b.body);
    TokensConcat(uq, [b.header], BodyLines(b.body));
    assert Tokens(uq, BlockLines(b))[1..] == Tokens(uq, BodyLines(b.body));
  }

  lemma {:induction false} BlocksTokens(uq: Unquote, bs: seq<Block>)
    requires forall k :: 0 <= k < |bs| ==> BlockWritable(bs[k])
    ensures AreBlocks(Tokens(uq, BlocksLines(bs)), bs)
  {
    if bs != [] {
      var init, b := bs[..|bs| - 1], bs[|bs| - 1];
      BlocksTokens(uq, init);
      BlockTokens(uq, b);
      Joined(uq, BlocksLines(init), BlockLines(b));
    }
  }

  lemma Joined(uq: Unquote, a: seq<string>, b: seq<string>)
    ensures Tokens(uq, a + b)[..|a|] == Tokens(uq, a) && Tokens(uq, a + b)[|a|..] == Tokens(uq, b)
  {
    TokensConcat(uq, a, b);
  }

  lemma GitToken(uq: Unquote, x: Section)
    requires SectionWritable(x)
    ensures var (a, b) := HeaderPaths(From(x), x.path); HeadOf(uq, GitLine(x)) == DiffGit(a, b)
  {
    PrefixOf(DIFF, "a/" + From(x) + SPLIT + x.path);
    GitPaths(uq, From(x), x.path);
  }

  /** Lines that retitle one file into another. */
  predicate Turns(uq: Unquote, ls: seq<string>, f: File, g: File) {
    (forall k :: 0 <= k < |ls| ==> IsTitle(TokenOf(uq, ls[k]))) && Titled(f, Tokens(uq, ls)) == g
  }

  lemma TurnsNone(uq: Unquote, f: File)
    ensures Turns(uq, [], f, f)
  {
  }

  lemma TurnsBy(uq: Unquote, l: string, f: File, head: Head)
    requires HeadOf(uq, l) == head && !head.DiffGit? && !head.HunkHead?
    ensures Turns(uq, [l], f, Retitle(f, head))
  {
    var ts := Tokens(uq, [l]);
    assert ts[..0] == [];
    assert Titled(f, []) == f;
    assert Titled(f, ts) == Retitle(Titled(f, ts[..0]), ts[0].head);
  }

  lemma {:induction false} TitledConcat(f: File, a: seq<Token>, b: seq<Token>)
    ensures Titled(f, a + b) == Titled(Titled(f, a), b)
  {
    if b == [] {
      assert a + b == a;
    } else {
      TitledConcat(f, a, b[..|b| - 1]);
      assert (a + b)[..|a + b| - 1] == a + b[..|b| - 1];
    }
  }

  lemma TurnsBoth(uq: Unquote, a: seq<string>, b: seq<string>, f: File, g: File, h: File)
    requires Turns(uq, a, f, g) && Turns(uq, b, g, h)
    ensures Turns(uq, a + b, f, h)
  {
    TokensConcat(uq, a, b);
    TitledConcat(f, Tokens(uq, a), Tokens(uq, b));
  }

  lemma TurnsTwo(uq: Unquote, l: string, m: string, f: File, one: Head, two: Head)
    requires HeadOf(uq, l) == one && !one.DiffGit? && !one.HunkHead?
    requires HeadOf(uq, m) == two && !two.DiffGit? && !two.HunkHead?
    ensures Turns(uq, [l, m], f, Retitle(Retitle(f, one), two))
  {
    TurnsBy(uq, l, f, one);
    TurnsBy(uq, m, Retitle(f, one), two);
    TurnsBoth(uq, [l], [m], f, Retitle(f, one), Retitle(Retitle(f, one), two));
    assert [l] + [m] == [l, m];
  }

  lemma {:induction false} StatusTurns(uq: Unquote, x: Section)
    requires SectionWritable(x)
    ensures Turns(uq, StatusLines(x), Untouched(x), Named(x))
  {
    match x.status
    case Modified => TurnsNone(uq, Untouched(x));
    case Added => ModeTurns(uq, Untouched(x));
    case Deleted => ModeTurns(uq, Untouched(x));
    case Renamed => RenameTurns(uq, x.similarity, x.oldPath, x.path, Untouched(x));
    case Copied => CopyTurns(uq, x.similarity, x.oldPath, x.path, Untouched(x));
  }

  lemma {:induction false} IndexTurns(uq: Unquote, x: Section, f: File)
    ensures Turns(uq, IndexLines(x), f, f)
  {
    if x.index == "" {
      TurnsNone(uq, f);
    } else {
      HeadOfNotes(uq, x.index);
      TurnsBy(uq, "index " + x.index, f, Other);
    }
  }

  lemma NoteTurns(uq: Unquote, x: Section)
    requires SectionWritable(x)
    ensures Turns(uq, NoteLines(x), Untouched(x), Named(x))
  {
    StatusTurns(uq, x);
    IndexTurns(uq, x, Named(x));
    TurnsBoth(uq, StatusLines(x), IndexLines(x), Untouched(x), Named(x), Named(x));
  }

  lemma {:induction false} ModeTurns(uq: Unquote, f: File)
    ensures Turns(uq, ["new file mode 100644"], f, f.(status := Added))
    ensures Turns(uq, ["deleted file mode 100644"], f, f.(status := Deleted))
  {
    HeadOfMode(uq);
    TurnsBy(uq, "new file mode 100644", f, NewMode);
    TurnsBy(uq, "deleted file mode 100644", f, DeletedMode);
  }

  /** A similarity line, then two that retitle. */
  lemma {:induction false} AlikeTurns(uq: Unquote, sim: string, l: string, m: string, f: File, g: File)
    requires Turns(uq, [l, m], f, g)
    ensures Turns(uq, ["similarity index " + sim, l, m], f, g)
  {
    HeadOfNotes(uq, sim);
    TurnsBy(uq, "similarity index " + sim, f, Other);
    TurnsBoth(uq, ["similarity index " + sim], [l, m], f, f, g);
    assert ["similarity index " + sim] + [l, m] == ["similarity index " + sim, l, m];
  }

  lemma RenameTurns(uq: Unquote, sim: string, a: string, b: string, f: File)
    ensures Turns(uq, ["similarity index " + sim, RENAME_FROM + a, RENAME_TO + b], f, f.(status := Renamed, oldPath := a, path := b))
  {
    HeadOfRename(uq, a);
    HeadOfRename(uq, b);
    TurnsTwo(uq, RENAME_FROM + a, RENAME_TO + b, f, RenameFrom(a), RenameTo(b));
    AlikeTurns(uq, sim, RENAME_FROM + a, RENAME_TO + b, f, f.(status := Renamed, oldPath := a, path := b));
  }

  lemma CopyTurns(uq: Unquote, sim: string, a: string, b: string, f: File)
    ensures Turns(uq, ["similarity index " + sim, COPY_FROM + a, COPY_TO + b], f, f.(status := Copied, oldPath := a, path := b))
  {
    HeadOfCopy(uq, a);
    HeadOfCopy(uq, b);
    TurnsTwo(uq, COPY_FROM + a, COPY_TO + b, f, CopyFrom(a), CopyTo(b));
    AlikeTurns(uq, sim, COPY_FROM + a, COPY_TO + b, f, f.(status := Copied, oldPath := a, path := b));
  }

  lemma {:induction false} SidesTurn(uq: Unquote, x: Section, f: File)
    requires SectionWritable(x)
    ensures Turns(uq, SideLines(x), f, Sided(x, f))
  {
    if x.binary {
      var rest := From(x) + " and b/" + x.path + " differ";
      HeadOfBinary(uq, rest);
      TurnsBy(uq, "Binary files a/" + rest, f, BinaryMark);
    } else if x.blocks == [] {
      TurnsNone(uq, f);
    } else {
      TwoSides(uq, Tabbed(MinusSide(x)), Tabbed(NewSide(x)), f);
      NewSideRead(uq, x, f);
    }
  }

  lemma NewSideRead(uq: Unquote, x: Section, f: File)
    requires SectionWritable(x)
    ensures Retitle(f, PlusSide(SidePath(uq, Tabbed(NewSide(x)), "b/"))) == if x.status.Deleted? then f else f.(path := x.path)
  {
    PlusPath(uq, x.path);
  }

  lemma TwoSides(uq: Unquote, m: string, p: string, f: File)
    ensures Turns(uq, ["--- " + m, PLUS + p], f, Retitle(f, PlusSide(SidePath(uq, p, "b/"))))
  {
    MinusTurns(uq, m, f);
    PlusTurns(uq, p, f);
    TurnsBoth(uq, ["--- " + m], [PLUS + p], f, f, Retitle(f, PlusSide(SidePath(uq, p, "b/"))));
    assert ["--- " + m] + [PLUS + p] == ["--- " + m, PLUS + p];
  }

  lemma MinusTurns(uq: Unquote, m: string, f: File)
    ensures Turns(uq, ["--- " + m], f, f)
  {
    HeadOfMinus(uq, m);
    TurnsBy(uq, "--- " + m, f, Other);
  }

  lemma {:induction false} PlusTurns(uq: Unquote, p: string, f: File)
    ensures Turns(uq, [PLUS + p], f, Retitle(f, PlusSide(SidePath(uq, p, "b/"))))
  {
    HeadOfPlus(uq, p);
    TurnsBy(uq, PLUS + p, f, PlusSide(SidePath(uq, p, "b/")));
  }

  lemma TopTokens(uq: Unquote, x: Section)
    requires SectionWritable(x)
    ensures IsTop(Tokens(uq, TopLines(x)), x)
  {
    GitToken(uq, x);
    NoteTurns(uq, x);
    SidesTurn(uq, x, Named(x));
    TurnsBoth(uq, NoteLines(x), SideLines(x), Untouched(x), Named(x), Bare(x));
    AfterGit(uq, x, GitLine(x), NoteLines(x) + SideLines(x));
    Regroup([GitLine(x)], NoteLines(x), SideLines(x));
  }

  lemma Regroup<T>(a: seq<T>, b: seq<T>, c: seq<T>)
    ensures a + b + c == a + (b + c)
  {
  }

  lemma AfterGit(uq: Unquote, x: Section, l: string, rest: seq<string>)
    requires var (a, b) := HeaderPaths(From(x), x.path); HeadOf(uq, l) == DiffGit(a, b)
    requires Turns(uq, rest, Untouched(x), Bare(x))
    ensures IsTop(Tokens(uq, [l] + rest), x)
  {
    Joined(uq, [l], rest);
    GitFirst(TokenOf(uq, l), Tokens(uq, rest), Tokens(uq, [l] + rest), x);
  }

  lemma GitFirst(t: Token, rest: seq<Token>, ts: seq<Token>, x: Section)
    requires ts != [] && ts[0] == t && ts[1..] == rest
    requires t.head.DiffGit? && Opened(t.head.oldPath, t.head.newPath) == Untouched(x)
    requires (forall k :: 0 <= k < |rest| ==> IsTitle(rest[k])) && Titled(Untouched(x), rest) == Bare(x)
    ensures IsTop(ts, x)
  {
    forall k | 0 < k < |ts| ensures IsTitle(ts[k]) { assert ts[k] == rest[k - 1]; }
  }
}
