/** Reading a git unified diff (internal/diffannot/parse.go): one forgiving
    scan over its lines.  strconv.Unquote is a parameter. */
module DiffParse {
  import opened Basics
  import opened Decimal

  type Unquote = string -> Option<string>

  datatype Status = Modified | Added | Deleted | Renamed | Copied

  /** A hunk line; idx is its place among the diff's lines, oldNo and newNo its
      numbers on each side, zero on the side it is not on. */
  datatype Line = Line(op: char, oldNo: int, newNo: int, text: string, idx: nat)

  datatype Hunk = Hunk(header: string, lines: seq<Line>)

  datatype File = File(path: string, oldPath: string, status: Status, binary: bool, add: nat, del: nat, hunks: seq<Hunk>)

  // ----- Paths -----

  function TrimPrefix(s: string, p: string): string { if p <= s then s[|p|..] else s }

  /** The last place of sub at or before j; -1 when there is none. */
  function LastIndex(s: string, sub: string, j: int): (k: int)
    requires j + |sub| <= |s|
    ensures -1 <= k && (k >= 0 ==> k <= j && sub <= s[k..])
    decreases j + 1
  {
    if j < 0 then -1 else if sub <= s[j..] then j else LastIndex(s, sub, j - 1)
  }

  function Unquoted(uq: Unquote, p: string): string {
    if |p| >= 2 && p[0] == '"' && p[|p| - 1] == '"' && uq(p).Some? then uq(p).value else p
  }

  const SPLIT := " b/"

  function GitHeaderPaths(uq: Unquote, rest: string): (string, string) {
    var j := LastIndex(rest, SPLIT, |rest| - |SPLIT|);
    if j >= 0 then (Unquoted(uq, TrimPrefix(rest[..j], "a/")), Unquoted(uq, rest[j + |SPLIT|..])) else (rest, rest)
  }

  function TrimTab(p: string): string { if p != "" && p[|p| - 1] == '\t' then p[..|p| - 1] else p }

  /** A side line's path; none for /dev/null. */
  function SidePath(uq: Unquote, p: string, prefix: string): Option<string> {
    var q := TrimTab(p);
    if q == "/dev/null" then None else Some(TrimPrefix(Unquoted(uq, q), prefix))
  }

  // ----- Hunk headers -----

  const MAX_INT: int := 0x7FFF_FFFF_FFFF_FFFF
  const MIN_INT: int := -0x8000_0000_0000_0000
  const WIDTH: int := 0x1_0000_0000_0000_0000

  /** Line numbers are 64-bit. */
  function Wrap(x: int): int { (x - MIN_INT) % WIDTH + MIN_INT }

  function Clamp(x: int): int { if x > MAX_INT then MAX_INT else if x < MIN_INT then MIN_INT else x }

  /** strconv.Atoi with its error dropped: zero for bad syntax, the nearest
      number for one out of range. */
  function Atoi(s: string): int {
    var digits := if s != "" && s[0] in "+-" then s[1..] else s;
    if digits == "" || !AllDigits(digits) then 0
    else
      var n: int := ParseNat(digits);
      Clamp(if s[0] == '-' then -n else n)
  }

  function CommaAt(s: string): (k: nat)
    ensures k <= |s| && (k < |s| ==> s[k] == ',')
    ensures forall i :: 0 <= i < k ==> s[i] != ','
  {
    if s == "" || s[0] == ',' then 0 else 1 + CommaAt(s[1..])
  }

  function RangeStart(r: string): int { Atoi(r[..CommaAt(r)]) }

  function WordEnd(s: string): (k: nat)
    ensures k <= |s| && (k < |s| ==> IsSpace(s[k]))
    ensures forall i :: 0 <= i < k ==> !IsSpace(s[i])
  {
    if s == "" || IsSpace(s[0]) then 0 else 1 + WordEnd(s[1..])
  }

  /** The words between the spaces. */
  function Fields(s: string): seq<string>
    decreases |s|
  {
    if s == "" then []
    else if IsSpace(s[0]) then Fields(s[1..])
    else [s[..WordEnd(s)]] + Fields(s[WordEnd(s)..])
  }

  datatype Starts = Starts(oldNo: int, newNo: int)

  /** Read the words after the first up to the closing @@. */
  function StartsOf(fields: seq<string>, k: nat, at: Starts): Starts
    requires k <= |fields|
    decreases |fields| - k
  {
    if k == |fields| then at
    else
      var f := fields[k];
      if "-" <= f then StartsOf(fields, k + 1, at.(oldNo := RangeStart(f[1..])))
      else if "+" <= f then StartsOf(fields, k + 1, at.(newNo := RangeStart(f[1..])))
      else if f == "@@" then at
      else StartsOf(fields, k + 1, at)
  }

  function HunkStarts(h: string): Starts {
    if Fields(h) == [] then Starts(0, 0) else StartsOf(Fields(h), 1, Starts(0, 0))
  }

  // ----- Lines, classed -----

  /** What a line is outside a hunk, read: a file's two paths, a hunk's starts,
      a side line's path. */
  datatype Head =
    | DiffGit(oldPath: string, newPath: string) | HunkHead(at: Starts) | NewMode | DeletedMode
    | RenameFrom(p: string) | RenameTo(p: string) | CopyFrom(p: string) | CopyTo(p: string)
    | BinaryMark | PlusSide(side: Option<string>) | Other

  const DIFF := "diff --git "
  const RENAME_FROM := "rename from "
  const RENAME_TO := "rename to "
  const COPY_FROM := "copy from "
  const COPY_TO := "copy to "
  const PLUS := "+++ "

  function HeadOf(uq: Unquote, l: string): Head {
    if DIFF <= l then
      var paths := GitHeaderPaths(uq, l[|DIFF|..]);
      DiffGit(paths.0, paths.1)
    else if "@@" <= l then HunkHead(HunkStarts(l))
    else if "new file mode" <= l then NewMode
    else if "deleted file mode" <= l then DeletedMode
    else if RENAME_FROM <= l then RenameFrom(l[|RENAME_FROM|..])
    else if RENAME_TO <= l then RenameTo(l[|RENAME_TO|..])
    else if COPY_FROM <= l then CopyFrom(l[|COPY_FROM|..])
    else if COPY_TO <= l then CopyTo(l[|COPY_TO|..])
    else if "Binary files " <= l || l == "GIT binary patch" then BinaryMark
    else if PLUS <= l then PlusSide(SidePath(uq, l[|PLUS|..], "b/"))
    else Other
  }

  /** What a line is inside a hunk. */
  datatype Body = Content(op: char, text: string) | Marker | Outside

  function BodyOf(l: string): Body {
    if l == "" then Content(' ', "")
    else if l[0] in " +-" then Content(l[0], l[1..])
    else if l[0] == '\\' then Marker
    else Outside
  }

  datatype Token = Token(text: string, head: Head, body: Body)

  function TokenOf(uq: Unquote, l: string): Token { Token(l, HeadOf(uq, l), BodyOf(l)) }

  function Tokens(uq: Unquote, ls: seq<string>): (ts: seq<Token>)
    ensures |ts| == |ls| && forall k :: 0 <= k < |ls| ==> ts[k] == TokenOf(uq, ls[k])
  {
    seq(|ls|, k requires 0 <= k < |ls| => TokenOf(uq, ls[k]))
  }

  // ----- The scan -----

  datatype State = State(files: seq<File>, cur: Option<File>, hunk: Option<Hunk>, oldNo: int, newNo: int)

  const START := State([], None, None, 0, 0)

  function FlushHunk(s: State): State {
    if s.cur.Some? && s.hunk.Some? then
      s.(cur := Some(s.cur.value.(hunks := s.cur.value.hunks + [s.hunk.value])), hunk := None)
    else s.(hunk := None)
  }

  function FlushFile(s: State): State {
    var t := FlushHunk(s);
    if t.cur.Some? then t.(files := t.files + [t.cur.value], cur := None) else t
  }

  function Opened(oldPath: string, newPath: string): File {
    File(newPath, if oldPath != newPath then oldPath else "", Modified, false, 0, 0, [])
  }

  function AddLine(s: State, i: nat, op: char, text: string): State
    requires s.cur.Some? && s.hunk.Some?
  {
    var l := Line(op, if op == '+' then 0 else s.oldNo, if op == '-' then 0 else s.newNo, text, i);
    var f := s.cur.value;
    s.(hunk := Some(Hunk(s.hunk.value.header, s.hunk.value.lines + [l])),
       oldNo := if op == '+' then s.oldNo else Wrap(s.oldNo + 1),
       newNo := if op == '-' then s.newNo else Wrap(s.newNo + 1),
       cur := Some(f.(add := if op == '+' then f.add + 1 else f.add, del := if op == '-' then f.del + 1 else f.del)))
  }

  function Retitle(f: File, head: Head): File {
    match head
    case NewMode => f.(status := Added)
    case DeletedMode => f.(status := Deleted)
    case RenameFrom(p) => f.(status := Renamed, oldPath := p)
    case RenameTo(p) => f.(path := p)
    case CopyFrom(p) => f.(status := Copied, oldPath := p)
    case CopyTo(p) => f.(path := p)
    case BinaryMark => f.(binary := true)
    case PlusSide(side) => if side.Some? then f.(path := side.value) else f
    case _ => f
  }

  function OpenHunk(s: State, header: string, at: Starts): State {
    s.(hunk := Some(Hunk(header, [])), oldNo := at.oldNo, newNo := at.newNo)
  }

  function Step(s: State, i: nat, t: Token): State {
    if t.head.DiffGit? then FlushFile(s).(cur := Some(Opened(t.head.oldPath, t.head.newPath)))
    else if s.cur.None? then s
    else if s.hunk.Some? && t.body != Outside then
      if t.body == Marker then s else AddLine(s, i, t.body.op, t.body.text)
    else
      var u := FlushHunk(s);
      if t.head.HunkHead? then OpenHunk(u, t.text, t.head.at) else u.(cur := Some(Retitle(u.cur.value, t.head)))
  }

  const READ: (State, nat, Token) -> State := (s: State, i: nat, t: Token) => Step(s, i, t)

  /** Tokens read from s on, the first of them the i-th of the diff. */
  function Feed(s: State, i: nat, ts: seq<Token>): State { FoldAt(READ, s, i, ts) }

  /** What is left of the old path at the end. */
  function Settle(f: File): File {
    if f.status == Deleted || f.status == Added || f.oldPath == f.path then f.(oldPath := "") else f
  }

  function SettleAll(fs: seq<File>): (r: seq<File>)
    ensures |r| == |fs| && forall k :: 0 <= k < |fs| ==> r[k] == Settle(fs[k])
  {
    seq(|fs|, k requires 0 <= k < |fs| => Settle(fs[k]))
  }

  function Parsed(uq: Unquote, lines: seq<string>): seq<File> {
    SettleAll(FlushFile(Feed(START, 0, Tokens(uq, lines))).files)
  }

  lemma FeedSnoc(s: State, i: nat, ts: seq<Token>, t: Token)
    ensures Feed(s, i, ts + [t]) == Step(Feed(s, i, ts), i + |ts|, t)
  {
    FoldSnoc(READ, s, i, ts, t);
  }

  lemma FeedConcat(s: State, i: nat, a: seq<Token>, b: seq<Token>)
    ensures Feed(s, i, a + b) == Feed(Feed(s, i, a), i + |a|, b)
  {
    FoldConcat(READ, s, i, a, b);
  }

  lemma FeedOne(s: State, i: nat, t: Token)
    ensures Feed(s, i, [t]) == Step(s, i, t)
  {
    FoldSnoc(READ, s, i, [], t);
    assert [] + [t] == [t];
  }

  // ----- The scanning loop -----

  method ReadStarts(h: string) returns (oldNo: int, newNo: int)
    ensures Starts(oldNo, newNo) == HunkStarts(h)
  {
    oldNo, newNo := 0, 0;
    var fields := Fields(h);
    var k := 1;
    while k < |fields|
      invariant fields != [] ==> 1 <= k <= |fields| && StartsOf(fields, k, Starts(oldNo, newNo)) == HunkStarts(h)
      invariant fields == [] ==> k == 1 && oldNo == 0 && newNo == 0
    {
      var f := fields[k];
      if "-" <= f {
        oldNo := RangeStart(f[1..]);
      } else if "+" <= f {
        newNo := RangeStart(f[1..]);
      } else if f == "@@" {
        return;
      }
      k := k + 1;
    }
  }

  /** One line of the loop. */
  method TakeLine(uq: Unquote, i: nat, l: string, s: State)
    returns (files: seq<File>, cur: Option<File>, hunk: Option<Hunk>, oldNo: int, newNo: int)
    ensures State(files, cur, hunk, oldNo, newNo) == Step(s, i, TokenOf(uq, l))
  {
    files, cur, hunk, oldNo, newNo := s.files, s.cur, s.hunk, s.oldNo, s.newNo;
    var head := HeadOf(uq, l);
    if head.DiffGit? {
      if cur.Some? {
        files := files + [if hunk.Some? then cur.value.(hunks := cur.value.hunks + [hunk.value]) else cur.value];
      }
      hunk := None;
      cur := Some(Opened(head.oldPath, head.newPath));
      return;
    }
    if cur.None? {
      return;
    }
    if hunk.Some? {
      match BodyOf(l) {
        case Content(op, text) =>
          var line := Line(op, if op == '+' then 0 else oldNo, if op == '-' then 0 else newNo, text, i);
          hunk := Some(hunk.value.(lines := hunk.value.lines + [line]));
          if op != '+' { oldNo := Wrap(oldNo + 1); } else { cur := Some(cur.value.(add := cur.value.add + 1)); }
          if op != '-' { newNo := Wrap(newNo + 1); } else { cur := Some(cur.value.(del := cur.value.del + 1)); }
          return;
        case Marker => return;
        case Outside =>
          cur := Some(cur.value.(hunks := cur.value.hunks + [hunk.value]));
          hunk := None;
      }
    }
    if head.HunkHead? {
      hunk := Some(Hunk(l, []));
      oldNo, newNo := ReadStarts(l);
    } else {
      cur := Some(Retitle(cur.value, head));
    }
  }

  method Parse(uq: Unquote, lines: seq<string>) returns (files: seq<File>)
    ensures files == Parsed(uq, lines)
  {
    files := [];
    var cur: Option<File> := None;
    var hunk: Option<Hunk> := None;
    var oldNo, newNo := 0, 0;
    var i := 0;
    while i < |lines|
      invariant 0 <= i <= |lines|
      invariant State(files, cur, hunk, oldNo, newNo) == Feed(START, 0, Tokens(uq, lines[..i]))
    {
      FeedSnoc(START, 0, Tokens(uq, lines[..i]), TokenOf(uq, lines[i]));
      assert Tokens(uq, lines[..i + 1]) == Tokens(uq, lines[..i]) + [TokenOf(uq, lines[i])];
      files, cur, hunk, oldNo, newNo := TakeLine(uq, i, lines[i], State(files, cur, hunk, oldNo, newNo));
      i := i + 1;
    }
    assert lines[..i] == lines;
    if cur.Some? {
      files := files + [if hunk.Some? then cur.value.(hunks := cur.value.hunks + [hunk.value]) else cur.value];
    }
    files := SettleFiles(files);
  }

  method SettleFiles(files: seq<File>) returns (settled: seq<File>)
    ensures settled == SettleAll(files)
  {
    settled := files;
    var k := 0;
    while k < |files|
      invariant 0 <= k <= |files| == |settled|
      invariant forall j :: 0 <= j < k ==> settled[j] == Settle(files[j])
      invariant forall j :: k <= j < |files| ==> settled[j] == files[j]
    {
      var f := settled[k];
      if f.status == Deleted || f.status == Added {
        f := f.(oldPath := "");
      }
      if f.oldPath == f.path {
        f := f.(oldPath := "");
      }
      settled := settled[k := f];
      k := k + 1;
    }
  }
}
