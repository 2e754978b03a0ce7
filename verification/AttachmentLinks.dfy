/** The attachment link a card's text holds (internal/attachment/attachment.go):
    its writer, and the scanner that lists the ids a text names. */
module AttachmentLinks {
  import opened Basics

  datatype Ref = Ref(id: string, name: string, mediaType: string)

  /** The extension of each media type taken; none for any other. */
  function Ext(mediaType: string): string {
    if mediaType == "image/png" then "png"
    else if mediaType == "image/jpeg" then "jpg"
    else if mediaType == "image/gif" then "gif"
    else if mediaType == "image/webp" then "webp"
    else if mediaType == "image/svg+xml" then "svg"
    else ""
  }

  predicate IsKnown(mediaType: string) {
    mediaType in {"image/png", "image/jpeg", "image/gif", "image/webp", "image/svg+xml"}
  }

  predicate IsHex(c: char) { '0' <= c <= '9' || 'a' <= c <= 'f' }

  predicate IsAlnum(c: char) { '0' <= c <= '9' || 'a' <= c <= 'z' || 'A' <= c <= 'Z' }

  predicate IsId(s: string) { |s| == 64 && forall i :: 0 <= i < |s| ==> IsHex(s[i]) }

  const OPEN := "!["
  const PATH := "](.gummi/attachments/"

  /** A name that would break the link's own alt text gives way to the file's. */
  function LinkName(ref: Ref): string {
    if ref.name == "" || ']' in ref.name || '\n' in ref.name then ref.id + "." + Ext(ref.mediaType) else ref.name
  }

  function Link(ref: Ref): string {
    OPEN + LinkName(ref) + PATH + ref.id + "." + Ext(ref.mediaType) + ")"
  }

  /** The media types taken, and the extension each is stored under. */
  const TAKEN: set<(string, string)> :=
    {("image/png", "png"), ("image/jpeg", "jpg"), ("image/gif", "gif"), ("image/webp", "webp"), ("image/svg+xml", "svg")}

  /** A link shows the name the image was uploaded under, unless that is missing
      or would break the alt text, and leads to the file the image is stored in. */
  lemma LinkShows(ref: Ref, ext: string)
    requires (ref.mediaType, ext) in TAKEN
    ensures var file := ref.id + "." + ext;
            var alt := if ref.name != "" && ']' !in ref.name && '\n' !in ref.name then ref.name else file;
            Link(ref) == "![" + alt + "](.gummi/attachments/" + file + ")"
  {
    assert Ext(ref.mediaType) == ext;
    var head := OPEN + LinkName(ref) + PATH;
    assert head + ref.id + "." + ext + ")" == head + (ref.id + "." + ext) + ")";
  }

  /** Two links to one file are to one image of one type. */
  lemma OneFileOneImage(a: Ref, b: Ref)
    requires IsKnown(a.mediaType) && IsKnown(b.mediaType) && |a.id| == |b.id|
    ensures a.id + "." + Ext(a.mediaType) == b.id + "." + Ext(b.mediaType) <==> a.id == b.id && a.mediaType == b.mediaType
  {
    var x, y := a.id + "." + Ext(a.mediaType), b.id + "." + Ext(b.mediaType);
    assert x[..|a.id|] == a.id && x[|a.id| + 1..] == Ext(a.mediaType);
    assert y[..|b.id|] == b.id && y[|b.id| + 1..] == Ext(b.mediaType);
    if x == y { ExtTells(a.mediaType, b.mediaType); }
  }

  lemma ExtTells(a: string, b: string)
    requires IsKnown(a) && IsKnown(b) && Ext(a) == Ext(b)
    ensures a == b
  {
  }

  // ----- The pattern -----

  /** What the pattern accepts: an alt text without its closing bracket, an id,
      a file extension. */
  ghost predicate Accepts(s: string, id: string) {
    exists alt: string, ext: string ::
      s == OPEN + alt + PATH + id + "." + ext + ")" && ']' !in alt && IsId(id) && IsExt(ext)
  }

  predicate IsExt(ext: string) { ext != "" && forall i :: 0 <= i < |ext| ==> IsAlnum(ext[i]) }

  predicate StartsAt(text: string, i: nat, s: string) {
    i + |s| <= |text| && text[i..i + |s|] == s
  }

  /** The first closing bracket from i on. */
  function AltEnd(text: string, i: nat): (a: nat)
    requires i <= |text|
    ensures i <= a <= |text|
    ensures forall k :: i <= k < a ==> text[k] != ']'
    ensures a < |text| ==> text[a] == ']'
    decreases |text| - i
  {
    if i == |text| || text[i] == ']' then i else AltEnd(text, i + 1)
  }

  function ExtEnd(text: string, i: nat): (e: nat)
    requires i <= |text|
    ensures i <= e <= |text|
    ensures forall k :: i <= k < e ==> IsAlnum(text[k])
    ensures e < |text| ==> !IsAlnum(text[e])
    decreases |text| - i
  {
    if i == |text| || !IsAlnum(text[i]) then i else ExtEnd(text, i + 1)
  }

  datatype Match = Match(start: nat, end: nat, id: string)

  /** The rest of a link whose alt text starts at start and ends at a. */
  function TailAt(text: string, start: nat, a: nat): (m: Option<Match>)
    requires a <= |text|
    ensures m.Some? ==> a + |PATH| + 66 < m.value.end <= |text| && m.value.start == start
  {
    var h := a + |PATH|;
    var d := h + 64;
    if !StartsAt(text, a, PATH) || d > |text| || !IsId(text[h..d]) || !StartsAt(text, d, ".") then None
    else
      var e := ExtEnd(text, d + 1);
      if e == d + 1 || !StartsAt(text, e, ")") then None else Some(Match(start, e + 1, text[h..d]))
  }

  function MatchAt(text: string, i: nat): (m: Option<Match>)
    ensures m.Some? ==> m.value.start == i && i < m.value.end <= |text|
  {
    if StartsAt(text, i, OPEN) then TailAt(text, i, AltEnd(text, i + |OPEN|)) else None
  }

  lemma AltEndIs(text: string, i: nat, a: nat)
    requires i <= a <= |text| && (forall k :: i <= k < a ==> text[k] != ']') && (a < |text| ==> text[a] == ']')
    ensures AltEnd(text, i) == a
  {
  }

  lemma ExtEndIs(text: string, i: nat, e: nat)
    requires i <= e <= |text| && (forall k :: i <= k < e ==> IsAlnum(text[k])) && (e < |text| ==> !IsAlnum(text[e]))
    ensures ExtEnd(text, i) == e
  {
  }

  /** Where each part of a laid-out link is. */
  lemma Layout(text: string, i: nat, alt: string, id: string, ext: string)
    requires StartsAt(text, i, OPEN + alt + PATH + id + "." + ext + ")") && |id| == 64
    ensures var a := i + |OPEN| + |alt|; var h := a + |PATH|; var d := h + 64; var e := d + 1 + |ext|;
            && e + 1 == i + |OPEN + alt + PATH + id + "." + ext + ")"| <= |text|
            && StartsAt(text, i, OPEN) && text[i + |OPEN|..a] == alt && StartsAt(text, a, PATH) && text[h..d] == id
            && StartsAt(text, d, ".") && text[d + 1..e] == ext && StartsAt(text, e, ")")
  {
    var head := OPEN + alt + PATH;
    var tail := id + "." + ext + ")";
    assert OPEN + alt + PATH + id + "." + ext + ")" == head + tail;
    Sub(text, i, head + tail, 0, |head|);
    Sub(text, i, head + tail, |head|, |head + tail|);
    assert (head + tail)[..|head|] == head && (head + tail)[|head|..] == tail;
    LayoutHead(text, i, alt);
    LayoutTail(text, i + |head|, id, ext);
  }

  lemma LayoutHead(text: string, i: nat, alt: string)
    requires StartsAt(text, i, OPEN + alt + PATH)
    ensures var a := i + |OPEN| + |alt|;
            StartsAt(text, i, OPEN) && text[i + |OPEN|..a] == alt && StartsAt(text, a, PATH)
  {
    var s, a := OPEN + alt + PATH, |OPEN| + |alt|;
    Sub(text, i, s, 0, |OPEN|);
    Sub(text, i, s, |OPEN|, a);
    Sub(text, i, s, a, |s|);
    assert s[..|OPEN|] == OPEN && s[|OPEN|..a] == alt && s[a..] == PATH;
  }

  lemma LayoutTail(text: string, h: nat, id: string, ext: string)
    requires StartsAt(text, h, id + "." + ext + ")")
    ensures var d := h + |id|; var e := d + 1 + |ext|;
            text[h..d] == id && StartsAt(text, d, ".") && text[d + 1..e] == ext && StartsAt(text, e, ")")
  {
    var s, e := id + "." + ext + ")", |id| + 1 + |ext|;
    Sub(text, h, s, 0, |id|);
    Sub(text, h, s, |id|, |id| + 1);
    Sub(text, h, s, |id| + 1, e);
    Sub(text, h, s, e, e + 1);
    assert s[..|id|] == id && s[|id|..|id| + 1] == "." && s[|id| + 1..e] == ext && s[e..e + 1] == ")";
  }

  lemma Sub(text: string, i: nat, s: string, j: nat, k: nat)
    requires StartsAt(text, i, s) && j <= k <= |s|
    ensures text[i + j..i + k] == s[j..k]
  {
    forall x | 0 <= x < k - j ensures text[i + j..i + k][x] == s[j..k][x] {
      assert text[i..i + |s|][j + x] == s[j + x];
    }
  }

  lemma SliceAt(text: string, i: nat, s: string, k: nat)
    requires i + |s| <= |text| && text[i..i + |s|] == s && i <= k < i + |s|
    ensures text[k] == s[k - i]
  {
    assert text[i..i + |s|][k - i] == text[k];
  }

  /** A laid-out link is matched where it starts, whatever is around it. */
  lemma LaidOutMatches(text: string, i: nat, alt: string, id: string, ext: string)
    requires StartsAt(text, i, OPEN + alt + PATH + id + "." + ext + ")")
    requires ']' !in alt && IsId(id) && IsExt(ext)
    ensures MatchAt(text, i) == Some(Match(i, i + |OPEN + alt + PATH + id + "." + ext + ")"|, id))
  {
    Layout(text, i, alt, id, ext);
    var a := i + |OPEN| + |alt|;
    var d := a + |PATH| + 64;
    AltIs(text, i + |OPEN|, a, alt);
    ExtIs(text, d + 1, d + 1 + |ext|, ext);
    TailIs(text, i, a, d + 1 + |ext|, id);
  }

  lemma AltIs(text: string, i: nat, a: nat, alt: string)
    requires i <= a <= |text| && text[i..a] == alt && ']' !in alt && StartsAt(text, a, PATH)
    ensures AltEnd(text, i) == a
  {
    forall k | i <= k < a ensures text[k] != ']' { SliceAt(text, i, alt, k); }
    SliceAt(text, a, PATH, a);
    AltEndIs(text, i, a);
  }

  lemma ExtIs(text: string, i: nat, e: nat, ext: string)
    requires i <= e <= |text| && text[i..e] == ext && IsExt(ext) && StartsAt(text, e, ")")
    ensures ExtEnd(text, i) == e
  {
    forall k | i <= k < e ensures IsAlnum(text[k]) { SliceAt(text, i, ext, k); }
    SliceAt(text, e, ")", e);
    ExtEndIs(text, i, e);
  }

  lemma TailIs(text: string, start: nat, a: nat, e: nat, id: string)
    requires StartsAt(text, a, PATH) && a + |PATH| + 65 < e <= |text| && text[a + |PATH|..a + |PATH| + 64] == id && IsId(id)
    requires StartsAt(text, a + |PATH| + 64, ".") && ExtEnd(text, a + |PATH| + 65) == e && StartsAt(text, e, ")")
    ensures TailAt(text, start, a) == Some(Match(start, e + 1, id))
  {
  }

  lemma Rejoin(text: string, i: nat, a: nat, h: nat, d: nat, e: nat)
    requires StartsAt(text, i, OPEN) && i + |OPEN| <= a && a + |PATH| == h && StartsAt(text, a, PATH) && d == h + 64
    requires StartsAt(text, d, ".") && d + 1 <= e && StartsAt(text, e, ")")
    ensures text[i..e + 1] == OPEN + text[i + |OPEN|..a] + PATH + text[h..d] + "." + text[d + 1..e] + ")"
  {
    Glue(text, i, i + |OPEN|, a);
    Glue(text, i, a, h);
    Glue(text, i, h, d);
    Glue(text, i, d, d + 1);
    Glue(text, i, d + 1, e);
    Glue(text, i, e, e + 1);
  }

  lemma Glue(text: string, i: nat, j: nat, k: nat)
    requires i <= j <= k <= |text|
    ensures text[i..k] == text[i..j] + text[j..k]
  {
  }

  /** The matcher finds at i exactly what the pattern accepts from i on. */
  lemma MatchIsPattern(text: string, i: nat, end: nat, id: string)
    requires i <= end <= |text|
    ensures MatchAt(text, i) == Some(Match(i, end, id)) <==> Accepts(text[i..end], id)
  {
    if MatchAt(text, i) == Some(Match(i, end, id)) {
      MatchIsAccepted(text, i);
    }
    if Accepts(text[i..end], id) {
      var alt: string, ext: string :|
        text[i..end] == OPEN + alt + PATH + id + "." + ext + ")" && ']' !in alt && IsId(id) && IsExt(ext);
      LaidOutMatches(text, i, alt, id, ext);
    }
  }

  lemma MatchIsAccepted(text: string, i: nat)
    requires MatchAt(text, i).Some?
    ensures Accepts(text[i..MatchAt(text, i).value.end], MatchAt(text, i).value.id)
  {
    var a, m := AltEnd(text, i + |OPEN|), MatchAt(text, i).value;
    var h := a + |PATH|;
    var d := h + 64;
    MatchParts(text, i, a, h, d, m);
    Rejoin(text, i, a, h, d, m.end - 1);
    LaidOutIsAccepted(text[i + |OPEN|..a], m.id, text[d + 1..m.end - 1], text[i..m.end]);
  }

  lemma MatchParts(text: string, i: nat, a: nat, h: nat, d: nat, m: Match)
    requires MatchAt(text, i) == Some(m) && a == AltEnd(text, i + |OPEN|) && h == a + |PATH| && d == h + 64
    ensures StartsAt(text, i, OPEN) && StartsAt(text, a, PATH) && StartsAt(text, d, ".") && d + 1 < m.end - 1
            && StartsAt(text, m.end - 1, ")")
    ensures ']' !in text[i + |OPEN|..a] && m.id == text[h..d] && IsId(m.id) && IsExt(text[d + 1..m.end - 1])
  {
  }

  lemma LaidOutIsAccepted(alt: string, id: string, ext: string, s: string)
    requires s == OPEN + alt + PATH + id + "." + ext + ")"
    requires ']' !in alt && IsId(id) && IsExt(ext)
    ensures Accepts(s, id)
  {
  }

  // ----- Leftmost, non-overlapping -----

  function Matches(text: string, i: nat): seq<Match>
    requires i <= |text|
    decreases |text| - i
  {
    if i == |text| then []
    else
      var m := MatchAt(text, i);
      if m.Some? then [m.value] + Matches(text, m.value.end) else Matches(text, i + 1)
  }

  ghost predicate InOrder(text: string, i: nat, ms: seq<Match>) {
    && (forall k :: 0 <= k < |ms| ==> i <= ms[k].start && MatchAt(text, ms[k].start) == Some(ms[k]))
    && (forall j, k :: 0 <= j < k < |ms| ==> ms[j].end <= ms[k].start)
  }

  ghost predicate Covered(ms: seq<Match>, i: nat) {
    exists k :: 0 <= k < |ms| && ms[k].start <= i < ms[k].end
  }

  lemma Prepend(text: string, i: nat, m: Match, rest: seq<Match>)
    requires MatchAt(text, i) == Some(m) && InOrder(text, m.end, rest)
    ensures InOrder(text, i, [m] + rest)
  {
    var ms := [m] + rest;
    forall k | 0 <= k < |ms|
      ensures i <= ms[k].start && MatchAt(text, ms[k].start) == Some(ms[k])
      ensures k > 0 ==> m.end <= ms[k].start
    {
      if k > 0 { assert ms[k] == rest[k - 1]; }
    }
  }

  lemma CoveredStill(m: Match, rest: seq<Match>, j: nat)
    ensures Covered(rest, j) || m.start <= j < m.end ==> Covered([m] + rest, j)
  {
    var ms := [m] + rest;
    assert ms[0] == m;
    if Covered(rest, j) {
      var k :| 0 <= k < |rest| && rest[k].start <= j < rest[k].end;
      assert ms[k + 1] == rest[k];
    }
  }

  /** The matches are disjoint and in order. */
  lemma {:induction false} MatchesInOrder(text: string, i: nat)
    requires i <= |text|
    ensures InOrder(text, i, Matches(text, i))
    decreases |text| - i
  {
    if i < |text| {
      var m := MatchAt(text, i);
      if m.Some? {
        MatchesInOrder(text, m.value.end);
        Prepend(text, i, m.value, Matches(text, m.value.end));
      } else {
        MatchesInOrder(text, i + 1);
      }
    }
  }

  /** Every place where the pattern matches is inside one of them. */
  lemma {:induction false} MatchesMissNone(text: string, i: nat, j: nat)
    requires i <= j <= |text| && MatchAt(text, j).Some?
    ensures Covered(Matches(text, i), j)
    decreases j - i
  {
    var m := MatchAt(text, i);
    if m.None? {
      MatchesMissNone(text, i + 1, j);
    } else {
      if j >= m.value.end { MatchesMissNone(text, m.value.end, j); }
      CoveredStill(m.value, Matches(text, m.value.end), j);
    }
  }

  // ----- The ids of a text -----

  function FirstOnes(ms: seq<Match>): seq<string> {
    if ms == [] then []
    else
      var before, id := FirstOnes(ms[..|ms| - 1]), ms[|ms| - 1].id;
      if id in before then before else before + [id]
  }

  function Refs(text: string): seq<string> { FirstOnes(Matches(text, 0)) }

  /** The place of the first match with the id; the number of matches if none. */
  function FirstPlace(ms: seq<Match>, id: string): (k: nat)
    ensures k <= |ms| && (k < |ms| ==> ms[k].id == id)
    ensures forall j :: 0 <= j < k ==> ms[j].id != id
  {
    if ms == [] then 0
    else
      var k := FirstPlace(ms[..|ms| - 1], id);
      if k < |ms| - 1 then k else if ms[|ms| - 1].id == id then |ms| - 1 else |ms|
  }

  /** Each id that was matched, listed once, in the order they first appear. */
  lemma {:induction false} FirstOnesListsOnce(ms: seq<Match>)
    ensures forall id :: id in FirstOnes(ms) <==> FirstPlace(ms, id) < |ms|
    ensures forall i, j :: 0 <= i < j < |FirstOnes(ms)| ==> FirstPlace(ms, FirstOnes(ms)[i]) < FirstPlace(ms, FirstOnes(ms)[j])
  {
    if ms != [] {
      var init := ms[..|ms| - 1];
      FirstOnesListsOnce(init);
      forall id
        ensures FirstPlace(ms, id)
             == if FirstPlace(init, id) < |init| then FirstPlace(init, id)
                else if ms[|ms| - 1].id == id then |ms| - 1 else |ms|
      {
      }
    }
  }

  ghost predicate Names(ms: seq<Match>, id: string) { exists k :: 0 <= k < |ms| && ms[k].id == id }

  lemma {:induction false} ListedIffMatched(ms: seq<Match>, id: string)
    ensures id in FirstOnes(ms) <==> Names(ms, id)
  {
    FirstOnesListsOnce(ms);
    if k :| 0 <= k < |ms| && ms[k].id == id {
      assert FirstPlace(ms, id) <= k;
    }
  }

  // ----- A written link is read back -----

  /** Nothing after a link's alt text opens another. */
  lemma TailHasNoBang(text: string, start: nat, a: nat, k: nat)
    requires a <= |text| && TailAt(text, start, a).Some? && a <= k < TailAt(text, start, a).value.end
    ensures text[k] != '!'
  {
    var h, end := a + |PATH|, TailAt(text, start, a).value.end;
    var d := h + 64;
    if k < h {
      SliceAt(text, a, PATH, k);
    } else if k < d {
      assert text[h..d][k - h] == text[k] && IsHex(text[h..d][k - h]);
    } else if k == d {
      SliceAt(text, d, ".", k);
    } else if k == end - 1 {
      SliceAt(text, end - 1, ")", k);
    }
  }

  /** A match that starts before a laid-out link and reaches into it took the
      link's own id: its alt text ran on to the link's. */
  lemma {:induction false} OverlapIsTheSame(text: string, i: nat, p: nat)
    requires i < p && MatchAt(text, i).Some? && MatchAt(text, p).Some? && MatchAt(text, i).value.end > p
    ensures MatchAt(text, i).value.id == MatchAt(text, p).value.id
  {
    var a := AltEnd(text, i + |OPEN|);
    OpensAt(text, p);
    if a <= p {
      TailHasNoBang(text, i, a, p);
    }
    AltEndIs(text, p + |OPEN|, a);
  }

  lemma OpensAt(text: string, p: nat)
    requires StartsAt(text, p, OPEN)
    ensures text[p] == '!' && text[p + 1] == '['
  {
    SliceAt(text, p, OPEN, p);
    SliceAt(text, p, OPEN, p + 1);
  }

  lemma NamesStill(m: Match, rest: seq<Match>, id: string)
    ensures m.id == id || Names(rest, id) ==> Names([m] + rest, id)
  {
    var ms := [m] + rest;
    assert ms[0] == m;
    if Names(rest, id) {
      var k :| 0 <= k < |rest| && rest[k].id == id;
      assert ms[k + 1] == rest[k];
    }
  }

  lemma {:induction false} ReachedAt(text: string, i: nat, p: nat)
    requires i <= p <= |text| && MatchAt(text, p).Some?
    ensures Names(Matches(text, i), MatchAt(text, p).value.id)
    decreases p - i
  {
    var m := MatchAt(text, i);
    if m.None? {
      ReachedAt(text, i + 1, p);
    } else {
      if m.value.end <= p {
        ReachedAt(text, m.value.end, p);
      } else if i < p {
        OverlapIsTheSame(text, i, p);
      }
      NamesStill(m.value, Matches(text, m.value.end), MatchAt(text, p).value.id);
    }
  }

  lemma NameIsPlain(ref: Ref)
    requires IsId(ref.id)
    ensures ']' !in LinkName(ref)
  {
  }

  /** A link written for a known type is read back, whatever text is before and
      after it: even text that opens a link of its own. */
  lemma WrittenLinkIsRead(prefix: string, ref: Ref, suffix: string)
    requires IsId(ref.id) && IsKnown(ref.mediaType)
    ensures ref.id in Refs(prefix + Link(ref) + suffix)
  {
    var text := prefix + Link(ref) + suffix;
    assert text[|prefix|..|prefix| + |Link(ref)|] == Link(ref);
    NameIsPlain(ref);
    LaidOutMatches(text, |prefix|, LinkName(ref), ref.id, Ext(ref.mediaType));
    ReachedAt(text, 0, |prefix|);
    ListedIffMatched(Matches(text, 0), ref.id);
  }

  lemma ListedAreIds(text: string, id: string)
    requires id in Refs(text)
    ensures IsId(id)
  {
    var ms := Matches(text, 0);
    ListedIffMatched(ms, id);
    MatchesInOrder(text, 0);
    var k :| 0 <= k < |ms| && ms[k].id == id;
    assert MatchAt(text, ms[k].start) == Some(ms[k]);
  }

  /** A link for an unknown type has no extension, and names nothing. */
  lemma UnknownTypeIsNotRead(ref: Ref)
    requires IsId(ref.id) && !IsKnown(ref.mediaType)
    ensures Refs(Link(ref)) == []
  {
    var text := Link(ref);
    forall i: nat ensures MatchAt(text, i).None? { UnknownTypeHasNoMatch(ref, i); }
    NothingMatched(text, 0);
  }

  lemma {:induction false} NothingMatched(text: string, i: nat)
    requires i <= |text| && forall j: nat :: MatchAt(text, j).None?
    ensures Matches(text, i) == []
    decreases |text| - i
  {
    if i < |text| { NothingMatched(text, i + 1); }
  }

  lemma NoTail(text: string, start: nat, a: nat)
    requires a == |text| || (a + |PATH| + 65 < |text| && text[a + |PATH| + 65] == ')')
    ensures TailAt(text, start, a).None?
  {
  }

  lemma UnknownLink(ref: Ref)
    requires IsId(ref.id) && !IsKnown(ref.mediaType)
    ensures var text, only := Link(ref), |OPEN| + |LinkName(ref)|;
            && only + |PATH| + 65 < |text| && text[only + |PATH| + 65] == ')'
            && forall k :: 0 <= k < |text| && text[k] == ']' ==> k == only
  {
    var text, only := Link(ref), |OPEN| + |LinkName(ref)|;
    var tail := ref.id + "." + "" + ")";
    assert text == OPEN + LinkName(ref) + PATH + tail;
    NameIsPlain(ref);
    OneBracket(text, LinkName(ref), tail);
    assert text[only + |PATH| + 65] == tail[65];
  }

  lemma UnknownTypeHasNoMatch(ref: Ref, i: nat)
    requires IsId(ref.id) && !IsKnown(ref.mediaType)
    ensures MatchAt(Link(ref), i).None?
  {
    UnknownLink(ref);
    if StartsAt(Link(ref), i, OPEN) {
      NoTail(Link(ref), i, AltEnd(Link(ref), i + |OPEN|));
    }
  }

  lemma OneBracket(text: string, alt: string, rest: string)
    requires text == OPEN + alt + PATH + rest && ']' !in alt && ']' !in rest
    ensures forall k :: 0 <= k < |text| && text[k] == ']' ==> k == |OPEN| + |alt|
  {
    var a := |OPEN| + |alt|;
    forall k | |OPEN| <= k < a ensures text[k] != ']' { assert text[k] == alt[k - |OPEN|]; }
    forall k | a < k < a + |PATH| ensures text[k] != ']' { assert text[k] == PATH[k - a]; }
    forall k | a + |PATH| <= k < |text| ensures text[k] != ']' { assert text[k] == rest[k - a - |PATH|]; }
  }

  ghost predicate ReadAnywhere(ref: Ref) {
    forall prefix: string, suffix: string :: ref.id in Refs(prefix + Link(ref) + suffix)
  }

  /** A link is read back from every text that holds it if and only if its id is
      one and its media type is known. */
  lemma ReadAnywhereIff(ref: Ref)
    ensures ReadAnywhere(ref) <==> IsId(ref.id) && IsKnown(ref.mediaType)
  {
    if IsId(ref.id) && IsKnown(ref.mediaType) {
      forall prefix: string, suffix: string ensures ref.id in Refs(prefix + Link(ref) + suffix) {
        WrittenLinkIsRead(prefix, ref, suffix);
      }
    }
    if ReadAnywhere(ref) {
      assert "" + Link(ref) + "" == Link(ref);
      assert ref.id in Refs("" + Link(ref) + "");
      ListedAreIds(Link(ref), ref.id);
      if !IsKnown(ref.mediaType) { UnknownTypeIsNotRead(ref); }
    }
  }

  // ----- The scanner's loop -----

  method ScanRefs(text: string) returns (refs: seq<string>)
    ensures refs == Refs(text)
  {
    var matches := Matches(text, 0);
    var seen: set<string> := {};
    refs := [];
    var i := 0;
    while i < |matches|
      invariant 0 <= i <= |matches|
      invariant refs == FirstOnes(matches[..i])
      invariant forall id :: id in seen <==> id in refs
    {
      assert matches[..i + 1][..i] == matches[..i];
      var id := matches[i].id;
      if id !in seen {
        seen := seen + {id};
        refs := refs + [id];
      }
      i := i + 1;
    }
    assert matches[..i] == matches;
  }
}
