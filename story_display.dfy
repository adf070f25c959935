/** The paragraph pipeline of components/StoryDisplay.tsx:
    `story.split(/\n\s*\n+/).map(p => p.trim()).filter(p => p !== "")`,
    and what the component shows for a null, empty or blank story. */
module StoryDisplay {
  import opened Js
  import opened Text

  /** A separator the pattern `\n\s*\n+` matches: whitespace that begins and
      ends with a line feed, two of them at least. */
  predicate IsSeparator(d: string) {
    |d| >= 2 && d[0] == '\n' && d[|d| - 1] == '\n' && AllWhitespace(d)
  }

  /** No two line feeds of `t` have only whitespace between them. */
  predicate NoSeparatorIn(t: string) {
    forall a, b :: 0 <= a < b < |t| && t[a] == '\n' && t[b] == '\n' ==> !AllWhitespace(t[a..b])
  }

  /** End of the maximal whitespace run of `s` that starts at `i`. */
  function WhitespaceRunEnd(s: string, i: nat): (j: nat)
    requires i <= |s|
    ensures i <= j <= |s|
    ensures forall k :: i <= k < j ==> IsWhitespace(s[k])
    ensures j < |s| ==> !IsWhitespace(s[j])
    decreases |s| - i
  {
    if i == |s| || !IsWhitespace(s[i]) then i else WhitespaceRunEnd(s, i + 1)
  }

  /** The last line feed of `s` in [lo, hi). */
  function LastNewline(s: string, lo: nat, hi: nat): (r: Option<nat>)
    requires lo <= hi <= |s|
    ensures r.Some? ==> lo <= r.value < hi && s[r.value] == '\n'
    ensures r.Some? ==> forall k :: r.value < k < hi ==> s[k] != '\n'
    ensures r.None? ==> forall k :: lo <= k < hi ==> s[k] != '\n'
    decreases hi - lo
  {
    if hi == lo then None
    else if s[hi - 1] == '\n' then Some(hi - 1)
    else LastNewline(s, lo, hi - 1)
  }

  /** Where a match of `\n\s*\n+` tried at position `q` ends, if it
      matches there: `\s*` takes the whole whitespace run after the first line
      feed and gives characters back until `\n+` can match, so the match ends
      just after the last line feed of that run. */
  function MatchEnd(s: string, q: nat): (e: Option<nat>)
    requires q < |s|
    ensures e.Some? ==> q + 2 <= e.value <= |s| && IsSeparator(s[q..e.value])
  {
    if s[q] != '\n' then None
    else
      var j := WhitespaceRunEnd(s, q + 1);
      match LastNewline(s, q + 1, j)
      case None => None
      case Some(k) =>
        Some(k + 1)
  }

  /** A piece of the split text and the separator matched after it ("" after the last piece). */
  datatype Segment = Segment(text: string, separator: string)

  /** The split loop of `String.prototype.split` with a regular expression:
      `p` is where the current piece began, `q` the position tried next. */
  function SegmentsFrom(s: string, p: nat, q: nat): (r: seq<Segment>)
    requires p <= q <= |s|
    ensures r != []
    decreases |s| - q
  {
    if q == |s| then [Segment(s[p..], "")]
    else
      match MatchEnd(s, q)
      case Some(e) => [Segment(s[p..q], s[q..e])] + SegmentsFrom(s, e, e)
      case None => SegmentsFrom(s, p, q + 1)
  }

  function Texts(segs: seq<Segment>): (r: seq<string>)
    ensures |r| == |segs| && forall i :: 0 <= i < |segs| ==> r[i] == segs[i].text
  {
    seq(|segs|, i requires 0 <= i < |segs| => segs[i].text)
  }

  /** `story.split(/\n\s*\n+/)`. */
  function Split(s: string): (r: seq<string>)
    ensures r != []
  {
    Texts(SegmentsFrom(s, 0, 0))
  }

  /** `.map((p) => p.trim())`. */
  function TrimEach(pieces: seq<string>): (r: seq<string>)
    ensures |r| == |pieces| && forall i :: 0 <= i < |pieces| ==> r[i] == Trim(pieces[i])
  {
    seq(|pieces|, i requires 0 <= i < |pieces| => Trim(pieces[i]))
  }

  /** `.filter((paragraph) => paragraph !== "")`: the non-empty pieces, in order. */
  function DropEmpty(pieces: seq<string>): (r: seq<string>)
    ensures |r| <= |pieces|
    ensures forall x :: x in r ==> x in pieces && x != ""
    ensures forall x :: x in pieces && x != "" ==> x in r
  {
    if pieces == [] then []
    else if pieces[0] == "" then DropEmpty(pieces[1..])
    else [pieces[0]] + DropEmpty(pieces[1..])
  }

  /** The filter works piece by piece: it keeps order and multiplicity. */
  lemma {:induction false} DropEmptyAppend(a: seq<string>, b: seq<string>)
    ensures DropEmpty(a + b) == DropEmpty(a) + DropEmpty(b)
    ensures forall x :: DropEmpty([x]) == if x == "" then [] else [x]
  {
    forall x ensures DropEmpty([x]) == if x == "" then [] else [x] {
      assert [x][1..] == [];
    }
    if a != [] {
      assert (a + b)[1..] == a[1..] + b;
      DropEmptyAppend(a[1..], b);
    } else {
      assert a + b == b;
    }
  }

  /** The paragraphs the component renders for a non-empty story. */
  function Paragraphs(story: string): (r: seq<string>)
    ensures forall x :: x in r ==> x != "" && x == Trim(x)
  {
    DropEmpty(TrimEach(Split(story)))
  }

  /** What the component shows: nothing at all, or the paragraphs together
      with the "waiting to be written" placeholder when there are none. */
  datatype View = Nothing | Shown(paragraphs: seq<string>, placeholder: bool)

  function Render(story: Option<string>): (v: View)
    ensures v.Nothing? <==> story.None? || story.value == ""
    ensures v.Shown? ==> v.paragraphs == Paragraphs(story.value) && (v.placeholder <==> v.paragraphs == [])
  {
    if story.None? || story.value == "" then Nothing
    else
      var ps := Paragraphs(story.value);
      Shown(ps, |ps| == 0)
  }

  // ---------------------------------------------------------------- the split

  function Concat(segs: seq<Segment>): string {
    if segs == [] then "" else segs[0].text + segs[0].separator + Concat(segs[1..])
  }

  lemma SliceInThree(s: string, p: nat, q: nat, e: nat)
    requires p <= q <= e <= |s|
    ensures s[p..] == s[p..q] + s[q..e] + s[e..]
  {
    assert s[p..] == s[p..q] + s[q..e] + s[e..];
  }

  /** Pieces and separators, in order, put back together give the text. */
  lemma {:induction false} SegmentsReassemble(s: string, p: nat, q: nat)
    requires p <= q <= |s|
    ensures Concat(SegmentsFrom(s, p, q)) == s[p..]
    decreases |s| - q
  {
    if q == |s| {
      assert Concat([Segment(s[p..], "")]) == s[p..] + "" + Concat([]);
    } else {
      match MatchEnd(s, q)
      case Some(e) =>
        SegmentsReassemble(s, e, e);
        var rest := SegmentsFrom(s, e, e);
        var segs := [Segment(s[p..q], s[q..e])] + rest;
        assert SegmentsFrom(s, p, q) == segs;
        assert segs[1..] == rest;
        SliceInThree(s, p, q, e);
      case None =>
        SegmentsReassemble(s, p, q + 1);
    }
  }

  /** Every piece but the last is followed by a separator; the last by nothing. */
  lemma {:induction false} SegmentsSeparated(s: string, p: nat, q: nat)
    requires p <= q <= |s|
    ensures var segs := SegmentsFrom(s, p, q);
            && (forall i :: 0 <= i < |segs| - 1 ==> IsSeparator(segs[i].separator))
            && segs[|segs| - 1].separator == ""
    decreases |s| - q
  {
    if q < |s| {
      match MatchEnd(s, q)
      case Some(e) =>
        SegmentsSeparated(s, e, e);
        assert SegmentsFrom(s, p, q)[1..] == SegmentsFrom(s, e, e);
      case None =>
        SegmentsSeparated(s, p, q + 1);
    }
  }

  /** Where the pattern does not match at a line feed, no later line feed is
      reachable through whitespace alone. */
  lemma NoMatchNoSeparator(s: string, x: nat, b: nat)
    requires x < b < |s| && s[x] == '\n' && s[b] == '\n'
    requires MatchEnd(s, x).None?
    ensures !AllWhitespace(s[x..b])
  {
    if AllWhitespace(s[x..b]) {
      var j := WhitespaceRunEnd(s, x + 1);
      forall k | x + 1 <= k <= b ensures IsWhitespace(s[k]) {
        if k < b { assert s[k] == s[x..b][k - x]; }
      }
    }
  }

  lemma SliceOfSlice(s: string, p: nat, q: nat, a: nat, b: nat)
    requires p <= q <= |s| && a <= b <= q - p
    ensures s[p..q][a..b] == s[p + a..p + b]
  {
    var u, w := s[p..q][a..b], s[p + a..p + b];
    assert |u| == |w|;
    forall k | 0 <= k < |u| ensures u[k] == w[k] {
      assert u[k] == s[p..q][a + k] == s[p + a + k];
    }
  }

  /** A piece in which no match starts holds no separator. */
  lemma UnmatchedPiece(s: string, p: nat, q: nat)
    requires p <= q <= |s|
    requires forall x :: p <= x < q ==> MatchEnd(s, x).None?
    ensures NoSeparatorIn(s[p..q])
  {
    var t := s[p..q];
    forall a, b | 0 <= a < b < |t| && t[a] == '\n' && t[b] == '\n' ensures !AllWhitespace(t[a..b]) {
      NoMatchNoSeparator(s, p + a, p + b);
      SliceOfSlice(s, p, q, a, b);
    }
  }

  /** The pieces hold no separator: the split leaves none unmatched. */
  lemma {:induction false} SegmentsHaveNoSeparator(s: string, p: nat, q: nat)
    requires p <= q <= |s|
    requires forall x :: p <= x < q ==> MatchEnd(s, x).None?
    ensures forall i :: 0 <= i < |SegmentsFrom(s, p, q)| ==> NoSeparatorIn(SegmentsFrom(s, p, q)[i].text)
    decreases |s| - q
  {
    var segs := SegmentsFrom(s, p, q);
    if q == |s| {
      UnmatchedPiece(s, p, q);
      assert s[p..q] == s[p..];
    } else if MatchEnd(s, q).None? {
      SegmentsHaveNoSeparator(s, p, q + 1);
    } else {
      var e := MatchEnd(s, q).value;
      UnmatchedPiece(s, p, q);
      SegmentsHaveNoSeparator(s, e, e);
      var rest := SegmentsFrom(s, e, e);
      assert segs == [Segment(s[p..q], s[q..e])] + rest;
      forall i | 0 <= i < |segs| ensures NoSeparatorIn(segs[i].text) {
        if i > 0 { assert segs[i] == rest[i - 1]; }
      }
    }
  }

  /** Text without a separator is not split at all. */
  lemma {:induction false} UnseparatedIsOneSegment(s: string, q: nat)
    requires q <= |s|
    requires NoSeparatorIn(s)
    ensures SegmentsFrom(s, 0, q) == [Segment(s, "")]
    decreases |s| - q
  {
    if q < |s| {
      match MatchEnd(s, q)
      case Some(e) =>
        assert false;
      case None =>
        UnseparatedIsOneSegment(s, q + 1);
    } else {
      assert s[0..] == s;
    }
  }

  // ---------------------------------------------------------------- the paragraphs

  function ConcatAll(parts: seq<string>): string {
    if parts == [] then "" else parts[0] + ConcatAll(parts[1..])
  }

  lemma NoSeparatorInInfix(t: string, i: nat, j: nat)
    requires i <= j <= |t| && NoSeparatorIn(t)
    ensures NoSeparatorIn(t[i..j])
  {
    var u := t[i..j];
    forall a, b | 0 <= a < b < |u| && u[a] == '\n' && u[b] == '\n' ensures !AllWhitespace(u[a..b]) {
      assert t[i + a] == '\n' && t[i + b] == '\n';
      SliceOfSlice(t, i, j, a, b);
    }
  }

  /** Every paragraph is trimmed and non-empty, and none holds a separator. */
  lemma ParagraphsAreTrimmed(story: string)
    ensures forall x :: x in Paragraphs(story) ==>
              && x != "" && Trim(x) == x
              && !IsWhitespace(x[0]) && !IsWhitespace(x[|x| - 1])
              && NoSeparatorIn(x)
  {
    var segs := SegmentsFrom(story, 0, 0);
    var pieces := Split(story);
    SegmentsHaveNoSeparator(story, 0, 0);
    forall x | x in Paragraphs(story)
      ensures x != "" && Trim(x) == x && !IsWhitespace(x[0]) && !IsWhitespace(x[|x| - 1]) && NoSeparatorIn(x)
    {
      var k :| 0 <= k < |pieces| && TrimEach(pieces)[k] == x;
      TrimIdempotent(pieces[k]);
      var i, j := TrimBounds(pieces[k]);
      NoSeparatorInInfix(pieces[k], i, j);
    }
  }

  /** Separators are whitespace, so the visible text of the pieces is the visible text of the story. */
  lemma {:induction false} VisibleTextOfSegments(segs: seq<Segment>)
    requires forall i :: 0 <= i < |segs| ==> AllWhitespace(segs[i].separator)
    ensures NonWhitespace(Concat(segs)) == NonWhitespace(ConcatAll(Texts(segs)))
  {
    if segs != [] {
      VisibleTextOfSegments(segs[1..]);
      assert Texts(segs)[1..] == Texts(segs[1..]);
      NonWhitespaceConcat(segs[0].text + segs[0].separator, Concat(segs[1..]));
      NonWhitespaceConcat(segs[0].text, segs[0].separator);
      NonWhitespaceEmpty(segs[0].separator);
      NonWhitespaceConcat(segs[0].text, ConcatAll(Texts(segs[1..])));
    }
  }

  lemma {:induction false} VisibleTextOfTrimmed(pieces: seq<string>)
    ensures NonWhitespace(ConcatAll(TrimEach(pieces))) == NonWhitespace(ConcatAll(pieces))
  {
    if pieces != [] {
      VisibleTextOfTrimmed(pieces[1..]);
      assert TrimEach(pieces)[1..] == TrimEach(pieces[1..]);
      NonWhitespaceConcat(Trim(pieces[0]), ConcatAll(TrimEach(pieces[1..])));
      NonWhitespaceConcat(pieces[0], ConcatAll(pieces[1..]));
      NonWhitespaceTrim(pieces[0]);
    }
  }

  lemma {:induction false} ConcatAllDropEmpty(pieces: seq<string>)
    ensures ConcatAll(DropEmpty(pieces)) == ConcatAll(pieces)
  {
    if pieces != [] {
      ConcatAllDropEmpty(pieces[1..]);
      if pieces[0] != "" {
        assert ([pieces[0]] + DropEmpty(pieces[1..]))[1..] == DropEmpty(pieces[1..]);
      }
    }
  }

  /** Splitting, trimming and filtering keep every visible character of the
      story, in order: only whitespace is lost. */
  lemma ParagraphsKeepVisibleText(story: string)
    ensures NonWhitespace(ConcatAll(Paragraphs(story))) == NonWhitespace(story)
  {
    var segs := SegmentsFrom(story, 0, 0);
    SegmentsReassemble(story, 0, 0);
    SegmentsSeparated(story, 0, 0);
    assert story[0..] == story;
    VisibleTextOfSegments(segs);
    VisibleTextOfTrimmed(Split(story));
    ConcatAllDropEmpty(TrimEach(Split(story)));
  }

  /** A story has no paragraphs exactly when it is blank. */
  lemma NoParagraphsIffBlank(story: string)
    ensures Paragraphs(story) == [] <==> AllWhitespace(story)
  {
    var ps := Paragraphs(story);
    ParagraphsKeepVisibleText(story);
    NonWhitespaceEmpty(story);
    if ps != [] {
      ParagraphsAreTrimmed(story);
      assert ps[0] in ps;
      assert !AllWhitespace(ps[0]);
      NonWhitespaceEmpty(ps[0]);
      NonWhitespaceConcat(ps[0], ConcatAll(ps[1..]));
    }
  }

  /** A non-empty story shows the placeholder exactly when it is blank. */
  lemma PlaceholderIffBlank(story: string)
    requires story != ""
    ensures Render(Some(story)).Shown?
    ensures Render(Some(story)).placeholder <==> AllWhitespace(story)
  {
    NoParagraphsIffBlank(story);
  }

  /** A single line feed, or any text without a separator, never splits a
      paragraph: such a story is one paragraph, its trimmed self. */
  lemma UnseparatedIsOneParagraph(story: string)
    requires NoSeparatorIn(story)
    ensures Paragraphs(story) == if AllWhitespace(story) then [] else [Trim(story)]
  {
    UnseparatedIsOneSegment(story, 0);
    assert Split(story) == [story];
    assert TrimEach([story]) == [Trim(story)];
    assert [Trim(story)][1..] == [];
  }
}
