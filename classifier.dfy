/** `judgeType`: the line classifier. Given a line whose indentation has been
    stripped, it looks at the line's first characters only and returns a block
    type code and the offset where the line's content begins. */
module LineClassifier {
  import opened CStrings
  import opened Kinds

  /** The pair `judgeType` returns: the type code (an `int`, which for long
      `#` runs goes past the kinds) and the offset of the content. */
  datatype LineType = LineType(kind: int, content: nat)

  /** Length of the leading run of `#`. */
  function HashRun(s: string): (n: nat)
    ensures n <= |s|
    ensures forall i :: 0 <= i < n ==> s[i] == '#'
    ensures n < |s| ==> s[n] != '#'
  {
    if |s| > 0 && s[0] == '#' then 1 + HashRun(s[1..]) else 0
  }

  /** Length of the leading run of decimal digits. */
  function DigitRun(s: string): (n: nat)
    ensures n <= |s|
    ensures forall i :: 0 <= i < n ==> IsDigit(s[i])
    ensures n < |s| ==> !IsDigit(s[n])
  {
    if |s| > 0 && IsDigit(s[0]) then 1 + DigitRun(s[1..]) else 0
  }

  /** The line begins with `k` (one or more) `#` and then a space. */
  predicate HeadingMarker(s: string, k: nat)
  {
    1 <= k < |s| && (forall i :: 0 <= i < k ==> s[i] == '#') && s[k] == ' '
  }

  /** The line begins with three backticks. */
  predicate FenceMarker(s: string)
  {
    "```" <= s
  }

  /** The line begins with `-`, `*` or `+` and then a space. */
  predicate BulletMarker(s: string)
  {
    2 <= |s| && (s[0] == '-' || s[0] == '*' || s[0] == '+') && s[1] == ' '
  }

  /** The line begins with `d` (one or more) digits, a `.` and a space. */
  predicate OrderedMarker(s: string, d: nat)
  {
    1 <= d && d + 1 < |s| && (forall i :: 0 <= i < d ==> IsDigit(s[i])) && s[d] == '.' && s[d + 1] == ' '
  }

  /** The line begins with `>` and then a space. */
  predicate QuoteMarker(s: string)
  {
    2 <= |s| && s[0] == '>' && s[1] == ' '
  }

  ghost predicate StartsHeading(s: string)
  {
    exists k :: HeadingMarker(s, k)
  }

  ghost predicate StartsOrdered(s: string)
  {
    exists d :: OrderedMarker(s, d)
  }

  /** The type and content offset of a line: those of the first marker the
      line begins with, tried in the order heading, fence, bullet, ordered,
      quote; a paragraph of the whole line when it begins with none. The
      heading's type is that of `h1` moved on by the run length less one, with
      no bound on the run. */
  function Classify(s: CString): (r: LineType)
    ensures r.content <= |s|
  {
    var k := HashRun(s);
    var d := DigitRun(s);
    if HeadingMarker(s, k) then LineType(Ordinal(H1) + k - 1, k + 1)
    else if FenceMarker(s) then LineType(Ordinal(BlockCode), 3)
    else if BulletMarker(s) then LineType(Ordinal(Ul), 1)
    else if OrderedMarker(s, d) then LineType(Ordinal(Ol), d + 1)
    else if QuoteMarker(s) then LineType(Ordinal(Quote), 1)
    else LineType(Ordinal(Paragraph), 0)
  }

  /** `judgeType`: walks a pointer over the `#` run and another over the digit
      run, and tests the line's prefix with `strncmp`. */
  method JudgeType(src: CString) returns (r: LineType)
    ensures r == Classify(src)
  {
    var ptr := 0;
    while At(src, ptr) == '#'
      invariant ptr <= |src|
      invariant forall i :: 0 <= i < ptr ==> src[i] == '#'
      decreases |src| - ptr
    {
      ptr := ptr + 1;
    }
    assert ptr == HashRun(src);
    if ptr > 0 && At(src, ptr) == ' ' {
      return LineType(ptr + Ordinal(H1) - 1, ptr + 1);
    }

    ptr := 0;
    StrNCmpZeroPrefix(src, "```");
    if StrNCmpZero(src, "```", 3) {
      return LineType(Ordinal(BlockCode), ptr + 3);
    }

    StrNCmpZeroPrefix(src, "- ");
    StrNCmpZeroPrefix(src, "* ");
    StrNCmpZeroPrefix(src, "+ ");
    if StrNCmpZero(src, "- ", 2) || StrNCmpZero(src, "* ", 2) || StrNCmpZero(src, "+ ", 2) {
      return LineType(Ordinal(Ul), ptr + 1);
    }

    var ptr1 := ptr;
    while At(src, ptr1) != '\0' && IsDigit(At(src, ptr1))
      invariant ptr1 <= |src|
      invariant forall i :: 0 <= i < ptr1 ==> IsDigit(src[i])
      decreases |src| - ptr1
    {
      ptr1 := ptr1 + 1;
    }
    assert ptr1 == DigitRun(src);
    if ptr1 != ptr && At(src, ptr1) == '.' && At(src, ptr1 + 1) == ' ' {
      return LineType(Ordinal(Ol), ptr1 + 1);
    }

    if At(src, ptr) == '>' && At(src, ptr + 1) == ' ' {
      return LineType(Ordinal(Quote), ptr + 1);
    }

    return LineType(Ordinal(Paragraph), ptr);
  }

  /** A heading marker's run is the whole leading `#` run. */
  lemma HeadingMarkerUnique(s: string, k: nat)
    requires HeadingMarker(s, k)
    ensures k == HashRun(s)
  {
  }

  /** An ordered marker's digits are the whole leading digit run. */
  lemma OrderedMarkerUnique(s: string, d: nat)
    requires OrderedMarker(s, d)
    ensures d == DigitRun(s)
  {
  }

  /** The markers' possible first characters (`#`, a backtick, `-`/`*`/`+`, a
      digit, `>`) do not overlap, so a line begins with at most one of them:
      the order in which they are tried never decides between two. */
  lemma MarkersExclusive(s: string)
    ensures StartsHeading(s) ==> !FenceMarker(s) && !BulletMarker(s) && !StartsOrdered(s) && !QuoteMarker(s)
    ensures FenceMarker(s) ==> !BulletMarker(s) && !StartsOrdered(s) && !QuoteMarker(s)
    ensures BulletMarker(s) ==> !StartsOrdered(s) && !QuoteMarker(s)
    ensures StartsOrdered(s) ==> !QuoteMarker(s)
  {
    if StartsHeading(s) {
      var k :| HeadingMarker(s, k);
      assert s[0] == '#';
    }
    if StartsOrdered(s) {
      var d :| OrderedMarker(s, d);
      assert IsDigit(s[0]);
    }
    if FenceMarker(s) {
      assert s[0] == '`';
    }
  }

  /** `k` `#` and a space: type `h1 + k - 1`; what precedes the content is
      exactly the marker, the `#` run and its space. */
  lemma ClassifyHeading(s: CString, k: nat)
    requires HeadingMarker(s, k)
    ensures Classify(s) == LineType(Ordinal(H1) + k - 1, k + 1)
    ensures s[..Classify(s).content] == seq(k, i => '#') + " "
  {
  }

  /** For runs of one to six `#`, the type is the heading kind of that level. */
  lemma ClassifyHeadingLevel(s: CString, k: nat)
    requires HeadingMarker(s, k) && k <= 6
    ensures Classify(s) == LineType(Ordinal(HeadingKind(k)), k + 1)
  {
  }

  /** A `#` run of seven or more followed by a space still takes the heading
      branch, and its type runs past `h6`: seven give the fenced-code kind,
      eight the inline-code kind, and nine or more no kind at all. */
  lemma ClassifyLongHashRun(s: CString, k: nat)
    requires HeadingMarker(s, k) && 7 <= k
    ensures Classify(s).content == k + 1
    ensures !IsHeading(Node(Classify(s).kind, [], "", "", ""))
    ensures k == 7 ==> Classify(s).kind == Ordinal(BlockCode)
    ensures k == 8 ==> Classify(s).kind == Ordinal(Code)
    ensures 9 <= k ==> FromOrdinal(Classify(s).kind).None?
  {
  }

  /** `"####### x"` is typed as fenced code, with content `"x"`. */
  lemma SevenHashesIsBlockCode()
    ensures Classify("####### x") == LineType(Ordinal(BlockCode), 8)
  {
  }

  /** Three backticks: fenced code, content after the fence. */
  lemma ClassifyFence(s: CString)
    requires FenceMarker(s)
    ensures Classify(s) == LineType(Ordinal(BlockCode), 3)
  {
  }

  /** `-`, `*` or `+` and a space: unordered item, content from the space on. */
  lemma ClassifyBullet(s: CString)
    requires BulletMarker(s)
    ensures Classify(s) == LineType(Ordinal(Ul), 1)
    ensures s[Classify(s).content..][0] == ' '
  {
  }

  /** Digits, a `.` and a space: ordered item, content from the space on. */
  lemma ClassifyOrdered(s: CString, d: nat)
    requires OrderedMarker(s, d)
    ensures Classify(s) == LineType(Ordinal(Ol), d + 1)
    ensures s[Classify(s).content..][0] == ' '
  {
  }

  /** `>` and a space: quote, content from the space on. */
  lemma ClassifyQuote(s: CString)
    requires QuoteMarker(s)
    ensures Classify(s) == LineType(Ordinal(Quote), 1)
    ensures s[Classify(s).content..][0] == ' '
  {
  }

  /** A line is a paragraph, with the whole line as content, exactly when it
      begins with none of the markers. */
  lemma ClassifyParagraph(s: CString)
    ensures Classify(s) == LineType(Ordinal(Paragraph), 0) <==>
              !StartsHeading(s) && !FenceMarker(s) && !BulletMarker(s) && !StartsOrdered(s) && !QuoteMarker(s)
  {
  }

  /** A `#` run not followed by a space is no heading, and since no other
      marker begins with `#`, the line is a paragraph. */
  lemma HashesWithoutSpaceArePlain(s: CString)
    requires 0 < |s| && s[0] == '#' && !StartsHeading(s)
    ensures Classify(s) == LineType(Ordinal(Paragraph), 0)
  {
  }

  /** The heading check comes first: `"# ```"` is a level-1 heading whose
      content is the fence, not a fenced code line. */
  lemma HeadingBeatsFence()
    ensures Classify("# ```") == LineType(Ordinal(H1), 2)
    ensures "# ```"[Classify("# ```").content..] == "```"
  {
  }

  /** A line's type is one of `isHeading`'s six exactly when it begins with one
      to six `#` and a space. */
  lemma ClassifiedAsHeading(s: CString)
    ensures IsHeading(Node(Classify(s).kind, [], "", "", "")) <==>
              exists k :: 1 <= k <= 6 && HeadingMarker(s, k)
  {
  }

  /** A line that begins with a digit but not with an ordered marker is a
      paragraph: no other marker begins with a digit. */
  lemma DigitsWithoutOrderedMarkerArePlain(s: CString)
    requires 0 < |s| && IsDigit(s[0]) && !StartsOrdered(s)
    ensures Classify(s) == LineType(Ordinal(Paragraph), 0)
  {
  }

  /** A digit run without `". "` after it is no ordered item: `"12.x"` and
      `"3"` are paragraphs. */
  lemma DigitsWithoutDotSpaceArePlain()
    ensures Classify("12.x") == LineType(Ordinal(Paragraph), 0)
    ensures Classify("3") == LineType(Ordinal(Paragraph), 0)
  {
  }
}
