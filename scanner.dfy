/** `start`: the line scanner. It measures a line's leading run of spaces and
    tabs and finds where its content begins. */
module LineScanner {
  import opened CStrings

  /** The pair `start` returns: the indent level and the offset of the first
      content character, or `None` where the source returns `nullptr`. */
  datatype LineStart = LineStart(level: nat, content: Option<nat>)

  /** The two characters `start` skips. Every other character, a carriage
      return included, is content. */
  predicate IsBlank(c: char)
  {
    c == ' ' || c == '\t'
  }

  /** Length of the leading run of spaces and tabs. */
  function LeadingBlanks(s: string): (n: nat)
    ensures n <= |s|
    ensures forall i :: 0 <= i < n ==> IsBlank(s[i])
    ensures n < |s| ==> !IsBlank(s[n])
  {
    if |s| > 0 && IsBlank(s[0]) then 1 + LeadingBlanks(s[1..]) else 0
  }

  /** The indent level of a run of spaces and tabs: one per tab and one per
      four spaces, the spaces counted over the whole run, mixed with tabs or not. */
  function IndentLevel(run: string): nat
  {
    multiset(run)['\t'] + multiset(run)[' '] / 4
  }

  /** What `start` returns for a line: nothing for a null, empty or blank line;
      otherwise the level of the leading run and the offset just past it. */
  function LineStartOf(src: Option<CString>): LineStart
  {
    match src
    case None => LineStart(0, None)
    case Some(s) =>
      var n := LeadingBlanks(s);
      if n == |s| then LineStart(0, None) else LineStart(IndentLevel(s[..n]), Some(n))
  }

  /** `start`: counts spaces and tabs until the first other character. */
  method Start(src: Option<CString>) returns (r: LineStart)
    ensures r == LineStartOf(src)
  {
    if src.None? || |src.value| == 0 {
      return LineStart(0, None);
    }
    var s := src.value;
    var cntspace, cnttab := 0, 0;
    var i := 0;
    while At(s, i) != '\0'
      invariant 0 <= i <= |s|
      invariant forall j :: 0 <= j < i ==> IsBlank(s[j])
      invariant cntspace == multiset(s[..i])[' '] && cnttab == multiset(s[..i])['\t']
      decreases |s| - i
    {
      assert s[..i + 1] == s[..i] + [s[i]];
      if s[i] == ' ' {
        cntspace := cntspace + 1;
        i := i + 1;
        continue;
      } else if s[i] == '\t' {
        cnttab := cnttab + 1;
        i := i + 1;
        continue;
      }
      return LineStart(cnttab + cntspace / 4, Some(i));
    }
    return LineStart(0, None);
  }

  /** A null line, the empty line and a line of spaces and tabs alone have no
      content and level 0, whatever their length; every other line has content. */
  lemma NoContentExactlyWhenBlank(src: Option<CString>)
    ensures LineStartOf(src).content.None? <==>
              (src.None? || forall i :: 0 <= i < |src.value| ==> IsBlank(src.value[i]))
    ensures LineStartOf(src).content.None? ==> LineStartOf(src).level == 0
  {
  }

  /** For a line with content, the offset is that of the first character that
      is neither space nor tab, and the level counts the tabs and quarters the
      spaces before it. */
  lemma ContentStart(s: CString, p: nat)
    requires p < |s| && !IsBlank(s[p])
    requires forall i :: 0 <= i < p ==> IsBlank(s[i])
    ensures LineStartOf(Some(s)) ==
              LineStart(multiset(s[..p])['\t'] + multiset(s[..p])[' '] / 4, Some(p))
  {
  }

  /** A run made only of spaces and tabs holds as many of them as it is long. */
  lemma {:induction false} BlankRunCount(run: string)
    requires forall i :: 0 <= i < |run| ==> IsBlank(run[i])
    ensures multiset(run)['\t'] + multiset(run)[' '] == |run|
  {
    if run != [] {
      var last := |run| - 1;
      assert run == run[..last] + [run[last]];
      BlankRunCount(run[..last]);
    }
  }

  /** Whenever `start` reports content at `p`, `p` is in the line, the character
      there is neither space nor tab, and the level lies between 0 and `p`:
      never more levels than skipped characters. */
  lemma ContentOffsetMeaning(src: Option<CString>)
    ensures LineStartOf(src).content.Some? ==>
              var p := LineStartOf(src).content.value;
              && src.Some? && p < |src.value| && !IsBlank(src.value[p])
              && (forall i :: 0 <= i < p ==> IsBlank(src.value[i]))
              && 0 <= LineStartOf(src).level <= p
  {
    if LineStartOf(src).content.Some? {
      var s := src.value;
      var p := LeadingBlanks(s);
      BlankRunCount(s[..p]);
    }
  }

  /** Counting, not position, decides the level: `"  \t  x"` (a tab between two
      pairs of spaces) has the level of one tab plus four spaces. */
  lemma MixedRunLevel()
    ensures LineStartOf(Some("  \t  x")) == LineStart(2, Some(5))
  {
    ContentStart("  \t  x", 5);
    assert "  \t  x"[..5] == [' ', ' '] + ['\t'] + [' ', ' '];
  }

  /** One tab and five spaces make level 1 + 5 / 4 = 2; the fifth space is
      skipped but does not count. */
  lemma TabAndFiveSpacesLevel()
    ensures LineStartOf(Some("\t     a")) == LineStart(2, Some(6))
  {
    ContentStart("\t     a", 6);
    assert "\t     a"[..6] == ['\t'] + [' ', ' ', ' ', ' ', ' '];
  }
}
