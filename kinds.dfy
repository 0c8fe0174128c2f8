/** The node kinds of the converter, the open/close HTML tag tables indexed by
    kind, the tree node records and the kind tests on a node. */
module Kinds {
  import opened CStrings

  /** The kind enumeration, in declaration order; `Ordinal` gives each its value. */
  datatype Kind =
    | Nul | Paragraph | Href | Ul | Ol | Li | Em | Strong | Hr | Br | Image | Quote
    | H1 | H2 | H3 | H4 | H5 | H6 | BlockCode | Code
  {
    predicate IsHeadingKind()
    {
      H1? || H2? || H3? || H4? || H5? || H6?
    }
  }

  /** Number of kinds, and so of entries in each tag table. */
  const KindCount: nat := 20

  /** The integer value the enumeration gives each kind. */
  function Ordinal(k: Kind): (n: int)
    ensures 0 <= n < KindCount
    ensures k.IsHeadingKind() <==> 12 <= n <= 17
  {
    match k
    case Nul => 0
    case Paragraph => 1
    case Href => 2
    case Ul => 3
    case Ol => 4
    case Li => 5
    case Em => 6
    case Strong => 7
    case Hr => 8
    case Br => 9
    case Image => 10
    case Quote => 11
    case H1 => 12
    case H2 => 13
    case H3 => 14
    case H4 => 15
    case H5 => 16
    case H6 => 17
    case BlockCode => 18
    case Code => 19
  }

  /** All kinds in enumeration order. */
  const AllKinds: seq<Kind> :=
    [Nul, Paragraph, Href, Ul, Ol, Li, Em, Strong, Hr, Br, Image, Quote,
     H1, H2, H3, H4, H5, H6, BlockCode, Code]

  /** The kind an integer type code stands for, if any. */
  function FromOrdinal(n: int): (r: Option<Kind>)
    ensures r.Some? <==> 0 <= n < KindCount
    ensures r.Some? ==> Ordinal(r.value) == n
  {
    if 0 <= n < |AllKinds| then Some(AllKinds[n]) else None
  }

  /** Distinct kinds have distinct values, and every value names its kind back. */
  lemma OrdinalRoundTrip(k: Kind)
    ensures FromOrdinal(Ordinal(k)) == Some(k)
  {
  }

  /** The heading kind of level 1..6. */
  function HeadingKind(level: int): (k: Kind)
    requires 1 <= level <= 6
    ensures k.IsHeadingKind()
    ensures Ordinal(k) == Ordinal(H1) + level - 1
  {
    AllKinds[Ordinal(H1) + level - 1]
  }

  /** The open tags, one per kind. A heading's tag is left open (`"<h1 "`) so
      that attributes such as an `id` can follow it. */
  const FrontTags: seq<string> := [
    "", "<p>", "", "<ul>", "<ol>", "<li>", "<em>", "<strong>",
    "<hr color=#CCCCCC size=1 />", "<br />",
    "", "<blockquote>",
    "<h1 ", "<h2 ", "<h3 ", "<h4 ", "<h5 ", "<h6 ",
    "<pre><code>", "<code>"
  ]

  /** The close tags, one per kind. */
  const BackTags: seq<string> := [
    "", "</p>", "", "</ul>", "</ol>", "</li>", "</em>", "</strong>",
    "", "", "", "</blockquote>",
    "</h1>", "</h2>", "</h3>", "</h4>", "</h5>", "</h6>",
    "</code></pre>", "</code>"
  ]

  /** `frontTag[k]`. Only the null kind, links and images have no open tag. */
  function FrontTag(k: Kind): (t: string)
    ensures t == "" <==> k in {Nul, Href, Image}
  {
    FrontTags[Ordinal(k)]
  }

  /** `backTag[k]`. Besides the kinds without an open tag, the self-closing
      horizontal rule and line break have no close tag. */
  function BackTag(k: Kind): (t: string)
    ensures t == "" <==> k in {Nul, Href, Hr, Br, Image}
  {
    BackTags[Ordinal(k)]
  }

  /** Both tables have exactly one entry per kind. */
  lemma TablesCoverEveryKind()
    ensures |FrontTags| == KindCount && |BackTags| == KindCount
    ensures |AllKinds| == KindCount && forall n :: 0 <= n < KindCount ==> Ordinal(AllKinds[n]) == n
  {
  }

  /** The decimal digit character for 0..9. */
  function DigitChar(d: int): (c: char)
    requires 0 <= d <= 9
    ensures IsDigit(c)
  {
    (48 + d) as char
  }

  /** The heading of level n opens with `"<hN "` (no `>`: the attribute slot
      stays open) and closes with `"</hN>"`. */
  lemma HeadingTags(level: int)
    requires 1 <= level <= 6
    ensures FrontTag(HeadingKind(level)) == "<h" + [DigitChar(level)] + " "
    ensures '>' !in FrontTag(HeadingKind(level))
    ensures BackTag(HeadingKind(level)) == "</h" + [DigitChar(level)] + ">"
  {
  }

  /** `node`: a document tree node. `text`, `link` and `title` are the
      record's three strings `elem[0]`, `elem[1]` and `elem[2]`. */
  datatype Node = Node(kind: int, ch: seq<Node>, text: string, link: string, title: string)

  /** `Cnode`: a table-of-contents entry. */
  datatype Cnode = Cnode(ch: seq<Cnode>, heading: string, tag: string)

  /** `isHeading`: the node's type is one of the six heading kinds. */
  function IsHeading(v: Node): (b: bool)
    ensures b <==> FromOrdinal(v.kind).Some? && FromOrdinal(v.kind).value.IsHeadingKind()
    ensures b <==> exists level :: 1 <= level <= 6 && v.kind == Ordinal(HeadingKind(level))
  {
    var b := Ordinal(H1) <= v.kind <= Ordinal(H6);
    assert b ==> v.kind == Ordinal(HeadingKind(v.kind - Ordinal(H1) + 1));
    b
  }

  /** `isImage`: the node's type is the image kind. */
  function IsImage(v: Node): (b: bool)
    ensures b <==> FromOrdinal(v.kind) == Some(Image)
  {
    v.kind == Ordinal(Image)
  }

  /** `isHref`: the node's type is the link kind. */
  function IsHref(v: Node): (b: bool)
    ensures b <==> FromOrdinal(v.kind) == Some(Href)
  {
    v.kind == Ordinal(Href)
  }
}
