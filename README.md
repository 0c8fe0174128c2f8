# Markdown line front-end, modelled in Dafny

This project models the line front-end of the `MarkdownTransform`
Markdown-to-HTML converter (`mdtransform.hpp`), the only part of the
repository with code behind it:

- `start`, the **line scanner**. It counts a line's leading spaces and tabs and
  returns an indent level (tabs plus spaces / 4) and a pointer to the first
  content character. A null, empty or blank line gets `(0, nullptr)`.
- `judgeType`, the **line classifier**. It looks at the start of an
  indentation-stripped line and returns a block type code (heading `h1 + k - 1`,
  fenced code, unordered item, ordered item, quote or paragraph) and a pointer
  to where the content begins.
- The **kind enumeration**, the parallel **`frontTag`/`backTag` HTML tag
  tables** indexed by kind, the `node`/`Cnode` records, and the kind tests
  **`isHeading`/`isImage`/`isHref`**.

C strings become `CString`, a `seq<char>` with no NUL (`CStrings`); each Dafny
`char` stands for one byte of the C line. `src[i]`
becomes `At(s, i)`, which yields the terminator at `|s|` and refuses to read
past it. A `char*` into the line becomes an offset. `start`'s `nullptr` argument and
result become `None`.
`strncmp(...) == 0` becomes a character-by-character function, proved to mean
"the two strings agree on their first n characters", and so a prefix test
against a literal. `isdigit` is the ASCII range `'0'..'9'`. The offsets the
model returns equal the C pointer offsets, because `start` and `judgeType` step
only over ASCII characters (blanks, `#`, digits, marker characters) before the
positions they return.

`start` is an indexed `for` loop that returns `src + i`, and `judgeType` walks
pointers over the line; here both are methods with `while` loops
(`LineScanner.Start`, `LineClassifier.JudgeType`).
Each is proved equal to a specification function (`LineStartOf`, `Classify`).
Lemmas then state what the source promises about those functions. `Classify` is
written over five declarative marker predicates (`HeadingMarker`,
`FenceMarker`, `BulletMarker`, `OrderedMarker`, `QuoteMarker`). The tables and
kind tests are pure functions (`Kinds`). `MarkdownTransform`'s fields are
neither read nor written by any of these members, so the model has no class.

The model follows the code as written, including where it departs from what a
reader of Markdown might expect:

- Seven or more `#` followed by a space still take the heading branch. The type
  code runs past `h6`: seven `#` give 18 (fenced code), eight give 19 (inline
  code), and nine or more give no kind at all (`ClassifyLongHashRun`,
  `SevenHashesIsBlockCode`). Markdown has six heading levels; the code puts no
  cap on the `#` run.
- Unordered items, ordered items and quotes report their content offset at the
  space after the marker, so the content keeps a leading space
  (`ClassifyBullet`, `ClassifyOrdered`, `ClassifyQuote`). One could expect
  marker and space to be consumed together; the code consumes only the marker.
- `start` skips only spaces and tabs. A carriage return or any other character
  counts as content, so a line holding just `"\r"` is not blank.
- A fence is any line that begins with three backticks. Four backticks are
  also a fence, with content starting at the fourth.
- The branches are tried in the order heading, fence, bullet, ordered, quote.
  The markers' possible first characters (`#`, a backtick, `-`/`*`/`+`, a
  digit, `>`) do not overlap, so a line begins with at most one of them and
  the order never decides anything (`MarkersExclusive`).

## Model

| member | source | states |
|---|---|---|
| `CStrings.At` | mdtransform.hpp:101 | reading `src[i]` gives NUL exactly at the end of the line and the character itself before it; reading past the terminator is not allowed |
| `CStrings.StrNCmpZeroFrom` | mdtransform.hpp:145-153 | the character-by-character scan of `strncmp` from position i, stopping at the first difference, a common terminator or n; by `StrNCmpZeroFromMeaning` it succeeds, once the first i characters agree, exactly when the first n agree |
| `CStrings.StrNCmpZero` | mdtransform.hpp:145-153 | `strncmp(s, t, n) == 0`; by `StrNCmpZeroMeaning` it holds exactly when s and t agree on their first n characters, and by `StrNCmpZeroPrefix` it is a prefix test against a literal |
| `CStrings.IsDigit` | mdtransform.hpp:160 | `isdigit` holds exactly of the ASCII digits `'0'..'9'` |
| `CStrings.StrNCmpZeroFromMeaning` | mdtransform.hpp:145 | once the first i characters agree, the `strncmp` scan succeeds exactly when the strings agree on their first n characters |
| `CStrings.StrNCmpZeroMeaning` | mdtransform.hpp:145 | `strncmp(s, t, n) == 0` exactly when `s` and `t` agree on their first n characters, a shorter string ending early |
| `CStrings.StrNCmpZeroPrefix` | mdtransform.hpp:145-153 | comparing against a literal over its full length is exactly a prefix test |
| `Kinds.Ordinal` | mdtransform.hpp:13-34 | every kind's value lies in 0..19, and the heading kinds are exactly the values 12..17 |
| `Kinds.FromOrdinal` | mdtransform.hpp:13-34 | an integer names a kind exactly when it lies in 0..19, and then it names the kind with that value |
| `Kinds.OrdinalRoundTrip` | mdtransform.hpp:13-34 | mapping a kind to its value and back gives the same kind, so distinct kinds have distinct values |
| `Kinds.HeadingKind` | mdtransform.hpp:26-31 | the heading kind of level n is a heading kind whose value is `h1 + n - 1` |
| `Kinds.FrontTag` | mdtransform.hpp:37-43 | the open tag is empty exactly for the null, link and image kinds |
| `Kinds.BackTag` | mdtransform.hpp:46-51 | the close tag is empty exactly for the null, link, image, horizontal-rule and line-break kinds |
| `Kinds.TablesCoverEveryKind` | mdtransform.hpp:13-51 | both tables have exactly 20 entries, one per kind, and the kinds in enumeration order have the values 0..19, so every index of the tables is some kind's value |
| `Kinds.HeadingTags` | mdtransform.hpp:41-49 | the level-n heading opens with `"<hN "`, which holds no `>` so that attributes can follow, and closes with `"</hN>"` |
| `Kinds.IsHeading` | mdtransform.hpp:180-183 | a node is a heading exactly when its type names one of the six heading kinds, i.e. it is the value of the heading kind of some level 1..6 |
| `Kinds.IsImage` | mdtransform.hpp:185-188 | a node is an image exactly when its type names the image kind |
| `Kinds.IsHref` | mdtransform.hpp:190-193 | a node is a link exactly when its type names the link kind |
| `LineScanner.LeadingBlanks` | mdtransform.hpp:101-112 | the leading run is made of spaces and tabs, and it is maximal: the character after it, if any, is neither |
| `LineScanner.IndentLevel` | mdtransform.hpp:114-116 | one level per tab and one per four spaces, the spaces counted over the whole run; by `MixedRunLevel` and `TabAndFiveSpacesLevel` the tabs' positions do not matter and leftover spaces are dropped |
| `LineScanner.LineStartOf` | mdtransform.hpp:93-119 | what `start` returns; by `NoContentExactlyWhenBlank` it is `(0, None)` exactly for null and blank lines, by `ContentStart` and `ContentOffsetMeaning` the offset is that of the first non-blank character and the level lies between 0 and it |
| `LineScanner.Start` | mdtransform.hpp:91-120 | the loop over the line returns exactly `LineStartOf` of the line |
| `LineScanner.NoContentExactlyWhenBlank` | mdtransform.hpp:93-119 | a null line, the empty line and a line of only spaces and tabs get no content and level 0, whatever their length; every other line has content |
| `LineScanner.ContentStart` | mdtransform.hpp:100-116 | for a line whose first non-space, non-tab character is at p, the result is (tabs before p + spaces before p / 4, p) |
| `LineScanner.BlankRunCount` | mdtransform.hpp:100-112 | a run of only spaces and tabs has as many tabs and spaces together as it is long |
| `LineScanner.ContentOffsetMeaning` | mdtransform.hpp:101-116 | a content offset lies inside the line on a character that is neither space nor tab, everything before it is space or tab, and 0 <= level <= offset |
| `LineScanner.MixedRunLevel` | mdtransform.hpp:114-116 | `"  \t  x"` gets level 2 at offset 5: the spaces are counted over the whole mixed run |
| `LineScanner.TabAndFiveSpacesLevel` | mdtransform.hpp:114-116 | one tab and five spaces give level 1 + 5 / 4 = 2 |
| `LineClassifier.HashRun` | mdtransform.hpp:132-135 | the leading `#` run is all `#` and maximal |
| `LineClassifier.DigitRun` | mdtransform.hpp:159-163 | the leading digit run is all digits and maximal |
| `LineClassifier.Classify` | mdtransform.hpp:127-177 | every content offset lies between 0 and the line's length |
| `LineClassifier.JudgeType` | mdtransform.hpp:127-177 | the pointer loops and `strncmp` tests return exactly `Classify` of the line |
| `LineClassifier.HeadingMarkerUnique` | mdtransform.hpp:132-141 | a `#` run followed by a space is the whole leading `#` run |
| `LineClassifier.OrderedMarkerUnique` | mdtransform.hpp:159-164 | the digits before `". "` are the whole leading digit run |
| `LineClassifier.MarkersExclusive` | mdtransform.hpp:132-173 | a line begins with at most one of the heading, fence, bullet, ordered and quote markers |
| `LineClassifier.ClassifyHeading` | mdtransform.hpp:132-141 | k >= 1 `#` and a space give type `h1 + k - 1` and offset k + 1; the part of the line before the content is exactly the k `#` and the space |
| `LineClassifier.ClassifyHeadingLevel` | mdtransform.hpp:138-140 | for 1 <= k <= 6 the type is the level-k heading kind |
| `LineClassifier.ClassifyLongHashRun` | mdtransform.hpp:138-140 | for k >= 7 the type is no heading: 18 (fenced code) for 7, 19 (inline code) for 8, and no kind at all from 9 on; the offset is still k + 1 |
| `LineClassifier.SevenHashesIsBlockCode` | mdtransform.hpp:138-140 | `"####### x"` is typed as fenced code with offset 8 |
| `LineClassifier.ClassifyFence` | mdtransform.hpp:144-148 | a line beginning with three backticks is fenced code with offset 3 |
| `LineClassifier.ClassifyBullet` | mdtransform.hpp:150-156 | `"- "`, `"* "` or `"+ "` give an unordered item at offset 1, so the content starts with the space |
| `LineClassifier.ClassifyOrdered` | mdtransform.hpp:158-167 | d >= 1 digits then `". "` give an ordered item at offset d + 1, so the content starts with the space |
| `LineClassifier.ClassifyQuote` | mdtransform.hpp:169-173 | `"> "` gives a quote at offset 1, so the content starts with the space |
| `LineClassifier.ClassifyParagraph` | mdtransform.hpp:175-176 | a line is a paragraph with offset 0 (the whole line) exactly when it begins with none of the five markers |
| `LineClassifier.HashesWithoutSpaceArePlain` | mdtransform.hpp:132-176 | a `#` run not followed by a space is no heading and, with no other marker possible, the line is a paragraph |
| `LineClassifier.HeadingBeatsFence` | mdtransform.hpp:132-147 | `"# ```"` is a level-1 heading whose content is the fence, not fenced code |
| `LineClassifier.ClassifiedAsHeading` | mdtransform.hpp:138-183 | `isHeading` holds of a line's type exactly when the line begins with one to six `#` and a space |
| `LineClassifier.DigitsWithoutOrderedMarkerArePlain` | mdtransform.hpp:159-176 | a line that begins with a digit but not with digits, `.` and a space is a paragraph with offset 0 |
| `LineClassifier.DigitsWithoutDotSpaceArePlain` | mdtransform.hpp:159-176 | instances: `"12.x"` and `"3"` are paragraphs |

## Left out

- The `MarkdownTransform` constructor, `getTableOfContents`, `getContents` and the destructor (mdtransform.hpp:197-205): the constructor ignores its file name and does nothing, and the getters at mdtransform.hpp:200-202 return `TOC` and `content`, which nothing in the repository writes.
- The fields `root`, `now`, `Croot`, `content`, `TOC`, `cntTag` and the buffer `s[maxLength]` (mdtransform.hpp:79-83): no modelled member reads or writes them; the getters at mdtransform.hpp:200-202 return `TOC` and `content`, which nothing writes, and `cntTag` is only initialised to 0 (mdtransform.hpp:82). Pointer ownership is not modelled. `node` and `Cnode` appear only as the datatypes `Kinds.Node` and `Kinds.Cnode`. The one-argument constructor `node(t)` (mdtransform.hpp:73) is `Node(t, [], "", "", "")`, and `Cnode(hd)` (mdtransform.hpp:60) is `Cnode([], hd, "")`.
- The document tree builder, the inline span tokenizer, the table-of-contents and anchor builder, and the HTML renderer. The repository has no code for them.
- File loading and writing the two HTML strings: this is I/O, and there is no code for it.
- Embedded NUL characters: a `CString` holds none, because the C functions stop at the first NUL.
- LineScanner.Start: the length test `0 == (int)strlen(src)` (mdtransform.hpp:93) is modelled as `|s| == 0`. The narrowing of `strlen`'s `size_t` to `int`, under which a line whose length is a multiple of 2^32 would be taken as empty and get `(0, nullptr)`, is not modelled, nor is the bound on the `int` index `i` (mdtransform.hpp:101).
- LineScanner.Start: the counters and the returned level are unbounded integers. A line of more than 2^31 - 1 blanks would overflow `int` in C; this is not modelled.
- LineClassifier.JudgeType: the type code `ptr - src + h1 - 1` is an unbounded integer. The narrowing of a pointer difference to `int` for a `#` run beyond 2^31 characters is not modelled.
- LineClassifier.JudgeType: the source reads `*ptr` (mdtransform.hpp:129-132) without checking `src` for `nullptr`; a null line is undefined behaviour in C. The model takes a `CString`, which is never null, so that case is not modelled.
- Kinds.IsHeading, Kinds.IsImage and Kinds.IsHref read `v->type` (mdtransform.hpp:182, 187, 192) without a null check; the model takes a `Node` value, so the undefined behaviour on a null `node*` is not modelled. `nullptr` becomes `None` only for `start`'s argument and result.
- `isdigit` on characters outside ASCII, and the signedness of `char`, are not modelled: a digit is `'0'..'9'`.
