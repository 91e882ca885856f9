/** The DOCX import script (scripts/import-docx.ts) after the document has been converted to
    HTML: the heading scan that cuts the HTML into sections, the keyword classifier, the
    paragraph cleaning, the slug of the report title and the rows the import inserts. The
    positions of the heading matches are inputs (they come from the regular-expression
    engine); the DOCX conversion and the database are not modelled. */
module ImportDocx {
  import opened Common
  import opened SectionTypes
  import opened ContentBlocks

  // ===========================================================================
  // generateSlug

  /** The characters `[a-z0-9]`. */
  predicate IsSlugChar(c: char) {
    'a' <= c <= 'z' || '0' <= c <= '9'
  }

  /** Only slug characters and dashes. */
  predicate SlugAlphabet(s: string) {
    forall i :: 0 <= i < |s| ==> IsSlugChar(s[i]) || s[i] == '-'
  }

  /** No two dashes in a row. */
  predicate NoDoubleDash(s: string) {
    forall i, j :: 0 <= i < |s| && 0 <= j < |s| && j == i + 1 ==> !(s[i] == '-' && s[j] == '-')
  }

  /** The first index at or after `i` holding a slug character, or the length. */
  function SkipNonSlug(s: string, i: nat): (r: nat)
    requires i <= |s|
    ensures i <= r <= |s| && (r == |s| || IsSlugChar(s[r]))
    decreases |s| - i
  {
    if i < |s| && !IsSlugChar(s[i]) then SkipNonSlug(s, i + 1) else i
  }

  /** `replace(/[^a-z0-9]+/g, '-')` on the text from index `i` on: every maximal run of
      other characters becomes one dash. */
  function CollapseFrom(s: string, i: nat): (r: string)
    requires i <= |s|
    decreases |s| - i
  {
    if i == |s| then []
    else if IsSlugChar(s[i]) then [s[i]] + CollapseFrom(s, i + 1)
    else ['-'] + CollapseFrom(s, SkipNonSlug(s, i + 1))
  }

  /** The collapsed text uses only slug characters and dashes, never has two dashes in a
      row, is empty only for empty input, and starts with a dash exactly when the input
      starts with a run of other characters. */
  lemma {:induction false} CollapseFromShape(s: string, i: nat)
    requires i <= |s|
    ensures var r := CollapseFrom(s, i);
            SlugAlphabet(r) && NoDoubleDash(r) && (r == [] <==> i == |s|) &&
            (i < |s| ==> (r[0] == '-' <==> !IsSlugChar(s[i])))
    decreases |s| - i
  {
    if i < |s| {
      var next := if IsSlugChar(s[i]) then i + 1 else SkipNonSlug(s, i + 1);
      var c := if IsSlugChar(s[i]) then s[i] else '-';
      var rest := CollapseFrom(s, next);
      CollapseFromShape(s, next);
      var r := [c] + rest;
      assert CollapseFrom(s, i) == r;
      assert c == '-' ==> rest == [] || rest[0] != '-';
      assert forall k :: 1 <= k < |r| ==> r[k] == rest[k - 1];
    }
  }

  function CollapseRuns(s: string): string {
    CollapseFrom(s, 0)
  }

  /** The first index at or after `i` that is not a dash, or the length. */
  function SkipDashes(s: string, i: nat): (r: nat)
    requires i <= |s|
    ensures i <= r <= |s| && (r == |s| || s[r] != '-')
    decreases |s| - i
  {
    if i < |s| && s[i] == '-' then SkipDashes(s, i + 1) else i
  }

  /** The index just after the last non-dash before `j`, or 0. */
  function BackDashes(s: string, j: nat): (r: nat)
    requires j <= |s|
    ensures r <= j && (r == 0 || s[r - 1] != '-')
  {
    if j > 0 && s[j - 1] == '-' then BackDashes(s, j - 1) else j
  }

  const SlugLimit: nat := 50

  /** generateSlug: lower-case, runs of other characters to one dash, dashes stripped at
      both ends, then the first 50 characters. */
  function Slug(title: string): string {
    StripAndCut(CollapseRuns(Lower(title)))
  }

  lemma SliceKeepsSlugShape(s: string, a: nat, b: nat)
    requires a <= b <= |s| && SlugAlphabet(s) && NoDoubleDash(s)
    ensures SlugAlphabet(s[a..b]) && NoDoubleDash(s[a..b])
  {
    var t := s[a..b];
    assert forall i :: 0 <= i < |t| ==> t[i] == s[a + i];
  }

  /** `replace(/^-+|-+$/g, '')`: the collapsed text without its leading and trailing
      dashes. */
  function StripDashes(s: string): (r: string)
  {
    var a := SkipDashes(s, 0);
    var b := BackDashes(s, |s|);
    if b <= a then [] else s[a..b]
  }

  /** The last three steps of the slug on an already collapsed string: dashes stripped at
      both ends, then the first 50 characters. */
  function StripAndCut(s: string): string {
    var c := StripDashes(s);
    if |c| <= SlugLimit then c else c[..SlugLimit]
  }

  lemma StripAndCutShape(s: string)
    requires SlugAlphabet(s) && NoDoubleDash(s)
    ensures SlugAlphabet(StripAndCut(s)) && NoDoubleDash(StripAndCut(s))
    ensures |StripAndCut(s)| <= SlugLimit
    ensures StripAndCut(s) == [] || StripAndCut(s)[0] != '-'
  {
    var a := SkipDashes(s, 0);
    var b := BackDashes(s, |s|);
    var c := StripDashes(s);
    if a < b {
      SliceKeepsSlugShape(s, a, b);
      assert c[0] == s[a];
      if |c| > SlugLimit {
        SliceKeepsSlugShape(c, 0, SlugLimit);
      }
    }
  }

  /** The slug uses only `a`-`z`, `0`-`9` and `-`, never two dashes in a row, has at most 50
      characters and never starts with a dash. */
  lemma SlugShape(title: string)
    ensures SlugAlphabet(Slug(title)) && NoDoubleDash(Slug(title))
    ensures |Slug(title)| <= SlugLimit
    ensures Slug(title) == [] || Slug(title)[0] != '-'
  {
    CollapseFromShape(Lower(title), 0);
    StripAndCutShape(CollapseRuns(Lower(title)));
  }

  /** All characters are lower-case letters or digits. */
  predicate AllSlugChars(s: string) {
    forall i :: 0 <= i < |s| ==> IsSlugChar(s[i])
  }

  lemma LowerKeepsSlugChars(s: string)
    requires AllSlugChars(s)
    ensures Lower(s) == s
  {
    assert forall i :: 0 <= i < |s| ==> LowerChar(s[i]) == s[i];
  }

  /** A run of slug characters from `i` to `n` is copied as it is. */
  lemma {:induction false} CollapseCopiesSlugRun(s: string, i: nat, n: nat)
    requires i <= n <= |s| && forall j :: i <= j < n ==> IsSlugChar(s[j])
    ensures CollapseFrom(s, i) == s[i..n] + CollapseFrom(s, n)
    decreases n - i
  {
    if i < n {
      var rest := CollapseFrom(s, n);
      CollapseCopiesSlugRun(s, i + 1, n);
      assert CollapseFrom(s, i) == [s[i]] + CollapseFrom(s, i + 1);
      assert s[i..n] == [s[i]] + s[i + 1..n];
      assert [s[i]] + (s[i + 1..n] + rest) == ([s[i]] + s[i + 1..n]) + rest;
    } else {
      assert s[i..n] == [];
    }
  }

  /** A title already made of lower-case letters and digits is its own slug, cut to 50. */
  lemma SlugOfPlainTitle(title: string)
    requires AllSlugChars(title)
    ensures Slug(title) == if |title| <= SlugLimit then title else title[..SlugLimit]
  {
    LowerKeepsSlugChars(title);
    CollapseCopiesSlugRun(title, 0, |title|);
    assert title[0..|title|] == title;
    assert CollapseRuns(title) == title + [];
    assert title + [] == title;
    assert StripDashes(title) == title by {
      if title != [] {
        assert SkipDashes(title, 0) == 0;
        assert BackDashes(title, |title|) == |title|;
      }
    }
  }

  /** The cut to 50 comes after the dashes are stripped, so a slug can end in a dash:
      49 letters, a space and one more letter give the 49 letters and a dash. */
  lemma SlugCanEndInDash(w: string)
    requires AllSlugChars(w) && |w| == SlugLimit - 1
    ensures Slug(w + " b") == w + "-"
  {
    LowerOfDashTail(w);
    CollapseOfDashTail(w);
    CutOfDashTail(w);
  }

  lemma LowerOfDashTail(w: string)
    requires AllSlugChars(w)
    ensures Lower(w + " b") == w + " b"
  {
    var t := w + " b";
    assert forall i :: 0 <= i < |t| ==> LowerChar(t[i]) == t[i];
  }

  lemma CollapseOfDashTail(w: string)
    requires AllSlugChars(w)
    ensures CollapseRuns(w + " b") == w + "-b"
  {
    var t := w + " b";
    var n := |w|;
    CollapseCopiesSlugRun(t, 0, n);
    assert t[0..n] == w;
    assert t[n] == ' ' && t[n + 1] == 'b';
    assert SkipNonSlug(t, n + 1) == n + 1;
    assert CollapseFrom(t, n + 2) == [];
    assert CollapseFrom(t, n + 1) == "b";
    assert CollapseFrom(t, n) == "-b";
  }

  lemma CutOfDashTail(w: string)
    requires AllSlugChars(w) && |w| == SlugLimit - 1
    ensures StripAndCut(w + "-b") == w + "-"
  {
    var s := w + "-b";
    assert s[0] == w[0] && IsSlugChar(w[0]);
    assert SkipDashes(s, 0) == 0;
    assert s[|s| - 1] == 'b';
    assert BackDashes(s, |s|) == |s|;
    assert s[0..|s|] == s;
    assert s[..SlugLimit] == w + "-";
  }

  // ===========================================================================
  // Section classification

  /** The keyword checks in the order the script makes them. */
  const Keywords: seq<(string, SectionType)> := [
    ("introduction", Introduction),
    ("executive summary", ExecutiveSummary),
    ("background", Background),
    ("analysis", Analysis),
    ("findings", Findings),
    ("discussion", Discussion),
    ("methodology", Methodology),
    ("recommendations", Recommendations),
    ("conclusion", Conclusion),
    ("appendix", Appendix),
    ("references", References),
    ("glossary", Glossary)
  ]

  /** The first entry of `table` from position `k` on whose keyword the lower-cased title
      contains decides; none gives `custom`. */
  function ClassifyFrom(table: seq<(string, SectionType)>, lowerTitle: string, k: nat): SectionType
    requires k <= |table|
    decreases |table| - k
  {
    if k == |table| then Custom
    else if Contains(lowerTitle, table[k].0) then table[k].1
    else ClassifyFrom(table, lowerTitle, k + 1)
  }

  /** No keyword of `table` from `k` on occurs in the lower-cased title. */
  predicate NoKeywordFrom(table: seq<(string, SectionType)>, lowerTitle: string, k: nat) {
    forall i :: k <= i < |table| ==> !Contains(lowerTitle, table[i].0)
  }

  /** Keyword `i` occurs and none before it from `k` on does. */
  predicate FirstKeywordFrom(table: seq<(string, SectionType)>, lowerTitle: string, k: nat, i: nat) {
    k <= i < |table| && Contains(lowerTitle, table[i].0) &&
    forall j :: k <= j < i ==> !Contains(lowerTitle, table[j].0)
  }

  /** No entry of the table maps to `custom`. */
  predicate NoCustomEntry(table: seq<(string, SectionType)>) {
    forall i :: 0 <= i < |table| ==> table[i].1 != Custom
  }

  /** `ClassifyFrom` gives `custom` exactly when no keyword from `k` on occurs, and
      otherwise the type of the first one that does. */
  lemma {:induction false} ClassifyFromFirstMatch(table: seq<(string, SectionType)>, lowerTitle: string, k: nat)
    requires k <= |table| && NoCustomEntry(table)
    ensures ClassifyFrom(table, lowerTitle, k) == Custom <==> NoKeywordFrom(table, lowerTitle, k)
    ensures ClassifyFrom(table, lowerTitle, k) != Custom ==>
              exists i: nat :: FirstKeywordFrom(table, lowerTitle, k, i) && ClassifyFrom(table, lowerTitle, k) == table[i].1
    decreases |table| - k
  {
    if k < |table| {
      if Contains(lowerTitle, table[k].0) {
        assert FirstKeywordFrom(table, lowerTitle, k, k);
      } else {
        ClassifyFromFirstMatch(table, lowerTitle, k + 1);
        assert NoKeywordFrom(table, lowerTitle, k) <==> NoKeywordFrom(table, lowerTitle, k + 1);
        if ClassifyFrom(table, lowerTitle, k + 1) != Custom {
          var i: nat :| FirstKeywordFrom(table, lowerTitle, k + 1, i) && ClassifyFrom(table, lowerTitle, k + 1) == table[i].1;
          assert FirstKeywordFrom(table, lowerTitle, k, i);
        }
      }
    }
  }

  lemma KeywordTypesNotCustom()
    ensures NoCustomEntry(Keywords)
  {
  }

  /** The section type the importer gives a heading title. */
  function Classify(title: string): SectionType
  {
    ClassifyFrom(Keywords, Lower(title), 0)
  }

  /** A title is `custom` exactly when its lower-cased form contains none of the keywords;
      otherwise it takes the type of the first keyword, in the fixed priority order, that
      it contains. */
  lemma ClassifyFirstMatch(title: string)
    ensures Classify(title) == Custom <==> NoKeywordFrom(Keywords, Lower(title), 0)
    ensures Classify(title) != Custom ==>
              exists i: nat :: FirstKeywordFrom(Keywords, Lower(title), 0, i) && Classify(title) == Keywords[i].1
  {
    KeywordTypesNotCustom();
    ClassifyFromFirstMatch(Keywords, Lower(title), 0);
  }

  /** "introduction" is checked first, so it wins over every other keyword; "background"
      outranks "analysis". */
  lemma KeywordPriority(title: string)
    ensures Contains(Lower(title), "introduction") ==> Classify(title) == Introduction
    ensures (!Contains(Lower(title), "introduction") && !Contains(Lower(title), "executive summary") &&
             Contains(Lower(title), "background")) ==> Classify(title) == Background
  {
    var t := Lower(title);
    assert Classify(title) == ClassifyFrom(Keywords, t, 0);
    assert Keywords[0].0 == "introduction" && Keywords[1].0 == "executive summary";
    assert Keywords[2].0 == "background";
  }

  // ===========================================================================
  // Tag stripping, splitting into paragraphs, cleaning

  /** The first `>` at or after `from`, or the length when there is none. */
  function IndexOfGt(s: string, from: nat): (j: nat)
    requires from <= |s|
    ensures from <= j <= |s| && (j < |s| ==> s[j] == '>')
    ensures forall k :: from <= k < j ==> s[k] != '>'
    decreases |s| - from
  {
    if from == |s| || s[from] == '>' then from else IndexOfGt(s, from + 1)
  }

  /** No `>` anywhere in `s`. */
  predicate NoGt(s: string) {
    forall j :: 0 <= j < |s| ==> s[j] != '>'
  }

  /** No tag is left: every `<` is the last character, is followed directly by `>`, or
      has no `>` anywhere after it, so no `<`, non-empty run of non-`>` characters and `>`
      remain. */
  predicate NoTag(s: string)
    decreases |s|
  {
    s == [] || ((s[0] != '<' || |s| == 1 || s[1] == '>' || NoGt(s[1..])) && NoTag(s[1..]))
  }

  /** `replace(/<[^>]+>/g, '')` applied to the text from index `i` on: removes each `<`,
      the run of non-`>` characters after it (at least one) and the closing `>`, scanning
      from the left. */
  function StripFrom(s: string, i: nat): (r: string)
    requires i <= |s|
    ensures |r| <= |s| - i
    decreases |s| - i
  {
    if i == |s| then []
    else if s[i] == '<' && i + 1 < IndexOfGt(s, i + 1) < |s| then StripFrom(s, IndexOfGt(s, i + 1) + 1)
    else [s[i]] + StripFrom(s, i + 1)
  }

  function StripTags(s: string): (r: string)
    ensures |r| <= |s|
  {
    StripFrom(s, 0)
  }

  /** Stripping leaves no tag, adds no `>`, and keeps a first character that opens no tag. */
  lemma {:induction false} StripFromFacts(s: string, i: nat)
    requires i <= |s|
    ensures (forall j :: i <= j < |s| ==> s[j] != '>') ==> NoGt(StripFrom(s, i))
    ensures i < |s| && s[i] != '<' ==> StripFrom(s, i) != [] && StripFrom(s, i)[0] == s[i]
    ensures NoTag(StripFrom(s, i))
    decreases |s| - i
  {
    if i == |s| {
    } else if s[i] == '<' && i + 1 < IndexOfGt(s, i + 1) < |s| {
      StripFromFacts(s, IndexOfGt(s, i + 1) + 1);
    } else {
      var rest := StripFrom(s, i + 1);
      StripFromFacts(s, i + 1);
      var r := [s[i]] + rest;
      assert StripFrom(s, i) == r;
      assert r[1..] == rest;
    }
  }

  lemma StripTagsFacts(s: string)
    ensures NoGt(s) ==> NoGt(StripTags(s))
    ensures s != [] && s[0] != '<' ==> StripTags(s) != [] && StripTags(s)[0] == s[0]
    ensures NoTag(StripTags(s))
  {
    StripFromFacts(s, 0);
  }

  lemma {:induction false} NoTagSuffix(s: string, a: nat)
    requires a <= |s| && NoTag(s)
    ensures NoTag(s[a..])
    decreases a
  {
    if a > 0 {
      NoTagSuffix(s[1..], a - 1);
      assert s[1..][a - 1..] == s[a..];
    }
  }

  lemma {:induction false} NoTagPrefix(s: string, b: nat)
    requires b <= |s| && NoTag(s)
    ensures NoTag(s[..b])
    decreases |s|
  {
    if b > 0 {
      var t := s[..b];
      NoTagPrefix(s[1..], b - 1);
      assert t[1..] == s[1..][..b - 1];
      if t[0] == '<' && |t| > 1 && t[1] != '>' {
        assert NoGt(s[1..]);
        assert forall j :: 0 <= j < |t[1..]| ==> t[1..][j] == s[1..][j];
      }
    }
  }

  lemma NoTagSlice(s: string, a: nat, b: nat)
    requires a <= b <= |s| && NoTag(s)
    ensures NoTag(s[a..b])
  {
    NoTagSuffix(s, a);
    NoTagPrefix(s[a..], b - a);
    assert s[a..][..b - a] == s[a..b];
  }

  lemma {:induction false} StripFromKeepsPlainText(s: string, i: nat)
    requires i <= |s| && NoTag(s[i..])
    ensures StripFrom(s, i) == s[i..]
    decreases |s| - i
  {
    if i < |s| {
      var t := s[i..];
      assert t[1..] == s[i + 1..];
      StripFromKeepsPlainText(s, i + 1);
      assert [s[i]] + s[i + 1..] == t;
    }
  }

  /** Text without tags goes through the stripping unchanged, so stripping twice is
      stripping once. */
  lemma StripTagsKeepsPlainText(s: string)
    requires NoTag(s)
    ensures StripTags(s) == s
  {
    assert s[0..] == s;
    StripFromKeepsPlainText(s, 0);
  }

  /** The length of the paragraph separator `</p>` or `<br\s*\/?>` at index `q`, 0 when
      there is none. */
  function SepLenAt(s: string, q: nat): (n: nat)
    requires q <= |s|
    ensures q + n <= |s|
    ensures n > 0 ==> s[q] == '<'
  {
    if q + 4 <= |s| && s[q] == '<' && s[q + 1] == '/' && s[q + 2] == 'p' && s[q + 3] == '>' then 4
    else if q + 3 <= |s| && s[q] == '<' && s[q + 1] == 'b' && s[q + 2] == 'r' then
      var k := SkipSpaces(s, q + 3);
      if k < |s| && s[k] == '/' then (if k + 1 < |s| && s[k + 1] == '>' then k + 2 - q else 0)
      else if k < |s| && s[k] == '>' then k + 1 - q
      else 0
    else 0
  }

  /** `split(/<\/p>|<br\s*\/?>/)`: the current piece starts at `start`, and the scan for the
      leftmost separator is at `q`. */
  function ParagraphsFrom(s: string, start: nat, q: nat): (r: seq<string>)
    requires start <= q <= |s|
    ensures |r| >= 1
    decreases |s| - q
  {
    if q == |s| then [s[start..]]
    else if SepLenAt(s, q) > 0 then [s[start..q]] + ParagraphsFrom(s, q + SepLenAt(s, q), q + SepLenAt(s, q))
    else ParagraphsFrom(s, start, q + 1)
  }

  function SplitParagraphs(s: string): (r: seq<string>)
    ensures |r| >= 1
  {
    ParagraphsFrom(s, 0, 0)
  }

  lemma {:induction false} ParagraphsFromPlain(s: string, q: nat)
    requires q <= |s| && forall j :: 0 <= j < |s| ==> s[j] != '<'
    ensures ParagraphsFrom(s, 0, q) == [s]
    decreases |s| - q
  {
    if q < |s| {
      ParagraphsFromPlain(s, q + 1);
    } else {
      assert s[0..] == s;
    }
  }

  /** Text without `<` is one paragraph. */
  lemma SplitPlainText(s: string)
    requires forall j :: 0 <= j < |s| ==> s[j] != '<'
    ensures SplitParagraphs(s) == [s]
  {
    ParagraphsFromPlain(s, 0);
  }

  /** A stored paragraph: non-empty, tag-free, no white space at either end. */
  predicate Cleaned(p: string) {
    p != [] && NoTag(p) && !IsJsSpace(p[0]) && !IsJsSpace(p[|p| - 1])
  }

  /** Trimming cuts a slice, so it keeps text tag-free. */
  lemma TrimKeepsNoTag(t: string)
    requires NoTag(t)
    ensures NoTag(Trim(t))
  {
    var a := SkipSpaces(t, 0);
    var b := BackSpaces(t, |t|);
    if a < b {
      NoTagSlice(t, a, b);
    }
  }

  /** One paragraph as stored: tags stripped, then trimmed. */
  function CleanParagraph(p: string): string {
    Trim(StripTags(p))
  }

  /** A paragraph that is not empty after cleaning is a stored paragraph, and even an
      empty one is tag-free. */
  lemma CleanParagraphCleaned(p: string)
    ensures CleanParagraph(p) != [] ==> Cleaned(CleanParagraph(p))
    ensures NoTag(CleanParagraph(p))
  {
    StripTagsFacts(p);
    TrimKeepsNoTag(StripTags(p));
    TrimEnds(StripTags(p));
  }

  /** `.map(clean).filter(p => p.length > 0)` over the paragraphs from index `i` on. */
  function CleanFrom(ps: seq<string>, i: nat): (r: seq<string>)
    requires i <= |ps|
    ensures |r| <= |ps| - i
    ensures forall k :: 0 <= k < |r| ==> r[k] != []
    decreases |ps| - i
  {
    if i == |ps| then []
    else
      var c := CleanParagraph(ps[i]);
      var rest := CleanFrom(ps, i + 1);
      if c != [] then [c] + rest else rest
  }

  function CleanAll(ps: seq<string>): (r: seq<string>)
    ensures |r| <= |ps|
    ensures forall k :: 0 <= k < |r| ==> r[k] != []
  {
    CleanFrom(ps, 0)
  }

  lemma {:induction false} CleanFromCleaned(ps: seq<string>, i: nat, k: nat)
    requires i <= |ps| && k < |CleanFrom(ps, i)|
    ensures Cleaned(CleanFrom(ps, i)[k])
    decreases |ps| - i
  {
    var c := CleanParagraph(ps[i]);
    var rest := CleanFrom(ps, i + 1);
    if c != [] {
      CleanParagraphCleaned(ps[i]);
      assert CleanFrom(ps, i) == [c] + rest;
      if k > 0 {
        CleanFromCleaned(ps, i + 1, k - 1);
        assert CleanFrom(ps, i)[k] == rest[k - 1];
      }
    } else {
      CleanFromCleaned(ps, i + 1, k);
    }
  }

  /** The paragraphs of an HTML segment: split at `</p>` and `<br>`, cleaned, empty ones
      dropped. */
  function CleanParagraphs(segment: string): seq<string> {
    CleanAll(SplitParagraphs(segment))
  }

  /** Every stored paragraph is non-empty, tag-free and has no white space at either end. */
  lemma CleanParagraphsCleaned(segment: string)
    ensures forall i :: 0 <= i < |CleanParagraphs(segment)| ==> Cleaned(CleanParagraphs(segment)[i])
  {
    forall i | 0 <= i < |CleanParagraphs(segment)|
      ensures Cleaned(CleanParagraphs(segment)[i])
    {
      CleanFromCleaned(SplitParagraphs(segment), 0, i);
    }
  }

  // ===========================================================================
  // parseDocx: the heading scan

  /** One match of the heading pattern: where it starts, where the scan resumes after it,
      the level digit and the inner HTML. */
  datatype HeadingMatch = HeadingMatch(index: nat, lastIndex: nat, level: HeadingLevel, inner: string)

  datatype ParsedSection = ParsedSection(title: string, sectionType: SectionType, content: seq<string>, level: HeadingLevel)

  /** What a left-to-right scan for non-overlapping matches yields. */
  predicate WellFormed(html: string, ms: seq<HeadingMatch>) {
    (forall i :: 0 <= i < |ms| ==> ms[i].index <= ms[i].lastIndex <= |html|) &&
    (forall i, j :: 0 <= i < |ms| && 0 <= j < |ms| && j == i + 1 ==> ms[i].lastIndex <= ms[j].index)
  }

  function HeadingTitle(inner: string): string {
    CleanParagraph(inner)
  }

  /** Where the content of section `i` ends: at the next heading or at the end. */
  function SegmentEnd(html: string, ms: seq<HeadingMatch>, i: nat): nat
    requires WellFormed(html, ms) && i < |ms|
  {
    if i + 1 < |ms| then ms[i + 1].index else |html|
  }

  /** The section a heading opens, before its paragraphs are known. */
  function SectionHead(m: HeadingMatch): ParsedSection {
    var title := HeadingTitle(m.inner);
    ParsedSection(title, Classify(title), [], m.level)
  }

  /** Section `i`: the heading's cleaned title, its classification and level, and the
      paragraphs between this heading and the next (or the end). */
  function SectionAt(html: string, ms: seq<HeadingMatch>, i: nat): ParsedSection
    requires WellFormed(html, ms) && i < |ms|
  {
    SectionHead(ms[i]).(content := CleanParagraphs(html[ms[i].lastIndex..SegmentEnd(html, ms, i)]))
  }

  /** Closing section `k - 1` when heading `k` (or the end) is reached: with sections
      `0` to `k - 2` already in place, pushing it gives sections `0` to `k - 1`. */
  lemma CloseSection(html: string, ms: seq<HeadingMatch>, k: nat, sections: seq<ParsedSection>,
                     head: ParsedSection, from: nat, to: nat)
    requires WellFormed(html, ms) && 0 < k <= |ms| && |sections| == k - 1
    requires forall i :: 0 <= i < |sections| ==> sections[i] == SectionAt(html, ms, i)
    requires head == SectionHead(ms[k - 1]) && from == ms[k - 1].lastIndex
    requires to == if k < |ms| then ms[k].index else |html|
    ensures from <= to <= |html|
    ensures var next := sections + [head.(content := CleanParagraphs(html[from..to]))];
            forall i :: 0 <= i < k ==> next[i] == SectionAt(html, ms, i)
  {
    var next := sections + [head.(content := CleanParagraphs(html[from..to]))];
    assert next[k - 1] == SectionAt(html, ms, k - 1);
  }

  /** The `while ((match = headingRegex.exec(html)) !== null)` loop and the final push:
      one section per heading, in document order. Text before the first heading belongs
      to no section. */
  method ParseSections(html: string, ms: seq<HeadingMatch>) returns (sections: seq<ParsedSection>)
    requires WellFormed(html, ms)
    ensures |sections| == |ms|
    ensures forall i :: 0 <= i < |ms| ==> sections[i] == SectionAt(html, ms, i)
  {
    sections := [];
    var lastIndex := 0;
    var current: Option<ParsedSection> := None;
    var k := 0;
    while k < |ms|
      invariant 0 <= k <= |ms|
      invariant current.None? <==> k == 0
      invariant |sections| == if k == 0 then 0 else k - 1
      invariant forall i :: 0 <= i < |sections| ==> sections[i] == SectionAt(html, ms, i)
      invariant k > 0 ==> lastIndex == ms[k - 1].lastIndex && current.value == SectionHead(ms[k - 1])
    {
      var m := ms[k];
      if current.Some? {
        CloseSection(html, ms, k, sections, current.value, lastIndex, m.index);
        var content := CleanParagraphs(html[lastIndex..m.index]);
        sections := sections + [current.value.(content := content)];
      }
      current := Some(SectionHead(m));
      lastIndex := m.lastIndex;
      k := k + 1;
    }
    if current.Some? {
      CloseSection(html, ms, k, sections, current.value, lastIndex, |html|);
      assert html[lastIndex..] == html[lastIndex..|html|];
      var content := CleanParagraphs(html[lastIndex..]);
      sections := sections + [current.value.(content := content)];
    }
  }

  /** Every parsed section's title and paragraphs are tag-free and trimmed, and its type
      is the classification of its title. */
  lemma ParsedSectionFacts(html: string, ms: seq<HeadingMatch>, i: nat)
    requires WellFormed(html, ms) && i < |ms|
    ensures var s := SectionAt(html, ms, i);
            NoTag(s.title) && s.sectionType == Classify(s.title) && s.level == ms[i].level &&
            forall j :: 0 <= j < |s.content| ==> Cleaned(s.content[j])
  {
    CleanParagraphCleaned(ms[i].inner);
    CleanParagraphsCleaned(html[ms[i].lastIndex..SegmentEnd(html, ms, i)]);
  }

  // ===========================================================================
  // importToSupabase

  /** `.filter(p => p.trim())` over the first `n` paragraphs: a paragraph is kept unless
      it is all white space (trim() yields "" exactly then, by TrimEmptyIffAllSpace). */
  function NonBlankUpTo(ps: seq<string>, n: nat): (r: seq<string>)
    requires n <= |ps|
    ensures |r| <= n
  {
    if n == 0 then []
    else NonBlankUpTo(ps, n - 1) + (if !AllSpace(ps[n - 1]) then [ps[n - 1]] else [])
  }

  function NonBlank(ps: seq<string>): (r: seq<string>)
    ensures |r| <= |ps|
  {
    NonBlankUpTo(ps, |ps|)
  }

  /** The block list of one imported section with paragraphs `texts`: the title as a
      heading at order 0, then one text block per paragraph, in order, block k at order k
      with id `ids[k]`. */
  function ImportedBlocks(level: HeadingLevel, title: string, texts: seq<string>, ids: seq<string>): (r: seq<ContentBlock>)
    requires |ids| > |texts|
    ensures |r| == |texts| + 1
    ensures IsHeadingBlock(r[0]) && r[0].body.level == level && r[0].body.text == title
    ensures r[0].order == 0 && r[0].id == ids[0]
  {
    [CreateHeadingBlock(ids[0], level, title, 0)] +
    seq(|texts|, k requires 0 <= k < |texts| => CreateTextBlock(ids[k + 1], texts[k], k + 1))
  }

  /** Block k after the heading is the text block of paragraph k - 1, at order k. */
  lemma ImportedBlocksAt(level: HeadingLevel, title: string, texts: seq<string>, ids: seq<string>, k: nat)
    requires |ids| > |texts| && 1 <= k <= |texts|
    ensures ImportedBlocks(level, title, texts, ids)[k] == CreateTextBlock(ids[k], texts[k - 1], k)
  {
  }

  /** Cleaned paragraphs are never blank, so each becomes a text block. */
  lemma {:induction false} NonBlankUpToCleaned(ps: seq<string>, n: nat)
    requires n <= |ps| && forall i :: 0 <= i < |ps| ==> Cleaned(ps[i])
    ensures NonBlankUpTo(ps, n) == ps[..n]
  {
    if n > 0 {
      NonBlankUpToCleaned(ps, n - 1);
      assert !IsJsSpace(ps[n - 1][0]);
      assert ps[..n - 1] + [ps[n - 1]] == ps[..n];
    }
  }

  lemma NonBlankKeepsCleaned(ps: seq<string>)
    requires forall i :: 0 <= i < |ps| ==> Cleaned(ps[i])
    ensures NonBlank(ps) == ps
  {
    NonBlankUpToCleaned(ps, |ps|);
    assert ps[..|ps|] == ps;
  }

  /** The block list of one section, built by pushing onto `contentBlocks`; a text
      block's order is the list's length when it is pushed. */
  method BuildContentBlocks(level: HeadingLevel, title: string, content: seq<string>, ids: seq<string>)
    returns (blocks: seq<ContentBlock>)
    requires |ids| > |content|
    ensures blocks == ImportedBlocks(level, title, NonBlank(content), ids)
  {
    blocks := [CreateHeadingBlock(ids[0], level, title, 0)];
    var idx := 0;
    while idx < |content|
      invariant 0 <= idx <= |content|
      invariant blocks == ImportedBlocks(level, title, NonBlankUpTo(content, idx), ids)
    {
      var paragraph := content[idx];
      ghost var before := NonBlankUpTo(content, idx);
      TrimEmptyIffAllSpace(paragraph);
      if Trim(paragraph) != [] {
        ImportedBlocksSnoc(level, title, before, paragraph, ids);
        blocks := blocks + [CreateTextBlock(ids[|blocks|], paragraph, |blocks|)];
      } else {
        assert before + [] == before;
      }
      idx := idx + 1;
    }
  }

  lemma ImportedBlocksSnoc(level: HeadingLevel, title: string, texts: seq<string>, p: string, ids: seq<string>)
    requires |ids| > |texts| + 1
    ensures ImportedBlocks(level, title, texts + [p], ids) ==
              ImportedBlocks(level, title, texts, ids) + [CreateTextBlock(ids[|texts| + 1], p, |texts| + 1)]
  {
    var a := ImportedBlocks(level, title, texts + [p], ids);
    var b := ImportedBlocks(level, title, texts, ids) + [CreateTextBlock(ids[|texts| + 1], p, |texts| + 1)];
    assert forall k :: 0 <= k < |a| ==> a[k] == b[k];
  }

  const SystemUser: string := "00000000-0000-0000-0000-000000000000"

  /** The inserted report row; `meta` holds where the report came from and when
      (`importDate` is the clock's ISO text, a parameter). */
  datatype ReportInsert = ReportInsert(title: string, slug: string, createdBy: string,
                                       importedFrom: string, importDate: string)

  datatype SectionInsert = SectionInsert(reportId: string, sectionType: string, title: string, orderIndex: int,
                                         contentBlocks: seq<ContentBlock>)

  /** The report row: the title, its slug, the given user or the system user, and the
      `meta` that marks it as imported from a docx file at `importDate`. */
  function NewReport(reportTitle: string, userId: Option<string>, importDate: string): (r: ReportInsert)
    ensures r.slug == Slug(reportTitle) && r.title == reportTitle
    ensures Truthy(userId) ==> r.createdBy == userId.value
    ensures !Truthy(userId) ==> r.createdBy == SystemUser
    ensures r.importedFrom == "docx" && r.importDate == importDate
  {
    ReportInsert(reportTitle, Slug(reportTitle), if Truthy(userId) then userId.value else SystemUser,
                 "docx", importDate)
  }

  /** The row inserted for the section at position `i`: its type's column value, its
      title, order index `i`, and its block list. */
  function SectionRow(reportId: string, section: ParsedSection, i: nat, ids: seq<string>): SectionInsert
    requires |ids| > |section.content|
  {
    SectionInsert(reportId, Tag(section.sectionType), section.title, i,
                  ImportedBlocks(section.level, section.title, NonBlank(section.content), ids))
  }

  /** importToSupabase: the report row, then one section row per parsed section in order,
      the i-th with order index i. `createdReport` is the id the database assigned, or
      `None` when the report insert failed, which aborts the import. A failed section
      insert is only logged, so every section is attempted. */
  method ImportToSupabase(reportTitle: string, sections: seq<ParsedSection>, userId: Option<string>,
                          importDate: string, createdReport: Option<string>, ids: seq<seq<string>>)
    returns (report: ReportInsert, rows: seq<SectionInsert>)
    requires |ids| == |sections|
    requires forall i :: 0 <= i < |sections| ==> |ids[i]| > |sections[i].content|
    ensures report == NewReport(reportTitle, userId, importDate)
    ensures createdReport.None? ==> rows == []
    ensures createdReport.Some? ==> |rows| == |sections|
    ensures createdReport.Some? ==>
              forall i :: 0 <= i < |sections| ==> rows[i] == SectionRow(createdReport.value, sections[i], i, ids[i])
  {
    report := NewReport(reportTitle, userId, importDate);
    rows := [];
    if createdReport.None? {
      return;
    }
    var i := 0;
    while i < |sections|
      invariant 0 <= i <= |sections| && |rows| == i
      invariant forall j :: 0 <= j < i ==> rows[j] == SectionRow(createdReport.value, sections[j], j, ids[j])
    {
      var section := sections[i];
      var blocks := BuildContentBlocks(section.level, section.title, section.content, ids[i]);
      var row := SectionInsert(createdReport.value, Tag(section.sectionType), section.title, i, blocks);
      assert row == SectionRow(createdReport.value, sections[i], i, ids[i]);
      rows := rows + [row];
      i := i + 1;
    }
  }
}
