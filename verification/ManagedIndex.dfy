/** The managed index block of a wiki page: replaced where it stands, or appended. */
module ManagedIndex {
  import opened Regions
  import opened StateRegion

  // ------------------------------------------------------------ the rewriter

  function Compose(prefix: string, block: string, suffix: string): string {
    (if prefix == "" then "" else prefix + "\n\n") + block + (if suffix == "" then "" else "\n\n" + suffix) + "\n"
  }

  predicate HasBlock(begin: string, end: string, text: string) {
    Has(text, begin) && Has(text, end) && Find(text, begin, 0) < Find(text, end, 0)
  }

  function ApplyManagedIndexBlock(begin: string, end: string, text: string, block: string): string {
    if HasBlock(begin, end, text) then
      var b, e := Find(text, begin, 0), Find(text, end, 0);
      Compose(StripRight(text[..b]), StripRight(block), StripRight(StripLeft(text[e + |end|..])))
    else
      var stripped := StripRight(text);
      if stripped == "" then block else stripped + "\n\n" + block
  }

  // ------------------------------------------------------------ rendered blocks

  /** Markers around entries that do not hold the closing one. */
  ghost predicate Rendered(begin: string, end: string, inner: string) {
    IsMarker(begin) && IsMarker(end) && Find(begin + inner + end, end, 0) == |begin + inner|
  }

  ghost predicate StrippedRight(s: string) {
    s == "" || s[|s| - 1] != '\n'
  }

  ghost predicate StrippedBoth(s: string) {
    s == "" || (s[0] != '\n' && s[|s| - 1] != '\n')
  }

  lemma StripRightKeeps(s: string, n: string)
    requires StrippedRight(s) && Newlines(n)
    ensures StripRight(s + n) == s
  {
    StripRightDrops(s, n);
  }

  lemma StripLeftKeeps(n: string, s: string)
    requires (s == "" || s[0] != '\n') && Newlines(n)
    ensures StripLeft(n + s) == s
  {
    StripLeftDrops(n, s);
  }

  function Lead(prefix: string): string {
    if prefix == "" then "" else prefix + "\n\n"
  }

  function Trail(suffix: string): string {
    (if suffix == "" then "" else "\n\n" + suffix) + "\n"
  }

  lemma ComposeIs(prefix: string, block: string, suffix: string)
    ensures Compose(prefix, block, suffix) == Lead(prefix) + block + Trail(suffix)
  {}

  lemma LeadIsClean(prefix: string, m: string)
    requires IsMarker(m) && !Has(prefix, m)
    ensures !Has(Lead(prefix), m)
  {
    if prefix != "" { NoMarkerInGap(prefix, "\n\n", m); }
  }

  lemma LeadStrips(prefix: string)
    requires StrippedRight(prefix)
    ensures StripRight(Lead(prefix)) == prefix
  {
    if prefix != "" { StripRightKeeps(prefix, "\n\n"); }
  }

  lemma TrailStrips(suffix: string)
    requires StrippedBoth(suffix)
    ensures StripRight(StripLeft(Trail(suffix))) == suffix
  {
    if suffix == "" {
      StripLeftKeeps("\n", "");
      assert Trail(suffix) == "\n" + "";
    } else {
      assert Trail(suffix) == "\n\n" + (suffix + "\n");
      StripLeftKeeps("\n\n", suffix + "\n");
      StripRightKeeps(suffix, "\n");
    }
  }

  /** Where the markers are, and what stands around them. */
  lemma BlockIsFound(begin: string, end: string, p: string, inner: string, tail: string)
    requires Rendered(begin, end, inner) && !Has(p, begin) && !Has(p, end)
    ensures var text := p + (begin + inner + end) + tail; var e := |p| + |begin + inner|;
      && HasBlock(begin, end, text) && Find(text, begin, 0) == |p| && Find(text, end, 0) == e
      && text[..|p|] == p && text[e + |end|..] == tail
  {
    var text := p + (begin + inner + end) + tail;
    Flatten(p, begin, inner, end, tail);
    FirstAfterPlain(p, begin, inner + end + tail);
    EndIsFound(begin, end, p, inner, tail);
  }

  /** The parts around a block come back unchanged from the text they were put into. */
  lemma PartsComeBack(begin: string, end: string, prefix: string, inner: string, suffix: string)
    requires Rendered(begin, end, inner) && StrippedRight(prefix) && StrippedBoth(suffix) && !Has(prefix, begin) && !Has(prefix, end)
    ensures var text := Compose(prefix, begin + inner + end, suffix);
      && HasBlock(begin, end, text)
      && StripRight(text[..Find(text, begin, 0)]) == prefix
      && StripRight(StripLeft(text[Find(text, end, 0) + |end|..])) == suffix
  {
    ComposeIs(prefix, begin + inner + end, suffix);
    LeadIsClean(prefix, begin);
    LeadIsClean(prefix, end);
    BlockIsFound(begin, end, Lead(prefix), inner, Trail(suffix));
    LeadStrips(prefix);
    TrailStrips(suffix);
  }

  lemma Flatten(p: string, begin: string, inner: string, end: string, tail: string)
    ensures p + begin + (inner + end + tail) == p + (begin + inner + end) + tail
  {}

  lemma EndIsFound(begin: string, end: string, p: string, inner: string, tail: string)
    requires Rendered(begin, end, inner) && !Has(p, end)
    ensures Find(p + begin + (inner + end + tail), end, 0) == |p| + |begin + inner|
  {
    var text := p + begin + (inner + end + tail);
    var block := begin + inner + end;
    Flatten(p, begin, inner, end, tail);
    assert text == p + (block + tail);
    var e := |p| + |begin + inner|;
    forall j: nat | j < e ensures !At(text, end, j) {
      if j < |p| {
        NotInto(p, end, block + tail, j);
      } else {
        AtSuffix(p, block + tail, end, j - |p|);
        AtPrefix(block, tail, end, j - |p|);
      }
    }
    AtSuffix(p, block + tail, end, e - |p|);
    AtPrefix(block, tail, end, e - |p|);
    FindIs(text, end, 0, e);
  }

  lemma BlockStrips(begin: string, end: string, inner: string)
    requires Rendered(begin, end, inner)
    ensures StripRight(begin + inner + end + "\n") == begin + inner + end
  {
    StripRightKeeps(begin + inner + end, "\n");
  }

  // ------------------------------------------------------------ when the last writer wins

  /** The block is there, or no stray marker is. */
  predicate Clear(begin: string, end: string, text: string) {
    HasBlock(begin, end, text) || (!Has(StripRight(text), begin) && !Has(StripRight(text), end))
  }

  lemma CleanBefore(text: string, k: nat, prefix: string, m: string)
    requires k <= |text| && prefix <= text[..k] && forall j: nat :: j < k ==> !At(text, m, j)
    requires m != ""
    ensures !Has(prefix, m)
  {
    assert text == prefix + text[|prefix|..];
    forall j: nat ensures !At(prefix, m, j) {
      if j + |m| <= |prefix| { AtPrefix(prefix, text[|prefix|..], m, j); }
    }
    HasIff(prefix, m);
  }

  /** Writing into such a page gives fixed surroundings with the block between them. */
  lemma WriteShape(begin: string, end: string, text: string) returns (prefix: string, suffix: string)
    requires IsMarker(begin) && IsMarker(end) && Clear(begin, end, text)
    ensures StrippedRight(prefix) && StrippedBoth(suffix) && !Has(prefix, begin) && !Has(prefix, end)
    ensures if HasBlock(begin, end, text)
      then prefix == StripRight(text[..Find(text, begin, 0)]) && suffix == StripRight(StripLeft(text[Find(text, end, 0) + |end|..]))
      else prefix == StripRight(text) && suffix == ""
  {
    if HasBlock(begin, end, text) {
      var b, e := Find(text, begin, 0), Find(text, end, 0);
      prefix, suffix := StripRight(text[..b]), StripRight(StripLeft(text[e + |end|..]));
      StripRightShape(text[..b]);
      StripLeftShape(text[e + |end|..]);
      StripRightShape(StripLeft(text[e + |end|..]));
      CleanBefore(text, b, prefix, begin);
      CleanBefore(text, b, prefix, end);
    } else {
      prefix, suffix := StripRight(text), "";
      StripRightShape(text);
    }
  }

  lemma WriteInPlace(begin: string, end: string, text: string, block: string, bare: string)
    requires HasBlock(begin, end, text) && StripRight(block) == bare
    ensures ApplyManagedIndexBlock(begin, end, text, block)
            == Compose(StripRight(text[..Find(text, begin, 0)]), bare, StripRight(StripLeft(text[Find(text, end, 0) + |end|..])))
  {}

  lemma WriteAtEnd(begin: string, end: string, text: string, bare: string)
    requires !HasBlock(begin, end, text)
    ensures ApplyManagedIndexBlock(begin, end, text, bare + "\n") == Compose(StripRight(text), bare, "")
  {
    AppendShape(StripRight(text), bare);
  }

  lemma WriteIs(begin: string, end: string, text: string, prefix: string, suffix: string, inner: string)
    requires Rendered(begin, end, inner)
    requires if HasBlock(begin, end, text)
      then prefix == StripRight(text[..Find(text, begin, 0)]) && suffix == StripRight(StripLeft(text[Find(text, end, 0) + |end|..]))
      else prefix == StripRight(text) && suffix == ""
    ensures ApplyManagedIndexBlock(begin, end, text, begin + inner + end + "\n") == Compose(prefix, begin + inner + end, suffix)
  {
    var bare := begin + inner + end;
    if HasBlock(begin, end, text) {
      BlockStrips(begin, end, inner);
      WriteInPlace(begin, end, text, bare + "\n", bare);
    } else {
      WriteAtEnd(begin, end, text, bare);
    }
  }

  lemma AppendShape(prefix: string, block: string)
    ensures Compose(prefix, block, "") == if prefix == "" then block + "\n" else prefix + "\n\n" + (block + "\n")
  {
    if prefix == "" { assert "" + block + "" + "\n" == block + "\n"; } else { assert prefix + "\n\n" + block + "" + "\n" == prefix + "\n\n" + (block + "\n"); }
  }

  lemma WriteOver(begin: string, end: string, prefix: string, first: string, second: string, suffix: string)
    requires Rendered(begin, end, first) && Rendered(begin, end, second)
    requires StrippedRight(prefix) && StrippedBoth(suffix) && !Has(prefix, begin) && !Has(prefix, end)
    ensures ApplyManagedIndexBlock(begin, end, Compose(prefix, begin + first + end, suffix), begin + second + end + "\n")
            == Compose(prefix, begin + second + end, suffix)
  {
    hide *;
    PartsComeBack(begin, end, prefix, first, suffix);
    BlockStrips(begin, end, second);
    WriteInPlace(begin, end, Compose(prefix, begin + first + end, suffix), begin + second + end + "\n", begin + second + end);
  }

  /** With a stray marker, a second write never gives what a single one gives: a stray
      closing marker makes it append again, a stray opening one makes it swallow text. */
  lemma StrayMarkerShows(begin: string, end: string, text: string, first: string, second: string)
    requires Rendered(begin, end, first) && Rendered(begin, end, second) && begin != end && !Clear(begin, end, text)
    ensures var once := ApplyManagedIndexBlock(begin, end, text, begin + first + end + "\n");
      |ApplyManagedIndexBlock(begin, end, once, begin + second + end + "\n")|
        != |ApplyManagedIndexBlock(begin, end, text, begin + second + end + "\n")|
  {
    var u := StripRight(text);
    StripRightShape(text);
    StrayStays(begin, end, text, u);
    assert u != "" by { HasIff("", begin); HasIff("", end); }
    if Has(u, end) {
      AppendsAgain(begin, end, u, first, second);
    } else {
      SwallowsTail(begin, end, u, first, second);
    }
  }

  /** The stray closing marker stands before every opening one, in the page written too. */
  lemma AppendsAgain(begin: string, end: string, u: string, first: string, second: string)
    requires Rendered(begin, end, first) && StrippedRight(u) && Has(u, end) && !HasBlock(begin, end, u) && u != "" && begin != end
    ensures var once := u + "\n\n" + (begin + first + end + "\n");
      ApplyManagedIndexBlock(begin, end, once, begin + second + end + "\n") == u + "\n\n" + (begin + first + end) + "\n\n" + (begin + second + end + "\n")
  {
    hide Find, At, StripRight, StripLeft, Compose;
    var block := begin + first + end;
    var once := u + "\n\n" + (block + "\n");
    Assoc(u, "\n\n", block + "\n");
    FirstInPrefix(u, "\n\n" + (block + "\n"), end);
    if Has(u, begin) { FirstInPrefix(u, "\n\n" + (block + "\n"), begin); } else { BeginAfter(begin, end, u, first); }
    Assoc(u + "\n\n", block, "\n");
    BlockEnds(begin, first, end, u + "\n\n");
    StripRightKeeps(u + "\n\n" + block, "\n");
  }

  lemma BlockEnds(begin: string, inner: string, end: string, p: string)
    requires Rendered(begin, end, inner)
    ensures StrippedRight(p + (begin + inner + end))
  {}

  /** Newlines at the end hold no marker. */
  lemma StrayStays(begin: string, end: string, text: string, u: string)
    requires IsMarker(begin) && IsMarker(end) && u == StripRight(text) && !HasBlock(begin, end, text)
    ensures !HasBlock(begin, end, u)
  {
    StripRightShape(text);
    assert text == u + text[|u|..];
    if Has(u, begin) { FirstInPrefix(u, text[|u|..], begin); HasIff(text, begin); }
    if Has(u, end) { FirstInPrefix(u, text[|u|..], end); HasIff(text, end); }
  }

  lemma BeginAfter(begin: string, end: string, u: string, inner: string)
    requires Rendered(begin, end, inner) && !Has(u, begin)
    ensures Find(u + "\n\n" + (begin + inner + end + "\n"), begin, 0) == |u| + 2
  {
    NoMarkerInGap(u, "\n\n", begin);
    var p, x := u + "\n\n", inner + end + "\n";
    FirstAfterPlain(p, begin, x);
    Assoc(p, begin, x);
    Regrouped(begin, inner, end);
    hide *;
  }

  lemma Regrouped(begin: string, inner: string, end: string)
    ensures begin + (inner + end + "\n") == begin + inner + end + "\n"
  {}

  lemma SwallowsTail(begin: string, end: string, u: string, first: string, second: string)
    requires Rendered(begin, end, first) && Rendered(begin, end, second) && Has(u, begin) && !Has(u, end)
    ensures var once := u + "\n\n" + (begin + first + end + "\n");
      |ApplyManagedIndexBlock(begin, end, once, begin + second + end + "\n")| < |u + "\n\n" + (begin + second + end + "\n")|
  {
    hide *;
    var once, bare := u + "\n\n" + (begin + first + end + "\n"), begin + second + end;
    StrayBlockPlace(begin, end, u, first, once);
    BlockStrips(begin, end, second);
    WriteInPlace(begin, end, once, bare + "\n", bare);
    var b := Find(once, begin, 0);
    StripRightShape(once[..b]);
    ComposeLength(StripRight(once[..b]), bare);
  }

  lemma ComposeLength(prefix: string, bare: string)
    ensures |Compose(prefix, bare, "")| <= |prefix| + |bare| + 3
  {}

  /** A stray opening marker and the closing one of the appended block make one block. */
  lemma StrayBlockPlace(begin: string, end: string, u: string, first: string, once: string)
    requires Rendered(begin, end, first) && Has(u, begin) && !Has(u, end)
    requires once == u + "\n\n" + (begin + first + end + "\n")
    ensures HasBlock(begin, end, once) && 0 <= Find(once, begin, 0) < |u|
    ensures StripRight(StripLeft(once[Find(once, end, 0) + |end|..])) == ""
  {
    hide Find, At, StripRight, StripLeft;
    var block := begin + first + end;
    Assoc(u, "\n\n", block + "\n");
    FirstInPrefix(u, "\n\n" + (block + "\n"), begin);
    NoMarkerInGap(u, "\n\n", end);
    CloseOfAppended(begin, end, u + "\n\n", first, once);
    OnlyNewline(once, |u + "\n\n"| + |block|);
  }

  lemma CloseOfAppended(begin: string, end: string, p: string, first: string, once: string)
    requires Rendered(begin, end, first) && !Has(p, end) && once == p + (begin + first + end + "\n")
    ensures Find(once, end, 0) == |p| + |begin + first| && Has(once, end)
    ensures |once| == |p| + |begin + first + end| + 1 && once[|p| + |begin + first + end|] == '\n'
  {
    hide Find, At, Rendered;
    EndIsFound(begin, end, p, first, "\n");
    Flatten(p, begin, first, end, "\n");
    Assoc(p, begin + first + end, "\n");
  }

  lemma Assoc(a: string, b: string, c: string)
    ensures a + b + c == a + (b + c)
  {}

  lemma OnlyNewline(once: string, k: nat)
    requires k + 1 == |once| && once[k] == '\n'
    ensures StripRight(StripLeft(once[k..])) == ""
  {
    assert once[k..] == "\n" + "";
    StripLeftKeeps("\n", "");
  }

  /** The page shows the last block alone exactly when the page was clear. */
  lemma IndexLastWriterWinsIff(begin: string, end: string, text: string, first: string, second: string)
    requires Rendered(begin, end, first) && Rendered(begin, end, second) && begin != end
    ensures var once := ApplyManagedIndexBlock(begin, end, text, begin + first + end + "\n");
      Clear(begin, end, text) <==>
        ApplyManagedIndexBlock(begin, end, once, begin + second + end + "\n") == ApplyManagedIndexBlock(begin, end, text, begin + second + end + "\n")
  {
    if Clear(begin, end, text) {
      var prefix, suffix := WriteShape(begin, end, text);
      WriteIs(begin, end, text, prefix, suffix, first);
      WriteIs(begin, end, text, prefix, suffix, second);
      WriteOver(begin, end, prefix, first, second, suffix);
    } else {
      StrayMarkerShows(begin, end, text, first, second);
    }
  }
}
