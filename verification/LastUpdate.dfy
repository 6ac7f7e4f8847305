/** What setting the date does to the text of a page: which line it finds, what it
    puts there, and where it adds a line when there is none. */
module LastUpdate {
  import opened Common
  import opened Sections
  import opened Reporting

  // ------------------------------------------------------------ the line it looks for

  ghost predicate Blank(s: string, from: nat, to: nat) {
    from <= to <= |s| && forall j :: from <= j < to ==> s[j] == ' ' || s[j] == '\t'
  }

  /** From `i`: blanks, perhaps a dash and more blanks, the key, blanks, and a colon that
      ends just before `p`. */
  ghost predicate KeyLineAt(s: string, i: nat, dash: nat, k: nat, colon: nat, p: nat, key: string) {
    && i <= dash <= k && k + |key| <= colon && colon + 1 == p <= |s|
    && Blank(s, i, dash) && (Blank(s, dash, k) || (dash < k && s[dash] == '-' && Blank(s, dash + 1, k)))
    && s[k..k + |key|] == key && Blank(s, k + |key|, colon) && s[colon] == ':'
  }

  ghost predicate KeyLine(s: string, i: nat, p: nat, key: string) {
    exists dash: nat, k: nat, colon: nat :: KeyLineAt(s, i, dash, k, colon, p, key)
  }

  lemma {:induction false} SkipIs(s: string, i: nat, j: nat)
    requires Blank(s, i, j) && (j < |s| ==> s[j] != ' ' && s[j] != '\t')
    ensures SkipBlanks(s, i) == j
    decreases j - i
  {
    if i < j { SkipIs(s, i + 1, j); }
  }

  lemma WordIs(s: string, word: string, k: nat)
    requires k + |word| <= |s|
    ensures WordAt(s, word, k) <==> s[k..k + |word|] == word
  {
    if s[k..k + |word|] == word { forall j | 0 <= j < |word| ensures s[k + j] == word[j] { assert s[k..k + |word|][j] == word[j]; } }
  }

  lemma LineHasKeyEnd(s: string, i: nat, dash: nat, k: nat, colon: nat, p: nat, key: string, title: string)
    requires IsKey(key, title) && KeyLineAt(s, i, dash, k, colon, p, key)
    ensures KeyEnd(s, i, key) == Some(p)
  {
    WordIs(s, key, k);
    assert s[k] == key[0] && key[0] != ' ' && key[0] != '\t';
    if Blank(s, dash, k) {
      SkipIs(s, i, k);
      SkipIs(s, k, k);
    } else {
      SkipIs(s, i, dash);
      SkipIs(s, dash + 1, k);
    }
    SkipIs(s, k + |key|, colon);
  }

  lemma KeyEndHasLine(s: string, i: nat, p: nat, key: string, title: string)
    requires IsKey(key, title) && i <= |s| && KeyEnd(s, i, key) == Some(p)
    ensures KeyLine(s, i, p, key)
  {
    var a := SkipBlanks(s, i);
    var k := KeyStart(s, i);
    var colon := SkipBlanks(s, k + |key|);
    WordIs(s, key, k);
    assert KeyLineAt(s, i, a, k, colon, p, key);
  }

  /** The search for the line finds exactly the lines of this shape. */
  lemma KeyEndIff(s: string, i: nat, p: nat, key: string, title: string)
    requires IsKey(key, title) && i <= |s|
    ensures KeyEnd(s, i, key) == Some(p) <==> KeyLine(s, i, p, key)
  {
    if KeyEnd(s, i, key) == Some(p) { KeyEndHasLine(s, i, p, key, title); }
    if KeyLine(s, i, p, key) {
      var dash: nat, k: nat, colon: nat :| KeyLineAt(s, i, dash, k, colon, p, key);
      LineHasKeyEnd(s, i, dash, k, colon, p, key, title);
    }
  }

  /** No line that starts before `n` is one. */
  ghost predicate NoKeyLineBefore(s: string, n: nat, key: string) {
    forall j: nat, q: nat :: j < n && j <= |s| && LineStart(s, j) ==> !KeyLine(s, j, q, key)
  }

  lemma FirstKeyFound(s: string, i: nat, p: nat, key: string, title: string)
    requires IsKey(key, title) && i <= |s| && LineStart(s, i) && KeyLine(s, i, p, key) && NoKeyLineBefore(s, i, key)
    ensures FirstKey(s, 0, key) == Some((i, p))
  {
    KeyEndIff(s, i, p, key, title);
    var m := FirstKey(s, 0, key);
    if m.Some? && m.value.0 < i { KeyEndIff(s, m.value.0, m.value.1, key, title); }
  }

  lemma NoKeyFound(s: string, key: string, title: string)
    requires IsKey(key, title) && NoKeyLineBefore(s, |s| + 1, key)
    ensures FirstKey(s, 0, key) == None
  {
    var m := FirstKey(s, 0, key);
    if m.Some? { KeyEndIff(s, m.value.0, m.value.1, key, title); }
  }

  // ------------------------------------------------------------ what it writes

  /** The rest of the line that `p` is on ends at `e`. */
  ghost predicate RestOfLine(s: string, p: nat, e: nat) {
    p <= e <= |s| && (forall j :: p <= j < e ==> !IsTerminator(s[j])) && (e < |s| ==> IsTerminator(s[e]))
  }

  /** The Reporting section of a page: the first section with that title. */
  ghost predicate IsFirstReporting(md: string, k: nat, title: string) {
    var bodies := Split(md).bodies;
    k < |bodies| && IsReporting(bodies[k], title) && forall j :: 0 <= j < k ==> !IsReporting(bodies[j], title)
  }

  lemma {:induction false} FirstReportingIs(bodies: seq<string>, k: nat, title: string)
    requires k < |bodies| && IsReporting(bodies[k], title) && forall j :: 0 <= j < k ==> !IsReporting(bodies[j], title)
    ensures FirstReporting(bodies, title) == k
  {}

  /** With a line to set, what follows its colon becomes a space and the date, up to the
      end of the line; every other character of the page stays. */
  lemma DateIsReplaced(md: string, n: nat, i: nat, p: nat, e: nat, key: string, title: string, today: string)
    requires IsKey(key, title) && IsFirstReporting(md, n, title)
    requires var s := Split(md).bodies[n]; i <= |s| && LineStart(s, i) && KeyLine(s, i, p, key) && NoKeyLineBefore(s, i, key) && RestOfLine(s, p, e)
    ensures var page := Split(md); var s := page.bodies[n];
      SetLastUpdate(md, key, title, today) == Join(page.(bodies := page.bodies[n := s[..p] + " " + today + s[e..]]))
  {
    var s := Split(md).bodies[n];
    FirstReportingIs(Split(md).bodies, n, title);
    FirstKeyFound(s, i, p, key, title);
    RestEndIs(s, p, e);
    hide Split, Join, FirstReporting, FirstKey, KeyLine, RestEnd;
  }

  /** Without one, a line for it goes directly under a plainly written heading that ends
      its line; under any other heading nothing is set. */
  lemma DateIsAdded(md: string, n: nat, h: nat, key: string, title: string, today: string)
    requires IsKey(key, title) && IsFirstReporting(md, n, title)
    requires var s := Split(md).bodies[n]; NoKeyLineBefore(s, |s| + 1, key) && 0 < h <= |s| && s[h - 1] == '\n' && forall j :: 0 <= j < h - 1 ==> s[j] != '\n'
    ensures var page := Split(md); var s := page.bodies[n]; var heading := "## " + title;
      SetLastUpdate(md, key, title, today) ==
        if heading <= s then Join(page.(bodies := page.bodies[n := s[..h] + (key + ": " + today + "\n") + s[h..]])) else md
  {
    var page := Split(md);
    var s := page.bodies[n];
    FirstReportingIs(page.bodies, n, title);
    NoKeyFound(s, key, title);
    LineEndIs(s, h);
    HeadingIs(s, "## " + title);
    assert page.(bodies := page.bodies[n := s]) == page;
    SplitIsLossless(md);
    hide Split, Join, FirstReporting, FirstKey, NoKeyLineBefore, WordAt, LineEnd;
  }

  lemma HeadingIs(s: string, heading: string)
    ensures WordAt(s, heading, 0) <==> heading <= s
  {}

  /** A section that is only its heading line, unended, is left alone too. */
  lemma UnendedHeading(md: string, n: nat, key: string, title: string, today: string)
    requires IsKey(key, title) && IsFirstReporting(md, n, title)
    requires var s := Split(md).bodies[n]; NoKeyLineBefore(s, |s| + 1, key) && forall j :: 0 <= j < |s| ==> s[j] != '\n'
    ensures SetLastUpdate(md, key, title, today) == md
  {
    var page := Split(md);
    var s := page.bodies[n];
    FirstReportingIs(page.bodies, n, title);
    NoKeyFound(s, key, title);
    assert page.(bodies := page.bodies[n := s]) == page;
    SplitIsLossless(md);
    hide Split, Join, FirstReporting, FirstKey, NoKeyLineBefore, WordAt;
  }

  /** A page without such a section is left alone. */
  lemma NothingToSet(md: string, key: string, title: string, today: string)
    requires forall j :: 0 <= j < |Split(md).bodies| ==> !IsReporting(Split(md).bodies[j], title)
    ensures SetLastUpdate(md, key, title, today) == md
  {}
}
