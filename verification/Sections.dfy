/** A page split into sections at `## ` headings, and the rewrite of one line in its
    Reporting section. */
module Sections {
  import opened Common

  // ------------------------------------------------------------ headings

  /** A heading starts here: at the start of a line, with `## `. */
  predicate HeadingAt(s: string, k: nat) {
    k + 3 <= |s| && (k == 0 || s[k - 1] == '\n') && s[k] == '#' && s[k + 1] == '#' && s[k + 2] == ' '
  }

  /** The first heading at or after `k`, or the end. */
  function NextHeading(s: string, k: nat): (h: nat)
    requires k <= |s|
    ensures k <= h <= |s| && (h < |s| ==> HeadingAt(s, h))
    ensures forall j :: k <= j < h ==> !HeadingAt(s, j)
    decreases |s| - k
  {
    if k == |s| || HeadingAt(s, k) then k else NextHeading(s, k + 1)
  }

  /** The sections from the heading at `h` on, each up to the next heading. */
  function Bodies(s: string, h: nat): seq<string>
    requires h <= |s|
    decreases |s| - h
  {
    if h == |s| then [] else [s[h..NextHeading(s, h + 1)]] + Bodies(s, NextHeading(s, h + 1))
  }

  datatype Page = Page(preamble: string, bodies: seq<string>)

  function Split(s: string): Page {
    Page(s[..NextHeading(s, 0)], Bodies(s, NextHeading(s, 0)))
  }

  function Concat(bodies: seq<string>): string {
    if bodies == [] then "" else bodies[0] + Concat(bodies[1..])
  }

  function Join(p: Page): string {
    p.preamble + Concat(p.bodies)
  }

  /** Past the line that starts at `k`. */
  function LineEnd(s: string, k: nat): (e: nat)
    requires k < |s|
    ensures k < e <= |s| && (s[e - 1] == '\n' || e == |s|) && forall j :: k <= j < e - 1 ==> s[j] != '\n'
    decreases |s| - k
  {
    if s[k] == '\n' || k + 1 == |s| then k + 1 else LineEnd(s, k + 1)
  }

  ghost predicate NoHeading(s: string, a: nat, b: nat) {
    forall j :: a <= j < b ==> !HeadingAt(s, j)
  }

  /** A line holds no heading but at its start. */
  lemma LineHeading(s: string, pos: nat)
    requires pos < |s| && (pos == 0 || s[pos - 1] == '\n')
    ensures var next := LineEnd(s, pos); var line := s[pos..next];
      NoHeading(s, pos + 1, next) && (HeadingAt(s, pos) <==> |line| >= 3 && line[0] == '#' && line[1] == '#' && line[2] == ' ')
  {}

  /** What has been collected before `pos`: the open section began at `start`. */
  ghost predicate Collected(s: string, pos: nat, start: nat, current: Option<string>, preamble: string, bodies: seq<string>)
    requires pos <= |s|
  {
    match current
    case None => bodies == [] && preamble == s[..pos] && NoHeading(s, 0, pos)
    case Some(body) =>
      && start < pos && HeadingAt(s, start) && body == s[start..pos] && NoHeading(s, start + 1, pos)
      && preamble == s[..NextHeading(s, 0)] && bodies + Bodies(s, start) == Bodies(s, NextHeading(s, 0))
  }

  lemma FirstBody(s: string, start: nat, pos: nat, before: seq<string>)
    requires start < pos <= |s| && NoHeading(s, start + 1, pos) && (pos == |s| || HeadingAt(s, pos))
    ensures before + Bodies(s, start) == before + [s[start..pos]] + Bodies(s, pos)
  {
    HeadingIs(s, start + 1, pos);
  }

  lemma CloseSection(s: string, pos: nat, start: nat, current: Option<string>, preamble: string, bodies: seq<string>)
    requires pos <= |s| && Collected(s, pos, start, current, preamble, bodies) && (pos == |s| || HeadingAt(s, pos))
    ensures preamble == s[..NextHeading(s, 0)]
    ensures var bodies' := if current.Some? then bodies + [current.value] else bodies;
      bodies' + Bodies(s, pos) == Bodies(s, NextHeading(s, 0))
  {
    if current.Some? { FirstBody(s, start, pos, bodies); } else { HeadingIs(s, 0, pos); }
  }

  /** Line by line: a heading line closes the section before it and opens the next. */
  method SplitSections(text: string) returns (preamble: string, bodies: seq<string>)
    ensures Page(preamble, bodies) == Split(text)
  {
    hide HeadingAt, NextHeading, Bodies, LineEnd;
    preamble, bodies := "", [];
    var current: Option<string> := None;
    var pos := 0;
    ghost var start := 0;
    while pos < |text|
      invariant pos <= |text| && (pos == 0 || pos == |text| || text[pos - 1] == '\n')
      invariant Collected(text, pos, start, current, preamble, bodies)
    {
      var next := LineEnd(text, pos);
      var line := text[pos..next];
      LineHeading(text, pos);
      if |line| >= 3 && line[0] == '#' && line[1] == '#' && line[2] == ' ' {
        CloseSection(text, pos, start, current, preamble, bodies);
        if current.Some? { bodies := bodies + [current.value]; }
        start := pos;
        current := Some(line);
      } else if current.None? {
        assert text[..next] == text[..pos] + line;
        preamble := preamble + line;
      } else {
        assert text[start..next] == text[start..pos] + line;
        current := Some(current.value + line);
      }
      pos := next;
    }
    CloseSection(text, pos, start, current, preamble, bodies);
    if current.Some? { bodies := bodies + [current.value]; }
    NoBodies(text, |text|);
    assert bodies + [] == bodies;
  }

  lemma HeadingIs(s: string, k: nat, h: nat)
    requires k <= h <= |s| && (h < |s| ==> HeadingAt(s, h)) && forall j :: k <= j < h ==> !HeadingAt(s, j)
    ensures NextHeading(s, k) == h
  {}

  // ------------------------------------------------------------ lossless

  lemma {:induction false} BodiesJoin(s: string, h: nat)
    requires h <= |s|
    ensures Concat(Bodies(s, h)) == s[h..]
    decreases |s| - h
  {
    if h < |s| {
      var n := NextHeading(s, h + 1);
      BodiesJoin(s, n);
      assert s[h..] == s[h..n] + s[n..];
    }
  }

  /** Splitting loses nothing. */
  lemma SplitIsLossless(s: string)
    ensures Join(Split(s)) == s
  {
    BodiesJoin(s, NextHeading(s, 0));
  }

  /** A section: it opens with the only heading in it. */
  ghost predicate IsSection(b: string) {
    HeadingAt(b, 0) && forall j :: 0 < j < |b| ==> !HeadingAt(b, j)
  }

  ghost predicate EndsLine(s: string) {
    s != "" && s[|s| - 1] == '\n'
  }

  ghost predicate Sectioned(bodies: seq<string>) {
    && (forall k :: 0 <= k < |bodies| ==> IsSection(bodies[k]))
    && (forall k :: 0 <= k < |bodies| - 1 ==> EndsLine(bodies[k]))
  }

  /** A page as splitting gives it: no heading in the preamble, every part but the last
      ends its line. */
  ghost predicate IsPage(p: Page) {
    && (forall j :: 0 <= j < |p.preamble| ==> !HeadingAt(p.preamble, j))
    && (p.bodies != [] ==> p.preamble == "" || EndsLine(p.preamble))
    && Sectioned(p.bodies)
  }

  lemma HeadingInPart(s: string, a: nat, b: nat, j: nat)
    requires a <= b <= |s| && (a == 0 || s[a - 1] == '\n') && j < b - a
    requires b == |s| || s[b - 1] == '\n'
    ensures HeadingAt(s[a..b], j) <==> HeadingAt(s, a + j)
  {
    var part := s[a..b];
    assert forall k :: 0 <= k < |part| ==> part[k] == s[a + k];
  }

  lemma {:induction false} BodiesAreSections(s: string, h: nat)
    requires h <= |s| && (h < |s| ==> HeadingAt(s, h))
    ensures var bs := Bodies(s, h);
      Sectioned(bs) && (bs == [] <==> h == |s|)
    decreases |s| - h
  {
    if h < |s| {
      var n := NextHeading(s, h + 1);
      BodiesAreSections(s, n);
      forall j: nat | j < n - h ensures HeadingAt(s[h..n], j) <==> HeadingAt(s, h + j) { HeadingInPart(s, h, n, j); }
      assert IsSection(s[h..n]);
    }
  }

  lemma SplitGivesPage(s: string)
    ensures IsPage(Split(s))
  {
    var h := NextHeading(s, 0);
    BodiesAreSections(s, h);
    forall j: nat | j < h ensures !HeadingAt(s[..h], j) { HeadingInPart(s, 0, h, j); assert s[0..h] == s[..h]; }
  }

  lemma HeadingAfter(a: string, b: string, j: nat)
    requires a == "" || a[|a| - 1] == '\n'
    ensures HeadingAt(a + b, |a| + j) <==> HeadingAt(b, j)
  {}

  lemma HeadingBefore(a: string, b: string, j: nat)
    requires j < |a| && (b == "" || a[|a| - 1] == '\n')
    ensures HeadingAt(a + b, j) <==> HeadingAt(a, j)
  {}

  lemma NextShift(a: string, b: string, k: nat)
    requires k <= |b| && (a == "" || a[|a| - 1] == '\n')
    ensures NextHeading(a + b, |a| + k) == |a| + NextHeading(b, k)
  {
    hide HeadingAt;
    var n := NextHeading(b, k);
    HeadingAfter(a, b, n);
    forall j: nat | |a| + k <= j < |a| + n ensures !HeadingAt(a + b, j) { HeadingAfter(a, b, j - |a|); }
    HeadingIs(a + b, |a| + k, |a| + n);
  }

  lemma SliceShift(a: string, b: string, h: nat, n: nat)
    requires h <= n <= |b|
    ensures (a + b)[|a| + h..|a| + n] == b[h..n]
  {}

  /** Headings are found again after whole lines put in front. */
  lemma {:induction false} BodiesShift(a: string, b: string, h: nat)
    requires h <= |b| && (a == "" || a[|a| - 1] == '\n')
    ensures Bodies(a + b, |a| + h) == Bodies(b, h)
    decreases |b| - h
  {
    hide HeadingAt, NextHeading, Bodies;
    if h < |b| {
      BodiesStep(b, h);
      BodiesStep(a + b, |a| + h);
      NextShift(a, b, h + 1);
      SliceShift(a, b, h, NextHeading(b, h + 1));
      BodiesShift(a, b, NextHeading(b, h + 1));
    } else {
      NoBodies(b, h);
      NoBodies(a + b, |a| + h);
    }
  }

  /** The first section ends where the second begins. */
  lemma FirstSectionEnds(b: string, rest: string)
    requires IsSection(b) && (rest == "" || (EndsLine(b) && HeadingAt(rest, 0)))
    ensures NextHeading(b + rest, 1) == |b| && HeadingAt(b + rest, 0) && (b + rest)[0..|b|] == b
  {
    hide HeadingAt, NextHeading;
    var s := b + rest;
    assert |b| >= 1 by { HeadingFits(b); }
    HeadingBefore(b, rest, 0);
    forall j: nat | 1 <= j < |b| ensures !HeadingAt(s, j) { HeadingBefore(b, rest, j); }
    if rest != "" { HeadingAfter(b, rest, 0); }
    HeadingIs(s, 1, |b|);
  }

  lemma HeadingFits(b: string)
    requires HeadingAt(b, 0)
    ensures |b| >= 3
  {}

  lemma BodiesStep(s: string, h: nat)
    requires h < |s|
    ensures Bodies(s, h) == [s[h..NextHeading(s, h + 1)]] + Bodies(s, NextHeading(s, h + 1))
  {}

  lemma SectionedTail(bodies: seq<string>)
    requires Sectioned(bodies) && bodies != []
    ensures Sectioned(bodies[1..]) && IsSection(bodies[0]) && (|bodies| > 1 ==> EndsLine(bodies[0]))
  {
    hide IsSection, EndsLine, HeadingAt;
    var t := bodies[1..];
    assert forall k :: 0 <= k < |t| ==> t[k] == bodies[k + 1];
  }

  lemma ConcatTail(bodies: seq<string>)
    requires bodies != []
    ensures bodies == [bodies[0]] + bodies[1..] && Concat(bodies) == bodies[0] + Concat(bodies[1..])
    ensures bodies[1..] == [] ==> Concat(bodies[1..]) == ""
  {}

  lemma {:induction false} BodiesOfConcat(bodies: seq<string>)
    requires Sectioned(bodies)
    ensures Bodies(Concat(bodies), 0) == bodies && (bodies != [] ==> HeadingAt(Concat(bodies), 0))
    decreases |bodies|
  {
    if bodies != [] {
      hide HeadingAt, NextHeading, Bodies, Concat, Sectioned, IsSection, EndsLine;
      SectionedTail(bodies);
      ConcatTail(bodies);
      var b, rest := bodies[0], Concat(bodies[1..]);
      BodiesOfConcat(bodies[1..]);
      FirstOfBodies(b, rest, bodies[1..]);
    }
  }

  lemma FirstOfBodies(b: string, rest: string, others: seq<string>)
    requires IsSection(b) && Bodies(rest, 0) == others && (if others == [] then rest == "" else EndsLine(b) && HeadingAt(rest, 0))
    ensures Bodies(b + rest, 0) == [b] + others && HeadingAt(b + rest, 0)
  {
    hide HeadingAt, NextHeading, Bodies;
    HeadingFits(b);
    FirstSectionEnds(b, rest);
    BodiesStep(b + rest, 0);
    if others == [] { NoBodies(b + rest, |b|); } else { BodiesShift(b, rest, 0); }
  }

  lemma NoBodies(s: string, h: nat)
    requires h == |s|
    ensures Bodies(s, h) == []
  {}

  /** The preamble ends where the first section begins. */
  lemma PreambleEnds(pre: string, rest: string)
    requires (forall j :: 0 <= j < |pre| ==> !HeadingAt(pre, j)) && (rest == "" || ((pre == "" || EndsLine(pre)) && HeadingAt(rest, 0)))
    ensures NextHeading(pre + rest, 0) == |pre| && (pre + rest)[..|pre|] == pre
  {
    hide HeadingAt, NextHeading;
    forall j: nat | j < |pre| ensures !HeadingAt(pre + rest, j) { HeadingBefore(pre, rest, j); }
    if rest != "" { HeadingAfter(pre, rest, 0); }
    HeadingIs(pre + rest, 0, |pre|);
  }

  /** Joining and splitting again gives the same page. */
  lemma SplitUndoesJoin(p: Page)
    requires IsPage(p)
    ensures Split(Join(p)) == p
  {
    hide HeadingAt, NextHeading, Bodies, Sectioned;
    var rest := Concat(p.bodies);
    BodiesOfConcat(p.bodies);
    PreambleEnds(p.preamble, rest);
    if p.bodies == [] { NoBodies(p.preamble + rest, |p.preamble|); } else { BodiesShift(p.preamble, rest, 0); }
  }
}
