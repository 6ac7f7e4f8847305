/** Rewriters of generated regions: text between an opening and a closing marker is
    replaced and everything outside is kept. */
module Regions {
  import opened Common

  // ------------------------------------------------------------ searching

  predicate At(s: string, pat: string, i: nat) {
    i + |pat| <= |s| && s[i..i + |pat|] == pat
  }

  /** The first occurrence at or after `i`, or -1. */
  function Find(s: string, pat: string, i: nat): (k: int)
    ensures k == -1 || (i <= k && k + |pat| <= |s| && At(s, pat, k))
    ensures forall j: nat :: i <= j && (k == -1 || j < k) ==> !At(s, pat, j)
    decreases |s| - i
  {
    if i + |pat| > |s| then -1 else if At(s, pat, i) then i else Find(s, pat, i + 1)
  }

  predicate Has(s: string, pat: string) {
    Find(s, pat, 0) != -1
  }

  /** A marker starts with `<`, holds no other `<` and no line break. */
  ghost predicate IsMarker(m: string) {
    m != "" && m[0] == '<' && (forall k :: 0 < k < |m| ==> m[k] != '<') && forall k :: 0 <= k < |m| ==> m[k] != '\n'
  }

  ghost predicate OnOneLine(m: string) {
    m != "" && forall k :: 0 <= k < |m| ==> m[k] != '\n'
  }

  /** Only the text up to the end of an occurrence decides whether it is there. */
  lemma AtPrefix(a: string, b: string, pat: string, j: nat)
    requires j + |pat| <= |a|
    ensures At(a + b, pat, j) <==> At(a, pat, j)
  {
    assert (a + b)[j..j + |pat|] == a[j..j + |pat|];
  }

  lemma AtSuffix(a: string, b: string, pat: string, j: nat)
    ensures At(a + b, pat, |a| + j) <==> At(b, pat, j)
  {
    if j + |pat| <= |b| { assert (a + b)[|a| + j..|a| + j + |pat|] == b[j..j + |pat|]; }
  }

  /** Being the first occurrence, stated without the search. */
  lemma FindIs(s: string, pat: string, i: nat, k: nat)
    requires i <= k && At(s, pat, k) && forall j: nat :: i <= j < k ==> !At(s, pat, j)
    ensures Find(s, pat, i) == k
  {}

  /** What follows a marker does not move its first occurrence. */
  lemma FirstStays(pre: string, m: string, x: string, y: string)
    requires Find(pre + m + x, m, 0) == |pre|
    ensures Find(pre + m + y, m, 0) == |pre|
  {
    forall j: nat | j <= |pre| ensures At(pre + m + x, m, j) <==> At(pre + m + y, m, j) {
      AtPrefix(pre + m, x, m, j);
      AtPrefix(pre + m, y, m, j);
    }
    assert At(pre + m + y, m, |pre|);
    forall j: nat | j < |pre| ensures !At(pre + m + y, m, j) { assert !At(pre + m + x, m, j); }
    FindIs(pre + m + y, m, 0, |pre|);
  }

  /** Nothing that stays on one line is found across a line break. */
  lemma NotAcrossBreak(a: string, b: string, m: string, j: nat)
    requires OnOneLine(m) && j <= |a| < j + |m|
    ensures !At(a + "\n" + b, m, j)
  {
    var s := a + "\n" + b;
    if j + |m| <= |s| {
      assert s[j..j + |m|][|a| - j] == '\n';
      assert m[|a| - j] != '\n';
    }
  }

  /** A line break separates: it is on one side or on the other. */
  lemma AroundBreak(a: string, b: string, m: string, j: nat)
    requires OnOneLine(m)
    ensures At(a + "\n" + b, m, j) <==> At(a, m, j) || (j > |a| && At(b, m, j - |a| - 1))
  {
    var s := a + "\n" + b;
    assert s == a + ("\n" + b) && s == (a + "\n") + b;
    if j + |m| <= |a| {
      AtPrefix(a, "\n" + b, m, j);
    } else if j <= |a| {
      NotAcrossBreak(a, b, m, j);
    } else {
      AtSuffix(a + "\n", b, m, j - |a| - 1);
    }
  }

  /** A marker right after a line break that ends marker-free text is the first one. */
  lemma FirstAfterBreak(a: string, m: string, b: string)
    requires IsMarker(m) && !Has(a, m)
    ensures Find(a + "\n" + (m + b), m, 0) == |a| + 1
  {
    forall j: nat ensures At(a + "\n" + (m + b), m, j) <==> j > |a| && At(m + b, m, j - |a| - 1) {
      AroundBreak(a, m + b, m, j);
    }
    assert At(m + b, m, 0);
    FindIs(a + "\n" + (m + b), m, 0, |a| + 1);
  }

  // ------------------------------------------------------------ a region in place

  /** The text of a region: its body between the markers, each on a line. */
  function Block(open: string, close: string, body: string): string {
    open + "\n" + body + "\n" + close
  }

  /** Newlines that set a new block off by one blank line. */
  function Gap(before: string): string {
    if before == "" || (|before| >= 2 && before[|before| - 2..] == "\n\n") then ""
    else if before[|before| - 1] == '\n' then "\n" else "\n\n"
  }

  /** Where a new block goes: after the anchor when there is one, else at the end.
      The gap looks at the text before the anchor. */
  function InsertAt(text: string, anchor: Option<string>): (k: nat)
    ensures k <= |text|
  {
    if anchor.Some? && anchor.value != "" && Has(text, anchor.value) then Find(text, anchor.value, 0) + |anchor.value| else |text|
  }

  function GapAt(text: string, anchor: Option<string>): string {
    if anchor.Some? && anchor.value != "" && Has(text, anchor.value) then Gap(text[..Find(text, anchor.value, 0)]) else Gap(text)
  }

  /** The region that opens at `i`, up to the first closing marker after it, replaced. */
  function Replaced(open: string, close: string, text: string, i: nat, body: string): Option<string>
    requires i + |open| <= |text|
  {
    var rest := text[i + |open|..];
    var e := Find(rest, close, 0);
    if e == -1 then None else Some(text[..i] + Block(open, close, body) + rest[e + |close|..])
  }

  /** Rewrite the region in place, or create it; `None` is the failure when the only
      closing marker stands before the opening one. */
  function ApplyGeneratedRegion(open: string, close: string, text: string, body: string, anchor: Option<string>): Option<string>
    requires open != "" && close != ""
  {
    if Has(text, open) && Has(text, close) then Replaced(open, close, text, Find(text, open, 0), body)
    else
      var k := InsertAt(text, anchor);
      Some(text[..k] + GapAt(text, anchor) + (Block(open, close, body) + "\n") + text[k..])
  }

  lemma HasIff(s: string, m: string)
    ensures Has(s, m) <==> exists j: nat :: At(s, m, j)
  {}

  /** A text whose first opening marker is followed by this body and the closing
      marker is rewritten by replacing exactly that body. */
  lemma RewriteKnownBlock(open: string, close: string, pre: string, body: string, post: string, next: string, anchor: Option<string>)
    requires IsMarker(open) && IsMarker(close) && !Has(body, close)
    requires Find(pre + open + ("\n" + body + "\n" + (close + post)), open, 0) == |pre|
    ensures ApplyGeneratedRegion(open, close, pre + open + ("\n" + body + "\n" + (close + post)), next, anchor)
            == Some(pre + Block(open, close, next) + post)
  {
    var rest := "\n" + body + "\n" + (close + post);
    CloseInRest(close, body, post);
    ReplaceAt(open, close, pre, rest, |body| + 2, next, anchor);
  }

  lemma CloseInRest(close: string, body: string, post: string)
    requires IsMarker(close) && !Has(body, close)
    ensures var rest := "\n" + body + "\n" + (close + post);
      Find(rest, close, 0) == |body| + 2 && |rest| >= |body| + 2 + |close| && rest[|body| + 2 + |close|..] == post
  {
    NoMarkerInBody(body, close);
    FirstAfterBreak("\n" + body, close, post);
  }

  /** A rewrite in place, given where the markers are. */
  lemma ReplaceAt(open: string, close: string, pre: string, rest: string, e: nat, body: string, anchor: Option<string>)
    requires open != "" && close != "" && Find(pre + open + rest, open, 0) == |pre| && Find(rest, close, 0) == e
    ensures ApplyGeneratedRegion(open, close, pre + open + rest, body, anchor) == Some(pre + Block(open, close, body) + rest[e + |close|..])
  {
    Surroundings(pre, open, rest);
    CloseIsThere(pre + open, rest, close, e);
  }

  lemma Surroundings(pre: string, open: string, rest: string)
    ensures (pre + open + rest)[|pre| + |open|..] == rest && (pre + open + rest)[..|pre|] == pre
  {}

  lemma CloseIsThere(a: string, rest: string, close: string, e: nat)
    requires At(rest, close, e)
    ensures Has(a + rest, close)
  {
    AtSuffix(a, rest, close, e);
    HasIff(a + rest, close);
  }

  lemma NoMarkerInBody(body: string, m: string)
    requires IsMarker(m) && !Has(body, m)
    ensures !Has("\n" + body, m)
  {
    forall j: nat ensures !At("\n" + body, m, j) {
      AroundBreak("", body, m, j);
      assert "" + "\n" + body == "\n" + body;
    }
    HasIff("\n" + body, m);
  }

  lemma Reorder(pre: string, gap: string, block: string, post: string)
    ensures pre + gap + (block + "\n") + post == pre + gap + block + "\n" + post
    ensures pre + gap + block + ("\n" + post) == pre + gap + block + "\n" + post
  {}

  // ------------------------------------------------------------ last writer wins

  /** After text without the marker, the marker is first found where it stands. */
  lemma FirstAfterPlain(p: string, m: string, x: string)
    requires IsMarker(m) && !Has(p, m)
    ensures Find(p + m + x, m, 0) == |p|
  {
    var s := p + m + x;
    assert s == p + (m + x) && s[|p|..|p| + |m|] == m;
    forall j: nat | j < |p| ensures !At(s, m, j) { NotInto(p, m, m + x, j); }
    FindIs(s, m, 0, |p|);
  }

  /** A marker that starts in `p` ends in `p`, when a marker follows. */
  lemma NotInto(p: string, m: string, next: string, j: nat)
    requires IsMarker(m) && next != "" && next[0] == '<' && j < |p|
    ensures At(p + next, m, j) <==> At(p, m, j)
  {
    var s := p + next;
    if j + |m| <= |p| {
      AtPrefix(p, next, m, j);
    } else if j + |m| <= |s| {
      assert s[j..j + |m|][|p| - j] == '<';
      assert m[|p| - j] != '<';
    }
  }

  lemma {:induction false} NoMarkerInGap(p: string, gap: string, m: string)
    requires IsMarker(m) && !Has(p, m) && forall k :: 0 <= k < |gap| ==> gap[k] == '\n'
    ensures !Has(p + gap, m)
  {
    var s := p + gap;
    forall j: nat ensures !At(s, m, j) {
      if j + |m| <= |p| {
        AtPrefix(p, gap, m, j);
      } else if j + |m| <= |s| {
        var k := if j < |p| then |p| else j;
        assert s[j..j + |m|][k - j] == '\n';
        assert m[k - j] != '\n';
      }
    }
    HasIff(s, m);
  }

  /** The region has a definite place: it is there with a closing marker, or no stray
      opening marker stands before the point of insertion. */
  predicate Settled(open: string, close: string, text: string, anchor: Option<string>) {
    (Has(text, open) && Has(text, close)) || !Has(text[..InsertAt(text, anchor)], open)
  }

  /** In place, a rewrite is a function of the body between fixed surroundings. */
  lemma ReplaceShape(open: string, close: string, text: string, anchor: Option<string>) returns (pre: string, rest: string, post: string)
    requires open != "" && close != "" && Has(text, open) && Has(text, close)
    requires Find(text[Find(text, open, 0) + |open|..], close, 0) != -1
    ensures text == pre + open + rest && Find(text, open, 0) == |pre|
    ensures var cut := |rest| - |post| - |close|; cut >= 0 && At(rest, close, cut) && rest[cut + |close|..] == post
    ensures forall body :: ApplyGeneratedRegion(open, close, text, body, anchor) == Some(pre + Block(open, close, body) + post)
  {
    hide Find, At, ApplyGeneratedRegion, Replaced, Block;
    var i := Find(text, open, 0);
    SplitAt(text, open, i);
    rest := text[i + |open|..];
    pre, post := text[..i], rest[Find(rest, close, 0) + |close|..];
    TailFits(rest, close);
    forall body ensures ApplyGeneratedRegion(open, close, text, body, anchor) == Some(pre + Block(open, close, body) + post) {
      ReplacedIs(open, close, text, body, anchor);
    }
  }

  lemma ReplacedIs(open: string, close: string, text: string, body: string, anchor: Option<string>)
    requires open != "" && close != "" && Has(text, open) && Has(text, close)
    requires Find(text[Find(text, open, 0) + |open|..], close, 0) != -1
    ensures var i := Find(text, open, 0); var rest := text[i + |open|..];
      ApplyGeneratedRegion(open, close, text, body, anchor) == Some(text[..i] + Block(open, close, body) + rest[Find(rest, close, 0) + |close|..])
  {
    hide At, Find;
  }

  lemma TailFits(rest: string, close: string)
    requires Find(rest, close, 0) != -1
    ensures var post := rest[Find(rest, close, 0) + |close|..]; var cut := |rest| - |post| - |close|;
      cut == Find(rest, close, 0) && At(rest, close, cut)
  {}

  lemma SplitAt(text: string, m: string, i: nat)
    requires At(text, m, i)
    ensures text == text[..i] + m + text[i + |m|..]
  {
    assert text == text[..i] + text[i..i + |m|] + text[i + |m|..];
  }

  /** So is a creation. */
  lemma CreateShape(open: string, close: string, text: string, anchor: Option<string>) returns (pre: string, post: string)
    requires open != "" && close != "" && !(Has(text, open) && Has(text, close))
    ensures var k := InsertAt(text, anchor); pre == text[..k] + GapAt(text, anchor) && post == "\n" + text[k..]
    ensures forall body :: ApplyGeneratedRegion(open, close, text, body, anchor) == Some(pre + Block(open, close, body) + post)
  {
    var k := InsertAt(text, anchor);
    pre, post := text[..k] + GapAt(text, anchor), "\n" + text[k..];
    forall body ensures ApplyGeneratedRegion(open, close, text, body, anchor) == Some(pre + Block(open, close, body) + post) {
      assert pre + (Block(open, close, body) + "\n") + text[k..] == pre + Block(open, close, body) + post;
    }
  }

  /** Nothing outside the region is touched: the text before the opening and after the
      closing marker, or the whole old text around a new block, is kept in order. */
  lemma OutsideIsKept(open: string, close: string, text: string, body: string, anchor: Option<string>)
    returns (pre: string, gone: string, gap: string, post: string)
    requires open != "" && close != "" && ApplyGeneratedRegion(open, close, text, body, anchor).Some?
    ensures text == pre + gone + post
    ensures ApplyGeneratedRegion(open, close, text, body, anchor).value
            == pre + gap + Block(open, close, body) + (if gone == "" then "\n" else "") + post
    ensures gone == "" || (open <= gone && gap == "" && |close| <= |gone| && At(gone, close, |gone| - |close|))
    ensures forall k :: 0 <= k < |gap| ==> gap[k] == '\n'
  {
    hide *;
    if Has(text, open) && Has(text, close) {
      ClosingFound(open, close, text, body, anchor);
      var rest;
      pre, rest, post := ReplaceShape(open, close, text, anchor);
      gap := "";
      gone := CutOut(open, close, pre, rest, post);
      NoGap(pre, Block(open, close, body), post);
    } else {
      var k, tail := InsertAt(text, anchor), "";
      pre, tail := CreateShape(open, close, text, anchor);
      pre, gone, gap, post := text[..k], "", GapAt(text, anchor), text[k..];
      Reorder(pre, gap, Block(open, close, body), post);
      GapIsBreaks(text, anchor);
    }
  }

  lemma ClosingFound(open: string, close: string, text: string, body: string, anchor: Option<string>)
    requires open != "" && close != "" && Has(text, open) && Has(text, close) && ApplyGeneratedRegion(open, close, text, body, anchor).Some?
    ensures Find(text[Find(text, open, 0) + |open|..], close, 0) != -1
  {}

  lemma GapIsBreaks(text: string, anchor: Option<string>)
    ensures forall k :: 0 <= k < |GapAt(text, anchor)| ==> GapAt(text, anchor)[k] == '\n'
  {}

  lemma NoGap(pre: string, block: string, post: string)
    ensures pre + "" + block + "" + post == pre + block + post
  {}

  lemma CutOut(open: string, close: string, pre: string, rest: string, post: string) returns (gone: string)
    requires open != ""
    requires var cut := |rest| - |post| - |close|; cut >= 0 && At(rest, close, cut) && rest[cut + |close|..] == post
    ensures pre + open + rest == pre + gone + post && gone != "" && open <= gone && |gone| >= |close| && At(gone, close, |gone| - |close|)
  {
    var cut := |rest| - |post| - |close|;
    gone := open + rest[..cut + |close|];
    assert rest == rest[..cut + |close|] + post;
    assert gone[|gone| - |close|..] == rest[cut..cut + |close|];
  }

  /** The same characters, grouped around the opening marker. */
  function After(close: string, body: string, post: string): string {
    "\n" + body + "\n" + (close + post)
  }

  lemma Regroup(pre: string, open: string, a: string, body: string, b: string, close: string, post: string)
    ensures pre + (open + a + body + b + close) + post == pre + open + (a + body + b + (close + post))
  {}

  lemma BlockRegroups(open: string, close: string, pre: string, body: string, post: string)
    ensures pre + Block(open, close, body) + post == pre + open + After(close, body, post)
  {
    Regroup(pre, open, "\n", body, "\n", close, post);
  }

  /** A second body over a first, between known surroundings. */
  lemma RewriteOver(open: string, close: string, pre: string, first: string, post: string, second: string, anchor: Option<string>)
    requires IsMarker(open) && IsMarker(close) && !Has(first, close)
    requires Find(pre + open + After(close, first, post), open, 0) == |pre|
    ensures ApplyGeneratedRegion(open, close, pre + open + After(close, first, post), second, anchor) == Some(pre + Block(open, close, second) + post)
  {
    RewriteKnownBlock(open, close, pre, first, post, second, anchor);
  }

  /** A stray opening marker before the insertion point swallows what stands between
      it and the new block. */
  lemma StrayOpeningSwallows(open: string, close: string, text: string, first: string, second: string, anchor: Option<string>)
    requires IsMarker(open) && IsMarker(close) && !Has(first, close) && !Has(open, close)
    requires !Has(text, close) && Has(text[..InsertAt(text, anchor)], open)
    ensures var once := ApplyGeneratedRegion(open, close, text, first, anchor).value;
      var twice := ApplyGeneratedRegion(open, close, once, second, anchor);
      twice.Some? && |twice.value| < |ApplyGeneratedRegion(open, close, text, second, anchor).value|
  {
    var k, gap := InsertAt(text, anchor), GapAt(text, anchor);
    FirstInPrefix(text[..k], text[k..], open);
    assert text[..k] + text[k..] == text;
    var pre, post := CreateShape(open, close, text, anchor);
    NoCloseBefore(open, close, text, k, gap, first);
    SwallowFrom(open, close, text[..k], gap, first, post, second, anchor);
  }

  /** A rewrite keeps what stands before the first opening and after the first closing marker. */
  lemma RewriteLength(open: string, close: string, s: string, body: string, anchor: Option<string>, i: nat, c: nat)
    requires open != "" && close != "" && Find(s, open, 0) == i && Find(s, close, 0) == c && i + |open| <= c
    ensures var out := ApplyGeneratedRegion(open, close, s, body, anchor);
      out.Some? && |out.value| == i + |Block(open, close, body)| + (|s| - c - |close|)
  {
    hide Find, At, ApplyGeneratedRegion, Replaced, Block;
    FindInRest(s, close, i + |open|, c);
    ReplacedIs(open, close, s, body, anchor);
    LengthAround(s[..i], Block(open, close, body), s[i + |open|..], c - i - |open| + |close|);
  }

  lemma LengthAround(pre: string, block: string, rest: string, k: nat)
    requires k <= |rest|
    ensures |pre + block + rest[k..]| == |pre| + |block| + |rest| - k
  {}

  lemma SwallowFrom(open: string, close: string, head: string, gap: string, first: string, post: string, second: string, anchor: Option<string>)
    requires IsMarker(open) && IsMarker(close) && Has(head, open) && !Has(head + gap + open + "\n" + first, close)
    ensures var once := head + gap + Block(open, close, first) + post;
      var twice := ApplyGeneratedRegion(open, close, once, second, anchor);
      twice.Some? && |twice.value| < |head + gap + Block(open, close, second) + post|
  {
    var once := head + gap + Block(open, close, first) + post;
    var q := head + gap + open + "\n" + first;
    RegroupClose(head + gap, open, "\n", first, "\n", close, post);
    FirstAfterBreak(q, close, post);
    RegroupHead(head, gap, Block(open, close, first), post);
    FirstInPrefix(head, gap + Block(open, close, first) + post, open);
    RewriteLength(open, close, once, second, anchor, Find(head, open, 0), |q| + 1);
  }

  lemma RegroupClose(p: string, open: string, a: string, body: string, b: string, close: string, post: string)
    ensures p + (open + a + body + b + close) + post == (p + open + a + body) + b + (close + post)
  {}

  lemma RegroupHead(head: string, gap: string, block: string, post: string)
    ensures head + gap + block + post == head + (gap + block + post)
  {}

  /** Searching the rest of a text for what is first found further on. */
  lemma FindInRest(s: string, m: string, from: nat, k: nat)
    requires from <= k && m != "" && Find(s, m, 0) == k
    ensures Find(s[from..], m, 0) == k - from
  {
    assert s == s[..from] + s[from..];
    forall j: nat ensures At(s[from..], m, j) <==> At(s, m, from + j) { AtSuffix(s[..from], s[from..], m, j); }
    FindIs(s[from..], m, 0, k - from);
  }

  lemma FirstInPrefix(a: string, b: string, m: string)
    requires Has(a, m)
    ensures Find(a + b, m, 0) == Find(a, m, 0)
  {
    var k := Find(a, m, 0);
    forall j: nat | j <= k ensures At(a + b, m, j) <==> At(a, m, j) { AtPrefix(a, b, m, j); }
    FindIs(a + b, m, 0, k);
  }

  lemma NoCloseBefore(open: string, close: string, text: string, k: nat, gap: string, body: string)
    requires IsMarker(open) && IsMarker(close) && !Has(body, close) && !Has(open, close) && !Has(text, close) && k <= |text|
    requires forall j :: 0 <= j < |gap| ==> gap[j] == '\n'
    ensures !Has(text[..k] + gap + open + "\n" + body, close)
  {
    var p := text[..k] + gap;
    forall j: nat ensures !At(text[..k], close, j) {
      if j + |close| <= k { AtPrefix(text[..k], text[k..], close, j); assert text[..k] + text[k..] == text; }
    }
    HasIff(text[..k], close);
    NoMarkerInGap(text[..k], gap, close);
    forall j: nat ensures !At(p + open, close, j) {
      if j < |p| { NotInto(p, close, open, j); } else { AtSuffix(p, open, close, j - |p|); }
    }
    forall j: nat ensures !At(p + open + "\n" + body, close, j) { AroundBreak(p + open, body, close, j); }
    HasIff(p + open + "\n" + body, close);
  }

  lemma RewriteReplaced(open: string, close: string, text: string, first: string, second: string, anchor: Option<string>)
    requires IsMarker(open) && IsMarker(close) && !Has(first, close)
    requires Has(text, open) && Has(text, close) && Find(text[Find(text, open, 0) + |open|..], close, 0) != -1
    ensures ApplyGeneratedRegion(open, close, ApplyGeneratedRegion(open, close, text, first, anchor).value, second, anchor)
            == ApplyGeneratedRegion(open, close, text, second, anchor)
  {
    var pre, rest, post := ReplaceShape(open, close, text, anchor);
    FirstStays(pre, open, rest, After(close, first, post));
    BlockRegroups(open, close, pre, first, post);
    RewriteOver(open, close, pre, first, post, second, anchor);
  }

  lemma RewriteCreated(open: string, close: string, text: string, first: string, second: string, anchor: Option<string>)
    requires IsMarker(open) && IsMarker(close) && !Has(first, close)
    requires !(Has(text, open) && Has(text, close)) && !Has(text[..InsertAt(text, anchor)], open)
    ensures ApplyGeneratedRegion(open, close, ApplyGeneratedRegion(open, close, text, first, anchor).value, second, anchor)
            == ApplyGeneratedRegion(open, close, text, second, anchor)
  {
    var pre, post := CreateShape(open, close, text, anchor);
    NoMarkerInGap(text[..InsertAt(text, anchor)], GapAt(text, anchor), open);
    FirstAfterPlain(pre, open, After(close, first, post));
    BlockRegroups(open, close, pre, first, post);
    RewriteOver(open, close, pre, first, post, second, anchor);
  }

  /** For bodies without the closing marker, writing a second body over a first gives
      what writing the second alone gives exactly when the region is settled. */
  lemma LastWriterWinsIff(open: string, close: string, text: string, first: string, second: string, anchor: Option<string>)
    requires IsMarker(open) && IsMarker(close) && !Has(first, close) && !Has(open, close)
    requires ApplyGeneratedRegion(open, close, text, first, anchor).Some?
    ensures var once := ApplyGeneratedRegion(open, close, text, first, anchor).value;
      Settled(open, close, text, anchor) <==>
        ApplyGeneratedRegion(open, close, once, second, anchor) == ApplyGeneratedRegion(open, close, text, second, anchor)
  {
    hide ApplyGeneratedRegion, Replaced, InsertAt, Block, Find, At;
    var k := InsertAt(text, anchor);
    if Has(text, open) && Has(text, close) {
      ClosingFound(open, close, text, first, anchor);
      RewriteReplaced(open, close, text, first, second, anchor);
    } else {
      if !Has(text[..k], open) {
        RewriteCreated(open, close, text, first, second, anchor);
      } else {
        HasInPrefix(text, k, open);
        StrayOpeningSwallows(open, close, text, first, second, anchor);
      }
    }
  }

  lemma HasInPrefix(text: string, k: nat, m: string)
    requires k <= |text| && Has(text[..k], m)
    ensures Has(text, m)
  {
    FirstInPrefix(text[..k], text[k..], m);
    assert text[..k] + text[k..] == text;
  }
}
