/** The `last_update` line of a page's Reporting section: rewritten where it is, or
    added under the heading. */
module Reporting {
  import opened Common
  import opened Sections

  // ------------------------------------------------------------ the line pattern

  /** Where `^` and `$` match in multiline mode, and where `.` stops. */
  predicate IsTerminator(c: char) {
    c == '\n' || c == '\r' || c == '\U{2028}' || c == '\U{2029}'
  }

  predicate LineStart(s: string, i: nat)
    requires i <= |s|
  {
    i == 0 || IsTerminator(s[i - 1])
  }

  function SkipBlanks(s: string, i: nat): (j: nat)
    requires i <= |s|
    ensures i <= j <= |s| && (j < |s| ==> s[j] != ' ' && s[j] != '\t')
    ensures forall k :: i <= k < j ==> s[k] == ' ' || s[k] == '\t'
    decreases |s| - i
  {
    if i < |s| && (s[i] == ' ' || s[i] == '\t') then SkipBlanks(s, i + 1) else i
  }

  predicate WordAt(s: string, word: string, i: nat) {
    i + |word| <= |s| && forall j :: 0 <= j < |word| ==> s[i + j] == word[j]
  }

  const Key: string := "last_update"

  /** Past blanks, an optional dash and blanks. */
  function KeyStart(s: string, i: nat): (c: nat)
    requires i <= |s|
    ensures i <= c <= |s|
    ensures forall k :: i <= k < c ==> s[k] == ' ' || s[k] == '\t' || s[k] == '-'
  {
    var a := SkipBlanks(s, i);
    SkipBlanks(s, if a < |s| && s[a] == '-' then a + 1 else a)
  }

  /** The key at `c`, blanks and a colon: the position after the colon. */
  function ColonAfter(s: string, c: nat, key: string): (p: Option<nat>)
    ensures p.Some? ==> WordAt(s, key, c) && c + |key| < p.value <= |s| && forall k :: c + |key| <= k < p.value ==> s[k] == ' ' || s[k] == '\t' || s[k] == ':'
  {
    if !WordAt(s, key, c) then None
    else
      var d := SkipBlanks(s, c + |key|);
      if d < |s| && s[d] == ':' then Some(d + 1) else None
  }

  /** Whether the line that starts at `i` sets the key. */
  function KeyEnd(s: string, i: nat, key: string): (p: Option<nat>)
    requires i <= |s|
    ensures p.Some? ==> i + |key| < p.value <= |s|
  {
    ColonAfter(s, KeyStart(s, i), key)
  }

  /** The first line from `i` on that matches: its start and the end of its key. */
  function FirstKey(s: string, i: nat, key: string): (m: Option<(nat, nat)>)
    requires i <= |s|
    ensures m.Some? ==> i <= m.value.0 <= |s| && LineStart(s, m.value.0) && KeyEnd(s, m.value.0, key) == Some(m.value.1)
    ensures forall j :: i <= j <= |s| && LineStart(s, j) && (m.None? || j < m.value.0) ==> KeyEnd(s, j, key).None?
    decreases |s| - i
  {
    if LineStart(s, i) && KeyEnd(s, i, key).Some? then Some((i, KeyEnd(s, i, key).value))
    else if i == |s| then None
    else FirstKey(s, i + 1, key)
  }

  /** The end of the line that `p` is on. */
  function RestEnd(s: string, p: nat): (e: nat)
    requires p <= |s|
    ensures p <= e <= |s| && (e < |s| ==> IsTerminator(s[e])) && forall j :: p <= j < e ==> !IsTerminator(s[j])
    decreases |s| - p
  {
    if p == |s| || IsTerminator(s[p]) then p else RestEnd(s, p + 1)
  }

  // ------------------------------------------------------------ the rewrite

  predicate IsSpace(c: char) {
    || '\t' <= c <= '\r' || c == ' ' || c == '\U{A0}' || c == '\U{1680}' || '\U{2000}' <= c <= '\U{200A}'
    || c == '\U{2028}' || c == '\U{2029}' || c == '\U{202F}' || c == '\U{205F}' || c == '\U{3000}' || c == '\U{FEFF}'
  }

  /** The text between `from` and `to`, trimmed, is this word. */
  predicate TrimsTo(s: string, from: nat, to: nat, word: string)
    requires from <= to <= |s|
  {
    exists i :: from <= i <= to && TrimmedAt(s, from, to, word, i)
  }

  predicate TrimmedAt(s: string, from: nat, to: nat, word: string, i: nat)
    requires from <= i <= to <= |s|
  {
    && i + |word| <= to && WordAt(s, word, i)
    && (forall k :: from <= k < i ==> IsSpace(s[k])) && forall k :: i + |word| <= k < to ==> IsSpace(s[k])
  }

  const Title: string := "Reporting"

  predicate IsReporting(body: string, title: string) {
    |body| >= 3 && LineEnd(body, 0) >= 3 && TrimsTo(body, 3, LineEnd(body, 0), title)
  }

  /** The section with a line put under its heading. */
  function WithLine(s: string, h: nat, key: string, today: string): string
    requires h <= |s|
  {
    s[..h] + (key + ": " + today + "\n") + s[h..]
  }

  /** Replace the value of the first matching line; without one, add a line under a
      heading that is written plainly and ends its line. */
  function Rewrite(body: string, key: string, title: string, today: string): string {
    match FirstKey(body, 0, key)
    case Some(m) => body[..m.1] + " " + today + body[RestEnd(body, m.1)..]
    case None =>
      if WordAt(body, "## " + title, 0) && |body| > 0 && body[LineEnd(body, 0) - 1] == '\n' then
        WithLine(body, LineEnd(body, 0), key, today)
      else body
  }

  function FirstReporting(bodies: seq<string>, title: string): (k: nat)
    ensures k <= |bodies| && (k < |bodies| ==> IsReporting(bodies[k], title))
    ensures forall j :: 0 <= j < k ==> !IsReporting(bodies[j], title)
  {
    if bodies == [] || IsReporting(bodies[0], title) then 0 else 1 + FirstReporting(bodies[1..], title)
  }

  function SetLastUpdate(md: string, key: string, title: string, today: string): string {
    var page := Split(md);
    var k := FirstReporting(page.bodies, title);
    if k == |page.bodies| then md
    else Join(page.(bodies := page.bodies[k := Rewrite(page.bodies[k], key, title, today)]))
  }

  // ------------------------------------------------------------ what the pattern looks at

  /** A key that could never be mistaken for part of the title or of a line's frame. */
  ghost predicate IsKey(key: string, title: string) {
    && key != "" && key[0] != '-' && key[0] != '#' && !IsSpace(key[0]) && title != ""
    && (forall k :: 0 <= k < |key| ==> !IsTerminator(key[k]))
    && (forall k :: 0 <= k < |title| ==> title[k] != key[0] && title[k] != '\n')
  }

  ghost predicate OneLine(today: string) {
    forall k :: 0 <= k < |today| ==> !IsTerminator(today[k])
  }

  ghost predicate Agree(s: string, t: string, n: nat) {
    n <= |s| && n <= |t| && forall j :: 0 <= j < n ==> s[j] == t[j]
  }

  /** Two texts agree up to and including a line terminator at `k`. */
  ghost predicate SameLine(s: string, t: string, k: nat) {
    Agree(s, t, k + 1) && IsTerminator(s[k])
  }

  lemma {:induction false} SkipAlike(s: string, t: string, k: nat, i: nat)
    requires SameLine(s, t, k) && i <= k
    ensures SkipBlanks(s, i) == SkipBlanks(t, i) <= k
    decreases k - i
  {
    if i < k && (s[i] == ' ' || s[i] == '\t') { SkipAlike(s, t, k, i + 1); }
  }

  lemma KeyStartAlike(s: string, t: string, k: nat, i: nat)
    requires SameLine(s, t, k) && i <= k
    ensures KeyStart(s, i) == KeyStart(t, i) <= k
  {
    SkipAlike(s, t, k, i);
    var a := SkipBlanks(s, i);
    SkipAlike(s, t, k, if s[a] == '-' then a + 1 else a);
  }

  lemma WordReaches(s: string, word: string, c: nat, k: nat)
    requires WordAt(s, word, c) && c <= k < c + |word|
    ensures s[k] == word[k - c]
  {
    assert s[c + (k - c)] == word[k - c];
  }

  lemma WordAlike(s: string, t: string, k: nat, word: string, c: nat)
    requires SameLine(s, t, k) && c <= k && forall j :: 0 <= j < |word| ==> !IsTerminator(word[j])
    ensures WordAt(s, word, c) <==> WordAt(t, word, c)
    ensures WordAt(s, word, c) ==> c + |word| <= k
  {
    if c + |word| > k {
      if WordAt(s, word, c) { WordReaches(s, word, c, k); }
      if WordAt(t, word, c) { WordReaches(t, word, c, k); }
    }
  }

  /** A line is matched by its own characters. */
  lemma KeyAlike(s: string, t: string, k: nat, key: string, i: nat)
    requires SameLine(s, t, k) && i <= k && forall j :: 0 <= j < |key| ==> !IsTerminator(key[j])
    ensures KeyEnd(s, i, key) == KeyEnd(t, i, key)
  {
    KeyStartAlike(s, t, k, i);
    var c := KeyStart(s, i);
    WordAlike(s, t, k, key, c);
    if WordAt(s, key, c) { SkipAlike(s, t, k, c + |key|); }
  }

  lemma {:induction false} SkipSame(s: string, t: string, p: nat, i: nat)
    requires Agree(s, t, p) && i <= |s| && SkipBlanks(s, i) < p
    ensures i <= |t| && SkipBlanks(t, i) == SkipBlanks(s, i)
    decreases p - i
  {
    if s[i] == ' ' || s[i] == '\t' { SkipSame(s, t, p, i + 1); }
  }

  lemma KeyStartSame(s: string, t: string, p: nat, i: nat)
    requires Agree(s, t, p) && i <= |s| && KeyStart(s, i) < p
    ensures i <= |t| && KeyStart(t, i) == KeyStart(s, i)
  {
    hide SkipBlanks;
    var a := SkipBlanks(s, i);
    SkipSame(s, t, p, i);
    SkipSame(s, t, p, if a < |s| && s[a] == '-' then a + 1 else a);
  }

  lemma ColonSame(s: string, t: string, p: nat, key: string, c: nat)
    requires ColonAfter(s, c, key) == Some(p) && Agree(s, t, p)
    ensures ColonAfter(t, c, key) == Some(p)
  {
    hide SkipBlanks;
    SkipSame(s, t, p, c + |key|);
  }

  /** Nothing after the colon matters. */
  lemma KeySame(s: string, t: string, p: nat, key: string, i: nat)
    requires i <= |s| && KeyEnd(s, i, key) == Some(p) && Agree(s, t, p) && key != ""
    ensures i <= |t| && KeyEnd(t, i, key) == Some(p)
  {
    hide KeyStart, ColonAfter, Agree;
    KeyStartSame(s, t, p, i);
    ColonSame(s, t, p, key, KeyStart(s, i));
  }

  lemma FirstKeyIs(s: string, key: string, i: nat, p: nat)
    requires i <= |s| && LineStart(s, i) && KeyEnd(s, i, key) == Some(p)
    requires forall j :: 0 <= j < i && LineStart(s, j) ==> KeyEnd(s, j, key).None?
    ensures FirstKey(s, 0, key) == Some((i, p))
  {}

  lemma RestEndIs(s: string, p: nat, e: nat)
    requires p <= e <= |s| && (e < |s| ==> IsTerminator(s[e])) && forall j :: p <= j < e ==> !IsTerminator(s[j])
    ensures RestEnd(s, p) == e
  {}

  // ------------------------------------------------------------ rewriting one section twice

  lemma ReplacedValue(s: string, p: nat, today: string)
    requires p <= |s| && OneLine(today)
    ensures var e := RestEnd(s, p); var t := s[..p] + " " + today + s[e..];
      RestEnd(t, p) == p + 1 + |today| && t[..p] == s[..p] && t[..p] + " " + today + t[p + 1 + |today|..] == t
  {
    var e := RestEnd(s, p);
    var t := s[..p] + " " + today + s[e..];
    assert forall j :: 0 <= j < |today| ==> t[p + 1 + j] == today[j];
    RestEndIs(t, p, p + 1 + |today|);
  }

  /** Texts that agree up to the key of the first match have the same first match. */
  lemma MatchStays(s: string, t: string, key: string, title: string)
    requires IsKey(key, title) && FirstKey(s, 0, key).Some? && Agree(s, t, FirstKey(s, 0, key).value.1)
    ensures FirstKey(t, 0, key) == FirstKey(s, 0, key)
  {
    hide FirstKey, KeyEnd, IsTerminator;
    var (i, p) := FirstKey(s, 0, key).value;
    forall j | 0 <= j < i && LineStart(t, j) ensures KeyEnd(t, j, key).None? { KeyAlike(s, t, i - 1, key, j); }
    KeySame(s, t, p, key, i);
    FirstKeyIs(t, key, i, p);
  }

  /** A line put under the heading is the first match. */
  lemma AddedLineMatches(s: string, t: string, h: nat, key: string, title: string)
    requires IsKey(key, title) && FirstKey(s, 0, key).None? && 0 < h && Agree(s, t, h) && s[h - 1] == '\n'
    requires WordAt(t, key + ":", h)
    ensures FirstKey(t, 0, key) == Some((h, h + |key| + 1))
  {
    hide FirstKey, KeyEnd, WordAt;
    forall j | 0 <= j < h && LineStart(t, j) ensures KeyEnd(t, j, key).None? { KeyAlike(s, t, h - 1, key, j); }
    AddedKey(t, h, key);
    FirstKeyIs(t, key, h, h + |key| + 1);
  }

  lemma AddedKey(t: string, h: nat, key: string)
    requires WordAt(t, key + ":", h) && key != "" && key[0] != ' ' && key[0] != '\t' && key[0] != '-'
    ensures KeyEnd(t, h, key) == Some(h + |key| + 1)
  {
    var word := key + ":";
    assert word[|key|] == ':' && forall j :: 0 <= j < |key| ==> word[j] == key[j];
    WordReaches(t, word, h, h);
    WordReaches(t, word, h, h + |key|);
    assert SkipBlanks(t, h) == h && KeyStart(t, h) == h;
    assert WordAt(t, key, h) && SkipBlanks(t, h + |key|) == h + |key|;
  }

  lemma AddedLineIsCurrent(s: string, h: nat, key: string, today: string)
    requires OneLine(today) && 0 < h <= |s|
    ensures var t := WithLine(s, h, key, today); var p := h + |key| + 1;
      && Current(t, p, today)
      && Agree(s, t, h) && WordAt(t, key + ":", h)
  {
    hide RestEnd, Agree, WordAt, OneLine;
    TwoParts(s, h);
    AddedBetween(s[..h], key, today, s[h..], WithLine(s, h, key, today));
  }

  /** What follows `p` on its line is the date already. */
  ghost predicate Current(t: string, p: nat, today: string) {
    p <= |t| && t[..p] + " " + today + t[RestEnd(t, p)..] == t
  }

  ghost predicate Inserted(front: string, key: string, today: string, back: string, t: string) {
    t == front + (key + ": " + today + "\n") + back
  }

  lemma AddedBetween(front: string, key: string, today: string, back: string, t: string)
    requires OneLine(today) && Inserted(front, key, today, back, t)
    ensures var p := |front| + |key| + 1;
      && p <= |t| && RestEnd(t, p) == p + 1 + |today| && t[..p] + " " + today + t[p + 1 + |today|..] == t
      && Agree(front + back, t, |front|) && WordAt(t, key + ":", |front|)
  {
    hide *;
    AddedLineChars(front, key, today, back, t);
    ShownIsCurrent(t, |front| + |key| + 1, today);
  }

  /** After `p` come a space, the date and the end of the line. */
  ghost predicate Shows(t: string, p: nat, today: string) {
    p + 1 + |today| < |t| && t[p] == ' ' && t[p + 1 + |today|] == '\n' && forall j :: 0 <= j < |today| ==> t[p + 1 + j] == today[j]
  }

  lemma ShownIsCurrent(t: string, p: nat, today: string)
    requires OneLine(today) && Shows(t, p, today)
    ensures p + 1 + |today| <= |t| && RestEnd(t, p) == p + 1 + |today| && t[..p] + " " + today + t[p + 1 + |today|..] == t
  {
    RestEndAfterWord(t, p, today);
  }

  lemma TwoParts(s: string, h: nat)
    requires h <= |s|
    ensures s[..h] + s[h..] == s
  {}

  lemma AddedLineChars(front: string, key: string, today: string, back: string, t: string)
    requires Inserted(front, key, today, back, t)
    ensures var p := |front| + |key| + 1;
      Shows(t, p, today) && Agree(front + back, t, |front|) && WordAt(t, key + ":", |front|)
  {}

  lemma RestEndAfterWord(t: string, p: nat, today: string)
    requires OneLine(today) && p + 1 + |today| < |t| && t[p] == ' ' && t[p + 1 + |today|] == '\n'
    requires forall j :: 0 <= j < |today| ==> t[p + 1 + j] == today[j]
    ensures RestEnd(t, p) == p + 1 + |today|
  {
    assert !IsTerminator(t[p]) && IsTerminator(t[p + 1 + |today|]);
    forall j | p <= j < p + 1 + |today| ensures !IsTerminator(t[j]) { if j > p { assert t[p + 1 + (j - p - 1)] == today[j - p - 1]; } }
    RestEndIs(t, p, p + 1 + |today|);
  }

  lemma ReplaceIsIdempotent(s: string, key: string, title: string, today: string)
    requires IsKey(key, title) && OneLine(today) && FirstKey(s, 0, key).Some?
    ensures var t := Rewrite(s, key, title, today); Rewrite(t, key, title, today) == t
  {
    ReplacedValue(s, FirstKey(s, 0, key).value.1, today);
    MatchStays(s, Rewrite(s, key, title, today), key, title);
  }

  /** A page whose first match already shows the date is left alone. */
  lemma CurrentIsKept(t: string, h: nat, p: nat, key: string, title: string, today: string)
    requires FirstKey(t, 0, key) == Some((h, p)) && Current(t, p, today)
    ensures Rewrite(t, key, title, today) == t
  {
    hide FirstKey, RestEnd;
  }

  /** A line put under the heading is found again and already shows the date. */
  lemma AddedLineStays(s: string, t: string, h: nat, key: string, title: string, today: string)
    requires IsKey(key, title) && FirstKey(s, 0, key).None? && 0 < h && Agree(s, t, h) && s[h - 1] == '\n'
    requires WordAt(t, key + ":", h) && Current(t, h + |key| + 1, today)
    ensures Rewrite(t, key, title, today) == t
  {
    hide *;
    AddedLineMatches(s, t, h, key, title);
    CurrentIsKept(t, h, h + |key| + 1, key, title, today);
  }

  lemma AddIsIdempotent(s: string, h: nat, key: string, title: string, today: string)
    requires IsKey(key, title) && OneLine(today) && FirstKey(s, 0, key).None? && 0 < h <= |s| && s[h - 1] == '\n'
    ensures var t := WithLine(s, h, key, today); Rewrite(t, key, title, today) == t
  {
    hide *;
    AddedLineIsCurrent(s, h, key, today);
    AddedLineStays(s, WithLine(s, h, key, today), h, key, title, today);
  }

  /** Rewriting a section with the same date changes nothing more. */
  lemma RewriteIsIdempotent(s: string, key: string, title: string, today: string)
    requires IsKey(key, title) && OneLine(today)
    ensures var t := Rewrite(s, key, title, today); Rewrite(t, key, title, today) == t
  {
    if FirstKey(s, 0, key).Some? {
      ReplaceIsIdempotent(s, key, title, today);
    } else if WordAt(s, "## " + title, 0) && |s| > 0 && s[LineEnd(s, 0) - 1] == '\n' {
      AddIsIdempotent(s, LineEnd(s, 0), key, title, today);
    }
  }

  // ------------------------------------------------------------ the page stays a page

  lemma LineEndIs(s: string, h: nat)
    requires 0 < h <= |s| && s[h - 1] == '\n' && forall j :: 0 <= j < h - 1 ==> s[j] != '\n'
    ensures LineEnd(s, 0) == h
  {
    LineEndFrom(s, 0, h);
  }

  lemma {:induction false} LineEndFrom(s: string, k: nat, h: nat)
    requires k < h <= |s| && s[h - 1] == '\n' && forall j :: k <= j < h - 1 ==> s[j] != '\n'
    ensures LineEnd(s, k) == h
    decreases h - k
  {
    if k + 1 < h { LineEndFrom(s, k + 1, h); }
  }

  /** A changed tail that starts after the first line leaves the title alone. */
  lemma TitleStays(s: string, t: string, h: nat, title: string)
    requires |s| > 0 && IsReporting(s, title) && h == LineEnd(s, 0) && s[h - 1] == '\n' && Agree(s, t, h)
    ensures IsReporting(t, title)
  {
    LineEndIs(t, h);
    var i :| 3 <= i <= h && TrimmedAt(s, 3, h, title, i);
    assert TrimmedAt(t, 3, h, title, i);
  }

  /** The first letter of the key is not in the heading line. */
  lemma TitleHasNoKey(s: string, h: nat, key: string, title: string, c: nat)
    requires IsKey(key, title) && IsSection(s) && IsReporting(s, title) && h == LineEnd(s, 0) && c < |s| && s[c] == key[0]
    ensures c >= h
  {
    var i :| 3 <= i <= h && TrimmedAt(s, 3, h, title, i);
    if i <= c < i + |title| { WordReaches(s, title, i, c); }
  }

  /** The heading line never matches the key. */
  lemma MatchIsBelowHeading(s: string, key: string, title: string)
    requires IsKey(key, title) && IsSection(s) && IsReporting(s, title) && FirstKey(s, 0, key).Some?
    ensures var i := FirstKey(s, 0, key).value.0; var h := LineEnd(s, 0); h <= i && s[h - 1] == '\n'
  {
    var i := FirstKey(s, 0, key).value.0;
    var c := KeyStart(s, i);
    assert WordAt(s, key, c) && s[c + 0] == key[0];
    TitleHasNoKey(s, LineEnd(s, 0), key, title, c);
    BlanksCrossNoLine(s, i, c, LineEnd(s, 0));
  }

  lemma BlanksCrossNoLine(s: string, i: nat, c: nat, h: nat)
    requires i <= c < |s| && h <= c && 0 < h && h == LineEnd(s, 0) && forall k :: i <= k < c ==> s[k] == ' ' || s[k] == '\t' || s[k] == '-'
    ensures h <= i && s[h - 1] == '\n'
  {}

  ghost predicate Reported(s: string, t: string, title: string) {
    IsSection(t) && IsReporting(t, title) && (EndsLine(s) ==> EndsLine(t))
  }

  lemma ReplacedStaysSection(s: string, i: nat, p: nat, e: nat, today: string)
    requires IsSection(s) && 0 < i && i + 3 < p <= e <= |s| && OneLine(today)
    requires forall j :: i <= j < e ==> s[j] != '\n'
    requires e < |s| ==> IsTerminator(s[e])
    ensures var t := s[..p] + " " + today + s[e..]; IsSection(t) && (EndsLine(s) ==> EndsLine(t))
  {
    var t := s[..p] + " " + today + s[e..];
    var q := p + 1 + |today|;
    assert forall k :: 0 <= k < p ==> t[k] == s[k];
    assert t[p] == ' ' && (forall k :: 0 <= k < |today| ==> t[p + 1 + k] == today[k]) && forall k :: q <= k < |t| ==> t[k] == s[k - q + e];
    forall j | 0 < j < |t| ensures !HeadingAt(t, j) {
      if j <= i { assert !HeadingAt(s, j); } else if j > q { assert !HeadingAt(s, j - q + e); }
    }
  }

  lemma AddedChars(s: string, h: nat, line: string)
    requires h <= |s|
    ensures var t := s[..h] + line + s[h..];
      && |t| == |s| + |line| && Agree(s, t, h)
      && (forall k :: h <= k < h + |line| ==> t[k] == line[k - h]) && forall k :: h + |line| <= k < |t| ==> t[k] == s[k - |line|]
  {}

  lemma AddedStaysSection(s: string, t: string, h: nat, line: string)
    requires IsSection(s) && 3 <= h && h == LineEnd(s, 0) && s[h - 1] == '\n'
    requires line != "" && line[0] != '#' && line[|line| - 1] == '\n' && forall k :: 0 <= k < |line| - 1 ==> line[k] != '\n'
    requires |t| == |s| + |line| && Agree(s, t, h)
    requires (forall k :: h <= k < h + |line| ==> t[k] == line[k - h]) && forall k :: h + |line| <= k < |t| ==> t[k] == s[k - |line|]
    ensures IsSection(t) && (EndsLine(s) ==> EndsLine(t))
  {
    forall j | 0 < j < |t| ensures !HeadingAt(t, j) {
      if j < h {
        assert t[j - 1] == s[j - 1] != '\n';
      } else if j >= h + |line| {
        assert !HeadingAt(s, j - |line|);
      }
    }
  }

  lemma ReplaceStaysReporting(s: string, key: string, title: string, today: string)
    requires IsKey(key, title) && |key| > 2 && OneLine(today) && IsSection(s) && IsReporting(s, title) && FirstKey(s, 0, key).Some?
    ensures Reported(s, Rewrite(s, key, title, today), title)
  {
    hide FirstKey, KeyEnd, RestEnd, LineEnd, HeadingAt, IsReporting, IsTerminator;
    var (i, p) := FirstKey(s, 0, key).value;
    MatchIsBelowHeading(s, key, title);
    KeyHasNoBreak(s, i, p, key, title);
    ReplacedStaysSection(s, i, p, RestEnd(s, p), today);
    TitleStays(s, s[..p] + " " + today + s[RestEnd(s, p)..], LineEnd(s, 0), title);
  }

  lemma AddStaysReporting(s: string, key: string, title: string, today: string)
    requires IsKey(key, title) && |key| > 2 && OneLine(today) && IsSection(s) && IsReporting(s, title) && s[LineEnd(s, 0) - 1] == '\n'
    ensures Reported(s, WithLine(s, LineEnd(s, 0), key, today), title)
  {
    var line := key + ": " + today + "\n";
    assert line[0] == key[0] && forall k :: 0 <= k < |today| ==> line[|key| + 2 + k] == today[k];
    AddedChars(s, LineEnd(s, 0), line);
    AddedStaysSection(s, WithLine(s, LineEnd(s, 0), key, today), LineEnd(s, 0), line);
    TitleStays(s, WithLine(s, LineEnd(s, 0), key, today), LineEnd(s, 0), title);
  }

  /** The rewritten section is still one section, still the Reporting section, and
      still ends its line if it did. */
  lemma RewriteStaysReporting(s: string, key: string, title: string, today: string)
    requires IsKey(key, title) && |key| > 2 && OneLine(today) && IsSection(s) && IsReporting(s, title)
    ensures Reported(s, Rewrite(s, key, title, today), title)
  {
    if FirstKey(s, 0, key).Some? {
      ReplaceStaysReporting(s, key, title, today);
    } else if WordAt(s, "## " + title, 0) && s[LineEnd(s, 0) - 1] == '\n' {
      AddStaysReporting(s, key, title, today);
    }
  }

  lemma KeyHasNoBreak(s: string, i: nat, p: nat, key: string, title: string)
    requires IsKey(key, title) && i <= |s| && KeyEnd(s, i, key) == Some(p)
    ensures forall j :: i <= j < RestEnd(s, p) ==> s[j] != '\n'
  {
    var c := KeyStart(s, i);
    forall j | i <= j < RestEnd(s, p) ensures s[j] != '\n' {
      if c <= j < c + |key| { assert s[c + (j - c)] == key[j - c]; }
    }
  }

  // ------------------------------------------------------------ whole pages

  /** Only the Reporting section changes: preamble, number of sections and every other
      section stay as they are, and the same section is found again. */
  lemma OnlyReportingChanges(md: string, key: string, title: string, today: string)
    requires IsKey(key, title) && |key| > 2 && OneLine(today)
    ensures var p, q := Split(md), Split(SetLastUpdate(md, key, title, today)); var k := FirstReporting(p.bodies, title);
      && q.preamble == p.preamble && |q.bodies| == |p.bodies| && FirstReporting(q.bodies, title) == k
      && (forall j :: 0 <= j < |p.bodies| && j != k ==> q.bodies[j] == p.bodies[j])
      && (k < |p.bodies| ==> q.bodies[k] == Rewrite(p.bodies[k], key, title, today))
  {
    hide Split, Join, FirstReporting, IsReporting, Rewrite, IsSection, EndsLine, HeadingAt;
    var p := Split(md);
    var k := FirstReporting(p.bodies, title);
    SplitGivesPage(md);
    if k < |p.bodies| {
      var body := Rewrite(p.bodies[k], key, title, today);
      RewriteStaysReporting(p.bodies[k], key, title, today);
      var q := p.(bodies := p.bodies[k := body]);
      assert IsPage(q);
      SplitUndoesJoin(q);
      FirstReportingStays(p.bodies, q.bodies, k, title);
    }
  }

  lemma {:induction false} FirstReportingStays(a: seq<string>, b: seq<string>, k: nat, title: string)
    requires |a| == |b| && k == FirstReporting(a, title) < |a| && IsReporting(b[k], title) && forall j :: 0 <= j < |a| && j != k ==> b[j] == a[j]
    ensures FirstReporting(b, title) == k
    decreases k
  {
    if k > 0 {
      assert b[0] == a[0];
      FirstReportingStays(a[1..], b[1..], k - 1, title);
    }
  }

  /** Setting the same date again changes nothing. */
  lemma SetLastUpdateIsIdempotent(md: string, key: string, title: string, today: string)
    requires IsKey(key, title) && |key| > 2 && OneLine(today)
    ensures var once := SetLastUpdate(md, key, title, today); SetLastUpdate(once, key, title, today) == once
  {
    var once := SetLastUpdate(md, key, title, today);
    OnlyReportingChanges(md, key, title, today);
    var p, q := Split(md), Split(once);
    var k := FirstReporting(p.bodies, title);
    if k < |p.bodies| {
      RewriteIsIdempotent(p.bodies[k], key, title, today);
      assert q.bodies[k := q.bodies[k]] == q.bodies;
      SplitIsLossless(once);
    }
  }

  /** The key and the title in use. */
  lemma KeyInUse()
    ensures IsKey(Key, Title) && |Key| > 2
  {}

  /** The status writer's own update: only the Reporting section of the page changes,
      and setting the same date again changes nothing. */
  lemma LastUpdateInUse(md: string, today: string)
    requires OneLine(today)
    ensures var once := SetLastUpdate(md, Key, Title, today);
      && SetLastUpdate(once, Key, Title, today) == once
      && Split(once).preamble == Split(md).preamble && |Split(once).bodies| == |Split(md).bodies|
      && forall j :: 0 <= j < |Split(md).bodies| && !IsReporting(Split(md).bodies[j], Title) ==> Split(once).bodies[j] == Split(md).bodies[j]
  {
    KeyInUse();
    hide SetLastUpdate, Split, IsKey, Rewrite, IsReporting;
    SetLastUpdateIsIdempotent(md, Key, Title, today);
    OnlyReportingChanges(md, Key, Title, today);
  }
}
