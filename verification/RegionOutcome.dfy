/** What the three block writers leave, character by character: which text is cut out,
    where the new block goes, and what stands between them. */
module RegionOutcome {
  import opened Common
  import opened Regions
  import opened StateRegion
  import opened ManagedIndex

  // ------------------------------------------------------------ positions

  /** The first place where `pat` stands. */
  ghost predicate FirstAt(s: string, pat: string, i: nat) {
    At(s, pat, i) && forall j: nat :: j < i ==> !At(s, pat, j)
  }

  ghost predicate Nowhere(s: string, pat: string) {
    forall j: nat :: !At(s, pat, j)
  }

  lemma FirstIs(s: string, pat: string, i: nat)
    requires FirstAt(s, pat, i)
    ensures Find(s, pat, 0) == i && Has(s, pat)
  {
    FindIs(s, pat, 0, i);
  }

  lemma NowhereIs(s: string, pat: string)
    requires Nowhere(s, pat)
    ensures Find(s, pat, 0) == -1 && !Has(s, pat)
  {}

  // ------------------------------------------------------------ a region

  /** With both markers in the text, what stands between the first opening marker and the
      first closing one after it is replaced by the body on lines of its own. */
  lemma RegionIsReplaced(open: string, close: string, text: string, i: nat, e: nat, body: string, anchor: Option<string>)
    requires open != "" && close != "" && FirstAt(text, open, i) && FirstAt(text[i + |open|..], close, e)
    ensures ApplyGeneratedRegion(open, close, text, body, anchor) ==
      Some(text[..i] + (open + "\n" + body + "\n" + close) + text[i + |open| + e + |close|..])
  {
    var rest := text[i + |open|..];
    FirstIs(text, open, i);
    FirstIs(rest, close, e);
    CloseIsThere(text[..i + |open|], rest, close, e);
    assert text == text[..i + |open|] + rest;
    assert rest[e + |close|..] == text[i + |open| + e + |close|..];
    hide Find, Has;
  }

  /** With the only closing markers before it, the write fails. */
  lemma RegionIsRefused(open: string, close: string, text: string, i: nat, body: string, anchor: Option<string>)
    requires open != "" && close != "" && FirstAt(text, open, i) && !Nowhere(text, close) && Nowhere(text[i + |open|..], close)
    ensures ApplyGeneratedRegion(open, close, text, body, anchor) == None
  {
    FirstIs(text, open, i);
    NowhereIs(text[i + |open|..], close);
    HasIff(text, close);
    hide Find, Has;
  }

  /** The text is empty or ends with a blank line. */
  predicate SetOff(s: string) {
    s == "" || (|s| >= 2 && s[|s| - 1] == '\n' && s[|s| - 2] == '\n')
  }

  /** The fewest newlines that set off what follows. */
  ghost predicate Separates(before: string, gap: string) {
    && Newlines(gap) && SetOff(before + gap)
    && forall n: nat :: n < |gap| ==> !SetOff(before + gap[..n])
  }

  lemma GapSeparates(before: string)
    ensures Separates(before, Gap(before))
  {
    var gap := Gap(before);
    assert before + "" == before;
    if |gap| == 2 { assert gap[..1] == "\n" && gap[..0] == "" && (before + "\n")[|before|] == '\n'; }
    if |gap| == 1 { assert gap[..0] == ""; }
  }

  /** Without both markers a new block goes after the first anchor, or at the end; it is
      set off by what stands before the anchor, and ends its own line. */
  lemma RegionIsAdded(open: string, close: string, text: string, body: string, anchor: Option<string>, k: nat) returns (gap: string)
    requires open != "" && close != "" && (Nowhere(text, open) || Nowhere(text, close))
    requires if anchor.Some? && anchor.value != "" && !Nowhere(text, anchor.value) then FirstAt(text, anchor.value, k) else k == |text|
    ensures var at := if k == |text| then k else k + |anchor.value|;
      ApplyGeneratedRegion(open, close, text, body, anchor) == Some(text[..at] + gap + (open + "\n" + body + "\n" + close + "\n") + text[at..])
    ensures Separates(text[..k], gap)
  {
    gap := Gap(text[..k]);
    GapSeparates(text[..k]);
    if Nowhere(text, open) { NowhereIs(text, open); } else { NowhereIs(text, close); }
    if anchor.Some? && anchor.value != "" && !Nowhere(text, anchor.value) {
      FirstIs(text, anchor.value, k);
    } else {
      if anchor.Some? && anchor.value != "" { NowhereIs(text, anchor.value); }
      assert text[..|text|] == text;
    }
    hide Find, Has, Gap, Separates;
  }

  // ------------------------------------------------------------ the state block

  /** `r` is `s` without the newlines at both ends. */
  ghost predicate Bare(s: string, r: string) {
    && (r == "" || (r[0] != '\n' && r[|r| - 1] != '\n'))
    && exists a: nat :: a + |r| <= |s| && s[a..a + |r|] == r && Newlines(s[..a]) && Newlines(s[a + |r|..])
  }

  lemma {:induction false} StripLeftRest(s: string)
    ensures var t := StripLeft(s); |t| <= |s| && t == s[|s| - |t|..] && Newlines(s[..|s| - |t|]) && (t == "" || t[0] != '\n')
    decreases |s|
  {
    if s != "" && s[0] == '\n' {
      var rest := s[1..];
      StripLeftRest(rest);
      var n := |rest| - |StripLeft(rest)|;
      assert s[..n + 1] == [s[0]] + rest[..n];
    }
  }

  lemma {:induction false} StripRightRest(s: string)
    ensures var t := StripRight(s); t <= s && Newlines(s[|t|..]) && (t == "" || t[|t| - 1] != '\n')
    decreases |s|
  {
    if s != "" && s[|s| - 1] == '\n' {
      var front := s[..|s| - 1];
      StripRightRest(front);
      assert s[|StripRight(front)|..] == front[|StripRight(front)|..] + [s[|s| - 1]];
    }
  }

  lemma StripIsBare(s: string)
    ensures Bare(s, Strip(s))
  {
    var l := StripLeft(s);
    var r := StripRight(l);
    StripLeftRest(s);
    StripRightRest(l);
    var a := |s| - |l|;
    assert s[a..a + |r|] == l[..|r|] && s[a + |r|..] == l[|r|..];
  }

  /** The state block always ends up at the end: the old one, from its first opening to the
      first closing after it, is cut out, what is left is bared of newlines, and the new
      block follows after one blank line. */
  lemma StateIsRewritten(st: Style, open: string, text: string, i: nat, e: nat, body: string) returns (r: string)
    requires open != "" && st.close != "" && FirstAt(text, open, i) && FirstAt(text[i + |open|..], st.close, e) && !OpensBefore(st, text[i + |open|..], e)
    ensures Bare(text[..i] + text[i + |open| + e + |st.close|..], r)
    ensures ApplyState(st, open, text, body) == Some(r + (if r == "" then "" else "\n\n") + (open + "\n" + body + "\n" + st.close + "\n"))
  {
    var rest := text[i + |open|..];
    FirstIs(text, open, i);
    FirstIs(rest, st.close, e);
    assert rest[e + |st.close|..] == text[i + |open| + e + |st.close|..];
    var cut := text[..i] + text[i + |open| + e + |st.close|..];
    r := Strip(cut);
    StripIsBare(cut);
    StateIsPlaced(st, open, text, i, e, body, cut);
    PlacedIs(st, open, r, body);
    hide *;
  }

  lemma StateIsPlaced(st: Style, open: string, text: string, i: nat, e: nat, body: string, cut: string)
    requires open != "" && st.close != "" && Has(text, open) && Find(text, open, 0) == i && i + |open| <= |text|
    requires var rest := text[i + |open|..];
      Find(rest, st.close, 0) == e && e + |st.close| <= |rest| && !OpensBefore(st, rest, e) && cut == text[..i] + rest[e + |st.close|..]
    ensures ApplyState(st, open, text, body) == Some(Placed(st, open, Strip(cut), body))
  {
    hide Find, Has, Strip, Placed, OpensBefore;
  }

  lemma PlacedIs(st: Style, open: string, r: string, body: string)
    ensures Placed(st, open, r, body) == r + (if r == "" then "" else "\n\n") + (open + "\n" + body + "\n" + st.close + "\n")
  {}

  lemma StateIsAdded(st: Style, open: string, text: string, body: string) returns (r: string)
    requires open != "" && st.close != "" && Nowhere(text, open)
    ensures Bare(text, r)
    ensures ApplyState(st, open, text, body) == Some(r + (if r == "" then "" else "\n\n") + (open + "\n" + body + "\n" + st.close + "\n"))
  {
    NowhereIs(text, open);
    r := Strip(text);
    StripIsBare(text);
    hide Find, Has, Strip, Bare;
  }

  // ------------------------------------------------------------ the managed index

  ghost predicate BareRight(s: string, r: string) {
    r <= s && Newlines(s[|r|..]) && (r == "" || r[|r| - 1] != '\n')
  }

  lemma StripRightIsBare(s: string)
    ensures BareRight(s, StripRight(s))
  {
    StripRightRest(s);
  }

  /** A managed block in its place: the prose before and after it, bared of newlines where
      it meets the block, one blank line apart, with a newline at the end. */
  lemma IndexIsReplaced(begin: string, end: string, text: string, block: string, b: nat, e: nat) returns (before: string, shown: string, after: string)
    requires FirstAt(text, begin, b) && FirstAt(text, end, e) && b < e
    ensures BareRight(text[..b], before) && BareRight(block, shown) && Bare(text[e + |end|..], after)
    ensures ApplyManagedIndexBlock(begin, end, text, block) ==
      (if before == "" then "" else before + "\n\n") + shown + (if after == "" then "" else "\n\n" + after) + "\n"
  {
    FirstIs(text, begin, b);
    FirstIs(text, end, e);
    before, shown, after := StripRight(text[..b]), StripRight(block), StripRight(StripLeft(text[e + |end|..]));
    StripRightIsBare(text[..b]);
    StripRightIsBare(block);
    StripIsBare(text[e + |end|..]);
    IndexIsComposed(begin, end, text, block, b, e);
    hide *;
    ComposedIs(before, shown, after);
  }

  lemma IndexIsComposed(begin: string, end: string, text: string, block: string, b: nat, e: nat)
    requires Find(text, begin, 0) == b && Find(text, end, 0) == e && Has(text, begin) && Has(text, end) && b < e
    ensures e + |end| <= |text|
    ensures ApplyManagedIndexBlock(begin, end, text, block) == Compose(StripRight(text[..b]), StripRight(block), StripRight(StripLeft(text[e + |end|..])))
  {
    hide StripRight, StripLeft, Compose;
  }

  lemma ComposedIs(before: string, shown: string, after: string)
    ensures Compose(before, shown, after) == (if before == "" then "" else before + "\n\n") + shown + (if after == "" then "" else "\n\n" + after) + "\n"
  {}

  /** Without one, the block goes to the end as it is, one blank line after the text. */
  lemma IndexIsAdded(begin: string, end: string, text: string, block: string) returns (before: string)
    requires Nowhere(text, begin) || Nowhere(text, end) || exists b: nat, e: nat :: FirstAt(text, begin, b) && FirstAt(text, end, e) && e <= b
    ensures BareRight(text, before)
    ensures ApplyManagedIndexBlock(begin, end, text, block) == if before == "" then block else before + "\n\n" + block
  {
    if Nowhere(text, begin) {
      NowhereIs(text, begin);
    } else if Nowhere(text, end) {
      NowhereIs(text, end);
    } else {
      var b: nat, e: nat :| FirstAt(text, begin, b) && FirstAt(text, end, e) && e <= b;
      FirstIs(text, begin, b);
      FirstIs(text, end, e);
    }
    before := StripRight(text);
    StripRightIsBare(text);
    hide Find, Has, StripRight, BareRight;
  }
}
