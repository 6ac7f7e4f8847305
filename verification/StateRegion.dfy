/** The state block, always regenerated at the end of its file, and refused when its
    opening marker is not closed by its own closing marker; and the managed index
    block of a wiki page. */
module StateRegion {
  import opened Common
  import opened Regions

  // ------------------------------------------------------------ stripping newlines

  function StripLeft(s: string): string {
    if s != "" && s[0] == '\n' then StripLeft(s[1..]) else s
  }

  function StripRight(s: string): string {
    if s != "" && s[|s| - 1] == '\n' then StripRight(s[..|s| - 1]) else s
  }

  function Strip(s: string): string {
    StripRight(StripLeft(s))
  }

  lemma {:induction false} StripLeftShape(s: string)
    ensures var t := StripLeft(s); (t == "" || t[0] != '\n') && |t| <= |s| && s[|s| - |t|..] == t
    decreases |s|
  {
    if s != "" && s[0] == '\n' { StripLeftShape(s[1..]); }
  }

  lemma {:induction false} StripRightShape(s: string)
    ensures var t := StripRight(s); (t == "" || t[|t| - 1] != '\n') && t <= s
    decreases |s|
  {
    if s != "" && s[|s| - 1] == '\n' { StripRightShape(s[..|s| - 1]); }
  }

  ghost predicate Newlines(s: string) {
    forall k :: 0 <= k < |s| ==> s[k] == '\n'
  }

  lemma {:induction false} StripRightDrops(s: string, n: string)
    requires Newlines(n)
    ensures StripRight(s + n) == StripRight(s)
    decreases |n|
  {
    if n == "" {
      assert s + n == s;
    } else {
      assert (s + n)[..|s + n| - 1] == s + n[..|n| - 1];
      StripRightDrops(s, n[..|n| - 1]);
    }
  }

  lemma {:induction false} StripLeftDrops(n: string, s: string)
    requires Newlines(n)
    ensures StripLeft(n + s) == StripLeft(s)
    decreases |n|
  {
    if n == "" {
      assert n + s == s;
    } else {
      assert (n + s)[1..] == n[1..] + s;
      StripLeftDrops(n[1..], s);
    }
  }

  /** Stripped text is not stripped further, and newlines after it fall off again. */
  lemma StripAgain(s: string, n: string)
    requires Newlines(n)
    ensures Strip(Strip(s) + n) == Strip(s)
  {
    var t := StripLeft(s);
    StripLeftShape(s);
    StripRightShape(t);
    var r := StripRight(t);
    if r == "" {
      assert r + n == n + "";
      StripLeftDrops(n, "");
    } else {
      assert r[0] == t[0];
      assert StripLeft(r + n) == r + n;
      StripRightDrops(r, n);
    }
  }

  // ------------------------------------------------------------ the state block

  /** How opening markers of any region look, and how a region is closed. */
  datatype Style = Style(prefix: string, suffix: string, close: string)

  /** An opening marker: the prefix, text with no line break and no `>`, the suffix. */
  ghost predicate OpensAt(st: Style, s: string, i: nat) {
    At(s, st.prefix, i) &&
    exists j: nat :: i + |st.prefix| <= j && At(s, st.suffix, j) && forall k :: i + |st.prefix| <= k < j ==> s[k] != '\n' && s[k] != '>'
  }

  /** Another opening marker stands before position `e`. */
  ghost predicate OpensBefore(st: Style, s: string, e: nat) {
    exists i: nat :: i < e && OpensAt(st, s, i)
  }

  ghost function ApplyState(st: Style, open: string, text: string, body: string): Option<string>
    requires open != "" && st.close != ""
  {
    if Has(text, open) then
      var i := Find(text, open, 0);
      var rest := text[i + |open|..];
      var e := Find(rest, st.close, 0);
      if e == -1 || OpensBefore(st, rest, e) then None
      else Some(Placed(st, open, Strip(text[..i] + rest[e + |st.close|..]), body))
    else Some(Placed(st, open, Strip(text), body))
  }

  /** The remainder, a blank line, and the block at the very end. */
  function Placed(st: Style, open: string, remainder: string, body: string): string {
    remainder + (if remainder == "" then "" else "\n\n") + (Block(open, st.close, body) + "\n")
  }

  /** What stays once the old block is taken out; empty stands for a refusal too. */
  ghost function Remainder(st: Style, open: string, text: string): string
    requires open != "" && st.close != ""
  {
    if Has(text, open) then
      var i := Find(text, open, 0);
      var rest := text[i + |open|..];
      var e := Find(rest, st.close, 0);
      if e == -1 then "" else Strip(text[..i] + rest[e + |st.close|..])
    else Strip(text)
  }

  /** The first marker of any kind is a closing one. */
  ghost predicate ClosesFirst(st: Style, rest: string) {
    exists e: nat :: At(rest, st.close, e) && forall j: nat :: j < e ==> !At(rest, st.close, j) && !OpensAt(st, rest, j)
  }

  /** A rewrite is accepted exactly when there is no block yet, or the first marker
      after its opening is a closing one; the result ends with the new block, after
      exactly the remaining text. */
  lemma StateBlockEndsFile(st: Style, open: string, text: string, body: string)
    requires open != "" && st.close != ""
    ensures ApplyState(st, open, text, body).Some? <==> (Has(text, open) ==> ClosesFirst(st, text[Find(text, open, 0) + |open|..]))
    ensures ApplyState(st, open, text, body).Some? ==> ApplyState(st, open, text, body).value == Placed(st, open, Remainder(st, open, text), body)
  {
    if Has(text, open) { ClosesFirstIff(st, text[Find(text, open, 0) + |open|..]); }
    hide Has, Find, At, Placed, Strip, ClosesFirst, OpensBefore;
  }

  /** The search finds a closing marker with no opening before it exactly when there is one. */
  lemma ClosesFirstIff(st: Style, rest: string)
    requires st.close != ""
    ensures var e := Find(rest, st.close, 0); (e != -1 && !OpensBefore(st, rest, e)) <==> ClosesFirst(st, rest)
  {
    hide At, OpensAt;
    if ClosesFirst(st, rest) {
      var k: nat :| At(rest, st.close, k) && forall j: nat :: j < k ==> !At(rest, st.close, j) && !OpensAt(st, rest, j);
      FindIs(rest, st.close, 0, k);
    }
  }

  /** A body that holds no marker at all. */
  ghost predicate MarkerFree(st: Style, body: string) {
    !Has(body, st.close) && forall i: nat :: !OpensAt(st, body, i)
  }

  ghost predicate WellFormed(st: Style) {
    && IsMarker(st.prefix) && IsMarker(st.close) && st.suffix != ""
    && forall k :: 0 <= k < |st.suffix| ==> st.suffix[k] != '\n'
  }

  lemma InBody(body: string, tail: string, m: string, i: nat)
    requires OnOneLine(m) && i <= |body| + 1
    ensures At("\n" + body + "\n" + tail, m, i) <==> i >= 1 && At(body, m, i - 1)
  {
    assert "\n" + body + "\n" + tail == "" + "\n" + (body + "\n" + tail);
    AroundBreak("", body + "\n" + tail, m, i);
    if i >= 1 { AroundBreak(body, tail, m, i - 1); }
  }

  lemma OpeningStaysInBody(st: Style, body: string, tail: string, i: nat)
    requires WellFormed(st) && i < |body| + 2 && OpensAt(st, "\n" + body + "\n" + tail, i)
    ensures i >= 1 && OpensAt(st, body, i - 1)
  {
    var s := "\n" + body + "\n" + tail;
    InBody(body, tail, st.prefix, i);
    var j: nat :| i + |st.prefix| <= j && At(s, st.suffix, j) && forall k :: i + |st.prefix| <= k < j ==> s[k] != '\n' && s[k] != '>';
    assert s[|body| + 1] == '\n';
    assert j <= |body| + 1;
    InBody(body, tail, st.suffix, j);
    forall k | i - 1 + |st.prefix| <= k < j - 1 ensures body[k] != '\n' && body[k] != '>' { assert s[k + 1] == body[k]; }
  }

  /** Between a fresh block's opening and its closing marker no region opens. */
  lemma NoOpeningInBody(st: Style, body: string, tail: string, i: nat)
    requires WellFormed(st) && MarkerFree(st, body) && i < |body| + 2
    ensures !OpensAt(st, "\n" + body + "\n" + tail, i)
  {
    if OpensAt(st, "\n" + body + "\n" + tail, i) { OpeningStaysInBody(st, body, tail, i); }
  }

  /** With marker-free bodies and no second block of its own, the last writer wins:
      writing one body and then another leaves what the second alone leaves. */
  lemma StateLastWriterWins(st: Style, open: string, text: string, first: string, second: string)
    requires WellFormed(st) && IsMarker(open) && MarkerFree(st, first)
    requires ApplyState(st, open, text, first).Some? && !Has(Remainder(st, open, text), open)
    ensures ApplyState(st, open, ApplyState(st, open, text, first).value, second) == ApplyState(st, open, text, second)
  {
    StateBlockEndsFile(st, open, text, first);
    StateBlockEndsFile(st, open, text, second);
    var r := Remainder(st, open, text);
    assert r == Strip(r + "") by { RemainderIsStripped(st, open, text); }
    RewriteEndBlock(st, open, r, first, second);
  }

  lemma RemainderIsStripped(st: Style, open: string, text: string)
    requires open != "" && st.close != ""
    ensures var r := Remainder(st, open, text); Strip(r + "") == r && forall n :: Newlines(n) ==> Strip(r + n) == r
  {
    var r := Remainder(st, open, text);
    forall n | Newlines(n) ensures Strip(r + n) == r {
      if Has(text, open) {
        var i := Find(text, open, 0);
        var rest := text[i + |open|..];
        var e := Find(rest, st.close, 0);
        if e == -1 { StripAgain("", n); } else { StripAgain(text[..i] + rest[e + |st.close|..], n); }
      } else {
        StripAgain(text, n);
      }
    }
    assert Newlines("");
  }

  /** A rewrite over a block whose place is known. */
  lemma ApplyFound(st: Style, open: string, pre: string, rest: string, e: nat, body: string)
    requires open != "" && st.close != "" && Find(pre + open + rest, open, 0) == |pre|
    requires Find(rest, st.close, 0) == e && !OpensBefore(st, rest, e)
    ensures ApplyState(st, open, pre + open + rest, body) == Some(Placed(st, open, Strip(pre + rest[e + |st.close|..]), body))
  {
    hide Find, At, OpensBefore, Placed, Strip;
    Surroundings(pre, open, rest);
  }

  lemma EndBlockCloses(st: Style, body: string)
    requires WellFormed(st) && MarkerFree(st, body)
    ensures var tail := After(st.close, body, "\n"); var e := |body| + 2;
      Find(tail, st.close, 0) == e && !OpensBefore(st, tail, e) && tail[e + |st.close|..] == "\n"
  {
    var tail := After(st.close, body, "\n");
    CloseInRest(st.close, body, "\n");
    hide Find, At, OpensAt, MarkerFree;
    forall i: nat | i < |body| + 2 ensures !OpensAt(st, tail, i) { NoOpeningInBody(st, body, st.close + "\n", i); }
  }

  /** Newlines around what is left after taking the block out again are stripped. */
  lemma RemainderComesBack(r: string, sep: string)
    requires Newlines(sep) && Strip(r + "") == r
    ensures Strip(r + sep + "\n") == r
  {
    assert r + "" == r;
    hide StripLeft, StripRight;
    StripAgain(r, sep + "\n");
    assert r + (sep + "\n") == r + sep + "\n";
  }

  lemma RewriteEndBlock(st: Style, open: string, r: string, first: string, second: string)
    requires WellFormed(st) && IsMarker(open) && MarkerFree(st, first) && !Has(r, open) && Strip(r + "") == r
    ensures ApplyState(st, open, Placed(st, open, r, first), second) == Some(Placed(st, open, r, second))
  {
    assert open != "" && st.close != "";
    hide *;
    var pre, tail, e := EndBlockPlace(st, open, r, first);
    ApplyFound(st, open, pre, tail, e, second);
  }

  /** Where the block that was just placed stands, and what is left without it. */
  lemma EndBlockPlace(st: Style, open: string, r: string, first: string) returns (pre: string, tail: string, e: nat)
    requires WellFormed(st) && IsMarker(open) && MarkerFree(st, first) && !Has(r, open) && Strip(r + "") == r
    ensures Placed(st, open, r, first) == pre + open + tail && Find(pre + open + tail, open, 0) == |pre|
    ensures Find(tail, st.close, 0) == e && !OpensBefore(st, tail, e) && e + |st.close| <= |tail| && Strip(pre + tail[e + |st.close|..]) == r
  {
    hide *;
    var sep := if r == "" then "" else "\n\n";
    pre, tail, e := r + sep, After(st.close, first, "\n"), |first| + 2;
    PlacedIs(st, open, r, sep, first);
    SepIsClean(open, r, sep);
    FirstAfterPlain(pre, open, tail);
    EndBlockCloses(st, first);
    RemainderComesBack(r, sep);
  }

  lemma SepIsClean(open: string, r: string, sep: string)
    requires IsMarker(open) && !Has(r, open) && sep == if r == "" then "" else "\n\n"
    ensures Newlines(sep) && !Has(r + sep, open)
  {
    NoMarkerInGap(r, sep, open);
  }

  lemma PlacedIs(st: Style, open: string, r: string, sep: string, body: string)
    requires sep == if r == "" then "" else "\n\n"
    ensures Placed(st, open, r, body) == (r + sep) + open + After(st.close, body, "\n")
  {
    hide After, Block;
    BlockRegroups(open, st.close, r + sep, body, "\n");
    RegroupPlaced(r, sep, Block(open, st.close, body));
  }

  lemma RegroupPlaced(r: string, sep: string, block: string)
    ensures r + sep + (block + "\n") == (r + sep) + block + "\n"
  {}

  // ------------------------------------------------------------ the markers in use

  const Generated := Style("<!-- generated: ", "-->", "<!-- /generated -->")

  const StateOpen: string := "<!-- generated: state -->"

  lemma PrefixIsMarker()
    ensures IsMarker(Generated.prefix)
  {}

  lemma CloseIsMarker()
    ensures IsMarker(Generated.close)
  {}

  lemma StateIsMarker()
    ensures IsMarker(StateOpen)
  {}

  lemma GeneratedIsWellFormed()
    ensures WellFormed(Generated) && IsMarker(StateOpen)
  {
    hide IsMarker;
    PrefixIsMarker();
    CloseIsMarker();
    StateIsMarker();
  }

  /** The state page itself: the second of two rollups is all that shows, on any page
      the first accepts that holds no second state block. */
  lemma LastRollupStands(text: string, first: string, second: string)
    requires MarkerFree(Generated, first) && ApplyState(Generated, StateOpen, text, first).Some?
    requires !Has(Remainder(Generated, StateOpen, text), StateOpen)
    ensures ApplyState(Generated, StateOpen, ApplyState(Generated, StateOpen, text, first).value, second)
         == ApplyState(Generated, StateOpen, text, second)
  {
    hide *;
    GeneratedIsWellFormed();
    StateLastWriterWins(Generated, StateOpen, text, first, second);
  }
}
