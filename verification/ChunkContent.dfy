/** What the chunks of a text hold: its visible characters, all of them, in order. */
module ChunkContent {
  import opened Text
  import opened Chunking

  ghost predicate BlankIn(s: string, from: nat, to: nat) {
    from <= to <= |s| && forall k :: from <= k < to ==> IsSpace(s[k])
  }

  ghost predicate Blank(s: string) {
    BlankIn(s, 0, |s|)
  }

  // ------------------------------------------------------------ trimming

  /** `t` is the beginning of `s` up to its last blanks. */
  ghost predicate Head(s: string, t: string) {
    t <= s && BlankIn(s, |t|, |s|)
  }

  /** `t` is the end of `s` after its first blanks. */
  ghost predicate Tail(s: string, t: string) {
    |t| <= |s| && t == s[|s| - |t|..] && BlankIn(s, 0, |s| - |t|)
  }

  lemma {:induction false} TrimRightRest(s: string)
    ensures Head(s, TrimRight(s))
    decreases |s|
  {
    if s != "" && IsSpace(s[|s| - 1]) { TrimRightRest(s[..|s| - 1]); }
  }

  lemma {:induction false} TrimLeftRest(s: string)
    ensures Tail(s, TrimLeft(s))
    decreases |s|
  {
    if s != "" && IsSpace(s[0]) {
      var rest := s[1..];
      TrimLeftRest(rest);
      var n := |rest| - |TrimLeft(rest)|;
      forall k | 0 <= k < n + 1 ensures IsSpace(s[k]) { if k > 0 { assert rest[k - 1] == s[k]; } }
    }
  }

  /** `t` stands in `s` from `a` on, between blanks. */
  ghost predicate CutAt(s: string, a: nat, t: string) {
    a + |t| <= |s| && s[a..a + |t|] == t && BlankIn(s, 0, a) && BlankIn(s, a + |t|, |s|)
  }

  lemma HeadOfTail(s: string, l: string, t: string) returns (a: nat)
    requires Tail(s, l) && Head(l, t)
    ensures CutAt(s, a, t)
  {
    hide IsSpace;
    a := |s| - |l|;
    assert s[a..a + |t|] == l[..|t|];
    forall k | a + |t| <= k < |s| ensures IsSpace(s[k]) { assert l[k - a] == s[k]; }
  }

  lemma TrimIs(s: string)
    ensures Trim(s) == TrimRight(TrimLeft(s))
  {
    hide TrimLeft, TrimRight;
  }

  /** Trimming takes blanks off both ends and nothing else. */
  lemma TrimParts(s: string) returns (a: nat)
    ensures CutAt(s, a, Trim(s)) && Trimmed(Trim(s))
  {
    hide *;
    TrimIs(s);
    TrimLeftRest(s);
    TrimRightRest(TrimLeft(s));
    TrimShape(s);
    a := HeadOfTail(s, TrimLeft(s), Trim(s));
  }

  /** A visible character survives trimming. */
  lemma InTrimmed(s: string, a: nat, p: nat)
    requires p < |s| && !IsSpace(s[p]) && CutAt(s, a, Trim(s))
    ensures a <= p < a + |Trim(s)|
  {
    hide Trim, IsSpace;
  }

  lemma BlankTrims(s: string)
    ensures Trim(s) == "" <==> Blank(s)
  {
    var a := TrimParts(s);
    hide Trim, IsSpace;
    if Trim(s) != "" {
      assert !IsSpace(Trim(s)[0]);
      assert Trim(s)[0] == s[a];
    }
  }

  // ------------------------------------------------------------ the chunks of the windows

  ghost predicate Increasing(from: seq<nat>) {
    forall j, k :: 0 <= j < k < |from| ==> from[j] < from[k]
  }

  /** The chunks are the trimmed texts of exactly the windows that are not blank, in order. */
  ghost predicate FromWindows(text: string, ws: seq<Window>, chunks: seq<string>, from: seq<nat>)
    requires InText(text, ws)
  {
    && |from| == |chunks| && Increasing(from)
    && (forall k :: 0 <= k < |from| ==> from[k] < |ws| && chunks[k] == Trim(Clip(text, ws[from[k]])) && chunks[k] != "")
    && (forall w :: 0 <= w < |ws| && !Blank(Clip(text, ws[w])) ==> w in from)
  }

  lemma {:induction false} ChunksAreWindows(text: string, ws: seq<Window>) returns (from: seq<nat>)
    requires InText(text, ws)
    ensures FromWindows(text, ws, Chunks(text, ws), from)
    decreases |ws|
  {
    if ws == [] {
      from := [];
    } else {
      var rest := ChunksAreWindows(text, ws[1..]);
      var c := Trim(Clip(text, ws[0]));
      var chunks := Chunks(text, ws[1..]);
      BlankTrims(Clip(text, ws[0]));
      var all := (if c != "" then [c] else []) + chunks;
      assert all == Chunks(text, ws);
      hide Chunks, Trim, Clip, Blank;
      from := Shift(rest, if c != "" then 1 else 0);
      OneMoreValues(text, ws, chunks, rest, c, all, from);
      OneMoreCovered(text, ws, chunks, rest, c, from);
    }
  }

  /** Window `k` after one more window, of which `n` is kept. */
  ghost predicate Shifted(rest: seq<nat>, from: seq<nat>, n: nat) {
    n <= 1 && |from| == n + |rest| && (n == 1 ==> from[0] == 0) && forall k :: n <= k < |from| ==> from[k] == rest[k - n] + 1
  }

  lemma Shift(rest: seq<nat>, n: nat) returns (from: seq<nat>)
    requires n <= 1
    ensures Shifted(rest, from, n)
  {
    from := (if n == 1 then [0] else []) + seq(|rest|, k requires 0 <= k < |rest| => rest[k] + 1);
  }

  lemma OneMoreValues(text: string, ws: seq<Window>, chunks: seq<string>, rest: seq<nat>, c: string, all: seq<string>, from: seq<nat>)
    requires ws != [] && InText(text, ws) && InText(text, ws[1..]) && FromWindows(text, ws[1..], chunks, rest) && c == Trim(Clip(text, ws[0]))
    requires all == (if c != "" then [c] else []) + chunks && Shifted(rest, from, if c != "" then 1 else 0)
    ensures |from| == |all| && Increasing(from)
    ensures forall k :: 0 <= k < |from| ==> from[k] < |ws| && all[k] == Trim(Clip(text, ws[from[k]])) && all[k] != ""
  {
    hide Trim, Clip, Blank;
    var n := if c != "" then 1 else 0;
    forall k | n <= k < |from| ensures from[k] < |ws| && all[k] == chunks[k - n] && ws[from[k]] == ws[1..][rest[k - n]] {}
  }

  lemma OneMoreCovered(text: string, ws: seq<Window>, chunks: seq<string>, rest: seq<nat>, c: string, from: seq<nat>)
    requires ws != [] && InText(text, ws) && InText(text, ws[1..]) && FromWindows(text, ws[1..], chunks, rest) && (c == "" <==> Blank(Clip(text, ws[0])))
    requires Shifted(rest, from, if c != "" then 1 else 0)
    ensures forall w :: 0 <= w < |ws| && !Blank(Clip(text, ws[w])) ==> w in from
  {
    hide Trim, Clip, Blank;
    var n := if c != "" then 1 else 0;
    forall w | 0 <= w < |ws| && !Blank(Clip(text, ws[w])) ensures w in from {
      if w > 0 {
        assert ws[1..][w - 1] == ws[w];
        var k :| 0 <= k < |rest| && rest[k] == w - 1;
        assert from[n + k] == w;
      } else {
        assert from[0] == 0;
      }
    }
  }

  // ------------------------------------------------------------ whole texts

  /** A text that fits one chunk is that chunk as it stands, unless it is blank. */
  lemma ShortText(text: string, size: nat, overlap: nat)
    requires size >= 1 && overlap <= size / 2 && |text| <= size
    ensures AllChunks(text, size, overlap) == if Blank(text) then [] else [text]
  {
    BlankTrims(text);
  }

  /** A longer one gives the trimmed text of every window that is not blank, in order. */
  lemma LongText(text: string, size: nat, overlap: nat) returns (from: seq<nat>)
    requires size >= 1 && overlap <= size / 2 && |text| > size
    ensures InText(text, Windows(text, size, overlap, 0))
    ensures FromWindows(text, Windows(text, size, overlap, 0), AllChunks(text, size, overlap), from)
  {
    WindowsInText(text, size, overlap, 0);
    from := ChunksAreWindows(text, Windows(text, size, overlap, 0));
  }

  /** Chunk `c` is the text from `a` on, and position `p` is inside it. */
  ghost predicate Holds(text: string, c: string, a: nat, p: nat) {
    a <= p < a + |c| <= |text| && text[a..a + |c|] == c
  }

  /** No visible character is lost: each one is in some chunk, in its place. */
  lemma NothingVisibleIsLost(text: string, size: nat, overlap: nat, p: nat) returns (k: nat, a: nat)
    requires size >= 1 && overlap <= size / 2 && p < |text| && !IsSpace(text[p])
    ensures k < |AllChunks(text, size, overlap)| && Holds(text, AllChunks(text, size, overlap)[k], a, p)
  {
    if |text| <= size {
      ShortText(text, size, overlap);
      k, a := 0, 0;
      assert text[0..0 + |text|] == text;
    } else {
      var from := LongText(text, size, overlap);
      WindowsCover(text, size, overlap, 0, p);
      hide Windows, AllChunks, Trim;
      k, a := VisibleInWindows(text, Windows(text, size, overlap, 0), AllChunks(text, size, overlap), from, p);
    }
  }

  lemma VisibleInWindows(text: string, ws: seq<Window>, chunks: seq<string>, from: seq<nat>, p: nat) returns (k: nat, a: nat)
    requires InText(text, ws) && FromWindows(text, ws, chunks, from) && p < |text| && !IsSpace(text[p]) && Covers(ws, p)
    ensures k < |chunks| && Holds(text, chunks[k], a, p)
  {
    hide Trim, Clip, BlankIn, IsSpace;
    var w: nat :| w < |ws| && ws[w].start <= p < ws[w].end;
    ClipAt(text, ws[w], p);
    assert w in from;
    k :| 0 <= k < |from| && from[k] == w;
    var clip := Clip(text, ws[w]);
    var b := TrimParts(clip);
    a := ws[w].start + b;
    InTrimmed(clip, b, p - ws[w].start);
    PartOfClip(text, ws[w], clip, b, Trim(clip));
  }

  lemma ClipAt(text: string, w: Window, p: nat)
    requires w.start <= p < w.end && p < |text|
    ensures var clip := Clip(text, w); p - w.start < |clip| && clip[p - w.start] == text[p]
    ensures !IsSpace(text[p]) ==> !Blank(Clip(text, w))
  {
    hide IsSpace;
  }

  lemma SliceOfSlice(s: string, i: nat, j: nat, b: nat, n: nat)
    requires i <= j <= |s| && b + n <= j - i
    ensures s[i..j][b..b + n] == s[i + b..i + b + n]
  {
    var whole, part, same := s[i..j], s[i..j][b..b + n], s[i + b..i + b + n];
    forall k | 0 <= k < n ensures part[k] == same[k] { assert whole[b + k] == s[i + (b + k)]; }
  }

  lemma PartOfClip(text: string, w: Window, clip: string, b: nat, t: string)
    requires w.start <= w.end && w.start <= |text| && clip == Clip(text, w) && b + |t| <= |clip| && clip[b..b + |t|] == t
    ensures w.start + b + |t| <= |text| && text[w.start + b..w.start + b + |t|] == t
  {
    SliceOfSlice(text, w.start, if w.end < |text| then w.end else |text|, b, |t|);
  }

  // ------------------------------------------------------------ recordings

  function Times(k: nat, step: int): int {
    if k == 0 then 0 else step + Times(k - 1, step)
  }

  lemma {:induction false} TimesUp(k: nat, step: int)
    requires step >= 0
    ensures Times(k, step) >= 0
  {
    if k > 0 { TimesUp(k - 1, step); }
  }

  /** Interval `k` of a list that begins at `start`. */
  ghost predicate IsInterval(c: Interval, duration: real, chunk: int, start: int, k: nat, step: int) {
    c.start == start + Times(k, step) && c.end == MinReal((c.start + chunk) as real, duration)
  }

  /** At least five seconds are left, and a chunk is that long. */
  predicate LongEnough(duration: real, chunk: int, at: int) {
    chunk >= 5 && (at + 5) as real <= duration
  }

  ghost predicate AreIntervals(cs: seq<Interval>, duration: real, chunk: int, start: int, step: int) {
    && (forall k :: 0 <= k < |cs| ==> IsInterval(cs[k], duration, chunk, start, k, step))
    && (forall k: nat :: k < |cs| <==> LongEnough(duration, chunk, start + Times(k, step)))
  }

  /** With room for one more, and that one first. */
  lemma IntervalsNext(duration: real, chunk: int, overlap: int, start: int, index: nat)
    requires 0 <= overlap < chunk && index > 0
    ensures Intervals(duration, chunk, overlap, start, index) ==
      if LongEnough(duration, chunk, start) then
        [Interval(start, MinReal((start + chunk) as real, duration))] + Intervals(duration, chunk, overlap, start + (chunk - overlap), index + 1)
      else []
  {}

  lemma OneMoreInterval(duration: real, chunk: int, start: int, step: int, rest: seq<Interval>)
    requires LongEnough(duration, chunk, start) && AreIntervals(rest, duration, chunk, start + step, step)
    ensures AreIntervals([Interval(start, MinReal((start + chunk) as real, duration))] + rest, duration, chunk, start, step)
  {
    hide LongEnough;
    var cs := [Interval(start, MinReal((start + chunk) as real, duration))] + rest;
    forall k | 0 <= k < |cs| ensures IsInterval(cs[k], duration, chunk, start, k, step) {
      if k > 0 { assert IsInterval(rest[k - 1], duration, chunk, start + step, k - 1, step) && Times(k, step) == step + Times(k - 1, step); }
    }
    forall k: nat ensures k < |cs| <==> LongEnough(duration, chunk, start + Times(k, step)) {
      if k > 0 { assert k - 1 < |rest| <==> LongEnough(duration, chunk, start + step + Times(k - 1, step)); }
    }
  }

  lemma NoMoreIntervals(duration: real, chunk: int, start: int, step: int)
    requires !LongEnough(duration, chunk, start) && step >= 0
    ensures AreIntervals([], duration, chunk, start, step)
  {
    forall k: nat ensures !LongEnough(duration, chunk, start + Times(k, step)) { TimesUp(k, step); }
  }

  lemma {:induction false} LaterIntervals(duration: real, chunk: int, overlap: int, start: int, index: nat)
    requires 0 <= overlap < chunk && index > 0
    ensures AreIntervals(Intervals(duration, chunk, overlap, start, index), duration, chunk, start, chunk - overlap)
    decreases if start as real < duration then duration.Floor + 1 - start else 0
  {
    IntervalsNext(duration, chunk, overlap, start, index);
    if LongEnough(duration, chunk, start) {
      hide Intervals, AreIntervals;
      LaterIntervals(duration, chunk, overlap, start + (chunk - overlap), index + 1);
      OneMoreInterval(duration, chunk, start, chunk - overlap, Intervals(duration, chunk, overlap, start + (chunk - overlap), index + 1));
    } else {
      hide *;
      NoMoreIntervals(duration, chunk, start, chunk - overlap);
    }
  }

  /** Interval `k` of a recording starts `k` steps in and is one chunk long unless the
      recording ends; the first is there when anything is, a later one exactly when at
      least five seconds are left for it. */
  lemma IntervalsAre(duration: real, chunk: int, overlap: int)
    requires 0 <= overlap < chunk
    ensures var cs, step := Intervals(duration, chunk, overlap, 0, 0), chunk - overlap;
      && (forall k :: 0 <= k < |cs| ==> IsInterval(cs[k], duration, chunk, 0, k, step))
      && (forall k: nat :: k < |cs| <==> 0.0 < duration && (k == 0 || LongEnough(duration, chunk, Times(k, step))))
  {
    var step := chunk - overlap;
    var cs := Intervals(duration, chunk, overlap, 0, 0);
    forall k: nat ensures Times(k, step) >= 0 { TimesUp(k, step); }
    if 0.0 < duration {
      LaterIntervals(duration, chunk, overlap, step, 1);
      var rest := Intervals(duration, chunk, overlap, step, 1);
      assert cs == [Interval(0, MinReal(chunk as real, duration))] + rest;
      forall k | 0 <= k < |cs| ensures IsInterval(cs[k], duration, chunk, 0, k, step) {
        if k > 0 { assert cs[k] == rest[k - 1] && IsInterval(rest[k - 1], duration, chunk, step, k - 1, step); }
      }
      forall k: nat ensures k < |cs| <==> k == 0 || LongEnough(duration, chunk, Times(k, step)) {
        if k > 0 { assert k - 1 < |rest| <==> LongEnough(duration, chunk, step + Times(k - 1, step)); }
      }
    }
  }
}
