/** Cutting a text into overlapping windows that prefer paragraph and line breaks,
    and a recording into overlapping intervals. */
module Chunking {
  import opened Text

  // ------------------------------------------------------------ where a window ends

  /** The last position in `lo..hi` at which a blank line begins, or -1. */
  function LastBlankLine(text: string, lo: int, hi: int): (k: int)
    requires 0 <= lo && hi <= |text|
    ensures k == -1 || (lo <= k && k + 2 <= hi && text[k] == '\n' && text[k + 1] == '\n')
    decreases hi - lo
  {
    if hi - 2 < lo then -1
    else if text[hi - 2] == '\n' && text[hi - 1] == '\n' then hi - 2
    else LastBlankLine(text, lo, hi - 1)
  }

  /** The last newline in `lo..hi`, or -1. */
  function LastNewline(text: string, lo: int, hi: int): (k: int)
    requires 0 <= lo && hi <= |text|
    ensures k == -1 || (lo <= k < hi && text[k] == '\n')
    decreases hi - lo
  {
    if hi - 1 < lo then -1 else if text[hi - 1] == '\n' then hi - 1 else LastNewline(text, lo, hi - 1)
  }

  /** The end of the window that starts at `start`: after the last blank line of its
      second half, else after the last newline there, else the full size. */
  function WindowEnd(text: string, size: nat, start: nat): (end: int)
    requires size >= 1
    ensures start + size / 2 + 1 <= end <= start + size
  {
    var full := start + size;
    if full >= |text| then full
    else
      var half := start + size / 2;
      var para, line := LastBlankLine(text, half, full), LastNewline(text, half, full);
      if para != -1 then para + 2 else if line != -1 then line + 1 else full
  }

  /** No later blank line, no later newline. */
  lemma {:induction false} LastMeansLast(text: string, lo: int, hi: int, j: int)
    requires 0 <= lo <= j < hi <= |text|
    ensures j > LastNewline(text, lo, hi) ==> text[j] != '\n'
    ensures j + 2 <= hi && j > LastBlankLine(text, lo, hi) ==> !(text[j] == '\n' && text[j + 1] == '\n')
    decreases hi - lo
  {
    if j < hi - 1 { LastMeansLast(text, lo, hi - 1, j); }
  }

  ghost predicate BlankLineAt(text: string, lo: int, hi: int, j: int)
    requires 0 <= lo && hi <= |text|
  {
    lo <= j && j + 2 <= hi && text[j] == '\n' && text[j + 1] == '\n'
  }

  ghost predicate NewlineAt(text: string, lo: int, hi: int, j: int)
    requires 0 <= lo && hi <= |text|
  {
    lo <= j < hi && text[j] == '\n'
  }

  /** In the second half of a window that ends inside the text a blank line is preferred to
      a newline and a newline to the full size, the last of each kind to any earlier one;
      any other window has the full size. */
  lemma WindowPrefersBreaks(text: string, size: nat, start: nat)
    requires size >= 1
    ensures var half, full, end := start + size / 2, start + size, WindowEnd(text, size, start);
      if full >= |text| then end == full
      else if exists j :: BlankLineAt(text, half, full, j) then
        BlankLineAt(text, half, full, end - 2) && forall j :: BlankLineAt(text, half, full, j) ==> j <= end - 2
      else if exists j :: NewlineAt(text, half, full, j) then
        NewlineAt(text, half, full, end - 1) && forall j :: NewlineAt(text, half, full, j) ==> j <= end - 1
      else end == full
  {
    var half, full := start + size / 2, start + size;
    if full < |text| {
      forall j | BlankLineAt(text, half, full, j) ensures j <= LastBlankLine(text, half, full) { LastMeansLast(text, half, full, j); }
      forall j | NewlineAt(text, half, full, j) ensures j <= LastNewline(text, half, full) { LastMeansLast(text, half, full, j); }
      var para, line := LastBlankLine(text, half, full), LastNewline(text, half, full);
      assert para != -1 ==> BlankLineAt(text, half, full, para);
      assert line != -1 ==> NewlineAt(text, half, full, line);
    }
  }

  // ------------------------------------------------------------ windows

  datatype Window = Window(start: nat, end: nat)

  function Windows(text: string, size: nat, overlap: nat, start: nat): seq<Window>
    requires size >= 1 && overlap <= size / 2
    decreases if start < |text| then |text| - start else 0
  {
    if start >= |text| then []
    else
      var end := WindowEnd(text, size, start);
      [Window(start, end)] + Windows(text, size, overlap, end - overlap)
  }

  function Clip(text: string, w: Window): string
    requires w.start <= w.end && w.start <= |text|
  {
    text[w.start..if w.end < |text| then w.end else |text|]
  }

  ghost predicate InText(text: string, ws: seq<Window>) {
    forall k :: 0 <= k < |ws| ==> ws[k].start < ws[k].end && ws[k].start < |text|
  }

  /** The chunks: the trimmed text of every window that is not blank. */
  function Chunks(text: string, ws: seq<Window>): seq<string>
    requires forall k :: 0 <= k < |ws| ==> ws[k].start < ws[k].end && ws[k].start < |text|
  {
    if ws == [] then []
    else (if Trim(Clip(text, ws[0])) != "" then [Trim(Clip(text, ws[0]))] else []) + Chunks(text, ws[1..])
  }

  lemma {:induction false} WindowsInText(text: string, size: nat, overlap: nat, start: nat)
    requires size >= 1 && overlap <= size / 2
    ensures InText(text, Windows(text, size, overlap, start))
    decreases if start < |text| then |text| - start else 0
  {
    if start < |text| { WindowsInText(text, size, overlap, WindowEnd(text, size, start) - overlap); }
  }

  /** The chunks of the windows from `start` on. */
  ghost function ChunksFrom(text: string, size: nat, overlap: nat, start: nat): seq<string>
    requires size >= 1 && overlap <= size / 2
  {
    WindowsInText(text, size, overlap, start);
    Chunks(text, Windows(text, size, overlap, start))
  }

  ghost function AllChunks(text: string, size: nat, overlap: nat): seq<string>
    requires size >= 1 && overlap <= size / 2
  {
    if |text| <= size then (if Trim(text) != "" then [text] else []) else ChunksFrom(text, size, overlap, 0)
  }

  lemma FirstChunk(text: string, size: nat, overlap: nat, start: nat)
    requires size >= 1 && overlap <= size / 2 && start < |text|
    ensures var end := WindowEnd(text, size, start);
      var chunk := Trim(text[start..if end < |text| then end else |text|]);
      && (chunk != "" ==> ChunksFrom(text, size, overlap, start) == [chunk] + ChunksFrom(text, size, overlap, end - overlap))
      && (chunk == "" ==> ChunksFrom(text, size, overlap, start) == ChunksFrom(text, size, overlap, end - overlap))
  {
    assert Windows(text, size, overlap, start)[1..] == Windows(text, size, overlap, WindowEnd(text, size, start) - overlap);
  }

  method FindEnd(text: string, size: nat, start: nat) returns (end: int)
    requires size >= 1
    ensures end == WindowEnd(text, size, start)
  {
    end := start + size;
    if end < |text| {
      var half := start + size / 2;
      var para := LastBlankLine(text, half, end);
      if para != -1 { return para + 2; }
      var line := LastNewline(text, half, end);
      if line != -1 { return line + 1; }
    }
  }

  lemma NoChunks(text: string, size: nat, overlap: nat, start: nat)
    requires size >= 1 && overlap <= size / 2 && start >= |text|
    ensures ChunksFrom(text, size, overlap, start) == []
  {}

  /** One turn of the loop: the trimmed text of the window, and where the next one starts. */
  method NextChunk(text: string, size: nat, overlap: nat, start: nat) returns (chunk: string, next: nat)
    requires size >= 1 && overlap <= size / 2 && start < |text|
    ensures start < next
    ensures chunk != "" ==> ChunksFrom(text, size, overlap, start) == [chunk] + ChunksFrom(text, size, overlap, next)
    ensures chunk == "" ==> ChunksFrom(text, size, overlap, start) == ChunksFrom(text, size, overlap, next)
  {
    hide ChunksFrom;
    var end := FindEnd(text, size, start);
    chunk := Trim(text[start..if end < |text| then end else |text|]);
    FirstChunk(text, size, overlap, start);
    next := end - overlap;
  }

  method ChunkLongText(text: string, size: nat, overlap: nat) returns (chunks: seq<string>)
    requires size >= 1 && overlap <= size / 2
    ensures chunks == ChunksFrom(text, size, overlap, 0)
  {
    chunks := [];
    var start: nat := 0;
    ghost var total, rest := ChunksFrom(text, size, overlap, 0), ChunksFrom(text, size, overlap, 0);
    while start < |text|
      invariant rest == ChunksFrom(text, size, overlap, start)
      invariant chunks + rest == total
      decreases |text| - start
    {
      var chunk, next := NextChunk(text, size, overlap, start);
      ghost var after := ChunksFrom(text, size, overlap, next);
      if chunk != "" {
        assert chunks + ([chunk] + after) == (chunks + [chunk]) + after;
        chunks := chunks + [chunk];
      }
      start, rest := next, after;
    }
    NoChunks(text, size, overlap, start);
  }

  method ChunkText(text: string, size: nat, overlap: nat) returns (chunks: seq<string>)
    requires size >= 1 && overlap <= size / 2
    ensures chunks == AllChunks(text, size, overlap)
  {
    if |text| <= size {
      if Trim(text) != "" { return [text]; }
      return [];
    }
    chunks := ChunkLongText(text, size, overlap);
  }

  // ------------------------------------------------------------ what the windows are

  /** Windows start where the text starts, each next one exactly `overlap` before the
      end of the last, none is longer than the size, and the last reaches the end. */
  lemma {:induction false} WindowsShape(text: string, size: nat, overlap: nat, start: nat)
    requires size >= 1 && overlap <= size / 2 && start < |text|
    ensures var ws := Windows(text, size, overlap, start);
      && ws != [] && ws[0].start == start
      && (forall k :: 0 <= k < |ws| ==> ws[k].end - ws[k].start <= size)
      && (forall k :: 0 <= k < |ws| - 1 ==> ws[k].end - ws[k + 1].start == overlap)
      && ws[|ws| - 1].end - overlap >= |text|
    decreases |text| - start
  {
    var next := WindowEnd(text, size, start) - overlap;
    if next < |text| { WindowsShape(text, size, overlap, next); }
  }

  ghost predicate Covers(ws: seq<Window>, p: nat) {
    exists k :: 0 <= k < |ws| && ws[k].start <= p < ws[k].end
  }

  /** Every position lies in some window. */
  lemma {:induction false} WindowsCover(text: string, size: nat, overlap: nat, start: nat, p: nat)
    requires size >= 1 && overlap <= size / 2 && start <= p < |text|
    ensures Covers(Windows(text, size, overlap, start), p)
    decreases |text| - start
  {
    var end := WindowEnd(text, size, start);
    var ws := Windows(text, size, overlap, start);
    var rest := Windows(text, size, overlap, end - overlap);
    assert ws == [Window(start, end)] + rest;
    if p < end {
      assert ws[0].start <= p < ws[0].end;
    } else {
      WindowsCover(text, size, overlap, end - overlap, p);
      var k :| 0 <= k < |rest| && rest[k].start <= p < rest[k].end;
      assert ws[k + 1] == rest[k];
    }
  }

  /** Every window but the last moves on by at least size/2 + 1 - overlap. */
  lemma {:induction false} WindowsAreFew(text: string, size: nat, overlap: nat, start: nat, step: nat)
    requires size >= 1 && overlap <= size / 2 && start < |text| && step == size / 2 + 1 - overlap
    ensures (|Windows(text, size, overlap, start)| - 1) * step < |text| - start
    decreases |text| - start
  {
    var end := WindowEnd(text, size, start);
    var next := end - overlap;
    var ws, rest := Windows(text, size, overlap, start), Windows(text, size, overlap, next);
    assert ws == [Window(start, end)] + rest;
    if next < |text| {
      WindowsAreFew(text, size, overlap, next, step);
      hide *;
      OneMore(|rest| - 1, step, |text| - next, |text| - start);
    } else {
      assert rest == [];
      hide *;
    }
  }

  lemma OneMore(n: int, step: int, left: int, more: int)
    requires n * step < left && left + step <= more
    ensures (n + 1) * step < more
  {}

  lemma {:induction false} ChunksAtMostWindows(text: string, ws: seq<Window>)
    requires InText(text, ws)
    ensures |Chunks(text, ws)| <= |ws|
    decreases |ws|
  {
    if ws != [] { ChunksAtMostWindows(text, ws[1..]); }
  }

  lemma LongTextBound(text: string, size: nat, overlap: nat)
    requires size >= 1 && overlap <= size / 2 && text != ""
    ensures (|ChunksFrom(text, size, overlap, 0)| - 1) * (size / 2 + 1 - overlap) < |text|
  {
    hide *;
    WindowsInText(text, size, overlap, 0);
    WindowsAreFew(text, size, overlap, 0, size / 2 + 1 - overlap);
    ChunksAtMostWindows(text, Windows(text, size, overlap, 0));
    ChunksAreOfWindows(text, size, overlap);
    FewerFit(|ChunksFrom(text, size, overlap, 0)|, |Windows(text, size, overlap, 0)|, size / 2 + 1 - overlap, |text|);
  }

  lemma ChunksAreOfWindows(text: string, size: nat, overlap: nat)
    requires size >= 1 && overlap <= size / 2
    ensures InText(text, Windows(text, size, overlap, 0)) && ChunksFrom(text, size, overlap, 0) == Chunks(text, Windows(text, size, overlap, 0))
  {
    WindowsInText(text, size, overlap, 0);
    hide Windows, Chunks, InText;
  }

  /** The number of chunks is bounded by length over minimum progress. */
  lemma ChunkCountBound(text: string, size: nat, overlap: nat)
    requires size >= 1 && overlap <= size / 2 && text != ""
    ensures (|AllChunks(text, size, overlap)| - 1) * (size / 2 + 1 - overlap) < |text|
  {
    if |text| > size {
      LongTextBound(text, size, overlap);
    } else {
      Scale(|AllChunks(text, size, overlap)| - 1, 0, size / 2 + 1 - overlap);
    }
  }

  lemma FewerFit(n: int, m: int, step: nat, length: int)
    requires n <= m && (m - 1) * step < length
    ensures (n - 1) * step < length
  {
    Scale(n - 1, m - 1, step);
  }

  lemma Scale(a: int, b: int, c: nat)
    requires a <= b
    ensures a * c <= b * c
  {}

  // ------------------------------------------------------------ the windows rebuild the text

  /** Append each window without what it shares with the one before. */
  function Stitch(text: string, overlap: nat, ws: seq<Window>, first: bool): string
    requires forall k :: 0 <= k < |ws| ==> ws[k].start < ws[k].end && ws[k].start < |text|
    decreases |ws|
  {
    if ws == [] then "" else Piece(text, overlap, ws[0], first) + Stitch(text, overlap, ws[1..], false)
  }

  function Piece(text: string, overlap: nat, w: Window, first: bool): string
    requires w.start < w.end && w.start < |text|
  {
    var c := Clip(text, w);
    if first then c else if |c| < overlap then "" else c[overlap..]
  }

  lemma StitchCons(text: string, overlap: nat, w: Window, ws: seq<Window>, first: bool)
    requires w.start < w.end && w.start < |text| && InText(text, ws)
    ensures InText(text, [w] + ws)
    ensures Stitch(text, overlap, [w] + ws, first) == Piece(text, overlap, w, first) + Stitch(text, overlap, ws, false)
  {
    assert ([w] + ws)[1..] == ws;
  }

  /** What is left of a text from a position on. */
  function From(text: string, k: nat): string {
    if k < |text| then text[k..] else ""
  }

  lemma StitchStep(text: string, overlap: nat, start: nat, end: nat)
    requires start < end && start < |text| && start + overlap <= end
    ensures Piece(text, overlap, Window(start, end), false) + From(text, end) == From(text, start + overlap)
  {
    if end < |text| {
      assert Clip(text, Window(start, end))[overlap..] == text[start + overlap..end];
      assert text[start + overlap..] == text[start + overlap..end] + text[end..];
    } else {
      assert Clip(text, Window(start, end)) == text[start..];
    }
  }

  lemma OneMorePiece(text: string, overlap: nat, start: nat, end: nat, ws: seq<Window>, rest: seq<Window>)
    requires start < end && start < |text| && start + overlap <= end && ws == [Window(start, end)] + rest
    requires InText(text, rest) && Stitch(text, overlap, rest, false) == From(text, end)
    ensures InText(text, ws) && Stitch(text, overlap, ws, false) == From(text, start + overlap)
  {
    hide *;
    StitchCons(text, overlap, Window(start, end), rest, false);
    StitchStep(text, overlap, start, end);
  }

  /** The first window and the others. */
  lemma WindowsStep(text: string, size: nat, overlap: nat, start: nat)
    requires size >= 1 && overlap <= size / 2
    ensures start >= |text| ==> Windows(text, size, overlap, start) == []
    ensures start < |text| ==> var end := WindowEnd(text, size, start);
      Windows(text, size, overlap, start) == [Window(start, end)] + Windows(text, size, overlap, end - overlap)
  {
    hide WindowEnd;
  }

  lemma NoPiece(text: string, overlap: nat, k: nat)
    requires k >= |text|
    ensures Stitch(text, overlap, [], false) == From(text, k)
  {}

  lemma {:induction false} StitchFrom(text: string, size: nat, overlap: nat, start: nat)
    requires size >= 1 && overlap <= size / 2
    ensures InText(text, Windows(text, size, overlap, start))
    ensures Stitch(text, overlap, Windows(text, size, overlap, start), false) == From(text, start + overlap)
    decreases if start < |text| then |text| - start else 0
  {
    hide *;
    WindowsStep(text, size, overlap, start);
    WindowsInText(text, size, overlap, start);
    if start < |text| {
      var end := WindowEnd(text, size, start);
      StitchFrom(text, size, overlap, end - overlap);
      OneMorePiece(text, overlap, start, end, Windows(text, size, overlap, start), Windows(text, size, overlap, end - overlap));
    } else {
      NoPiece(text, overlap, start + overlap);
    }
  }

  lemma StitchHead(text: string, end: nat, overlap: nat)
    requires 0 < end && text != ""
    ensures Piece(text, overlap, Window(0, end), true) + From(text, end) == text
  {
    if end < |text| { assert text == text[..end] + text[end..]; }
  }

  /** Nothing is lost and nothing is invented: the windows, less their overlaps, are the text. */
  lemma WindowsRebuildText(text: string, size: nat, overlap: nat)
    requires size >= 1 && overlap <= size / 2 && text != ""
    ensures InText(text, Windows(text, size, overlap, 0))
    ensures Stitch(text, overlap, Windows(text, size, overlap, 0), true) == text
  {
    var end := WindowEnd(text, size, 0);
    var rest := Windows(text, size, overlap, end - overlap);
    assert Windows(text, size, overlap, 0) == [Window(0, end)] + rest;
    StitchFrom(text, size, overlap, end - overlap);
    hide *;
    StitchCons(text, overlap, Window(0, end), rest, true);
    StitchHead(text, end, overlap);
  }

  // ------------------------------------------------------------ when the loop makes progress

  /** The next window starts later. */
  ghost predicate Advances(text: string, size: nat, overlap: int, start: nat)
    requires size >= 1
  {
    WindowEnd(text, size, start) - overlap > start
  }

  /** A text in which the first window ends as early as it can. */
  function StallingText(size: nat): string {
    seq(size / 2, i => 'x') + "\n" + seq(size, i => 'x')
  }

  /** Every window of every text advances exactly when the overlap is at most half the
      size; beyond that, the loop of this text makes no step. */
  lemma AdvancesIff(size: nat, overlap: nat)
    requires size >= 1
    ensures (forall text, start: nat :: start < |text| ==> Advances(text, size, overlap, start)) <==> overlap <= size / 2
    ensures overlap > size / 2 ==> |StallingText(size)| > size && !Advances(StallingText(size), size, overlap, 0)
  {
    var text := StallingText(size);
    var half := size / 2;
    assert text[half] == '\n' && forall j :: half < j < |text| ==> text[j] != '\n';
    if LastBlankLine(text, half, size) == -1 { LastMeansLast(text, half, size, half); }
    assert WindowEnd(text, size, 0) == half + 1;
    if overlap > half { assert 0 < |text| && !Advances(text, size, overlap, 0); }
  }

  // ------------------------------------------------------------ recordings

  datatype Interval = Interval(start: int, end: real)

  function MinReal(a: real, b: real): real { if a < b then a else b }

  /** Intervals of `chunk` seconds every `chunk - overlap`; a tail under five seconds is dropped. */
  function Intervals(duration: real, chunk: int, overlap: int, start: int, index: nat): seq<Interval>
    requires 0 <= overlap < chunk
    decreases if start as real < duration then duration.Floor + 1 - start else 0
  {
    if start as real >= duration then []
    else
      var end := MinReal((start + chunk) as real, duration);
      if end - start as real < 5.0 && index > 0 then []
      else [Interval(start, end)] + Intervals(duration, chunk, overlap, start + (chunk - overlap), index + 1)
  }

  method ChunkIntervals(duration: real, chunk: int, overlap: int) returns (chunks: seq<Interval>)
    requires 0 <= overlap < chunk
    ensures chunks == Intervals(duration, chunk, overlap, 0, 0)
  {
    chunks := [];
    var start, idx, step := 0, 0, chunk - overlap;
    while start as real < duration
      invariant chunks + Intervals(duration, chunk, overlap, start, idx) == Intervals(duration, chunk, overlap, 0, 0)
      decreases duration.Floor + 1 - start
    {
      var end := MinReal((start + chunk) as real, duration);
      if end - start as real < 5.0 && idx > 0 { break; }
      chunks := chunks + [Interval(start, end)];
      start, idx := start + step, idx + 1;
    }
  }

  ghost predicate Recorded(cs: seq<Interval>, t: real) {
    exists k :: 0 <= k < |cs| && cs[k].start as real <= t < cs[k].end
  }

  /** With at least five seconds of overlap, dropping the tail loses no moment. */
  lemma {:induction false} IntervalsCover(duration: real, chunk: int, overlap: int, start: int, index: nat, t: real)
    requires 5 <= overlap < chunk && start as real <= t < duration
    requires index > 0 ==> duration - start as real >= 5.0 || t >= (start + overlap) as real
    ensures Recorded(Intervals(duration, chunk, overlap, start, index), t)
    decreases duration.Floor + 1 - start
  {
    var end := MinReal((start + chunk) as real, duration);
    var cs := Intervals(duration, chunk, overlap, start, index);
    if t < end {
      assert cs[0].start as real <= t < cs[0].end;
    } else {
      var next := start + (chunk - overlap);
      IntervalsCover(duration, chunk, overlap, next, index + 1, t);
      var rest := Intervals(duration, chunk, overlap, next, index + 1);
      var k :| 0 <= k < |rest| && rest[k].start as real <= t < rest[k].end;
      assert cs[k + 1] == rest[k];
    }
  }

  /** With less, half a second past a full chunk is never recorded. */
  lemma TailIsLost(chunk: int, overlap: int)
    requires 0 <= overlap < 5 && overlap < chunk
    ensures !Recorded(Intervals(chunk as real + 0.5, chunk, overlap, 0, 0), chunk as real + 0.25)
  {
    var duration := chunk as real + 0.5;
    var rest := Intervals(duration, chunk, overlap, chunk - overlap, 1);
    assert rest == [];
    assert Intervals(duration, chunk, overlap, 0, 0) == [Interval(0, chunk as real)] + rest;
  }

  /** Every moment of every recording is in some interval exactly when the overlap is
      at least the five seconds a dropped tail may last. */
  lemma EverythingRecordedIff(chunk: int, overlap: int)
    requires 0 <= overlap < chunk
    ensures (forall duration: real, t: real :: 0.0 <= t < duration ==> Recorded(Intervals(duration, chunk, overlap, 0, 0), t)) <==> overlap >= 5
  {
    if overlap >= 5 {
      forall duration: real, t: real | 0.0 <= t < duration ensures Recorded(Intervals(duration, chunk, overlap, 0, 0), t) {
        IntervalsCover(duration, chunk, overlap, 0, 0, t);
      }
    } else {
      TailIsLost(chunk, overlap);
    }
  }
}
