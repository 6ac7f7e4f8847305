/** digest.md: the review table the dry-run prints and the ids the signer reads
    back from it. */
module DigestTable {
  import opened Common
  import opened Text

  // ------------------------------------------------------------ the printer

  /** `s.replace("\n", " ")`. */
  function Flatten(s: string): string {
    if s == "" then "" else [if s[0] == '\n' then ' ' else s[0]] + Flatten(s[1..])
  }

  function MdCell(v: string): string {
    Flatten(EscapePipes(v))
  }

  function RowBody(cells: seq<string>): string
    requires |cells| >= 1
  {
    var head := " " + MdCell(cells[0]) + " ";
    if |cells| == 1 then head else head + "|" + RowBody(cells[1..])
  }

  function DigestRow(cells: seq<string>): string
    requires |cells| >= 1
  {
    "|" + RowBody(cells) + "|"
  }

  /** The recorded dry-run of one meeting, as the table shows it. */
  datatype DryRun = DryRun(date: string, title: string, home: string, created: string, kept: string,
                           classification: string, exit: Option<int>)

  /** A progress row: `dry` is absent for a row no dry-run has reached. */
  datatype Entry = Entry(id: Id, dry: Option<DryRun>)

  /** The lines above the table: `stats` words the counts of the batch, `columns`
      are the captions, of which the first is `id`. */
  datatype Header = Header(title: string, stats: (nat, nat) -> string, status: string, columns: seq<string>)

  function ShowNat(n: nat): string {
    (if n < 10 then "" else ShowNat(n / 10)) + ['0' + (n % 10) as char]
  }

  function ShowInt(n: int): string {
    if n < 0 then "-" + ShowNat(-n) else ShowNat(n)
  }

  function EntryCells(id: Id, d: DryRun): seq<string> {
    [id, d.date, d.title, d.home, d.created, d.kept, d.classification, if d.exit.None? then "" else ShowInt(d.exit.value)]
  }

  function JoinLines(lines: seq<string>): string {
    if lines == [] then "" else lines[0] + "\n" + JoinLines(lines[1..])
  }

  function Rule(n: nat): string {
    if n == 0 then "" else "---|" + Rule(n - 1)
  }

  function HeadLines(h: Header, ok: nat, failed: nat): seq<string>
    requires |h.columns| >= 1
  {
    ["# " + h.title, "", "kind: " + h.stats(ok, failed), "status: " + h.status, "", DigestRow(h.columns), "|" + Rule(|h.columns|)]
  }

  function EntryRow(id: Id, d: DryRun): string {
    DigestRow(EntryCells(id, d))
  }

  function TableRows(entries: seq<Entry>): seq<string> {
    if entries == [] then []
    else if entries[0].dry.None? then TableRows(entries[1..])
    else [EntryRow(entries[0].id, entries[0].dry.value)] + TableRows(entries[1..])
  }

  /** How many recorded dry-runs ended with exit 0, or with anything else. */
  function Tally(entries: seq<Entry>, success: bool): nat {
    if entries == [] then 0
    else (if entries[0].dry.Some? && (entries[0].dry.value.exit == Some(0)) == success then 1 else 0) + Tally(entries[1..], success)
  }

  function Digest(h: Header, entries: seq<Entry>): string
    requires |h.columns| >= 1
  {
    JoinLines(HeadLines(h, Tally(entries, true), Tally(entries, false)) + TableRows(entries))
  }

  method WriteDigest(h: Header, entries: seq<Entry>) returns (text: string)
    requires |h.columns| >= 1
    ensures text == Digest(h, entries)
  {
    hide EntryRow, DigestRow, HeadLines, JoinLines;
    var rowsOut: seq<string> := [];
    var ok, failed := 0, 0;
    for i := 0 to |entries|
      invariant rowsOut + TableRows(entries[i..]) == TableRows(entries)
      invariant ok + Tally(entries[i..], true) == Tally(entries, true)
      invariant failed + Tally(entries[i..], false) == Tally(entries, false)
    {
      assert entries[i..][1..] == entries[i + 1..];
      if entries[i].dry.None? { continue; }
      var d := entries[i].dry.value;
      assert rowsOut + ([EntryRow(entries[i].id, d)] + TableRows(entries[i + 1..])) == (rowsOut + [EntryRow(entries[i].id, d)]) + TableRows(entries[i + 1..]);
      rowsOut := rowsOut + [EntryRow(entries[i].id, d)];
      if d.exit == Some(0) { ok := ok + 1; } else { failed := failed + 1; }
    }
    assert entries[|entries|..] == [] && rowsOut == TableRows(entries);
    text := JoinLines(HeadLines(h, ok, failed) + rowsOut);
  }

  // ------------------------------------------------------------ the reader

  /** `str.splitlines`: `cur` is the line read so far. */
  function Lines(cur: string, s: string): seq<string>
    decreases |s|
  {
    if s == "" then (if cur == "" then [] else [cur])
    else if IsBreak(s[0]) then [cur] + Lines("", if s[0] == '\r' && |s| > 1 && s[1] == '\n' then s[2..] else s[1..])
    else Lines(cur + [s[0]], s[1..])
  }

  /** Split at every pipe that no backslash stands directly before; `esc` says
      whether the previous character was a backslash. */
  function Cells(esc: bool, cur: string, s: string): seq<string>
    decreases |s|
  {
    if s == "" then [cur]
    else if s[0] == '|' && !esc then [cur] + Cells(false, "", s[1..])
    else Cells(s[0] == '\\', cur + [s[0]], s[1..])
  }

  /** `s.replace("\\|", "|")`. */
  function UnescapePipes(s: string): string {
    if s == "" then ""
    else if |s| > 1 && s[0] == '\\' && s[1] == '|' then "|" + UnescapePipes(s[2..])
    else [s[0]] + UnescapePipes(s[1..])
  }

  predicate IsTableLine(line: string) {
    var t := Trim(line);
    |t| >= 2 && t[0] == '|' && t[|t| - 1] == '|'
  }

  function RawCells(line: string): seq<string>
    requires IsTableLine(line)
  {
    var t := Trim(line);
    Cells(false, "", t[1..|t| - 1])
  }

  function ReadCell(c: string): string {
    UnescapePipes(Trim(c))
  }

  predicate AllDashes(s: string) {
    forall k :: 0 <= k < |s| ==> s[k] == '-'
  }

  predicate IsDataLine(line: string) {
    IsTableLine(line) && |RawCells(line)| == 8 &&
    var first := ReadCell(RawCells(line)[0]);
    first != "" && first != "id" && !AllDashes(first)
  }

  function FirstCell(line: string): string
    requires IsDataLine(line)
  {
    ReadCell(RawCells(line)[0])
  }

  function Ids(lines: seq<string>): set<Id> {
    set l | l in lines && IsDataLine(l) :: FirstCell(l)
  }

  function RowIds(text: string): set<Id> {
    Ids(Lines("", text))
  }

  method DigestRowIds(text: string) returns (ids: set<Id>)
    ensures ids == RowIds(text)
  {
    ids := {};
    var lines := Lines("", text);
    for i := 0 to |lines|
      invariant ids == Ids(lines[..i])
    {
      var line := lines[i];
      assert lines[..i + 1] == lines[..i] + [line];
      IdsConcat(lines[..i], [line]);
      IdsOne(line);
      if !IsTableLine(line) { continue; }
      var cells := RawCells(line);
      if |cells| != 8 { continue; }
      var first := ReadCell(cells[0]);
      if first == "" || first == "id" || AllDashes(first) { continue; }
      ids := ids + {first};
    }
    assert lines[..|lines|] == lines;
  }

  lemma IdsConcat(a: seq<string>, b: seq<string>)
    ensures Ids(a + b) == Ids(a) + Ids(b)
  {
    forall x ensures x in Ids(a + b) <==> x in Ids(a) || x in Ids(b) {
      if x in Ids(a + b) { var l :| l in a + b && IsDataLine(l) && FirstCell(l) == x; assert l in a || l in b; }
      if x in Ids(a) { var l :| l in a && IsDataLine(l) && FirstCell(l) == x; assert l in a + b; }
      if x in Ids(b) { var l :| l in b && IsDataLine(l) && FirstCell(l) == x; assert l in a + b; }
    }
  }

  lemma IdsOne(line: string)
    ensures Ids([line]) == if IsDataLine(line) then {FirstCell(line)} else {}
  {
    if IsDataLine(line) { assert line in [line]; }
  }

  // ------------------------------------------------------------ one printed cell

  ghost predicate NoBreak(s: string) {
    forall k :: 0 <= k < |s| ==> !IsBreak(s[k])
  }

  /** Printing keeps such a cell on one line. */
  ghost predicate OneLine(v: string) {
    forall k :: 0 <= k < |v| && v[k] != '\n' ==> !IsBreak(v[k])
  }

  lemma FlattenStep(c: char, s: string)
    ensures Flatten([c] + s) == [if c == '\n' then ' ' else c] + Flatten(s)
  {
    assert ([c] + s)[1..] == s;
  }

  lemma EscapeStep(c: char, s: string)
    ensures EscapePipes([c] + s) == if c == '|' then ['\\'] + (['|'] + EscapePipes(s)) else [c] + EscapePipes(s)
  {
    assert ([c] + s)[1..] == s;
  }

  lemma {:induction false} FlattenEscapeCommute(v: string)
    ensures MdCell(v) == EscapePipes(Flatten(v))
    decreases |v|
  {
    if v != "" {
      var c, rest := v[0], v[1..];
      FlattenEscapeCommute(rest);
      assert v == [c] + rest;
      hide Flatten, EscapePipes;
      EscapeStep(c, rest);
      FlattenStep(c, rest);
      EscapeStep(if c == '\n' then ' ' else c, Flatten(rest));
      if c == '|' {
        FlattenStep('\\', ['|'] + EscapePipes(rest));
        FlattenStep('|', EscapePipes(rest));
      } else {
        FlattenStep(c, EscapePipes(rest));
      }
    }
  }

  lemma {:induction false} UnescapeUndoesEscape(v: string)
    ensures UnescapePipes(EscapePipes(v)) == v
    decreases |v|
  {
    if v != "" {
      var rest := EscapePipes(v[1..]);
      UnescapeUndoesEscape(v[1..]);
      if v[0] == '|' {
        assert EscapePipes(v) == ['\\', '|'] + rest && EscapePipes(v)[2..] == rest;
      } else {
        assert EscapePipes(v) == [v[0]] + rest && EscapePipes(v)[1..] == rest;
        assert rest != "" ==> rest[0] != '|';
      }
    }
  }

  lemma {:induction false} TrimLeftEscape(v: string)
    ensures TrimLeft(EscapePipes(v)) == EscapePipes(TrimLeft(v))
    decreases |v|
  {
    if v != "" && IsSpace(v[0]) {
      assert EscapePipes(v)[1..] == EscapePipes(v[1..]);
      TrimLeftEscape(v[1..]);
    }
  }

  lemma {:induction false} TrimRightEscape(v: string)
    ensures TrimRight(EscapePipes(v)) == EscapePipes(TrimRight(v))
    decreases |v|
  {
    if v != "" {
      var n := |v| - 1;
      assert v == v[..n] + [v[n]];
      EscapePipesConcat(v[..n], [v[n]]);
      assert [v[n]][1..] == "";
      var one := EscapePipes([v[n]]);
      assert one == if v[n] == '|' then "\\|" else [v[n]];
      if IsSpace(v[n]) {
        assert EscapePipes(v)[..|EscapePipes(v)| - 1] == EscapePipes(v[..n]);
        TrimRightEscape(v[..n]);
      }
    }
  }

  /** What the reader makes of a printed cell. */
  lemma CellReadsBack(v: string)
    ensures ReadCell(" " + MdCell(v) + " ") == Trim(Flatten(v))
  {
    FlattenEscapeCommute(v);
    TrimPadded(MdCell(v));
    TrimLeftEscape(Flatten(v));
    TrimRightEscape(TrimLeft(Flatten(v)));
    UnescapeUndoesEscape(Trim(Flatten(v)));
  }

  lemma {:induction false} EscapedTextIsContent(esc: bool, cur: string, w: string, tail: string)
    ensures Cells(esc, cur, EscapePipes(w) + (" " + tail)) == Cells(false, cur + EscapePipes(w) + " ", tail)
    decreases |w|
  {
    var t := " " + tail;
    var e := EscapePipes(w);
    if w == "" {
      assert e + t == t && t[1..] == tail && cur + e + " " == cur + " ";
    } else {
      var rest := EscapePipes(w[1..]);
      if w[0] == '|' {
        var u := ['|'] + (rest + t);
        assert e + t == ['\\'] + u && (e + t)[1..] == u && u[1..] == rest + t;
        assert cur + ['\\'] + ['|'] + rest + " " == cur + e + " ";
        assert Cells(esc, cur, e + t) == Cells(true, cur + ['\\'], u) == Cells(false, cur + ['\\'] + ['|'], rest + t);
        EscapedTextIsContent(false, cur + ['\\'] + ['|'], w[1..], tail);
      } else {
        assert e + t == [w[0]] + (rest + t) && (e + t)[1..] == rest + t;
        assert cur + [w[0]] + rest + " " == cur + e + " ";
        EscapedTextIsContent(w[0] == '\\', cur + [w[0]], w[1..], tail);
      }
    }
  }

  function Padded(cells: seq<string>): (p: seq<string>)
    ensures |p| == |cells|
  {
    if cells == [] then [] else [" " + MdCell(cells[0]) + " "] + Padded(cells[1..])
  }

  lemma {:induction false} RowBodySplits(cells: seq<string>)
    requires |cells| >= 1
    ensures Cells(false, "", RowBody(cells)) == Padded(cells)
    decreases |cells|
  {
    hide MdCell, EscapePipes, Flatten;
    var w, tail := Flatten(cells[0]), if |cells| == 1 then "" else "|" + RowBody(cells[1..]);
    FlattenEscapeCommute(cells[0]);
    assert RowBody(cells) == [' '] + (EscapePipes(w) + (" " + tail));
    FirstCellReads(w, tail);
    if |cells| == 1 {
      assert Padded(cells[1..]) == [];
    } else {
      assert tail[1..] == RowBody(cells[1..]);
      RowBodySplits(cells[1..]);
    }
  }

  lemma FirstCellReads(w: string, tail: string)
    ensures Cells(false, "", [' '] + (EscapePipes(w) + (" " + tail))) == Cells(false, " " + EscapePipes(w) + " ", tail)
  {
    hide EscapePipes;
    var rest := EscapePipes(w) + (" " + tail);
    assert ([' '] + rest)[1..] == rest && "" + [' '] == " ";
    EscapedTextIsContent(false, " ", w, tail);
  }

  lemma {:induction false} PaddedAt(cells: seq<string>, k: nat)
    requires k < |cells|
    ensures Padded(cells)[k] == " " + MdCell(cells[k]) + " "
    decreases k
  {
    if k > 0 { PaddedAt(cells[1..], k - 1); }
  }

  /** A printed row always splits into the cells it was printed from: each reads
      back as the original with line breaks flattened and outer blanks removed. */
  lemma RowReadsBack(cells: seq<string>)
    requires |cells| >= 1
    ensures IsTableLine(DigestRow(cells)) && |RawCells(DigestRow(cells))| == |cells|
    ensures forall k :: 0 <= k < |cells| ==> ReadCell(RawCells(DigestRow(cells))[k]) == Trim(Flatten(cells[k]))
  {
    var row := DigestRow(cells);
    TrimShape(row);
    assert row[1..|row| - 1] == RowBody(cells);
    RowBodySplits(cells);
    forall k | 0 <= k < |cells| ensures ReadCell(Padded(cells)[k]) == Trim(Flatten(cells[k])) {
      PaddedAt(cells, k);
      CellReadsBack(cells[k]);
    }
  }

  // ------------------------------------------------------------ lines

  /** A line that ends in no break keeps its own lines when a newline follows. */
  lemma {:induction false} LinesAppend(cur: string, s: string, rest: string)
    requires s != "" && !IsBreak(s[|s| - 1])
    ensures Lines(cur, s + "\n" + rest) == Lines(cur, s) + Lines("", rest)
    decreases |s|
  {
    var all := s + "\n" + rest;
    if IsBreak(s[0]) {
      var k := if s[0] == '\r' && s[1] == '\n' then 2 else 1;
      assert all[k..] == s[k..] + "\n" + rest;
      LinesAppend("", s[k..], rest);
      assert [cur] + (Lines("", s[k..]) + Lines("", rest)) == ([cur] + Lines("", s[k..])) + Lines("", rest);
    } else if |s| == 1 {
      assert all[1..] == "\n" + rest && ("\n" + rest)[1..] == rest;
      assert s[1..] == "";
      assert Lines(cur, s) == Lines(cur + [s[0]], "") == [cur + [s[0]]];
      assert Lines(cur, all) == Lines(cur + [s[0]], "\n" + rest);
    } else {
      assert all[1..] == s[1..] + "\n" + rest;
      LinesAppend(cur + [s[0]], s[1..], rest);
    }
  }

  lemma {:induction false} UnbrokenLine(cur: string, s: string)
    requires NoBreak(s) && cur + s != ""
    ensures Lines(cur, s) == [cur + s]
    decreases |s|
  {
    if s == "" {
      assert cur + s == cur;
    } else {
      assert cur + s == (cur + [s[0]]) + s[1..];
      UnbrokenLine(cur + [s[0]], s[1..]);
    }
  }

  ghost function LineIds(lines: seq<string>): set<Id> {
    if lines == [] then {} else RowIds(lines[0]) + LineIds(lines[1..])
  }

  lemma {:induction false} LineIdsConcat(a: seq<string>, b: seq<string>)
    ensures LineIds(a + b) == LineIds(a) + LineIds(b)
    decreases |a|
  {
    if a == [] {
      assert a + b == b;
    } else {
      assert (a + b)[1..] == a[1..] + b;
      LineIdsConcat(a[1..], b);
    }
  }

  ghost predicate EndsPlain(l: string) {
    l == "" || !IsBreak(l[|l| - 1])
  }

  /** The ids of a joined text are those of its lines. */
  lemma {:induction false} RowIdsOfJoin(lines: seq<string>)
    requires forall k :: 0 <= k < |lines| ==> EndsPlain(lines[k])
    ensures RowIds(JoinLines(lines)) == LineIds(lines)
    decreases |lines|
  {
    if lines != [] {
      var l, rest := lines[0], JoinLines(lines[1..]);
      RowIdsOfJoin(lines[1..]);
      if l == "" {
        assert l + "\n" + rest == "\n" + rest && ("\n" + rest)[1..] == rest;
        assert Lines("", "\n" + rest) == [""] + Lines("", rest);
        IdsConcat([""], Lines("", rest));
        IdsOne("");
      } else {
        LinesAppend("", l, rest);
        IdsConcat(Lines("", l), Lines("", rest));
      }
    }
  }

  // ------------------------------------------------------------ broken rows

  /** How many pipes are boundaries. */
  function Cuts(esc: bool, s: string): nat
    decreases |s|
  {
    if s == "" then 0 else (if s[0] == '|' && !esc then 1 else 0) + Cuts(s[0] == '\\', s[1..])
  }

  function EscAfter(esc: bool, s: string): bool {
    if s == "" then esc else s[|s| - 1] == '\\'
  }

  lemma {:induction false} CellsCountCuts(esc: bool, cur: string, s: string)
    ensures |Cells(esc, cur, s)| == 1 + Cuts(esc, s)
    decreases |s|
  {
    if s != "" {
      if s[0] == '|' && !esc { CellsCountCuts(false, "", s[1..]); } else { CellsCountCuts(s[0] == '\\', cur + [s[0]], s[1..]); }
    }
  }

  lemma {:induction false} CutsConcat(esc: bool, a: string, b: string)
    ensures Cuts(esc, a + b) == Cuts(esc, a) + Cuts(EscAfter(esc, a), b)
    decreases |a|
  {
    if a == "" {
      assert a + b == b;
    } else {
      assert (a + b)[1..] == a[1..] + b;
      CutsConcat(a[0] == '\\', a[1..], b);
    }
  }

  lemma {:induction false} LinesCuts(cur: string, s: string, l: string)
    requires l in Lines(cur, s)
    ensures Cuts(false, l) <= Cuts(false, cur + s)
    decreases |s|
  {
    CutsConcat(false, cur, s);
    if s == "" {
      assert cur + s == cur;
    } else if IsBreak(s[0]) {
      var k := if s[0] == '\r' && |s| > 1 && s[1] == '\n' then 2 else 1;
      var rest := Lines("", s[k..]);
      assert Lines(cur, s) == [cur] + rest;
      if l != cur {
        assert l in rest;
        LinesCuts("", s[k..], l);
        assert "" + s[k..] == s[k..];
        assert s == s[..k] + s[k..];
        CutsConcat(EscAfter(false, cur), s[..k], s[k..]);
      }
    } else {
      assert cur + s == (cur + [s[0]]) + s[1..];
      LinesCuts(cur + [s[0]], s[1..], l);
    }
  }

  lemma {:induction false} LinesAroundBreak(cur: string, a: string, c: char, b: string, bound: nat, l: string)
    requires IsBreak(c) && Cuts(false, cur + a) <= bound && Cuts(false, b) <= bound
    requires l in Lines(cur, a + [c] + b)
    ensures Cuts(false, l) <= bound
    decreases |a|
  {
    var s := a + [c] + b;
    CutsConcat(false, cur, a);
    if a == "" {
      assert cur + a == cur && s[1..] == b;
      var k := if c == '\r' && |s| > 1 && s[1] == '\n' then 2 else 1;
      assert Lines(cur, s) == [cur] + Lines("", s[k..]);
      if l != cur {
        assert l in Lines("", s[k..]);
        LinesCuts("", s[k..], l);
        assert "" + s[k..] == s[k..] == b[k - 1..];
        assert b == b[..k - 1] + b[k - 1..];
        CutsConcat(false, b[..k - 1], b[k - 1..]);
      }
    } else if IsBreak(a[0]) {
      var k := if a[0] == '\r' && s[1] == '\n' then 2 else 1;
      assert Lines(cur, s) == [cur] + Lines("", s[k..]);
      if l != cur {
        assert l in Lines("", s[k..]);
        if |a| >= k {
          assert s[k..] == a[k..] + [c] + b;
          assert a == a[..k] + a[k..] && "" + a[k..] == a[k..];
          CutsConcat(EscAfter(false, cur), a[..k], a[k..]);
          LinesAroundBreak("", a[k..], c, b, bound, l);
        } else {
          assert s[k..] == b && "" + b == b;
          LinesCuts("", b, l);
        }
      }
    } else {
      assert s[1..] == a[1..] + [c] + b && cur + a == (cur + [a[0]]) + a[1..];
      LinesAroundBreak(cur + [a[0]], a[1..], c, b, bound, l);
    }
  }

  lemma PipedCuts(inner: string)
    ensures Cuts(false, "|" + inner + "|") >= 1 + Cuts(false, inner)
  {
    assert "|" + inner + "|" == ['|'] + (inner + ['|']);
    assert (['|'] + (inner + ['|']))[1..] == inner + ['|'];
    CutsConcat(false, inner, ['|']);
  }

  lemma TrimCuts(l: string)
    ensures Cuts(false, Trim(l)) <= Cuts(false, l)
  {
    var u := TrimLeft(l);
    TrimLeftShape(l);
    TrimLeftRemovesSpaces(l);
    var a := l[..|l| - |u|];
    assert l == a + u;
    CutsConcat(false, a, u);
    var t := TrimRight(u);
    TrimRightShape(u);
    assert u == t + u[|t|..];
    CutsConcat(false, t, u[|t|..]);
  }

  /** A line the reader takes for data has at least eight boundaries, its own first pipe included. */
  lemma DataLineCuts(l: string)
    requires IsDataLine(l)
    ensures Cuts(false, l) >= 8
  {
    var t := Trim(l);
    var inner := t[1..|t| - 1];
    CellsCountCuts(false, "", inner);
    assert t == "|" + inner + "|";
    PipedCuts(inner);
    TrimCuts(l);
  }

  lemma {:induction false} TrimLeftRemovesSpaces(s: string)
    ensures var u := TrimLeft(s); |u| <= |s| && forall k :: 0 <= k < |s| - |u| ==> IsSpace(s[k])
    decreases |s|
  {
    if s != "" && IsSpace(s[0]) { TrimLeftRemovesSpaces(s[1..]); }
  }

  lemma {:induction false} EscapedTextHasNoCuts(esc: bool, w: string)
    ensures Cuts(esc, EscapePipes(w)) == 0
    decreases |w|
  {
    if w != "" {
      var rest := EscapePipes(w[1..]);
      if w[0] == '|' {
        EscapedTextHasNoCuts(false, w[1..]);
        assert EscapePipes(w) == ['\\', '|'] + rest && EscapePipes(w)[1..] == ['|'] + rest && (['|'] + rest)[1..] == rest;
      } else {
        EscapedTextHasNoCuts(w[0] == '\\', w[1..]);
        assert EscapePipes(w) == [w[0]] + rest && EscapePipes(w)[1..] == rest;
      }
    }
  }

  lemma HeadCuts(v: string)
    ensures Cuts(false, " " + MdCell(v) + " ") == 0
  {
    FlattenEscapeCommute(v);
    var e := MdCell(v);
    EscapedTextHasNoCuts(false, Flatten(v));
    assert " " + e + " " == [' '] + (e + [' ']);
    CutsConcat(false, [' '], e + [' ']);
    CutsConcat(false, e, [' ']);
  }

  lemma {:induction false} RowBodyCuts(cells: seq<string>)
    requires |cells| >= 1
    ensures Cuts(false, RowBody(cells)) == |cells| - 1
    decreases |cells|
  {
    RowBodySplits(cells);
    CellsCountCuts(false, "", RowBody(cells));
  }

  /** A break inside a piece of text without boundaries, after its first character. */
  lemma BreakInHead(head: string, tail: string, j: nat) returns (a: string, c: char, b: string)
    requires Cuts(false, head) == 0 && j < |head| && IsBreak(head[j])
    ensures head + tail == a + [c] + b && c == head[j] && Cuts(false, a) == 0 && Cuts(false, b) == Cuts(false, head + tail)
  {
    a, c, b := head[..j], head[j], head[j + 1..] + tail;
    assert head == a + ([c] + head[j + 1..]);
    CutsConcat(false, a, [c] + head[j + 1..]);
    assert head + tail == a + ([c] + b) && a + ([c] + b) == a + [c] + b;
    CutsConcat(false, a, [c] + b);
    assert ([c] + b)[1..] == b;
    CutsOfHead(a, head[j + 1..], c, b);
  }

  /** A character that is no pipe and no backslash adds no boundary and hides none. */
  lemma CutsOfHead(a: string, rest: string, c: char, b: string)
    requires IsBreak(c)
    ensures Cuts(EscAfter(false, a), [c] + b) == Cuts(false, b)
  {
    assert ([c] + b)[1..] == b;
  }

  lemma BreakBehind(head: string, a: string, c: char, b: string)
    requires Cuts(false, head) == 0 && head != "" && head[|head| - 1] == ' '
    ensures head + "|" + (a + [c] + b) == (head + "|" + a) + [c] + b && Cuts(false, head + "|" + a) == 1 + Cuts(false, a)
  {
    assert head + "|" + a == head + (['|'] + a);
    CutsConcat(false, head, ['|'] + a);
    assert (['|'] + a)[1..] == a;
  }

  function PaddedCell(v: string): string {
    " " + MdCell(v) + " "
  }

  lemma RowBodyStep(cells: seq<string>)
    requires |cells| >= 1
    ensures RowBody(cells) == PaddedCell(cells[0]) + if |cells| == 1 then "" else "|" + RowBody(cells[1..])
    ensures |cells| > 1 ==> RowBody(cells) == PaddedCell(cells[0]) + "|" + RowBody(cells[1..])
    ensures PaddedCell(cells[0])[|PaddedCell(cells[0])| - 1] == ' '
  {
    hide MdCell;
  }

  /** Where a cell holds a line break, the printed text falls apart into a part
      with that many boundaries and a part with the rest. */
  lemma {:induction false} BreakInBody(cells: seq<string>, k: nat) returns (a: string, c: char, b: string)
    requires k < |cells| && !OneLine(cells[k])
    ensures RowBody(cells) == a + [c] + b && IsBreak(c)
    ensures Cuts(false, a) == k && Cuts(false, b) == |cells| - 1 - k
    decreases k
  {
    hide RowBody, Cuts, IsBreak, OneLine, MdCell;
    var head := PaddedCell(cells[0]);
    HeadCuts(cells[0]);
    RowBodyStep(cells);
    if k == 0 {
      var j := BreakInCell(cells[0]);
      a, c, b := BreakInHead(head, if |cells| == 1 then "" else "|" + RowBody(cells[1..]), j + 1);
      RowBodyCuts(cells);
    } else {
      a, c, b := BreakInBody(cells[1..], k - 1);
      BreakBehind(head, a, c, b);
      a := head + "|" + a;
    }
  }

  lemma BreakInCell(v: string) returns (j: nat)
    requires !OneLine(v)
    ensures j < |MdCell(v)| && IsBreak(MdCell(v)[j])
  {
    FlattenEscapeCommute(v);
    FlattenAt(v);
    var k :| 0 <= k < |v| && v[k] != '\n' && IsBreak(v[k]);
    j := EscapeKeeps(Flatten(v), k);
  }

  lemma {:induction false} FlattenAt(v: string)
    ensures |Flatten(v)| == |v| && forall k :: 0 <= k < |v| ==> Flatten(v)[k] == if v[k] == '\n' then ' ' else v[k]
    decreases |v|
  {
    if v != "" { FlattenAt(v[1..]); }
  }

  lemma {:induction false} EscapeKeeps(w: string, k: nat) returns (j: nat)
    requires k < |w| && w[k] != '|'
    ensures j < |EscapePipes(w)| && EscapePipes(w)[j] == w[k]
    decreases k
  {
    if k == 0 {
      j := 0;
    } else {
      j := EscapeKeeps(w[1..], k - 1);
      j := j + if w[0] == '|' then 2 else 1;
    }
  }

  /** A row in which a middle cell holds a line break gives the reader no id at all. */
  lemma BrokenRowIsLost(cells: seq<string>, k: nat)
    requires |cells| == 8 && 1 <= k <= 6 && !OneLine(cells[k])
    ensures RowIds(DigestRow(cells)) == {}
  {
    var a, c, b := BreakInBody(cells, k);
    var row := DigestRow(cells);
    assert row == (['|'] + a) + [c] + (b + ['|']);
    CutsConcat(false, ['|'], a);
    assert Cuts(false, ['|']) == 1 + Cuts(false, "");
    CutsConcat(false, b, ['|']);
    forall l | l in Lines("", row) ensures !IsDataLine(l) {
      assert "" + (['|'] + a) == ['|'] + a;
      LinesAroundBreak("", ['|'] + a, c, b + ['|'], 7, l);
      if IsDataLine(l) { DataLineCuts(l); }
    }
  }

  // ------------------------------------------------------------ whole digests

  predicate IsIdChar(c: char) {
    'A' <= c <= 'Z' || 'a' <= c <= 'z' || '0' <= c <= '9' || c == '_' || c == '-'
  }

  predicate SafeId(id: Id) {
    1 <= |id| <= 128 && (forall k :: 0 <= k < |id| ==> IsIdChar(id[k])) && id[0] != '_' && id[0] != '-'
  }

  lemma {:induction false} ShowIntIsPlain(n: int)
    ensures NoBreak(ShowInt(n)) && ShowInt(n) != ""
  {
    ShowNatIsPlain(if n < 0 then -n else n);
  }

  lemma {:induction false} ShowNatIsPlain(n: nat)
    ensures NoBreak(ShowNat(n)) && ShowNat(n) != ""
    decreases n
  {
    if n >= 10 { ShowNatIsPlain(n / 10); }
  }

  /** All free text of a recorded dry-run stays on its line. */
  ghost predicate Unbroken(d: DryRun) {
    OneLine(d.date) && OneLine(d.title) && OneLine(d.home) && OneLine(d.created) && OneLine(d.kept) && OneLine(d.classification)
  }

  lemma {:induction false} OneLinePrints(cells: seq<string>)
    requires |cells| >= 1 && forall k :: 0 <= k < |cells| ==> OneLine(cells[k])
    ensures NoBreak(RowBody(cells))
    decreases |cells|
  {
    MdCellPrints(cells[0]);
    if |cells| > 1 { OneLinePrints(cells[1..]); }
  }

  lemma MdCellPrints(v: string)
    requires OneLine(v)
    ensures NoBreak(MdCell(v))
  {
    FlattenEscapeCommute(v);
    FlattenAt(v);
    EscapePrints(Flatten(v));
  }

  lemma {:induction false} EscapePrints(w: string)
    requires NoBreak(w)
    ensures NoBreak(EscapePipes(w))
    decreases |w|
  {
    if w != "" { EscapePrints(w[1..]); }
  }

  lemma SafeIdReads(id: Id)
    requires SafeId(id)
    ensures OneLine(id) && Trim(Flatten(id)) == id && !AllDashes(id)
  {
    FlattenAt(id);
    assert Flatten(id) == id;
    TrimShape(id);
    assert id[0] != '-';
  }

  /** One row of the table: its id is read back exactly when no cell is broken. */
  lemma EntryRowIds(id: Id, d: DryRun)
    requires SafeId(id)
    ensures EndsPlain(EntryRow(id, d)) && RowIds(EntryRow(id, d)) == if Unbroken(d) && id != "id" then {id} else {}
  {
    var cells := EntryCells(id, d);
    var row := DigestRow(cells);
    SafeIdReads(id);
    if d.exit.Some? { ShowIntIsPlain(d.exit.value); }
    if Unbroken(d) {
      OneLinePrints(cells);
      UnbrokenLine("", row);
      assert "" + row == row;
      RowReadsBack(cells);
      IdsOne(row);
    } else {
      var k := if !OneLine(d.date) then 1 else if !OneLine(d.title) then 2 else if !OneLine(d.home) then 3
               else if !OneLine(d.created) then 4 else if !OneLine(d.kept) then 5 else 6;
      BrokenRowIsLost(cells, k);
    }
  }

  lemma PlainLineHasNoId(l: string)
    requires NoBreak(l) && l != "" && !IsSpace(l[0]) && l[0] != '|'
    ensures RowIds(l) == {}
  {
    UnbrokenLine("", l);
    assert "" + l == l;
    TrimLeftShape(l);
    TrimRightShape(l);
    IdsOne(l);
  }

  /** A line whose first cell is `---` gives no id. */
  lemma RuleHasNoId(l: string)
    requires NoBreak(l) && |l| >= 6 && l[..5] == "|---|" && l[|l| - 1] == '|'
    ensures RowIds(l) == {}
  {
    UnbrokenLine("", l);
    assert "" + l == l;
    TrimShape(l);
    var s := l[1..|l| - 1];
    FirstOfRule(s);
    TrimShape("---");
    DashesStay("---");
    IdsOne(l);
  }

  lemma {:induction false} DashesStay(s: string)
    requires AllDashes(s)
    ensures UnescapePipes(s) == s
    decreases |s|
  {
    if s != "" { DashesStay(s[1..]); }
  }

  lemma FirstOfRule(s: string)
    requires |s| >= 4 && s[0] == s[1] == s[2] == '-' && s[3] == '|'
    ensures var cells := Cells(false, "", s); |cells| >= 1 && cells[0] == "---"
  {
    var s1, s2, s3 := s[1..], s[2..], s[3..];
    assert s1[1..] == s2 && s2[1..] == s3;
    assert Cells(false, "", s) == Cells(false, "" + ['-'], s1);
    assert Cells(false, "" + ['-'], s1) == Cells(false, "" + ['-'] + ['-'], s2);
    assert Cells(false, "" + ['-'] + ['-'], s2) == Cells(false, "" + ['-'] + ['-'] + ['-'], s3);
    assert "" + ['-'] + ['-'] + ['-'] == "---";
  }

  /** A printed row whose first cell is the header word gives no id. */
  lemma HeaderWordHasNoId(cells: seq<string>)
    requires |cells| >= 1 && cells[0] == "id" && forall k :: 0 <= k < |cells| ==> OneLine(cells[k])
    ensures GivesNoId(DigestRow(cells))
  {
    hide Lines, RowBody;
    var row := DigestRow(cells);
    OneLinePrints(cells);
    UnbrokenLine("", row);
    assert "" + row == row;
    RowReadsBack(cells);
    SafeIdReads(cells[0]);
    IdsOne(row);
  }

  lemma {:induction false} RulePrints(n: nat)
    requires n >= 1
    ensures NoBreak(Rule(n)) && |Rule(n)| == 4 * n && Rule(n)[..4] == "---|" && Rule(n)[|Rule(n)| - 1] == '|'
    decreases n
  {
    if n > 1 { RulePrints(n - 1); }
  }

  ghost predicate PlainHeader(h: Header) {
    && NoBreak(h.title) && NoBreak(h.status) && (forall ok, failed :: NoBreak(h.stats(ok, failed)))
    && |h.columns| == 8 && h.columns[0] == "id" && forall k :: 0 <= k < |h.columns| ==> OneLine(h.columns[k])
  }

  ghost predicate GivesNoId(l: string) {
    EndsPlain(l) && RowIds(l) == {}
  }

  lemma HeadLinesGiveNoId(h: Header, ok: nat, failed: nat)
    requires PlainHeader(h)
    ensures forall k :: 0 <= k < |HeadLines(h, ok, failed)| ==> GivesNoId(HeadLines(h, ok, failed)[k])
  {
    hide RowIds, DigestRow, Rule, IsBreak, EndsPlain, NoBreak, OneLine;
    assert NoBreak(h.stats(ok, failed));
    CaptionGivesNoId("# ", h.title);
    CaptionGivesNoId("kind: ", h.stats(ok, failed));
    CaptionGivesNoId("status: ", h.status);
    EmptyGivesNoId();
    HeaderWordHasNoId(h.columns);
    RuleLineGivesNoId(8);
  }

  lemma EmptyGivesNoId()
    ensures GivesNoId("")
  {
    assert Lines("", "") == [];
  }

  lemma CaptionGivesNoId(caption: string, rest: string)
    requires caption in {"# ", "kind: ", "status: "} && NoBreak(rest)
    ensures GivesNoId(caption + rest)
  {
    hide RowIds;
    PlainLineHasNoId(caption + rest);
  }

  lemma RuleLineGivesNoId(n: nat)
    requires n >= 2
    ensures GivesNoId("|" + Rule(n))
  {
    hide Rule, RowIds;
    RulePrints(n);
    assert ("|" + Rule(n))[..5] == "|---|";
    RuleHasNoId("|" + Rule(n));
  }

  lemma {:induction false} NoIdLines(lines: seq<string>)
    requires forall k :: 0 <= k < |lines| ==> GivesNoId(lines[k])
    ensures LineIds(lines) == {}
    decreases |lines|
  {
    if lines != [] {
      assert GivesNoId(lines[0]);
      NoIdLines(lines[1..]);
    }
  }

  /** The row of this entry reaches the reader: no free text leaves its line,
      and the id is not the header word. */
  ghost predicate Readable(e: Entry) {
    e.dry.Some? && Unbroken(e.dry.value) && e.id != "id"
  }

  ghost function ReadableIds(entries: seq<Entry>): set<Id> {
    set e | e in entries && Readable(e) :: e.id
  }

  lemma ReadableIdsStep(e: Entry, rest: seq<Entry>)
    ensures ReadableIds([e] + rest) == (if Readable(e) then {e.id} else {}) + ReadableIds(rest)
  {
    assert e in [e] + rest;
    assert forall x :: x in rest ==> x in [e] + rest;
  }

  lemma {:induction false} TableRowIds(entries: seq<Entry>)
    requires forall e :: e in entries ==> SafeId(e.id)
    ensures LineIds(TableRows(entries)) == ReadableIds(entries)
    ensures forall k :: 0 <= k < |TableRows(entries)| ==> EndsPlain(TableRows(entries)[k])
    decreases |entries|
  {
    if entries != [] {
      var e, rest := entries[0], entries[1..];
      assert e in entries;
      TableRowIds(rest);
      assert entries == [e] + rest;
      ReadableIdsStep(e, rest);
      if e.dry.Some? { EntryRowIds(e.id, e.dry.value); }
    }
  }

  /** The signer reads back from a published digest exactly the ids of the
      attempted meetings whose rows are readable. */
  lemma ReaderRecoversIds(h: Header, entries: seq<Entry>)
    requires PlainHeader(h) && forall e :: e in entries ==> SafeId(e.id)
    ensures RowIds(Digest(h, entries)) == ReadableIds(entries)
  {
    var head, rows := HeadLines(h, Tally(entries, true), Tally(entries, false)), TableRows(entries);
    HeadLinesGiveNoId(h, Tally(entries, true), Tally(entries, false));
    TableRowIds(entries);
    NoIdLines(head);
    forall k | 0 <= k < |head + rows| ensures EndsPlain((head + rows)[k]) {
      if k < |head| { assert GivesNoId(head[k]); }
    }
    RowIdsOfJoin(head + rows);
    LineIdsConcat(head, rows);
  }

  ghost function AttemptedIds(entries: seq<Entry>): set<Id> {
    set e | e in entries && e.dry.Some? :: e.id
  }

  /** So it recovers every attempted id exactly when every attempted row is readable. */
  lemma AllIdsRecoveredIff(h: Header, entries: seq<Entry>)
    requires PlainHeader(h) && forall e :: e in entries ==> SafeId(e.id)
    requires forall i, j :: 0 <= i < j < |entries| ==> entries[i].id != entries[j].id
    ensures RowIds(Digest(h, entries)) == AttemptedIds(entries) <==> forall e :: e in entries && e.dry.Some? ==> Readable(e)
  {
    ReaderRecoversIds(h, entries);
    ReadableIff(entries);
  }

  lemma ReadableIff(entries: seq<Entry>)
    requires forall i, j :: 0 <= i < j < |entries| ==> entries[i].id != entries[j].id
    ensures ReadableIds(entries) == AttemptedIds(entries) <==> forall e :: e in entries && e.dry.Some? ==> Readable(e)
  {
    if ReadableIds(entries) == AttemptedIds(entries) {
      forall e | e in entries && e.dry.Some? ensures Readable(e) {
        assert e.id in AttemptedIds(entries);
        var f :| f in entries && Readable(f) && f.id == e.id;
        var i :| 0 <= i < |entries| && entries[i] == e;
        var j :| 0 <= j < |entries| && entries[j] == f;
        assert i == j;
      }
    }
  }
}
