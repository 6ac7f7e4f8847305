/** What a reader sees in a printed digest: the counts in its header, one row for every
    attempted meeting in order, and in each cell of a row its own field. */
module DigestShows {
  import opened Common
  import opened Text
  import opened DigestTable

  // ------------------------------------------------------------ the counts

  predicate Passed(e: Entry) { e.dry.Some? && e.dry.value.exit == Some(0) }

  predicate Fell(e: Entry) { e.dry.Some? && e.dry.value.exit != Some(0) }

  ghost function Where(es: seq<Entry>, p: Entry -> bool): set<int> {
    set i | 0 <= i < |es| && p(es[i])
  }

  lemma WhereGrows(a: seq<Entry>, e: Entry, p: Entry -> bool)
    ensures |Where(a + [e], p)| == |Where(a, p)| + if p(e) then 1 else 0
  {
    assert Where(a + [e], p) == Where(a, p) + if p(e) then {|a|} else {};
  }

  lemma {:induction false} TallyAppend(a: seq<Entry>, e: Entry, success: bool)
    ensures Tally(a + [e], success) == Tally(a, success) + if e.dry.Some? && (e.dry.value.exit == Some(0)) == success then 1 else 0
    decreases |a|
  {
    if a == [] {
      assert [e][1..] == [] && a + [e] == [e];
    } else {
      assert (a + [e])[1..] == a[1..] + [e];
      TallyAppend(a[1..], e, success);
    }
  }

  lemma {:induction false} TallyIs(es: seq<Entry>)
    ensures Tally(es, true) == |Where(es, Passed)| && Tally(es, false) == |Where(es, Fell)|
    decreases |es|
  {
    if es == [] {
      assert Where(es, Passed) == {} && Where(es, Fell) == {};
    } else {
      var n := |es| - 1;
      TallyIs(es[..n]);
      TallyAppend(es[..n], es[n], true);
      TallyAppend(es[..n], es[n], false);
      WhereGrows(es[..n], es[n], Passed);
      WhereGrows(es[..n], es[n], Fell);
      assert es == es[..n] + [es[n]];
      assert Passed(es[n]) <==> es[n].dry.Some? && (es[n].dry.value.exit == Some(0)) == true;
      assert Fell(es[n]) <==> es[n].dry.Some? && (es[n].dry.value.exit == Some(0)) == false;
      hide *;
    }
  }

  /** The header words how many meetings ended with exit 0 and how many with anything
      else, and the table follows it. */
  lemma HeaderCounts(h: Header, es: seq<Entry>)
    requires |h.columns| >= 1
    ensures Digest(h, es) ==
      JoinLines(["# " + h.title, "", "kind: " + h.stats(|Where(es, Passed)|, |Where(es, Fell)|), "status: " + h.status, "",
                 DigestRow(h.columns), "|" + Rule(|h.columns|)] + TableRows(es))
  {
    TallyIs(es);
    hide JoinLines, TableRows, DigestRow, Rule, Tally, Where;
  }

  // ------------------------------------------------------------ the rows

  ghost predicate Increasing(at: seq<nat>) {
    forall j, k :: 0 <= j < k < |at| ==> at[j] < at[k]
  }

  /** Row `k` shows entry `at[k]`, and every attempted entry has its row. */
  ghost predicate Shown(es: seq<Entry>, rows: seq<string>, at: seq<nat>) {
    && |at| == |rows| && Increasing(at)
    && (forall k :: 0 <= k < |at| ==> at[k] < |es| && es[at[k]].dry.Some? && rows[k] == EntryRow(es[at[k]].id, es[at[k]].dry.value))
    && (forall i :: 0 <= i < |es| && es[i].dry.Some? ==> i in at)
  }

  lemma {:induction false} TableAppend(a: seq<Entry>, e: Entry)
    ensures TableRows(a + [e]) == TableRows(a) + if e.dry.Some? then [EntryRow(e.id, e.dry.value)] else []
    decreases |a|
  {
    hide EntryRow;
    if a == [] {
      assert [e][1..] == [] && a + [e] == [e];
    } else {
      assert (a + [e])[1..] == a[1..] + [e];
      TableAppend(a[1..], e);
    }
  }

  /** One row for every attempted meeting, in the order of the entries. */
  lemma {:induction false} AttemptedAreShown(es: seq<Entry>) returns (at: seq<nat>)
    ensures Shown(es, TableRows(es), at)
    decreases |es|
  {
    if es == [] {
      at := [];
    } else {
      var n := |es| - 1;
      var front := AttemptedAreShown(es[..n]);
      TableAppend(es[..n], es[n]);
      assert es == es[..n] + [es[n]];
      hide *;
      at := OneMoreShown(es[..n], es[n], TableRows(es[..n]), front);
    }
  }

  lemma OneMoreShown(a: seq<Entry>, e: Entry, rows: seq<string>, front: seq<nat>) returns (at: seq<nat>)
    requires Shown(a, rows, front)
    ensures Shown(a + [e], rows + (if e.dry.Some? then [EntryRow(e.id, e.dry.value)] else []), at)
  {
    at := if e.dry.Some? then front + [|a|] else front;
    var more := rows + (if e.dry.Some? then [EntryRow(e.id, e.dry.value)] else []);
    hide EntryRow;
    IncreasingMore(front, |a|);
    forall k | 0 <= k < |at| ensures at[k] < |a + [e]| && (a + [e])[at[k]].dry.Some? && more[k] == EntryRow((a + [e])[at[k]].id, (a + [e])[at[k]].dry.value) {
      if k < |front| { assert at[k] == front[k] && (a + [e])[front[k]] == a[front[k]] && more[k] == rows[k]; }
    }
    hide Increasing;
    forall i | 0 <= i < |a + [e]| && (a + [e])[i].dry.Some? ensures i in at { OneMorePlace(a, e, front, at, i); }
  }

  lemma IncreasingMore(front: seq<nat>, n: nat)
    requires Increasing(front) && forall k :: 0 <= k < |front| ==> front[k] < n
    ensures Increasing(front + [n])
  {}

  lemma OneMorePlace(a: seq<Entry>, e: Entry, front: seq<nat>, at: seq<nat>, i: int)
    requires (forall i :: 0 <= i < |a| && a[i].dry.Some? ==> i in front) && at == if e.dry.Some? then front + [|a|] else front
    requires 0 <= i < |a + [e]| && (a + [e])[i].dry.Some?
    ensures i in at
  {
    if i == |a| { assert at[|at| - 1] == |a|; }
  }

  // ------------------------------------------------------------ the cells

  /** What the reader makes of cell `k` of a line. */
  function CellOf(line: string, k: nat): string
    requires IsTableLine(line) && k < |RawCells(line)|
  {
    ReadCell(RawCells(line)[k])
  }

  /** Line breaks flattened, outer blanks removed. */
  function Cleaned(s: string): string { Trim(Flatten(s)) }

  /** Every cell of a printed row reads back as its own field. */
  lemma RowShowsFields(id: Id, d: DryRun)
    ensures var row := EntryRow(id, d);
      IsTableLine(row) && |RawCells(row)| == 8
      && CellOf(row, 0) == Cleaned(id) && CellOf(row, 1) == Cleaned(d.date) && CellOf(row, 2) == Cleaned(d.title) && CellOf(row, 3) == Cleaned(d.home)
      && CellOf(row, 4) == Cleaned(d.created) && CellOf(row, 5) == Cleaned(d.kept) && CellOf(row, 6) == Cleaned(d.classification)
      && (d.exit.Some? ==> IsNumber(CellOf(row, 7), d.exit.value)) && (d.exit.None? ==> CellOf(row, 7) == "")
  {
    hide *;
    CellsAre(id, d);
    RowCellsRead(EntryCells(id, d), EntryRow(id, d));
    if d.exit.Some? { ShownNumber(d.exit.value); } else { EmptyCell(); }
  }

  lemma CellsAre(id: Id, d: DryRun)
    ensures EntryRow(id, d) == DigestRow(EntryCells(id, d))
    ensures var c := EntryCells(id, d);
      && |c| == 8 && c[0] == id && c[1] == d.date && c[2] == d.title && c[3] == d.home && c[4] == d.created
      && c[5] == d.kept && c[6] == d.classification && c[7] == if d.exit.Some? then ShowInt(d.exit.value) else ""
  {
    hide DigestRow, ShowInt;
  }

  lemma RowCellsRead(cells: seq<string>, row: string)
    requires |cells| == 8 && row == DigestRow(cells)
    ensures IsTableLine(row) && |RawCells(row)| == 8
    ensures CellOf(row, 0) == Cleaned(cells[0]) && CellOf(row, 1) == Cleaned(cells[1]) && CellOf(row, 2) == Cleaned(cells[2]) && CellOf(row, 3) == Cleaned(cells[3])
    ensures CellOf(row, 4) == Cleaned(cells[4]) && CellOf(row, 5) == Cleaned(cells[5]) && CellOf(row, 6) == Cleaned(cells[6]) && CellOf(row, 7) == Cleaned(cells[7])
  {
    RowReadsBack(cells);
    hide DigestRow, RawCells, ReadCell, Trim, Flatten, IsTableLine;
  }

  lemma EmptyCell()
    ensures Cleaned("") == ""
  {}

  /** The number a string of digits stands for. */
  function Read(s: string): int {
    if s == "" then 0 else 10 * Read(s[..|s| - 1]) + (s[|s| - 1] as int - '0' as int)
  }

  /** `s` is this number in decimal, a minus sign before its digits if it is negative. */
  ghost predicate IsNumber(s: string, n: int) {
    s != "" && var digits := if s[0] == '-' then s[1..] else s;
    digits != "" && (forall k :: 0 <= k < |digits| ==> '0' <= digits[k] <= '9') && n == if s[0] == '-' then -Read(digits) else Read(digits)
  }

  lemma {:induction false} DigitsShown(n: nat)
    ensures ShowNat(n) != "" && (forall k :: 0 <= k < |ShowNat(n)| ==> '0' <= ShowNat(n)[k] <= '9') && Read(ShowNat(n)) == n
  {
    if n >= 10 {
      DigitsShown(n / 10);
      assert ShowNat(n)[..|ShowNat(n)| - 1] == ShowNat(n / 10);
    } else {
      assert ShowNat(n)[..0] == "";
    }
  }

  lemma {:induction false} NothingToClean(s: string)
    requires forall k :: 0 <= k < |s| ==> s[k] != '\n' && !IsSpace(s[k])
    ensures Flatten(s) == s
  {
    if s != "" { NothingToClean(s[1..]); }
  }

  ghost predicate AllDigits(s: string) {
    forall k :: 0 <= k < |s| ==> '0' <= s[k] <= '9'
  }

  lemma Signed(digits: string, n: int)
    requires digits != "" && AllDigits(digits) && Read(digits) == n
    ensures IsNumber(digits, n) && IsNumber("-" + digits, -n)
    ensures forall k :: 0 <= k < |"-" + digits| ==> ("-" + digits)[k] == '-' || '0' <= ("-" + digits)[k] <= '9'
  {
    hide Read;
    assert ("-" + digits)[1..] == digits;
  }

  lemma SignedShown(n: int)
    ensures IsNumber(ShowInt(n), n) && forall k :: 0 <= k < |ShowInt(n)| ==> ShowInt(n)[k] == '-' || '0' <= ShowInt(n)[k] <= '9'
  {
    var m := if n < 0 then -n else n;
    DigitsShown(m);
    Signed(ShowNat(m), m);
    hide ShowNat, Read, IsNumber;
  }

  lemma ShownNumber(n: int)
    ensures Cleaned(ShowInt(n)) == ShowInt(n) && IsNumber(ShowInt(n), n)
  {
    SignedShown(n);
    hide ShowInt, IsNumber;
    var s := ShowInt(n);
    NothingToClean(s);
    TrimShape(s);
  }
}
