/** Markdown table rows: two readers that split a row on unescaped pipes (one
    consumes each backslash with its successor, one counts the parity of a
    backslash run), and the writer whose rows they read. */
module RowCells {
  import opened Common
  import opened Text

  /** Length of the run of backslashes that ends just before position `k`. */
  ghost function RunBefore(s: string, k: nat): nat
    requires k <= |s|
  {
    if k == 0 || s[k - 1] != '\\' then 0 else 1 + RunBefore(s, k - 1)
  }

  /** A pipe is a cell boundary exactly when an even run of backslashes precedes it. */
  ghost predicate IsCut(s: string, k: nat)
    requires k < |s|
  {
    s[k] == '|' && RunBefore(s, k) % 2 == 0
  }

  ghost predicate NoCut(s: string) {
    forall k :: 0 <= k < |s| ==> !IsCut(s, k)
  }

  /** The cells of `s` from `start` on, knowing there is no boundary in `s[start..k]`. */
  ghost function Cells(s: string, start: nat, k: nat): (cells: seq<string>)
    requires start <= k <= |s|
    ensures |cells| >= 1
    decreases |s| - k
  {
    if k == |s| then [s[start..]]
    else if IsCut(s, k) then [s[start..k]] + Cells(s, k + 1, k + 1)
    else Cells(s, start, k + 1)
  }

  ghost function Split(s: string): seq<string> {
    Cells(s, 0, 0)
  }

  // ------------------------------------------------------------ the two splitters

  /** The pair-consuming splitter. */
  method SplitRowCells(text: string) returns (cells: seq<string>)
    ensures cells == Split(text)
  {
    cells := [];
    var current := "";
    var i, n := 0, |text|;
    ghost var start := 0;
    while i < n
      invariant 0 <= start <= i <= n && current == text[start..i]
      invariant i < n ==> RunBefore(text, i) % 2 == 0
      invariant cells + Cells(text, start, i) == Split(text)
    {
      var ch := text[i];
      if ch == '\\' && i + 1 < n {
        current := current + [ch] + [text[i + 1]];
        assert !IsCut(text, i) && RunBefore(text, i + 1) == RunBefore(text, i) + 1;
        assert Cells(text, start, i) == Cells(text, start, i + 1) == Cells(text, start, i + 2);
        i := i + 2;
      } else if ch == '|' {
        assert IsCut(text, i);
        assert cells + ([current] + Cells(text, i + 1, i + 1)) == (cells + [current]) + Cells(text, i + 1, i + 1);
        cells := cells + [current];
        current := "";
        i := i + 1;
        start := i;
      } else {
        current := current + [ch];
        i := i + 1;
      }
    }
    assert text[start..] == current;
    cells := cells + [current];
  }

  /** The parity-counting splitter. */
  method SplitUnescapedPipes(row: string) returns (cells: seq<string>)
    ensures cells == Split(row)
  {
    hide Cells;
    cells := [];
    var cur := "";
    var backslashes := 0;
    ghost var start := 0;
    for i := 0 to |row|
      invariant start <= i && cur == row[start..i]
      invariant backslashes == RunBefore(row, i)
      invariant cells + Cells(row, start, i) == Split(row)
    {
      var ch := row[i];
      CellsStep(row, start, i);
      SliceGrows(row, start, i);
      if ch == '\\' {
        backslashes := backslashes + 1;
        cur := cur + [ch];
        continue;
      }
      if ch == '|' && backslashes % 2 == 0 {
        assert cells + ([cur] + Cells(row, i + 1, i + 1)) == (cells + [cur]) + Cells(row, i + 1, i + 1);
        cells := cells + [cur];
        cur := "";
        start := i + 1;
      } else {
        cur := cur + [ch];
      }
      backslashes := 0;
    }
    CellsEnd(row, start);
    assert row[start..] == cur;
    cells := cells + [cur];
  }

  lemma SliceGrows(s: string, start: nat, i: nat)
    requires start <= i < |s|
    ensures s[start..i + 1] == s[start..i] + [s[i]]
  {}

  // ------------------------------------------------------------ splitting a concatenation

  lemma {:induction false} RunOfPrefix(a: string, b: string, k: nat)
    requires k <= |a|
    ensures RunBefore(a + b, k) == RunBefore(a, k)
    decreases k
  {
    if k > 0 { RunOfPrefix(a, b, k - 1); }
  }

  lemma {:induction false} RunOfSuffix(a: string, b: string, k: nat)
    requires k <= |b| && RunBefore(a, |a|) == 0
    ensures RunBefore(a + b, |a| + k) == RunBefore(b, k)
    decreases k
  {
    if k > 0 { RunOfSuffix(a, b, k - 1); } else { RunOfPrefix(a, b, |a|); }
  }

  lemma CellsStep(s: string, start: nat, k: nat)
    requires start <= k < |s|
    ensures IsCut(s, k) ==> Cells(s, start, k) == [s[start..k]] + Cells(s, k + 1, k + 1)
    ensures !IsCut(s, k) ==> Cells(s, start, k) == Cells(s, start, k + 1)
  {
    hide IsCut;
  }

  lemma CellsEnd(s: string, start: nat)
    requires start <= |s|
    ensures Cells(s, start, |s|) == [s[start..]]
  {}

  lemma SameSlice(a: string, b: string, start: nat, k: nat)
    requires start <= k <= |b|
    ensures (a + b)[|a| + start..|a| + k] == b[start..k]
    ensures (a + b)[|a| + start..] == b[start..]
  {}

  lemma {:induction false} CellsOfSuffix(a: string, b: string, start: nat, k: nat)
    requires start <= k <= |b| && RunBefore(a, |a|) == 0
    ensures Cells(a + b, |a| + start, |a| + k) == Cells(b, start, k)
    decreases |b| - k
  {
    hide Cells, RunBefore;
    SameSlice(a, b, start, k);
    if k == |b| {
      CellsEnd(b, start);
      CellsEnd(a + b, |a| + start);
    } else {
      RunOfSuffix(a, b, k);
      CellsStep(b, start, k);
      CellsStep(a + b, |a| + start, |a| + k);
      if IsCut(b, k) { CellsOfSuffix(a, b, k + 1, k + 1); } else { CellsOfSuffix(a, b, start, k + 1); }
    }
  }

  lemma {:induction false} CellsBeforeDelimiter(p: string, rest: string, start: nat, k: nat)
    requires start <= k <= |p| && RunBefore(p, |p|) % 2 == 0
    ensures Cells(p + "|" + rest, start, k) == Cells(p, start, k) + Split(rest)
    decreases |p| - k
  {
    var s := p + "|" + rest;
    assert s == p + ("|" + rest);
    RunOfPrefix(p, "|" + rest, k);
    if k == |p| {
      assert s[start..k] == p[start..];
      CellsOfSuffix(p + "|", rest, 0, 0);
    } else {
      assert s[start..k] == p[start..k];
      if IsCut(p, k) {
        CellsBeforeDelimiter(p, rest, k + 1, k + 1);
        assert [p[start..k]] + (Cells(p, k + 1, k + 1) + Split(rest)) == ([p[start..k]] + Cells(p, k + 1, k + 1)) + Split(rest);
      } else {
        CellsBeforeDelimiter(p, rest, start, k + 1);
      }
    }
  }

  /** A pipe after an even run of backslashes splits a row into the cells of its two sides. */
  lemma SplitAtDelimiter(p: string, rest: string)
    requires RunBefore(p, |p|) % 2 == 0
    ensures Split(p + "|" + rest) == Split(p) + Split(rest)
  {
    CellsBeforeDelimiter(p, rest, 0, 0);
  }

  /** A pipe after an odd run is content: it joins the last cell of the left side. */
  lemma {:induction false} EscapedPipeIsContent(p: string, start: nat, k: nat)
    requires start <= k <= |p| && RunBefore(p, |p|) % 2 == 1
    ensures var cs := Cells(p, start, k);
      Cells(p + "|", start, k) == cs[..|cs| - 1] + [cs[|cs| - 1] + "|"]
    decreases |p| - k
  {
    hide Cells, RunBefore;
    var s := p + "|";
    RunOfPrefix(p, "|", k);
    CellsStep(s, start, k);
    if k == |p| {
      CellsEnd(s, start);
      CellsEnd(p, start);
      assert s[start..] == p[start..] + "|";
    } else {
      CellsStep(p, start, k);
      assert s[start..k] == p[start..k];
      if IsCut(p, k) {
        EscapedPipeIsContent(p, k + 1, k + 1);
        LastAfterFirst(p[start..k], Cells(p, k + 1, k + 1));
      } else {
        EscapedPipeIsContent(p, start, k + 1);
      }
    }
  }

  lemma LastAfterFirst(c: string, cs: seq<string>)
    requires |cs| >= 1
    ensures var all := [c] + cs; all[..|all| - 1] == [c] + cs[..|cs| - 1] && all[|all| - 1] == cs[|cs| - 1]
  {}

  lemma {:induction false} NoCutIsOneCell(s: string, k: nat)
    requires k <= |s|
    ensures |Cells(s, 0, k)| == 1 <==> forall j :: k <= j < |s| ==> !IsCut(s, j)
    ensures |Cells(s, 0, k)| == 1 ==> Cells(s, 0, k) == [s]
    decreases |s| - k
  {
    if k < |s| && !IsCut(s, k) { NoCutIsOneCell(s, k + 1); }
  }

  // ------------------------------------------------------------ rows as the two readers see them

  /** What one reader does: drop the outer pipes, then split. */
  ghost function InnerCells(row: string): seq<string>
    requires |row| >= 2
  {
    Split(row[1..|row| - 1])
  }

  /** What the other does: split the whole row, then drop the first and last cell. */
  ghost function OuterCells(row: string): seq<string> {
    var cells := Split(row);
    if |cells| < 2 then [] else cells[1..|cells| - 1]
  }

  /** The readers see the same cells in a piped row exactly when its closing
      pipe is not itself escaped. */
  lemma ReadersAgreeOnRow(row: string)
    requires |row| >= 2 && row[0] == '|' && row[|row| - 1] == '|'
    ensures InnerCells(row) == OuterCells(row) <==> IsCut(row, |row| - 1)
  {
    var inner := row[1..|row| - 1];
    assert row == "" + "|" + (inner + "|");
    SplitAtDelimiter("", inner + "|");
    assert Split("") == [""];
    assert row == "|" + (inner + "|");
    RunOfSuffix("|", inner + "|", |inner|);
    RunOfPrefix(inner, "|", |inner|);
    if RunBefore(inner, |inner|) % 2 == 0 {
      SplitAtDelimiter(inner, "");
      assert inner + "|" + "" == inner + "|";
      assert Split(row) == [""] + Split(inner) + [""];
      assert ([""] + Split(inner) + [""])[1..|Split(inner)| + 1] == Split(inner);
    } else {
      EscapedPipeIsContent(inner, 0, 0);
      assert |OuterCells(row)| == |Split(inner)| - 1;
    }
  }

  // ------------------------------------------------------------ unescaping

  function Unescape(s: string): string {
    if s == "" then ""
    else if s[0] == '\\' && |s| > 1 && (s[1] == '\\' || s[1] == '|') then [s[1]] + Unescape(s[2..])
    else [s[0]] + Unescape(s[1..])
  }

  method UnescapePipeCell(text: string) returns (out: string)
    ensures out == Unescape(text)
  {
    out := "";
    var i, n := 0, |text|;
    while i < n
      invariant 0 <= i <= n && out + Unescape(text[i..]) == Unescape(text)
    {
      var ch := text[i];
      if ch == '\\' && i + 1 < n && (text[i + 1] == '\\' || text[i + 1] == '|') {
        assert text[i..][2..] == text[i + 2..];
        assert out + ([text[i + 1]] + Unescape(text[i + 2..])) == (out + [text[i + 1]]) + Unescape(text[i + 2..]);
        out := out + [text[i + 1]];
        i := i + 2;
        continue;
      }
      assert text[i..][1..] == text[i + 1..];
      assert out + ([ch] + Unescape(text[i + 1..])) == (out + [ch]) + Unescape(text[i + 1..]);
      out := out + [ch];
      i := i + 1;
    }
    assert out + Unescape(text[n..]) == out;
  }

  // ------------------------------------------------------------ the writer

  /** The writer's cell escaping: every pipe, then a leading `#`, `-` or `|`. */
  function EscapeTableCell(s: string): string {
    var e := EscapePipes(s);
    if e != "" && (e[0] == '#' || e[0] == '-' || e[0] == '|') then "\\" + e else e
  }

  function RowBody(cells: seq<string>): string
    requires |cells| >= 1
  {
    var head := " " + EscapeTableCell(cells[0]) + " ";
    if |cells| == 1 then head else head + "|" + RowBody(cells[1..])
  }

  function RenderRow(cells: seq<string>): string
    requires |cells| == 5
  {
    "|" + RowBody(cells) + "|"
  }

  // ------------------------------------------------------------ the reader

  function ReadCell(c: string): string {
    Unescape(Trim(c))
  }

  ghost function ReadCells(cells: seq<string>): (out: seq<string>)
    ensures |out| == |cells|
  {
    if cells == [] then [] else [ReadCell(cells[0])] + ReadCells(cells[1..])
  }

  predicate IsHeader(item: string) {
    |item| == 4 && (item[0] == 'i' || item[0] == 'I') && (item[1] == 't' || item[1] == 'T')
    && (item[2] == 'e' || item[2] == 'E') && (item[3] == 'm' || item[3] == 'M')
  }

  /** That is the word in any mix of cases. */
  lemma HeaderWord(item: string)
    ensures IsHeader(item) <==> |item| == 4 && forall k :: 0 <= k < 4 ==> item[k] == "item"[k] || item[k] == "ITEM"[k]
  {}

  /** One line of an Open Items section: the five cells of a row, if it is one. */
  ghost function OpenRow(line: string): Option<seq<string>> {
    var row := Trim(line);
    if |row| < 2 || row[0] != '|' || row[|row| - 1] != '|' then None
    else if |InnerCells(row)| != 5 then None
    else if IsHeader(ReadCells(InnerCells(row))[0]) then None
    else Some(ReadCells(InnerCells(row)))
  }

  // ------------------------------------------------------------ when reading undoes writing

  /** No backslash stands before a backslash or a pipe. */
  ghost predicate PlainBackslashes(s: string) {
    forall k :: 0 <= k < |s| - 1 && s[k] == '\\' ==> s[k + 1] != '\\' && s[k + 1] != '|'
  }

  /** What the writer's escaping can carry through the reader. */
  ghost predicate Faithful(s: string) {
    Trimmed(s) && PlainBackslashes(s) && (s == "" || (s[0] != '#' && s[0] != '-'))
  }

  lemma {:induction false} UnescapeNotLonger(s: string)
    ensures |Unescape(EscapePipes(s))| <= |s|
    decreases |s|
  {
    if s == "" {
    } else if s[0] == '|' {
      var rest := EscapePipes(s[1..]);
      assert EscapePipes(s) == ['\\', '|'] + rest && EscapePipes(s)[2..] == rest;
      UnescapeNotLonger(s[1..]);
    } else if s[0] == '\\' && |s| > 1 && s[1] == '\\' {
      EscapeTwo(s);
      UnescapeNotLonger(s[2..]);
    } else if s[0] == '\\' && |s| > 1 && s[1] == '|' {
      EscapeTwo(s);
      var rest := EscapePipes(s[2..]);
      assert EscapePipes(s)[2..] == ['|'] + rest && (['|'] + rest)[1..] == rest;
      UnescapeNotLonger(s[2..]);
    } else {
      assert EscapePipes(s)[1..] == EscapePipes(s[1..]);
      UnescapeNotLonger(s[1..]);
    }
  }

  lemma EscapeTwo(s: string)
    requires |s| > 1 && s[0] == '\\' && (s[1] == '\\' || s[1] == '|')
    ensures EscapePipes(s) == (if s[1] == '\\' then ['\\', '\\'] else ['\\', '\\', '|']) + EscapePipes(s[2..])
  {
    assert s[1..][1..] == s[2..];
    assert EscapePipes(s) == [s[0]] + EscapePipes(s[1..]);
  }

  /** Position by position, escaping pipes is undone exactly when every escaped
      pipe stays escaped and no two backslashes meet. */
  lemma {:induction false} UnescapeUndoesPipes(s: string)
    ensures PlainBackslashes(s) ==> Unescape(EscapePipes(s)) == s
    ensures !PlainBackslashes(s) && NoCut(EscapePipes(s)) ==> Unescape(EscapePipes(s)) != s
    decreases |s|
  {
    if s == "" {
    } else if s[0] == '|' {
      var rest := EscapePipes(s[1..]);
      assert EscapePipes(s) == ['\\', '|'] + rest && EscapePipes(s)[2..] == rest;
      UnescapeUndoesPipes(s[1..]);
      PlainTail(s);
      NoCutTail(['\\', '|'], rest);
    } else if s[0] == '\\' && |s| > 1 && s[1] == '\\' {
      assert !PlainBackslashes(s);
      EscapeTwo(s);
      UnescapeNotLonger(s[2..]);
    } else if s[0] == '\\' && |s| > 1 && s[1] == '|' {
      EscapeTwo(s);
      var e := EscapePipes(s);
      assert RunBefore(e, 2) == 2 by { assert RunBefore(e, 1) == 1 && RunBefore(e, 0) == 0; }
      assert IsCut(e, 2);
    } else {
      var rest := EscapePipes(s[1..]);
      assert EscapePipes(s) == [s[0]] + rest && EscapePipes(s)[1..] == rest;
      UnescapeUndoesPipes(s[1..]);
      PlainTail(s);
      if s[0] != '\\' { NoCutTail([s[0]], rest); } else { NoCutAfterBackslash(s); }
      EscapeHead(s[1..]);
    }
  }

  /** The first escaped character tells the first character. */
  lemma EscapeHead(s: string)
    ensures s == "" <==> EscapePipes(s) == ""
    ensures s != "" ==> EscapePipes(s)[0] == if s[0] == '|' then '\\' else s[0]
  {}

  lemma PlainTail(s: string)
    requires s != ""
    ensures PlainBackslashes(s) <==> PlainBackslashes(s[1..]) && !(s[0] == '\\' && |s| > 1 && (s[1] == '\\' || s[1] == '|'))
  {
    assert forall k :: 0 <= k < |s| - 1 ==> s[1..][k] == s[k + 1];
    if PlainBackslashes(s[1..]) && !(s[0] == '\\' && |s| > 1 && (s[1] == '\\' || s[1] == '|')) {
      forall k | 0 <= k < |s| - 1 && s[k] == '\\' ensures s[k + 1] != '\\' && s[k + 1] != '|' {
        if k > 0 { assert s[1..][k - 1] == '\\'; }
      }
    }
  }

  lemma NoCutTail(a: string, b: string)
    requires NoCut(a) && RunBefore(a, |a|) == 0
    ensures NoCut(a + b) <==> NoCut(b)
  {
    var s := a + b;
    forall k | 0 <= k < |b| ensures IsCut(s, |a| + k) <==> IsCut(b, k) { RunOfSuffix(a, b, k); }
    if NoCut(b) {
      forall k | 0 <= k < |s| ensures !IsCut(s, k) {
        if k < |a| { RunOfPrefix(a, b, k); assert !IsCut(a, k); } else { assert IsCut(s, |a| + (k - |a|)) <==> IsCut(b, k - |a|); }
      }
    }
    if NoCut(s) { forall k | 0 <= k < |b| ensures !IsCut(b, k) { assert !IsCut(s, |a| + k); } }
  }

  /** A backslash before an ordinary character changes no boundary after it. */
  lemma NoCutAfterBackslash(s: string)
    requires s != "" && s[0] == '\\' && !(|s| > 1 && (s[1] == '\\' || s[1] == '|'))
    ensures NoCut(EscapePipes(s)) <==> NoCut(EscapePipes(s[1..]))
  {
    var e := EscapePipes(s);
    if |s| == 1 {
      assert EscapePipes(s[1..]) == "" && e == "\\";
    } else {
      var c := s[1];
      var rest := EscapePipes(s[2..]);
      assert s[1..][1..] == s[2..];
      assert EscapePipes(s[1..]) == [c] + rest;
      assert e == ['\\', c] + rest;
      BackslashedChar(c, rest);
    }
  }

  lemma BackslashedChar(c: char, rest: string)
    requires c != '\\' && c != '|'
    ensures NoCut(['\\', c] + rest) <==> NoCut([c] + rest)
  {
    NoCutTail(['\\', c], rest);
    NoCutTail([c], rest);
  }

  lemma {:induction false} PlainNeverCuts(s: string)
    requires PlainBackslashes(s)
    ensures NoCut(EscapePipes(s))
    decreases |s|
  {
    if s != "" {
      var rest := EscapePipes(s[1..]);
      PlainTail(s);
      PlainNeverCuts(s[1..]);
      if s[0] == '|' {
        assert EscapePipes(s) == ['\\', '|'] + rest;
        assert RunBefore(['\\', '|'], 1) == 1 by { assert RunBefore(['\\', '|'], 0) == 0; }
        NoCutTail(['\\', '|'], rest);
      } else if s[0] == '\\' {
        NoCutAfterBackslash(s);
      } else {
        NoCutTail([s[0]], rest);
      }
    }
  }

  lemma {:induction false} EscapeEnds(s: string)
    requires s != ""
    ensures var e := EscapePipes(s); e != "" && e[|e| - 1] == s[|s| - 1]
    decreases |s|
  {
    if |s| > 1 { EscapeEnds(s[1..]); }
  }

  /** A leading backslash put before `#` or `-` is never taken away again. */
  lemma LeadingEscapeSurvives(s: string)
    requires s != "" && (s[0] == '#' || s[0] == '-')
    ensures EscapeTableCell(s) == "\\" + EscapePipes(s) && Unescape(EscapeTableCell(s)) != s
    ensures NoCut(EscapeTableCell(s)) <==> NoCut(EscapePipes(s))
  {
    var rest := EscapePipes(s[1..]);
    assert EscapePipes(s) == [s[0]] + rest;
    assert EscapeTableCell(s) == ['\\', s[0]] + rest;
    NoCutTail(['\\', s[0]], rest);
    NoCutTail([s[0]], rest);
  }

  lemma EscapedCellSplits(s: string)
    ensures Split(" " + EscapeTableCell(s) + " ") == [" " + EscapeTableCell(s) + " "] <==> NoCut(EscapeTableCell(s))
    ensures |Split(" " + EscapeTableCell(s) + " ")| == 1 <==> NoCut(EscapeTableCell(s))
  {
    var e := EscapeTableCell(s);
    var p := " " + e + " ";
    NoCutIsOneCell(p, 0);
    NoCutTail(" ", e + " ");
    assert p == " " + (e + " ");
    forall k | 0 <= k < |e| ensures IsCut(e + " ", k) <==> IsCut(e, k) { RunOfPrefix(e, " ", k); }
    assert NoCut(e + " ") <==> NoCut(e) by {
      if NoCut(e) { forall k | 0 <= k < |e| + 1 ensures !IsCut(e + " ", k) {} }
      if NoCut(e + " ") { forall k | 0 <= k < |e| ensures !IsCut(e, k) { assert !IsCut(e + " ", k); } }
    }
  }

  /** One cell survives the writer and the reader exactly when it is faithful. */
  lemma CellSurvives(s: string)
    ensures NoCut(EscapeTableCell(s)) && ReadCell(" " + EscapeTableCell(s) + " ") == s <==> Faithful(s)
  {
    var e := EscapeTableCell(s);
    TrimPadded(e);
    TrimShape(e);
    EscapeHead(s);
    if s != "" {
      EscapeEnds(s);
      if s[0] == '#' || s[0] == '-' {
        LeadingEscapeSurvives(s);
        if Trimmed(s) { assert Trim(e) == e; } else { TrimmedOutput(Trim(e)); }
      } else {
        UnescapeUndoesPipes(s);
        if Trimmed(s) {
          assert Trim(e) == e;
          if PlainBackslashes(s) { PlainNeverCuts(s); }
        } else {
          TrimmedOutput(Trim(e));
        }
      }
    }
  }

  /** Unescaping trimmed text gives trimmed text. */
  lemma {:induction false} TrimmedOutput(t: string)
    ensures t != "" ==> Unescape(t) != "" && Unescape(t)[|Unescape(t)| - 1] == t[|t| - 1]
    ensures Trimmed(t) ==> Trimmed(Unescape(t))
    decreases |t|
  {
    if t == "" {
    } else if t[0] == '\\' && |t| > 1 && (t[1] == '\\' || t[1] == '|') {
      if |t| > 2 { TrimmedOutput(t[2..]); }
    } else {
      if |t| > 1 { TrimmedOutput(t[1..]); }
    }
  }

  // ------------------------------------------------------------ whole rows

  ghost predicate AllSurvive(cells: seq<string>) {
    forall k :: 0 <= k < |cells| ==> Faithful(cells[k])
  }

  lemma SurviveStep(cells: seq<string>)
    requires cells != []
    ensures AllSurvive(cells) <==> Faithful(cells[0]) && AllSurvive(cells[1..])
  {
    hide Faithful;
    var rest := cells[1..];
    assert forall k :: 0 <= k < |rest| ==> rest[k] == cells[k + 1];
    if Faithful(cells[0]) && AllSurvive(rest) {
      forall k | 0 <= k < |cells| ensures Faithful(cells[k]) { if k > 0 { assert cells[k] == rest[k - 1]; } }
    }
  }

  lemma ReadCons(c: string, tail: seq<string>)
    ensures ReadCells([c] + tail) == [ReadCell(c)] + ReadCells(tail)
  {
    assert ([c] + tail)[1..] == tail;
  }

  /** A row whose first printed cell splits into `parts` and whose others into `tail`. */
  lemma RowReadsIff(first: string, rest: seq<string>, head: string, parts: seq<string>, tail: seq<string>)
    requires |parts| >= 1 && (|parts| == 1 ==> parts == [head]) && |tail| >= |rest|
    ensures |parts + tail| >= 1 + |rest|
    ensures |parts + tail| == 1 + |rest| && ReadCells(parts + tail) == [first] + rest <==>
      (|parts| == 1 && ReadCell(head) == first) && (|tail| == |rest| && ReadCells(tail) == rest)
  {
    hide ReadCell;
    if |parts + tail| == 1 + |rest| {
      ReadCons(head, tail);
      var got, want := [ReadCell(head)] + ReadCells(tail), [first] + rest;
      if got == want { assert got[0] == want[0] && got[1..] == want[1..]; assert got[1..] == ReadCells(tail) && want[1..] == rest; }
    }
  }

  function Printed(cell: string): string {
    " " + EscapeTableCell(cell) + " "
  }

  lemma PrintedEndsPlain(cell: string)
    ensures RunBefore(Printed(cell), |Printed(cell)|) == 0
  {}

  lemma RowBodyStep(cells: seq<string>)
    requires |cells| >= 1
    ensures |cells| == 1 ==> RowBody(cells) == Printed(cells[0])
    ensures |cells| > 1 ==> RowBody(cells) == Printed(cells[0]) + "|" + RowBody(cells[1..])
    ensures cells == [cells[0]] + cells[1..]
  {}

  /** A printed row splits into at least as many cells as were printed; it
      splits into exactly those and reads back exactly when every cell is faithful. */
  lemma {:induction false} RowBodySplits(cells: seq<string>)
    requires |cells| >= 1
    ensures var out := Split(RowBody(cells));
      |out| >= |cells| && (|out| == |cells| && ReadCells(out) == cells <==> AllSurvive(cells))
    decreases |cells|
  {
    hide Cells, RowBody, ReadCells, ReadCell, RunBefore, NoCut, Faithful, AllSurvive, EscapeTableCell;
    var head, rest := Printed(cells[0]), cells[1..];
    CellSurvives(cells[0]);
    EscapedCellSplits(cells[0]);
    RowBodyStep(cells);
    SurviveStep(cells);
    var parts := Split(head);
    if |cells| == 1 {
      NothingElse(rest);
      assert parts + [] == parts;
      RowReadsIff(cells[0], rest, head, parts, []);
    } else {
      PrintedEndsPlain(cells[0]);
      SplitAtDelimiter(head, RowBody(rest));
      RowBodySplits(rest);
      RowReadsIff(cells[0], rest, head, parts, Split(RowBody(rest)));
    }
  }

  lemma NothingElse(rest: seq<string>)
    requires |rest| == 0
    ensures rest == [] && ReadCells([]) == [] && AllSurvive(rest)
  {}

  /** Reading back a printed row gives its five cells exactly when every cell is
      faithful and the first is not the header word. */
  lemma RowRoundTrip(cells: seq<string>)
    requires |cells| == 5
    ensures OpenRow(RenderRow(cells)) == Some(cells) <==> AllSurvive(cells) && !IsHeader(cells[0])
  {
    var row := RenderRow(cells);
    TrimShape(row);
    assert row[1..|row| - 1] == RowBody(cells);
    RowBodySplits(cells);
  }

  // ------------------------------------------------------------ the escaping that always works

  function EscapeFully(s: string): string {
    if s == "" then ""
    else (if s[0] == '\\' || s[0] == '|' then ['\\', s[0]] else [s[0]]) + EscapeFully(s[1..])
  }

  lemma {:induction false} EscapeFullyCarries(s: string)
    ensures Unescape(EscapeFully(s)) == s
    ensures RunBefore(EscapeFully(s), |EscapeFully(s)|) % 2 == 0
    ensures Split(EscapeFully(s)) == [EscapeFully(s)]
    decreases |s|
  {
    var e := EscapeFully(s);
    NoCutIsOneCell(e, 0);
    EscapeFullyNoCut(s, "");
    assert "" + e == e;
    UnescapeFully(s);
  }

  lemma {:induction false} UnescapeFully(s: string)
    ensures Unescape(EscapeFully(s)) == s
    decreases |s|
  {
    if s != "" {
      var rest := EscapeFully(s[1..]);
      UnescapeFully(s[1..]);
      if s[0] == '\\' || s[0] == '|' { assert EscapeFully(s)[2..] == rest; } else { assert EscapeFully(s)[1..] == rest; }
    }
  }

  /** After any prefix that ends in an even run, fully escaped text adds no boundary. */
  lemma {:induction false} EscapeFullyNoCut(s: string, p: string)
    requires NoCut(p) && RunBefore(p, |p|) % 2 == 0
    ensures NoCut(p + EscapeFully(s)) && RunBefore(p + EscapeFully(s), |p + EscapeFully(s)|) % 2 == 0
    decreases |s|
  {
    if s == "" {
      assert p + EscapeFully(s) == p;
    } else {
      var unit := if s[0] == '\\' || s[0] == '|' then ['\\', s[0]] else [s[0]];
      var q := p + unit;
      assert EscapeFully(s) == unit + EscapeFully(s[1..]);
      hide *;
      UnitKeeps(p, unit);
      EscapeFullyNoCut(s[1..], q);
      assert p + (unit + EscapeFully(s[1..])) == q + EscapeFully(s[1..]);
    }
  }

  lemma UnitKeeps(p: string, unit: string)
    requires NoCut(p) && RunBefore(p, |p|) % 2 == 0
    requires (|unit| == 1 && unit[0] != '\\' && unit[0] != '|') || (|unit| == 2 && unit[0] == '\\')
    requires |unit| == 2 ==> unit[1] == '\\' || unit[1] == '|'
    ensures NoCut(p + unit) && RunBefore(p + unit, |p + unit|) % 2 == 0
  {
    var q := p + unit;
    RunOfPrefix(p, unit, |p|);
    assert |unit| == 2 ==> RunBefore(q, |p| + 1) == RunBefore(q, |p|) + 1;
    forall k | 0 <= k < |q| ensures !IsCut(q, k) {
      if k < |p| { RunOfPrefix(p, unit, k); assert !IsCut(p, k); }
    }
  }

  function JoinFully(cells: seq<string>): string
    requires |cells| >= 1
  {
    if |cells| == 1 then EscapeFully(cells[0]) else EscapeFully(cells[0]) + "|" + JoinFully(cells[1..])
  }

  /** Split, trim and unescape undo the join of any fully escaped, trimmed cells. */
  lemma {:induction false} SplitUndoesJoin(cells: seq<string>)
    requires |cells| >= 1 && forall k :: 0 <= k < |cells| ==> Trimmed(cells[k])
    ensures ReadCells(Split(JoinFully(cells))) == cells
    decreases |cells|
  {
    var e := EscapeFully(cells[0]);
    EscapeFullyCarries(cells[0]);
    TrimmedEscape(cells[0]);
    TrimShape(e);
    assert ReadCell(e) == cells[0];
    if |cells| == 1 {
      assert ReadCells([e]) == [ReadCell(e)] == cells;
    } else {
      SplitAtDelimiter(e, JoinFully(cells[1..]));
      SplitUndoesJoin(cells[1..]);
      var tail := Split(JoinFully(cells[1..]));
      assert ([e] + tail)[1..] == tail;
      assert ReadCells([e] + tail) == [ReadCell(e)] + ReadCells(tail);
      assert cells == [cells[0]] + cells[1..];
    }
  }

  lemma {:induction false} TrimmedEscape(s: string)
    ensures s != "" ==> EscapeFully(s) != "" && EscapeFully(s)[|EscapeFully(s)| - 1] == s[|s| - 1]
    ensures Trimmed(s) ==> Trimmed(EscapeFully(s))
    decreases |s|
  {
    if |s| > 1 { TrimmedEscape(s[1..]); }
  }
}
