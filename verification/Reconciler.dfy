/** Reconcile as the program runs it, on a collection read page by page and
    changed batch by batch. */
module Reconciler {
  import opened Common
  import opened Reconcile
  import opened ReconcileTheorems

  function Min(a: nat, b: nat): nat { if a < b then a else b }

  datatype Entry = Entry(ids: seq<Id>, hashes: set<Hash>)

  /** The index grouped by source, sources in order of first appearance. */
  datatype IndexState = IndexState(order: seq<Source>, entries: map<Source, Entry>)

  function AddRow(state: IndexState, r: Row): IndexState {
    if r.source.None? then state
    else
      var s := r.source.value;
      var e := if s in state.entries then state.entries[s] else Entry([], {});
      IndexState(if s in state.entries then state.order else state.order + [s],
                 state.entries[s := Entry(e.ids + [r.id], e.hashes + {r.hash})])
  }

  function Group(rows: seq<Row>): IndexState {
    if rows == [] then IndexState([], map[]) else AddRow(Group(rows[..|rows| - 1]), rows[|rows| - 1])
  }

  lemma {:induction false} GroupOrder(rows: seq<Row>)
    ensures Group(rows).order == Sources(rows) && forall s :: s in Group(rows).entries <==> s in Sources(rows)
    decreases |rows|
  {
    if rows != [] { GroupOrder(rows[..|rows| - 1]); }
  }

  /** Each group holds the ids of its source in order, and its hashes. */
  lemma {:induction false} GroupEntry(rows: seq<Row>, s: Source)
    ensures var g := Group(rows).entries; (if s in g then g[s] else Entry([], {})) == Entry(IdsOf(rows, s), HashesOf(rows, s))
    decreases |rows|
  {
    if rows != [] {
      var a, r := rows[..|rows| - 1], rows[|rows| - 1];
      assert rows == a + [r];
      GroupEntry(a, s);
      OneMoreRow(a, r, s);
    }
  }

  class Collection {
    var rows: seq<Row>
    var done: map<Source, Hash>

    constructor (w: World)
      ensures State() == w
    {
      rows, done := w.rows, w.done;
    }

    function State(): World reads this { World(rows, done) }

    /** One bounded read. */
    method Get(limit: nat, offset: nat) returns (page: seq<Row>)
      ensures page == rows[Min(offset, |rows|)..Min(offset + limit, |rows|)]
    {
      page := rows[Min(offset, |rows|)..Min(offset + limit, |rows|)];
    }

    /** Pages until an empty or a short one. */
    method GetAllRows() returns (all: seq<Row>)
      ensures all == rows
    {
      all := [];
      var offset := 0;
      while true
        invariant offset % PageSize == 0 && offset <= |rows| && all == rows[..offset]
        decreases |rows| - offset
      {
        var page := Get(PageSize, offset);
        if page == [] { break; }
        all := all + page;
        if |page| < PageSize { break; }
        offset := offset + PageSize;
      }
    }

    /** Group the rows by source. */
    method CollectIndexState() returns (state: IndexState)
      ensures state == Group(rows)
    {
      var all := GetAllRows();
      state := IndexState([], map[]);
      for i := 0 to |all|
        invariant state == Group(all[..i])
      {
        var r := all[i];
        assert all[..i + 1][..i] == all[..i];
        if r.source.None? { continue; }
        var s := r.source.value;
        if s !in state.entries { state := IndexState(state.order + [s], state.entries[s := Entry([], {})]); }
        var e := state.entries[s];
        state := state.(entries := state.entries[s := Entry(e.ids + [r.id], e.hashes + {r.hash})]);
      }
      assert all[..|all|] == all;
    }

    /** Delete ids in bounded batches, going on after a batch that fails. */
    method DeleteIdsInBatches(ids: seq<Id>, ok: nat -> bool) returns (succeeded: bool)
      modifies this`rows
      ensures rows == AfterBatches(old(rows), ids, ok, 0)
      ensures succeeded <==> AllBatches(ids, ok, 0)
    {
      succeeded := true;
      var start, batch := 0, 0;
      while start < |ids|
        invariant start <= |ids|
        invariant AfterBatches(rows, ids[start..], ok, batch) == AfterBatches(old(rows), ids, ok, 0)
        invariant succeeded && AllBatches(ids[start..], ok, batch) <==> AllBatches(ids, ok, 0)
      {
        var n := Min(BatchSize, |ids| - start);
        assert ids[start..][..n] == ids[start..start + n] && ids[start..][n..] == ids[start + n..];
        if ok(batch) { rows := Without(rows, ids[start..start + n]); } else { succeeded := false; }
        start, batch := start + n, batch + 1;
      }
    }

    /** Store the chunks of a file one by one until done or until it raises. */
    method IngestFile(env: Env, s: Source, h: Hash) returns (ok: bool)
      modifies this`rows
      ensures ok <==> env.ingestFails(s).None?
      ensures rows == Ingest(env, old(rows), s, h, 0,
                match env.ingestFails(s) case None => env.chunks(s, h) case Some(k) => Min(k, env.chunks(s, h)))
    {
      ok := env.ingestFails(s).None?;
      var n := if ok then env.chunks(s, h) else Min(env.ingestFails(s).value, env.chunks(s, h));
      for i := 0 to n
        invariant Ingest(env, rows, s, h, i, n) == Ingest(env, old(rows), s, h, 0, n)
      {
        if !HasId(rows, env.chunkId(s, i)) { rows := rows + [Row(env.chunkId(s, i), Some(s), h)]; }
      }
    }

    method DeleteSource(env: Env, index: seq<Row>, s: Source, ids: seq<Id>) returns (ok: bool)
      requires ids == IdsOf(index, s)
      modifies this`rows
      ensures rows == DeleteOne(env, index, s, old(rows))
      ensures ok <==> DeleteSucceeds(env, index, s)
    {
      ok := DeleteIdsInBatches(ids, (k: nat) => env.deleteOk(s, k));
    }

    /** Delete every listed source; returns which deletes went through entirely. */
    method DeleteSources(env: Env, index: seq<Row>, list: seq<Source>, entries: map<Source, Entry>) returns (deleted: map<Source, bool>, failures: nat)
      requires forall s :: s in list ==> s in entries && entries[s].ids == IdsOf(index, s)
      modifies this`rows
      ensures rows == DeletePhase(env, index, list, old(rows))
      ensures forall s :: s in list ==> s in deleted && deleted[s] == DeleteSucceeds(env, index, s)
      ensures failures == 0 <==> forall j :: 0 <= j < |list| ==> DeleteSucceeds(env, index, list[j])
    {
      deleted, failures := map[], 0;
      for i := 0 to |list|
        invariant DeletePhase(env, index, list[i..], rows) == DeletePhase(env, index, list, old(rows))
        invariant forall j :: 0 <= j < i ==> list[j] in deleted && deleted[list[j]] == DeleteSucceeds(env, index, list[j])
        invariant failures == 0 <==> forall j :: 0 <= j < i ==> DeleteSucceeds(env, index, list[j])
      {
        var s := list[i];
        assert list[i..][1..] == list[i + 1..] && s in list;
        var ok := DeleteSource(env, index, s, entries[s].ids);
        deleted := deleted[s := ok];
        if !ok { failures := failures + 1; }
      }
    }

    /** Ingest one file past the checkpoint. */
    method IngestPastCheckpoint(env: Env, s: Source, h: Hash) returns (ok: bool)
      modifies this
      ensures State() == old(IngestOne(env, State(), s, h))
      ensures ok <==> old(!IngestFailed(env, done, s, h))
    {
      if s in done && done[s] == h { return true; }
      ok := IngestFile(env, s, h);
      if ok { done := done[s := h]; }
    }

    method IngestSources(env: Env, d: Disk, ghost index: seq<Row>, todo: set<Source>) returns (failures: nat)
      requires Scanned(env, d) && forall s :: s in d.hash ==> (s in todo <==> ToIngest(env, d, index, s))
      modifies this
      ensures State() == old(IngestPhase(env, d, index, d.order, State()))
      ensures failures == 0 <==> old(forall j :: 0 <= j < |d.order| && d.order[j] in todo ==> !IngestFailed(env, done, d.order[j], d.hash[d.order[j]]))
    {
      assert d.order[0..] == d.order;
      hide IngestPhase, IngestOne, IngestFailed, ToIngest;
      ghost var start := State();
      failures := 0;
      for i := 0 to |d.order|
        invariant forall j :: i <= j < |d.order| ==> SameEntry(done, start.done, d.order[j])
        invariant IngestPhase(env, d, index, d.order[i..], State()) == IngestPhase(env, d, index, d.order, start)
        invariant failures == 0 <==> forall j :: 0 <= j < i && d.order[j] in todo ==> !IngestFailed(env, start.done, d.order[j], d.hash[d.order[j]])
      {
        var s := d.order[i];
        assert s in d.order && SameEntry(done, start.done, s);
        IngestPhaseStep(env, d, index, i, State());
        FailsAlike(env, done, start.done, s, d.hash[s]);
        if s in todo {
          OtherEntriesStay(env, d, start.done, i, State());
          var ok := IngestPastCheckpoint(env, s, d.hash[s]);
          if !ok { failures := failures + 1; }
        }
      }
      NothingLeft(env, d, index, State());
    }

    /** Read the index, classify it, delete what is stale; returns the sources to
        ingest and the number of sources whose delete failed. */
    method DeleteStale(env: Env, d: Disk) returns (todo: set<Source>, failures: nat)
      requires Scanned(env, d)
      modifies this`rows
      ensures rows == old(DeletePhase(env, rows, ToDelete(env, d, rows), rows))
      ensures forall s :: s in d.hash ==> (s in todo <==> ToIngest(env, d, old(rows), s))
      ensures failures == 0 <==> AllDeletesSucceed(env, d, old(rows))
    {
      var index := rows;
      var state := CollectIndexState();
      GroupOrder(index);
      var changed, removed, ignored := ClassifySources(env, d, index, state);
      var list := changed + removed + ignored;
      forall s | s in list ensures s in state.entries && state.entries[s].ids == IdsOf(index, s) {
        ListedIsIndexed(env, d, index, s);
        GroupEntry(index, s);
      }
      var deleted;
      deleted, failures := DeleteSources(env, index, list, state.entries);
      todo := (set s | s in d.order && s !in state.order) + set s | s in changed && s in deleted && deleted[s];
      forall s | s in d.hash ensures s in todo <==> ToIngest(env, d, index, s) { ChangedIsListed(env, d, index, s); }
    }

    method ReconcileCollection(env: Env, d: Disk)
      requires Scanned(env, d)
      modifies this
      ensures State() == old(Run(env, d, State()))
    {
      ghost var start := State();
      var todo, failures := DeleteStale(env, d);
      var failed := IngestSources(env, d, start.rows, todo);
      CleanIff(env, d, start, todo);
      if failures == 0 && failed == 0 { done := map[]; }
    }
  }

  lemma NothingLeft(env: Env, d: Disk, index: seq<Row>, w: World)
    requires Scanned(env, d)
    ensures IngestPhase(env, d, index, d.order[|d.order|..], w) == w
  {}

  lemma IngestPhaseStep(env: Env, d: Disk, index: seq<Row>, i: nat, w: World)
    requires Scanned(env, d) && i < |d.order|
    ensures d.order[i] in d.order && d.order[i] in d.hash
    ensures IngestPhase(env, d, index, d.order[i..], w) ==
      IngestPhase(env, d, index, d.order[i + 1..], if ToIngest(env, d, index, d.order[i]) then IngestOne(env, w, d.order[i], d.hash[d.order[i]]) else w)
  {
    hide ToIngest, IngestOne;
    assert d.order[i] in d.order && d.order[i..][1..] == d.order[i + 1..];
  }

  lemma FailsAlike(env: Env, a: map<Source, Hash>, b: map<Source, Hash>, s: Source, h: Hash)
    requires SameEntry(a, b, s)
    ensures IngestFailed(env, a, s, h) <==> IngestFailed(env, b, s, h)
  {}

  /** Ingesting one file leaves the checkpoint entries of the later ones alone. */
  lemma OtherEntriesStay(env: Env, d: Disk, entries: map<Source, Hash>, i: nat, w: World)
    requires Scanned(env, d) && i < |d.order| && forall j :: i <= j < |d.order| ==> SameEntry(w.done, entries, d.order[j])
    ensures d.order[i] in d.order && forall j :: i < j < |d.order| ==> SameEntry(IngestOne(env, w, d.order[i], d.hash[d.order[i]]).done, entries, d.order[j])
  {
    hide Ingest;
    assert d.order[i] in d.order;
  }

  ghost predicate AllDeletesSucceed(env: Env, d: Disk, index: seq<Row>) {
    var list := ToDelete(env, d, index);
    forall j :: 0 <= j < |list| ==> DeleteSucceeds(env, index, list[j])
  }

  ghost predicate SameEntry(a: map<Source, Hash>, b: map<Source, Hash>, s: Source) {
    (s in a <==> s in b) && (s in a ==> a[s] == b[s])
  }

  method ClassifySources(env: Env, d: Disk, index: seq<Row>, state: IndexState)
    returns (changed: seq<Source>, removed: seq<Source>, ignored: seq<Source>)
    requires state == Group(index)
    ensures changed == Select(env, d, index, Sources(index), Changed) && removed == Select(env, d, index, Sources(index), Removed)
    ensures ignored == Select(env, d, index, Sources(index), Ignored)
  {
    changed, removed, ignored := [], [], [];
    GroupOrder(index);
    assert forall c :: Select(env, d, index, [], c) == [];
    hide Classify, Group, Sources, Select;
    var order := state.order;
    for i := 0 to |order|
      invariant changed == Select(env, d, index, order[..i], Changed)
      invariant removed == Select(env, d, index, order[..i], Removed)
      invariant ignored == Select(env, d, index, order[..i], Ignored)
    {
      var s := order[i];
      assert order[..i + 1] == order[..i] + [s] && s in order;
      SelectAppend(env, d, index, order[..i], s);
      ClassOfGroup(env, d, index, s);
      if env.ignored(s) { ignored := ignored + [s]; continue; }
      if s !in d.hash { removed := removed + [s]; continue; }
      if state.entries[s].hashes != {d.hash[s]} || d.hash[s] == "" { changed := changed + [s]; }
    }
    assert order[..|order|] == order;
  }

  lemma {:induction false} SelectAppend(env: Env, d: Disk, index: seq<Row>, sources: seq<Source>, s: Source)
    ensures forall c :: Select(env, d, index, sources + [s], c) == Select(env, d, index, sources, c) + if Classify(env, d, index, s) == c then [s] else []
    decreases |sources|
  {
    if sources == [] {
      assert sources + [s] == [s] && [s][1..] == [];
    } else {
      assert (sources + [s])[1..] == sources[1..] + [s];
      SelectAppend(env, d, index, sources[1..], s);
    }
  }

  lemma ClassOfGroup(env: Env, d: Disk, index: seq<Row>, s: Source)
    requires s in Sources(index)
    ensures s in Group(index).entries
    ensures Classify(env, d, index, s) ==
      if env.ignored(s) then Ignored else if s !in d.hash then Removed
      else if Group(index).entries[s].hashes != {d.hash[s]} || d.hash[s] == "" then Changed else Unchanged
  {
    GroupOrder(index);
    GroupEntry(index, s);
  }

  lemma OneMoreRow(a: seq<Row>, r: Row, s: Source)
    ensures IdsOf(a + [r], s) == IdsOf(a, s) + if r.source == Some(s) then [r.id] else []
    ensures HashesOf(a + [r], s) == HashesOf(a, s) + if r.source == Some(s) then {r.hash} else {}
  {
    OneMoreId(a, r, s);
    hide IdsOf;
    assert r in a + [r] && forall q :: q in a ==> q in a + [r];
  }

  lemma {:induction false} OneMoreId(a: seq<Row>, r: Row, s: Source)
    ensures IdsOf(a + [r], s) == IdsOf(a, s) + if r.source == Some(s) then [r.id] else []
    decreases |a|
  {
    if a == [] {
      assert a + [r] == [r] && [r][1..] == [];
    } else {
      assert (a + [r])[1..] == a[1..] + [r];
      OneMoreId(a[1..], r, s);
    }
  }

  lemma ListedIsIndexed(env: Env, d: Disk, index: seq<Row>, s: Source)
    requires s in ToDelete(env, d, index)
    ensures s in Sources(index)
  {
    SelectMembers(env, d, index, Sources(index), Changed, s);
    SelectMembers(env, d, index, Sources(index), Removed, s);
    SelectMembers(env, d, index, Sources(index), Ignored, s);
  }

  lemma ChangedIsListed(env: Env, d: Disk, index: seq<Row>, s: Source)
    ensures s in Select(env, d, index, Sources(index), Changed) <==> s in Sources(index) && Classify(env, d, index, s) == Changed
    ensures s in Select(env, d, index, Sources(index), Changed) ==> s in ToDelete(env, d, index)
  {
    SelectMembers(env, d, index, Sources(index), Changed, s);
  }

  lemma CleanIff(env: Env, d: Disk, w: World, todo: set<Source>)
    requires Scanned(env, d) && forall s :: s in d.hash ==> (s in todo <==> ToIngest(env, d, w.rows, s))
    ensures Clean(env, d, w) <==>
      && AllDeletesSucceed(env, d, w.rows)
      && forall j :: 0 <= j < |d.order| && d.order[j] in todo ==> !IngestFailed(env, w.done, d.order[j], d.hash[d.order[j]])
  {
    forall s | s in d.hash ensures exists j :: 0 <= j < |d.order| && d.order[j] == s { assert s in d.order; }
    assert forall j :: 0 <= j < |d.order| ==> d.order[j] in d.hash;
  }
}
