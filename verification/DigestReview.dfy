/** The digest printed from a progress file, as the signer checks it against that file. */
module DigestReview {
  import opened Common
  import BatchSign
  import DigestTable

  /** The printed entries are the recorded dry-runs of the progress file, by id and exit. */
  ghost predicate Shows(es: seq<DigestTable.Entry>, rows: seq<BatchSign.Entry>) {
    forall id, exit :: Printed(es, id, exit) <==> Recorded(rows, id, exit)
  }

  ghost predicate Printed(es: seq<DigestTable.Entry>, id: Id, exit: Option<int>) {
    exists e :: e in es && e.id == id && e.dry.Some? && e.dry.value.exit == exit
  }

  ghost predicate Recorded(rows: seq<BatchSign.Entry>, id: Id, exit: Option<int>) {
    exists q :: q in rows && q.key.id == id && q.dry == Some(BatchSign.DryRun(exit))
  }

  /** The printed meetings whose record carries an exit. */
  ghost function RealIds(es: seq<DigestTable.Entry>): set<Id> {
    set e | e in es && e.dry.Some? && e.dry.value.exit.Some? :: e.id
  }

  lemma AttemptedAreReal(es: seq<DigestTable.Entry>, rows: seq<BatchSign.Entry>, kind: string)
    requires Shows(es, rows) && forall i :: 0 <= i < |rows| ==> rows[i].key.kind == kind
    ensures BatchSign.AttemptedIds(rows, kind) == RealIds(es)
  {
    forall id | id in BatchSign.AttemptedIds(rows, kind) ensures id in RealIds(es) {
      var q :| q in rows && q.key.kind == kind && BatchSign.Attempted(q.dry) && q.key.id == id;
      assert q.dry == Some(BatchSign.DryRun(q.dry.value.exit));
      assert Recorded(rows, id, q.dry.value.exit);
      assert Printed(es, id, q.dry.value.exit);
    }
    forall id | id in RealIds(es) ensures id in BatchSign.AttemptedIds(rows, kind) {
      var e :| e in es && e.dry.Some? && e.dry.value.exit.Some? && e.id == id;
      assert Printed(es, id, e.dry.value.exit);
      assert Recorded(rows, id, e.dry.value.exit);
      var q :| q in rows && q.key.id == id && q.dry == Some(BatchSign.DryRun(e.dry.value.exit));
      assert BatchSign.Attempted(q.dry);
    }
  }

  ghost predicate OncePerId(es: seq<DigestTable.Entry>) {
    forall i, j :: 0 <= i < j < |es| ==> es[i].id != es[j].id
  }

  lemma SameEntry(es: seq<DigestTable.Entry>, e: DigestTable.Entry, f: DigestTable.Entry)
    requires OncePerId(es) && e in es && f in es && e.id == f.id
    ensures e == f
  {
    var i :| 0 <= i < |es| && es[i] == e;
    var j :| 0 <= j < |es| && es[j] == f;
    assert i == j;
  }

  /** A row is readable exactly when its record carries an exit. */
  ghost predicate ReadableIffReal(es: seq<DigestTable.Entry>) {
    forall e :: e in es && e.dry.Some? ==> (DigestTable.Readable(e) <==> e.dry.value.exit.Some?)
  }

  lemma SameIdsIff(es: seq<DigestTable.Entry>)
    requires OncePerId(es)
    ensures DigestTable.ReadableIds(es) == RealIds(es) <==> ReadableIffReal(es)
  {
    hide OncePerId;
    if DigestTable.ReadableIds(es) == RealIds(es) {
      forall e | e in es && e.dry.Some? ensures DigestTable.Readable(e) <==> e.dry.value.exit.Some? {
        if DigestTable.Readable(e) {
          assert e.id in RealIds(es);
          var f :| f in es && f.dry.Some? && f.dry.value.exit.Some? && f.id == e.id;
          SameEntry(es, e, f);
        }
        if e.dry.value.exit.Some? {
          assert e.id in DigestTable.ReadableIds(es);
          var f :| f in es && DigestTable.Readable(f) && f.id == e.id;
          SameEntry(es, e, f);
        }
      }
    }
  }

  /** A published digest printed from the current progress file passes the signer's digest
      checks exactly when every row with an exit is readable and no other row is. */
  lemma PrintedDigestIsCurrentIff(env: BatchSign.Env, d: BatchSign.Disk, h: DigestTable.Header, es: seq<DigestTable.Entry>)
    requires DigestTable.PlainHeader(h) && OncePerId(es) && Shows(es, d.prog.rows) && forall e :: e in es ==> DigestTable.SafeId(e.id)
    requires var m := env.parse(d.manifest); var digest := DigestTable.Digest(h, es);
      && (forall i :: 0 <= i < |d.prog.rows| ==> d.prog.rows[i].key.kind == m.kind)
      && d.digest == d.sidecar == Some(digest)
      && env.headerCount(digest) == Some(|BatchSign.Unattempted(m.rows, m.kind, d.prog.rows)|)
    ensures BatchSign.DigestCurrent(env, d) <==> ReadableIffReal(es)
  {
    DigestTable.ReaderRecoversIds(h, es);
    AttemptedAreReal(es, d.prog.rows, env.parse(d.manifest).kind);
    SameIdsIff(es);
    hide DigestTable.Digest, DigestTable.RowIds, DigestTable.ReadableIds, RealIds, ReadableIffReal, BatchSign.AttemptedIds;
  }
}
