/** The loops of the resolver: candidate sets and counts filled participant by
    participant, and the choice of a candidate. */
module ResolverLoops {
  import opened Common
  import opened Resolver

  method ExternalParticipants(ctx: Ctx, ps: seq<Participant>) returns (out: seq<Participant>)
    ensures out == Externals(ctx, ps)
  {
    out := [];
    for i := 0 to |ps|
      invariant out + Externals(ctx, ps[i..]) == Externals(ctx, ps)
    {
      assert ps[i..][1..] == ps[i + 1..];
      if External(ctx, ps[i]) { out := out + [ps[i]]; }
    }
  }

  lemma {:induction false} CountAppend(a: seq<Participant>, p: Participant, f: Participant -> bool)
    ensures Count(a + [p], f) == Count(a, f) + if f(p) then 1 else 0
    decreases |a|
  {
    if a == [] {
      assert [p][1..] == [] && a + [p] == [p];
    } else {
      assert (a + [p])[1..] == a[1..] + [p];
      CountAppend(a[1..], p, f);
    }
  }

  lemma {:induction false} CountZero(a: seq<Participant>, f: Participant -> bool)
    requires forall p :: p in a ==> !f(p)
    ensures Count(a, f) == 0
    decreases |a|
  {
    if a != [] { CountZero(a[1..], f); }
  }

  function Bump(counts: map<string, nat>, s: string): map<string, nat> {
    counts[s := 1 + if s in counts then counts[s] else 0]
  }

  /** One more participant raises exactly one count. */
  lemma CountsStep(a: seq<Participant>, p: Participant, f: Participant -> bool, l: Participant -> string)
    ensures Counts(a + [p], f, l) == if f(p) then Bump(Counts(a, f, l), l(p)) else Counts(a, f, l)
  {
    var prior, now := Counts(a, f, l), Counts(a + [p], f, l);
    var next := if f(p) then Bump(prior, l(p)) else prior;
    assert p in a + [p] && forall q :: q in a ==> q in a + [p];
    assert LabelsWhere(a + [p], f, l) == LabelsWhere(a, f, l) + if f(p) then {l(p)} else {};
    forall s | s in now ensures now[s] == next[s] {
      CountAppend(a, p, q => f(q) && l(q) == s);
      if s !in prior { CountZero(a, q => f(q) && l(q) == s); }
    }
  }

  function AddPage(cands: set<Slug>, pages: seq<Slug>, s: Slug): set<Slug> {
    if s in pages then cands + {s} else cands
  }

  /** The running values of the candidate loop. */
  datatype Domains = Domains(clients: set<Slug>, orgs: set<Slug>, unknown: map<string, string>,
                             unknownCount: map<string, nat>, labelCount: map<string, nat>)

  function Step(ctx: Ctx, d: Domains, p: Participant): Domains {
    if !Hard(ctx, p) then d
    else
      var lab, mapped := LabelOf(ctx, p), Mapped(ctx, p);
      Domains(AddPage(AddPage(d.clients, ctx.closed.clients, mapped), ctx.closed.clients, lab),
              AddPage(AddPage(d.orgs, ctx.closed.orgs, mapped), ctx.closed.orgs, lab),
              if Unmapped(ctx, p) then d.unknown[lab := Domain(ctx, p)] else d.unknown,
              if Unmapped(ctx, p) then Bump(d.unknownCount, lab) else d.unknownCount,
              Bump(d.labelCount, lab))
  }

  function Steps(ctx: Ctx, es: seq<Participant>): Domains {
    if es == [] then Domains({}, {}, map[], map[], map[]) else Step(ctx, Steps(ctx, es[..|es| - 1]), es[|es| - 1])
  }

  lemma OneMoreHard(ctx: Ctx, a: seq<Participant>, p: Participant, pages: seq<Slug>)
    ensures HardSlugs(ctx, a + [p], pages) ==
      if Hard(ctx, p) then AddPage(AddPage(HardSlugs(ctx, a, pages), pages, Mapped(ctx, p)), pages, LabelOf(ctx, p)) else HardSlugs(ctx, a, pages)
  {
    assert p in a + [p] && forall q :: q in a ==> q in a + [p];
  }

  lemma OneMoreUnknown(ctx: Ctx, a: seq<Participant>, p: Participant)
    ensures LastDomain(ctx, a + [p]) == if Unmapped(ctx, p) then LastDomain(ctx, a)[LabelOf(ctx, p) := Domain(ctx, p)] else LastDomain(ctx, a)
    ensures UnknownLabels(ctx, a + [p]) == UnknownLabels(ctx, a) + if Unmapped(ctx, p) then {LabelOf(ctx, p)} else {}
  {
    var b := a + [p];
    assert b[..|b| - 1] == a && p in b && forall q :: q in a ==> q in b;
  }

  lemma OneMoreCount(ctx: Ctx, a: seq<Participant>, p: Participant)
    ensures UnknownCounts(ctx, a + [p]) == if Unmapped(ctx, p) then Bump(UnknownCounts(ctx, a), LabelOf(ctx, p)) else UnknownCounts(ctx, a)
    ensures LabelCounts(ctx, a + [p]) == if Hard(ctx, p) then Bump(LabelCounts(ctx, a), LabelOf(ctx, p)) else LabelCounts(ctx, a)
  {
    CountsStep(a, p, q => Unmapped(ctx, q), q => LabelOf(ctx, q));
    CountsStep(a, p, q => Hard(ctx, q), q => LabelOf(ctx, q));
  }

  lemma {:induction false} StepsAreSets(ctx: Ctx, es: seq<Participant>)
    ensures Steps(ctx, es).clients == HardSlugs(ctx, es, ctx.closed.clients) && Steps(ctx, es).orgs == HardSlugs(ctx, es, ctx.closed.orgs)
    decreases |es|
  {
    if es != [] {
      var a, p := es[..|es| - 1], es[|es| - 1];
      assert es == a + [p];
      StepsAreSets(ctx, a);
      OneMoreHard(ctx, a, p, ctx.closed.clients);
      OneMoreHard(ctx, a, p, ctx.closed.orgs);
    }
  }

  lemma {:induction false} StepsAreUnknown(ctx: Ctx, es: seq<Participant>)
    ensures Steps(ctx, es).unknown == LastDomain(ctx, es) && Steps(ctx, es).unknown.Keys == UnknownLabels(ctx, es)
    decreases |es|
  {
    if es != [] {
      var a, p := es[..|es| - 1], es[|es| - 1];
      assert es == a + [p];
      StepsAreUnknown(ctx, a);
      OneMoreUnknown(ctx, a, p);
    }
  }

  lemma {:induction false} StepsAreCounts(ctx: Ctx, es: seq<Participant>)
    ensures Steps(ctx, es).unknownCount == UnknownCounts(ctx, es) && Steps(ctx, es).labelCount == LabelCounts(ctx, es)
    decreases |es|
  {
    if es != [] {
      var a, p := es[..|es| - 1], es[|es| - 1];
      assert es == a + [p];
      StepsAreCounts(ctx, a);
      OneMoreCount(ctx, a, p);
    }
  }

  method CollectDomains(ctx: Ctx, es: seq<Participant>)
    returns (clientCands: set<Slug>, orgCands: set<Slug>, unknown: map<string, string>, unknownCount: map<string, nat>, labelCount: map<string, nat>)
    ensures Domains(clientCands, orgCands, unknown, unknownCount, labelCount) == Steps(ctx, es)
  {
    clientCands, orgCands, unknown, unknownCount, labelCount := {}, {}, map[], map[], map[];
    for i := 0 to |es|
      invariant Domains(clientCands, orgCands, unknown, unknownCount, labelCount) == Steps(ctx, es[..i])
    {
      var p := es[i];
      assert es[..i + 1][..i] == es[..i];
      if !Hard(ctx, p) { continue; }
      var lab, mapped := LabelOf(ctx, p), Mapped(ctx, p);
      labelCount := Bump(labelCount, lab);
      if mapped in ctx.closed.clients { clientCands := clientCands + {mapped}; }
      if mapped in ctx.closed.orgs { orgCands := orgCands + {mapped}; }
      if lab in ctx.closed.clients { clientCands := clientCands + {lab}; }
      if lab in ctx.closed.orgs { orgCands := orgCands + {lab}; }
      if !IsPage(ctx, lab) && !IsPage(ctx, mapped) {
        unknown := unknown[lab := Domain(ctx, p)];
        unknownCount := Bump(unknownCount, lab);
      }
    }
    assert es[..|es|] == es;
  }

  method IdentifyContacts(ctx: Ctx, es: seq<Participant>)
    returns (byContact: set<Slug>, byNameOnly: set<Slug>, orgCands: set<Slug>, dated: set<Slug>)
    ensures var f := FactsOf(ctx, es);
      byContact == f.byContact && byNameOnly == f.byNameOnly && orgCands == f.contactOrgs && dated == f.dated
  {
    byContact, byNameOnly, orgCands, dated := {}, {}, {}, {};
    for i := 0 to |es|
      invariant byContact == ContactSlugs(ctx, es[..i]) && byNameOnly == NameOnlySlugs(ctx, es[..i])
      invariant orgCands == ContactOrgs(ctx, es[..i]) && dated == DatedSlugs(ctx, es[..i])
    {
      var p := es[i];
      assert es[..i + 1] == es[..i] + [p];
      OneMoreContact(ctx, es[..i], p);
      if ctx.identify(p).None? { continue; }
      var row := ctx.identify(p).value;
      var employer := ctx.datedEmployer(row);
      if employer.Some? && employer.value != "" { dated := dated + {employer.value}; }
      var slug := ContactSlug(ctx, p);
      if slug.None? { continue; }
      if slug.value in ctx.closed.clients {
        byContact := byContact + {slug.value};
        if !HasAt(p.email) { byNameOnly := byNameOnly + {slug.value}; }
      }
      if slug.value in ctx.closed.orgs && EmailMatched(ctx, p) { orgCands := orgCands + {slug.value}; }
    }
    assert es[..|es|] == es;
  }

  lemma OneMoreContact(ctx: Ctx, a: seq<Participant>, p: Participant)
    ensures var c := ContactSlug(ctx, p); var b := a + [p];
      && ContactSlugs(ctx, b) == ContactSlugs(ctx, a) + (if c.Some? && c.value in ctx.closed.clients then {c.value} else {})
      && NameOnlySlugs(ctx, b) == NameOnlySlugs(ctx, a) + (if c.Some? && c.value in ctx.closed.clients && !HasAt(p.email) then {c.value} else {})
      && ContactOrgs(ctx, b) == ContactOrgs(ctx, a) + (if c.Some? && c.value in ctx.closed.orgs && EmailMatched(ctx, p) then {c.value} else {})
    ensures DatedSlugs(ctx, a + [p]) == DatedSlugs(ctx, a)
      + if ctx.identify(p).Some? && ctx.datedEmployer(ctx.identify(p).value).Some? && ctx.datedEmployer(ctx.identify(p).value).value != ""
        then {ctx.datedEmployer(ctx.identify(p).value).value} else {}
  {
    var b := a + [p];
    assert p in b && forall q :: q in a ==> q in b;
  }

  /** Both loops together collect every fact the ladder reads. */
  method Collect(ctx: Ctx, ps: seq<Participant>) returns (f: Facts)
    ensures f == FactsOf(ctx, Externals(ctx, ps))
  {
    var es := ExternalParticipants(ctx, ps);
    var clientCands, domainOrgs, unknown, unknownCount, labelCount := CollectDomains(ctx, es);
    StepsAreSets(ctx, es);
    StepsAreUnknown(ctx, es);
    StepsAreCounts(ctx, es);
    var byContact, byNameOnly, contactOrgs, dated := IdentifyContacts(ctx, es);
    f := Facts(es, clientCands, domainOrgs, contactOrgs, unknown.Keys, unknown, unknownCount, labelCount, byContact, byNameOnly, dated);
  }

  /** The vote count of every candidate at once. */
  method CountVotes(ctx: Ctx, es: seq<Participant>, cands: set<Slug>) returns (counts: map<Slug, nat>)
    ensures forall s :: (if s in counts then counts[s] else 0) == Votes(ctx, es, cands, s)
  {
    counts := map[];
    for i := 0 to |es|
      invariant forall s :: (if s in counts then counts[s] else 0) == Votes(ctx, es[..i], cands, s)
    {
      var p := es[i];
      assert es[..i + 1] == es[..i] + [p];
      var slug := VoteOf(ctx, p, cands);
      forall s ensures Votes(ctx, es[..i + 1], cands, s) == Votes(ctx, es[..i], cands, s) + if slug == s && s != "" then 1 else 0 {
        CountAppend(es[..i], p, q => VoteOf(ctx, q, cands) == s);
      }
      if slug != "" { counts := counts[slug := 1 + if slug in counts then counts[slug] else 0]; }
    }
    assert es[..|es|] == es;
  }

  /** `min` over a set visits it in no particular order; the result is the pick anyway. */
  method PickCandidate(ctx: Ctx, cls: Classification, es: seq<Participant>, cands: set<Slug>) returns (best: Slug)
    requires cands != {}
    ensures best == Pick(ctx, cls, es, cands)
  {
    var counts := CountVotes(ctx, es, cands);
    best :| best in cands;
    var rest := cands - {best};
    while rest != {}
      invariant rest <= cands && best in cands - rest
      invariant forall t :: t in cands - rest && t != best ==> Before(RankOf(ctx, cls, es, cands, best), best, RankOf(ctx, cls, es, cands, t), t)
      decreases |rest|
    {
      var s :| s in rest;
      rest := rest - {s};
      var a := Rank(Tier(ctx, s), if s in counts then counts[s] else 0, ClsMatch(ctx, cls, s), |OpenNodes(ctx.closed.nodes, s)|);
      var b := Rank(Tier(ctx, best), if best in counts then counts[best] else 0, ClsMatch(ctx, cls, best), |OpenNodes(ctx.closed.nodes, best)|);
      assert a == RankOf(ctx, cls, es, cands, s) && b == RankOf(ctx, cls, es, cands, best);
      BeforeTotal(a, s, b, best);
      if Before(a, s, b, best) {
        forall t | t in cands - rest && t != s ensures Before(a, s, RankOf(ctx, cls, es, cands, t), t) {
          if t != best { BeforeTransitive(a, s, b, best, RankOf(ctx, cls, es, cands, t), t); }
        }
        best := s;
      }
    }
    BestUnique(ctx, cls, es, cands, best, Pick(ctx, cls, es, cands));
  }
}
