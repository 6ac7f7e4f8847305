/** What the resolver guarantees on every meeting: it always decides, a page is
    created exactly when the home does not exist, and the order of the
    participants does not matter unless a person's own page is made. */
module ResolverTheorems {
  import opened Common
  import opened Resolver
  import opened ResolverLadder

  // ------------------------------------------------------------ totality

  /** Every participant with a company address lands in some candidate set. */
  lemma HardIsCollected(ctx: Ctx, es: seq<Participant>, p: Participant)
    requires p in es && Hard(ctx, p)
    ensures var f := FactsOf(ctx, es); f.clientCands != {} || OrgCands(f) != {} || f.unknown != {}
  {
    var f := FactsOf(ctx, es);
    if Unmapped(ctx, p) {
      assert LabelOf(ctx, p) in f.unknown;
    } else {
      var s := if IsPage(ctx, LabelOf(ctx, p)) then LabelOf(ctx, p) else Mapped(ctx, p);
      assert s in f.clientCands || s in f.domainOrgs;
    }
  }

  /** Below the client rules, some rule decides unless nothing at all was collected
      from a company address. */
  lemma LowerRulesDecide(ctx: Ctx, m: Meeting, f: Facts)
    ensures LowerRules(ctx, m, f) == Nothing ==> f.unknown == {} && OrgCands(f) == {} && exists p :: p in f.externals && Hard(ctx, p)
    ensures LowerRules(ctx, m, f) != NoInput
    ensures LowerRules(ctx, m, f) == AmbiguousRelationship ==> Undecidable(ctx, m, f)
  {}

  /** An org page was picked whose relationship neither it nor the classification states. */
  ghost predicate Undecidable(ctx: Ctx, m: Meeting, f: Facts) {
    && OrgCands(f) != {} && m.cls.relationship !in ctx.relationships
    && !PageRelates(ctx, Pick(ctx, m.cls, f.externals, OrgCands(f)))
  }

  lemma LadderIsTotal(ctx: Ctx, m: Meeting, f: Facts)
    requires (exists p :: p in f.externals && Hard(ctx, p)) ==> f.clientCands != {} || OrgCands(f) != {} || f.unknown != {}
    ensures Ladder(ctx, m, f) != Nothing && Ladder(ctx, m, f) != NoInput
    ensures Ladder(ctx, m, f) == AmbiguousRelationship ==> Undecidable(ctx, m, f) && f.clientCands == {}
  {
    LowerRulesDecide(ctx, m, f);
  }

  /** With participants or text, the result is a home or the explicit ambiguous
      relationship, never the empty result; and the latter only when no client is
      a candidate and the picked org page leaves the relationship open. */
  lemma ResolveIsTotal(ctx: Ctx, m: Meeting, ps: seq<Participant>)
    ensures Resolve(ctx, m, ps) != Nothing
    ensures Resolve(ctx, m, ps) == NoInput <==> ps == [] && !m.hasText
    ensures Resolve(ctx, m, ps) == AmbiguousRelationship ==>
              var f := FactsOf(ctx, Externals(ctx, ps)); Undecidable(ctx, m, f) && f.clientCands == {}
  {
    var es := Externals(ctx, ps);
    var f := FactsOf(ctx, es);
    if p :| p in f.externals && Hard(ctx, p) { HardIsCollected(ctx, es, p); }
    LadderIsTotal(ctx, m, f);
  }

  /** Rule 6 never meets an unknown label that is already an org page (nor a client). */
  lemma UnknownLabelIsNoPage(ctx: Ctx, es: seq<Participant>, s: string)
    requires s in FactsOf(ctx, es).unknown
    ensures s !in ctx.closed.orgs && s !in ctx.closed.clients
  {}

  /** So rule 6 always files under the label itself. */
  lemma Rule6FilesUnderLabel(ctx: Ctx, m: Meeting, es: seq<Participant>)
    requires FactsOf(ctx, es).unknown != {}
    ensures var f := FactsOf(ctx, es); var h := Rule6New(ctx, m, f);
      h.Some? && h.value.slug == TopLabel(f.unknownCount, f.unknown) && h.value.created.Some? && h.value.slug !in ctx.closed.clients
  {
    var f := FactsOf(ctx, es);
    UnknownLabelIsNoPage(ctx, es, TopLabel(f.unknownCount, f.unknown));
  }

  // ------------------------------------------------------------ page soundness

  ghost predicate PageExists(ctx: Ctx, page: Page) {
    match page
    case ClientPage(s) => s in ctx.closed.clients
    case OrgPage(s) => s in ctx.closed.orgs
    case ProjectPage(id) => exists n :: n in ctx.closed.nodes && n.id == id
  }

  /** A page is created exactly when the home does not exist, and it is the home;
      rules 6, 9 and 10 never create an org page that shadows a client. */
  ghost predicate Sound(ctx: Ctx, h: Home) {
    && (h.created.None? <==> PageExists(ctx, h.page))
    && (h.created.Some? ==> h.page == OrgPage(h.created.value.slug) && h.created.value.slug == h.slug
                            && (h.rule in {6, 9, 10} ==> h.slug !in ctx.closed.clients))
    && (h.page.ProjectPage? <==> h.node.Some?)
  }

  lemma {:induction false} OpenNodesAreNodes(nodes: seq<Node>, s: Slug)
    ensures forall n :: n in OpenNodes(nodes, s) <==> n in nodes && OpenNode(n, s)
    decreases |nodes|
  {
    if nodes != [] { OpenNodesAreNodes(nodes[1..], s); assert nodes == [nodes[0]] + nodes[1..]; }
  }

  /** Filing under a client lands on its page or on an open node of that very client. */
  lemma ClientHitSound(ctx: Ctx, s: Slug, rule: nat)
    requires s in ctx.closed.clients
    ensures Sound(ctx, ClientHit(ctx, s, rule)) && ClientHit(ctx, s, rule).slug == s
    ensures forall also :: Sound(ctx, ClientHit(ctx, s, rule).(also := also))
    ensures ClientHit(ctx, s, rule).created.None?
  {
    OpenNodesAreNodes(ctx.closed.nodes, s);
    var open := OpenNodes(ctx.closed.nodes, s);
    if |open| == 1 { assert open[0] in open; }
  }

  lemma {:induction false} TitledIsNode(ctx: Ctx, nodes: seq<Node>, title: string)
    ensures FirstTitled(ctx, nodes, title).Some? ==> FirstTitled(ctx, nodes, title).value in nodes
    decreases |nodes|
  {
    if nodes != [] { TitledIsNode(ctx, nodes[1..], title); }
  }

  lemma {:induction false} AliasedAreNodes(ctx: Ctx, nodes: seq<Node>, title: string)
    ensures forall n :: n in Aliased(ctx, nodes, title) ==> n in nodes
    decreases |nodes|
  {
    if nodes != [] { AliasedAreNodes(ctx, nodes[1..], title); }
  }

  lemma {:induction false} FirstEqualIsPage(ctx: Ctx, pages: seq<Slug>, n: string)
    ensures FirstEqual(ctx, pages, n).Some? ==> FirstEqual(ctx, pages, n).value in pages
    ensures FirstPrefix(ctx, pages, n).Some? ==> FirstPrefix(ctx, pages, n).value in pages
    decreases |pages|
  {
    if pages != [] { FirstEqualIsPage(ctx, pages[1..], n); }
  }

  lemma ExistingPageExists(ctx: Ctx, name: string)
    ensures var e := ExistingPage(ctx, name);
      e.Some? ==> if e.value.client then e.value.slug in ctx.closed.clients else e.value.slug in ctx.closed.orgs
  {
    var n := ctx.entity(name);
    FirstEqualIsPage(ctx, ctx.closed.clients, n);
    FirstEqualIsPage(ctx, ctx.closed.orgs, n);
  }

  lemma ClientHitsSound(ctx: Ctx, rule: nat)
    ensures forall s, also :: s in ctx.closed.clients ==> Sound(ctx, ClientHit(ctx, s, rule).(also := also))
  {
    forall s | s in ctx.closed.clients ensures forall also :: Sound(ctx, ClientHit(ctx, s, rule).(also := also)) {
      ClientHitSound(ctx, s, rule);
    }
  }

  lemma Rule13Sound(ctx: Ctx, m: Meeting, f: Facts)
    ensures Rule13(ctx, m, f).Some? ==> Sound(ctx, Rule13(ctx, m, f).value)
  {
    TitledIsNode(ctx, ctx.closed.nodes, m.title);
    ClientHitsSound(ctx, 13);
    hide ClientHit, FirstTitled, PageRelation, Also;
  }

  lemma Rule2Sound(ctx: Ctx, m: Meeting, f: Facts)
    ensures Rule2(ctx, m, f).Some? ==> Sound(ctx, Rule2(ctx, m, f).value)
  {
    AliasedAreNodes(ctx, ctx.closed.nodes, m.title);
    var hits := Aliased(ctx, ctx.closed.nodes, m.title);
    hide Aliased;
    if |hits| == 1 { assert hits[0] in hits; }
  }

  lemma Rule10Sound(ctx: Ctx, m: Meeting, f: Facts)
    ensures Rule10(ctx, m, f).Some? ==> Sound(ctx, Rule10(ctx, m, f).value)
  {
    ClientHitsSound(ctx, 10);
    hide ClientHit, PageRelation, Declared, Sanitized;
  }

  lemma Rule12Sound(ctx: Ctx, m: Meeting, f: Facts)
    ensures Rule12(ctx, m, f).Some? ==> Sound(ctx, Rule12(ctx, m, f).value)
  {
    ClientHitsSound(ctx, 12);
    hide ClientHit, PageRelation, Declared, Corroborated, Also;
  }

  lemma UpperRulesSound(ctx: Ctx, m: Meeting, f: Facts)
    ensures UpperRules(ctx, m, f).Some? ==> Sound(ctx, UpperRules(ctx, m, f).value)
  {
    TitledIsNode(ctx, ctx.closed.nodes, m.title);
    assert Rule1(ctx, m, f).Some? ==> Sound(ctx, Rule1(ctx, m, f).value);
    assert Rule11(ctx, m).Some? ==> Sound(ctx, Rule11(ctx, m).value);
    hide Sound, Rule13, Rule1, Rule2, Rule11, Rule10, Rule12;
    Rule13Sound(ctx, m, f);
    Rule2Sound(ctx, m, f);
    Rule10Sound(ctx, m, f);
    Rule12Sound(ctx, m, f);
  }

  /** What the proofs below need of the collected facts. */
  ghost predicate OnPages(ctx: Ctx, f: Facts) {
    && (forall s :: s in f.clientCands + f.byContact + f.byNameOnly ==> s in ctx.closed.clients)
    && (forall s :: s in OrgCands(f) ==> s in ctx.closed.orgs)
  }

  lemma FactsOnPages(ctx: Ctx, es: seq<Participant>)
    ensures OnPages(ctx, FactsOf(ctx, es))
  {}

  lemma Rule4Sound(ctx: Ctx, m: Meeting, f: Facts)
    requires OnPages(ctx, f)
    ensures Rule4ByName(ctx, m, f).Some? ==> Sound(ctx, Rule4ByName(ctx, m, f).value)
  {
    ExistingPageExists(ctx, Sanitized(ctx, m.cls.orgName));
    ClientHitsSound(ctx, 4);
  }

  lemma Rule9Sound(ctx: Ctx, m: Meeting, f: Facts)
    ensures Rule9(ctx, m, f).Some? ==> Sound(ctx, Rule9(ctx, m, f).value)
  {
    ClientHitsSound(ctx, 9);
  }

  lemma Rule34Sound(ctx: Ctx, m: Meeting, f: Facts)
    requires OnPages(ctx, f)
    ensures Rule34(ctx, m, f).Some? ==> Sound(ctx, Rule34(ctx, m, f).value)
  {
    ClientHitsSound(ctx, 3);
    ClientHitsSound(ctx, 4);
  }

  lemma ClientRulesSound(ctx: Ctx, m: Meeting, f: Facts)
    requires OnPages(ctx, f)
    ensures ClientRules(ctx, m, f).Some? ==> Sound(ctx, ClientRules(ctx, m, f).value)
  {
    Rule4Sound(ctx, m, f);
    Rule9Sound(ctx, m, f);
    Rule34Sound(ctx, m, f);
  }

  lemma {:induction false} Rule5Sound(ctx: Ctx, es: seq<Participant>)
    ensures Rule5(ctx, es).Some? ==> Sound(ctx, Rule5(ctx, es).value) && Rule5(ctx, es).value.rule == 5
    decreases |es|
  {
    if es != [] { Rule5Sound(ctx, es[1..]); }
  }

  lemma Rule6OrgSound(ctx: Ctx, m: Meeting, f: Facts)
    requires OnPages(ctx, f)
    ensures var o := Rule6Org(ctx, m, f); o.Some? && o.value.Resolved? ==> Sound(ctx, o.value.home)
  {}

  lemma NamedPageExists(ctx: Ctx, orgName: string)
    ensures var e := NamedForRule7(ctx, orgName);
      e.Some? ==> if e.value.client then e.value.slug in ctx.closed.clients else e.value.slug in ctx.closed.orgs
  {
    hide ExistingPage, Declared;
    ExistingPageExists(ctx, Sanitized(ctx, orgName));
  }

  lemma Rule7Sound(ctx: Ctx, m: Meeting, f: Facts)
    ensures Rule7(ctx, m, f).Some? ==> Sound(ctx, Rule7(ctx, m, f).value)
  {
    NamedPageExists(ctx, m.cls.orgName);
    ClientHitsSound(ctx, 7);
    hide NamedForRule7, ClientHit, FirstPerson, PersonSlug;
  }

  lemma Rule6NewSound(ctx: Ctx, m: Meeting, es: seq<Participant>)
    ensures var h := Rule6New(ctx, m, FactsOf(ctx, es)); h.Some? ==> Sound(ctx, h.value)
  {
    if FactsOf(ctx, es).unknown != {} { Rule6FilesUnderLabel(ctx, m, es); }
  }

  lemma LowerRulesSound(ctx: Ctx, m: Meeting, es: seq<Participant>)
    ensures var o := LowerRules(ctx, m, FactsOf(ctx, es)); o.Resolved? ==> Sound(ctx, o.home)
  {
    var f := FactsOf(ctx, es);
    FactsOnPages(ctx, es);
    Rule5Sound(ctx, es);
    Rule6OrgSound(ctx, m, f);
    Rule6NewSound(ctx, m, es);
    Rule7Sound(ctx, m, f);
  }

  /** Over all thirteen rules. */
  lemma ResolutionIsSound(ctx: Ctx, m: Meeting, ps: seq<Participant>)
    ensures Resolve(ctx, m, ps).Resolved? ==> Sound(ctx, Resolve(ctx, m, ps).home)
  {
    var es := Externals(ctx, ps);
    UpperRulesSound(ctx, m, FactsOf(ctx, es));
    FactsOnPages(ctx, es);
    ClientRulesSound(ctx, m, FactsOf(ctx, es));
    LowerRulesSound(ctx, m, es);
  }

  // ------------------------------------------------------------ the order of the rules

  lemma ClientHitRule(ctx: Ctx, rule: nat)
    ensures forall s, also :: ClientHit(ctx, s, rule).(also := also).rule == rule
  {}

  lemma UpperNumbers(ctx: Ctx, m: Meeting, f: Facts)
    ensures Rule13(ctx, m, f).Some? ==> Rule13(ctx, m, f).value.rule == 13
    ensures Rule1(ctx, m, f).Some? ==> Rule1(ctx, m, f).value.rule == 1
    ensures Rule2(ctx, m, f).Some? ==> Rule2(ctx, m, f).value.rule == 2
    ensures Rule11(ctx, m).Some? ==> Rule11(ctx, m).value.rule == 11
    ensures Rule10(ctx, m, f).Some? ==> Rule10(ctx, m, f).value.rule == 10
    ensures Rule12(ctx, m, f).Some? ==> Rule12(ctx, m, f).value.rule == 12
  {
    ClientHitRule(ctx, 13);
    ClientHitRule(ctx, 10);
    ClientHitRule(ctx, 12);
    hide ClientHit, Corroborated, FirstTitled, Aliased, Declared, Sanitized, PageRelation, Also;
  }

  lemma ClientNumbers(ctx: Ctx, m: Meeting, f: Facts)
    ensures Rule4ByName(ctx, m, f).Some? ==> Rule4ByName(ctx, m, f).value.rule == 4
    ensures Rule9(ctx, m, f).Some? ==> Rule9(ctx, m, f).value.rule == 9
    ensures Rule34(ctx, m, f).Some? ==> Rule34(ctx, m, f).value.rule == if f.clientCands != {} then 3 else 4
  {
    ClientHitRule(ctx, 3);
    ClientHitRule(ctx, 4);
    ClientHitRule(ctx, 9);
    hide ClientHit, DefaultPick, ExistingPage, Pick, Votes, ClsSlug, ClsLabel, PageRelation, Also;
  }

  lemma LowerNumbers(ctx: Ctx, m: Meeting, f: Facts)
    ensures Rule5(ctx, f.externals).Some? ==> Rule5(ctx, f.externals).value.rule == 5
    ensures Rule6Org(ctx, m, f).Some? && Rule6Org(ctx, m, f).value.Resolved? ==> Rule6Org(ctx, m, f).value.home.rule == 6
    ensures Rule6New(ctx, m, f).Some? ==> Rule6New(ctx, m, f).value.rule == 6
    ensures Rule7(ctx, m, f).Some? ==> Rule7(ctx, m, f).value.rule in {7, 8}
    ensures Rule8(ctx, f).Some? ==> Rule8(ctx, f).value.rule == 8
  {
    Rule5Sound(ctx, f.externals);
    Rule7Number(ctx, m, f);
    hide Rule5, Rule7, Pick, PageRelation, Also;
  }

  lemma Rule7Number(ctx: Ctx, m: Meeting, f: Facts)
    ensures Rule7(ctx, m, f).Some? ==> Rule7(ctx, m, f).value.rule in {7, 8}
  {
    ClientHitRule(ctx, 7);
    hide ClientHit, NamedForRule7, FirstPerson, PersonSlug, Hard;
  }

  /** The rules in their order, with the numbers they report. */
  ghost predicate Silent(ctx: Ctx, m: Meeting, f: Facts, rule: nat) {
    && (rule != 13 ==> Rule13(ctx, m, f).None?)
    && (rule !in {13, 1} ==> Rule1(ctx, m, f).None?)
    && (rule !in {13, 1, 2} ==> Rule2(ctx, m, f).None?)
    && (rule !in {13, 1, 2, 11} ==> Rule11(ctx, m).None?)
    && (rule !in {13, 1, 2, 11, 10} ==> Rule10(ctx, m, f).None?)
    && (rule !in {13, 1, 2, 11, 10, 12} ==> Rule12(ctx, m, f).None?)
    && (rule !in {13, 1, 2, 11, 10, 12, 4} ==> Rule4ByName(ctx, m, f).None?)
    && (rule !in {13, 1, 2, 11, 10, 12, 4, 9} ==> Rule9(ctx, m, f).None?)
    && (rule in {5, 6, 7, 8} ==> f.clientCands == {} && f.byContact == {})
    && (rule in {6, 7, 8} ==> Rule5(ctx, f.externals).None?)
    && (rule in {7, 8} ==> OrgCands(f) == {} && f.unknown == {})
  }

  lemma UpperSilent(ctx: Ctx, m: Meeting, f: Facts)
    ensures var h := UpperRules(ctx, m, f);
      if h.Some? then h.value.rule in {13, 1, 2, 11, 10, 12} && Silent(ctx, m, f, h.value.rule)
      else Silent(ctx, m, f, 4)
  {
    UpperNumbers(ctx, m, f);
    hide Rule13, Rule1, Rule2, Rule11, Rule10, Rule12, Rule4ByName, Rule9, Rule5, OrgCands;
  }

  /** The reported number names the first rule that had an answer: every rule before it
      in the order 13, 1, 2, 11, 10, 12, 4 by name, 9, 3 or 4, 5, 6, 7, 8 had none. */
  lemma EarlierRulesAreSilent(ctx: Ctx, m: Meeting, ps: seq<Participant>)
    requires Resolve(ctx, m, ps).Resolved?
    ensures Silent(ctx, m, FactsOf(ctx, Externals(ctx, ps)), Resolve(ctx, m, ps).home.rule)
  {
    var f := FactsOf(ctx, Externals(ctx, ps));
    UpperSilent(ctx, m, f);
    ClientNumbers(ctx, m, f);
    LowerNumbers(ctx, m, f);
    NoDefault(ctx, m, f);
    hide FactsOf, Externals, Rule13, Rule1, Rule2, Rule11, Rule10, Rule12, Rule4ByName, Rule9, Rule34, Rule5, Rule7, Rule8;
  }

  lemma NoDefault(ctx: Ctx, m: Meeting, f: Facts)
    ensures Rule34(ctx, m, f).None? <==> f.clientCands == {} && f.byContact == {}
    ensures OrgCands(f) != {} <==> Rule6Org(ctx, m, f).Some?
    ensures f.unknown != {} <==> Rule6New(ctx, m, f).Some?
  {}

  // ------------------------------------------------------------ order of participants

  lemma {:induction false} CountRemove(ps: seq<Participant>, i: nat, f: Participant -> bool)
    requires i < |ps|
    ensures Count(ps, f) == (if f(ps[i]) then 1 else 0) + Count(ps[..i] + ps[i + 1..], f)
    decreases i
  {
    if i == 0 {
      assert ps[..0] + ps[1..] == ps[1..];
    } else {
      CountRemove(ps[1..], i - 1, f);
      var rest := ps[..i] + ps[i + 1..];
      assert rest[1..] == ps[1..][..i - 1] + ps[1..][i..];
    }
  }

  /** Counts do not depend on the order. */
  lemma {:induction false} CountPermutes(a: seq<Participant>, b: seq<Participant>, f: Participant -> bool)
    requires multiset(a) == multiset(b)
    ensures Count(a, f) == Count(b, f)
    decreases |a|
  {
    if a == [] {
      assert |multiset(b)| == |b|;
    } else {
      var i, rest := TakeOut(a, b);
      CountRemove(b, i, f);
      hide Count;
      CountPermutes(a[1..], rest, f);
      CountHead(a, f);
    }
  }

  lemma CountHead(ps: seq<Participant>, f: Participant -> bool)
    requires ps != []
    ensures Count(ps, f) == (if f(ps[0]) then 1 else 0) + Count(ps[1..], f)
  {}

  /** Taking the first of one list out of the other leaves permuted lists. */
  lemma TakeOut(a: seq<Participant>, b: seq<Participant>) returns (i: nat, rest: seq<Participant>)
    requires a != [] && multiset(a) == multiset(b)
    ensures i < |b| && b[i] == a[0] && rest == b[..i] + b[i + 1..] && multiset(a[1..]) == multiset(rest)
  {
    i := PlaceOf(a, b);
    rest := b[..i] + b[i + 1..];
    Remove(b, i);
    DropFirst(a);
  }

  lemma PlaceOf(a: seq<Participant>, b: seq<Participant>) returns (i: nat)
    requires a != [] && multiset(a) == multiset(b)
    ensures i < |b| && b[i] == a[0]
  {
    assert a[0] in multiset(a);
    i :| 0 <= i < |b| && b[i] == a[0];
  }

  lemma DropFirst(a: seq<Participant>)
    requires a != []
    ensures multiset(a[1..]) == multiset(a) - multiset{a[0]}
  {
    assert a == [a[0]] + a[1..];
  }

  lemma Remove(ps: seq<Participant>, i: nat)
    requires i < |ps|
    ensures multiset(ps[..i] + ps[i + 1..]) == multiset(ps) - multiset{ps[i]}
  {
    assert ps == ps[..i] + [ps[i]] + ps[i + 1..];
  }

  lemma SameMembers(a: seq<Participant>, b: seq<Participant>)
    requires multiset(a) == multiset(b)
    ensures |a| == |b| && forall p :: p in a <==> p in b
  {
    assert |multiset(a)| == |a| && |multiset(b)| == |b|;
    forall p ensures p in a <==> p in b { assert p in a <==> p in multiset(a); assert p in b <==> p in multiset(b); }
  }

  lemma {:induction false} ExternalsCount(ctx: Ctx, ps: seq<Participant>, p: Participant)
    ensures multiset(Externals(ctx, ps))[p] == if External(ctx, p) then multiset(ps)[p] else 0
    decreases |ps|
  {
    if ps != [] {
      ExternalsCount(ctx, ps[1..], p);
      assert ps == [ps[0]] + ps[1..];
    }
  }

  lemma ExternalsPermute(ctx: Ctx, a: seq<Participant>, b: seq<Participant>)
    requires multiset(a) == multiset(b)
    ensures multiset(Externals(ctx, a)) == multiset(Externals(ctx, b))
  {
    forall p ensures multiset(Externals(ctx, a))[p] == multiset(Externals(ctx, b))[p] {
      ExternalsCount(ctx, a, p);
      ExternalsCount(ctx, b, p);
    }
  }

  /** Two collections of facts that differ at most in the order of the participants
      and in which of several domains was written last. */
  ghost predicate Alike(f: Facts, g: Facts) {
    && multiset(f.externals) == multiset(g.externals)
    && g == f.(externals := g.externals, lastDomain := g.lastDomain)
  }

  lemma CountsPermute(a: seq<Participant>, b: seq<Participant>, f: Participant -> bool, l: Participant -> string)
    requires multiset(a) == multiset(b)
    ensures Counts(a, f, l) == Counts(b, f, l)
  {
    SameMembers(a, b);
    assert LabelsWhere(a, f, l) == LabelsWhere(b, f, l);
    forall s | s in LabelsWhere(a, f, l) ensures Counts(a, f, l)[s] == Counts(b, f, l)[s] {
      CountPermutes(a, b, p => f(p) && l(p) == s);
    }
  }

  lemma FactsPermute(ctx: Ctx, a: seq<Participant>, b: seq<Participant>)
    requires multiset(a) == multiset(b)
    ensures Alike(FactsOf(ctx, a), FactsOf(ctx, b))
  {
    SameMembers(a, b);
    var f, g := FactsOf(ctx, a), FactsOf(ctx, b);
    assert UnknownLabels(ctx, a) == UnknownLabels(ctx, b);
    CountsPermute(a, b, p => Unmapped(ctx, p), p => LabelOf(ctx, p));
    CountsPermute(a, b, p => Hard(ctx, p), p => LabelOf(ctx, p));
    assert f.unknownCount == g.unknownCount && f.labelCount == g.labelCount;
    SetsPermute(ctx, a, b);
  }

  lemma SetsPermute(ctx: Ctx, a: seq<Participant>, b: seq<Participant>)
    requires forall p :: p in a <==> p in b
    ensures HardSlugs(ctx, a, ctx.closed.clients) == HardSlugs(ctx, b, ctx.closed.clients)
    ensures HardSlugs(ctx, a, ctx.closed.orgs) == HardSlugs(ctx, b, ctx.closed.orgs)
    ensures ContactOrgs(ctx, a) == ContactOrgs(ctx, b) && ContactSlugs(ctx, a) == ContactSlugs(ctx, b)
    ensures NameOnlySlugs(ctx, a) == NameOnlySlugs(ctx, b) && DatedSlugs(ctx, a) == DatedSlugs(ctx, b)
  {}

  lemma VotesPermute(ctx: Ctx, a: seq<Participant>, b: seq<Participant>, cands: set<Slug>, s: Slug)
    requires multiset(a) == multiset(b)
    ensures Votes(ctx, a, cands, s) == Votes(ctx, b, cands, s)
  {
    CountPermutes(a, b, p => VoteOf(ctx, p, cands) == s);
  }

  /** The pick minimises over a key no two slugs share, so it does not depend on the order. */
  lemma PickPermutes(ctx: Ctx, cls: Classification, a: seq<Participant>, b: seq<Participant>, cands: set<Slug>)
    requires multiset(a) == multiset(b) && cands != {}
    ensures Pick(ctx, cls, a, cands) == Pick(ctx, cls, b, cands)
  {
    forall s ensures RankOf(ctx, cls, a, cands, s) == RankOf(ctx, cls, b, cands, s) { VotesPermute(ctx, a, b, cands, s); }
    var s := Pick(ctx, cls, b, cands);
    assert IsBest(ctx, cls, a, cands, s);
    BestUnique(ctx, cls, a, cands, s, Pick(ctx, cls, a, cands));
  }

  lemma UpperRulesPermute(ctx: Ctx, m: Meeting, f: Facts, g: Facts)
    requires Alike(f, g)
    ensures UpperRules(ctx, m, f) == UpperRules(ctx, m, g)
  {
    SameMembers(f.externals, g.externals);
    assert f.externals == [] <==> g.externals == [];
    assert Rule2(ctx, m, f) == Rule2(ctx, m, g);
    assert Rule13(ctx, m, f) == Rule13(ctx, m, g);
    Rule10Permutes(ctx, m, f, g);
    Rule12Permutes(ctx, m, f, g);
    hide Rule13, Rule2, Rule11, Rule10, Rule12;
  }

  lemma Rule10Permutes(ctx: Ctx, m: Meeting, f: Facts, g: Facts)
    requires Alike(f, g)
    ensures Rule10(ctx, m, f) == Rule10(ctx, m, g)
  {
    SameMembers(f.externals, g.externals);
    hide ClientHit, Declared, Sanitized, PageRelation, OrgHome;
  }

  lemma Rule12Permutes(ctx: Ctx, m: Meeting, f: Facts, g: Facts)
    requires Alike(f, g)
    ensures Rule12(ctx, m, f) == Rule12(ctx, m, g)
  {
    forall s ensures Votes(ctx, f.externals, f.clientCands, s) == Votes(ctx, g.externals, f.clientCands, s) {
      VotesPermute(ctx, f.externals, g.externals, f.clientCands, s);
    }
    assert Corroborated(ctx, f) <==> Corroborated(ctx, g);
    hide Corroborated, Votes, ClientHit, Declared, PageRelation;
  }

  lemma DefaultPickPermutes(ctx: Ctx, m: Meeting, f: Facts, g: Facts)
    requires Alike(f, g)
    ensures DefaultPick(ctx, m, f) == DefaultPick(ctx, m, g)
  {
    if f.clientCands != {} {
      PickPermutes(ctx, m.cls, f.externals, g.externals, f.clientCands);
    } else if f.byContact != {} {
      PickPermutes(ctx, m.cls, f.externals, g.externals, f.byContact);
    }
  }

  lemma ClientRulesPermute(ctx: Ctx, m: Meeting, f: Facts, g: Facts)
    requires Alike(f, g)
    ensures ClientRules(ctx, m, f) == ClientRules(ctx, m, g)
  {
    hide Pick, ExistingPage, ClientHit, Votes, ClsSlug, OrgHome;
    DefaultPickPermutes(ctx, m, f, g);
    if f.byNameOnly != {} { PickPermutes(ctx, m.cls, f.externals, g.externals, f.byNameOnly); }
    var pick := DefaultPick(ctx, m, f);
    if pick.Some? { VotesPermute(ctx, f.externals, g.externals, {pick.value}, pick.value); }
    assert Rule4ByName(ctx, m, f) == Rule4ByName(ctx, m, g);
    assert Rule9(ctx, m, f) == Rule9(ctx, m, g);
  }

  /** Rule 5 decides exactly when some free-mail participant is a known contact. */
  lemma {:induction false} Rule5Decides(ctx: Ctx, es: seq<Participant>)
    ensures Rule5(ctx, es).Some? <==> exists p :: p in es && FreeMailContact(ctx, p).Some?
    decreases |es|
  {
    if es != [] {
      Rule5Decides(ctx, es[1..]);
      if p :| p in es && FreeMailContact(ctx, p).Some? { assert p == es[0] || p in es[1..]; }
      assert es[0] in es;
    }
  }

  lemma {:induction false} FirstPersonDecides(ctx: Ctx, es: seq<Participant>)
    ensures FirstPerson(ctx, es).Some? <==> exists p :: p in es && !ctx.placeholder(p.name)
    decreases |es|
  {
    if es != [] {
      FirstPersonDecides(ctx, es[1..]);
      if p :| p in es && !ctx.placeholder(p.name) { assert p == es[0] || p in es[1..]; }
      assert es[0] in es;
    }
  }

  /** Which rule decides never depends on the order; the whole result does not
      either, unless it is rule 5 or 7. */
  ghost predicate SameDecision(o: Outcome, q: Outcome) {
    && (o.Resolved? <==> q.Resolved?)
    && (o.Resolved? ==> o.home.rule == q.home.rule)
    && (!(o.Resolved? && o.home.rule in {5, 7}) ==> o == q)
  }

  lemma Rule6Permutes(ctx: Ctx, m: Meeting, a: seq<Participant>, b: seq<Participant>)
    requires multiset(a) == multiset(b)
    ensures Rule6Org(ctx, m, FactsOf(ctx, a)) == Rule6Org(ctx, m, FactsOf(ctx, b))
    ensures Rule6New(ctx, m, FactsOf(ctx, a)) == Rule6New(ctx, m, FactsOf(ctx, b))
  {
    FactsPermute(ctx, a, b);
    var f, g := FactsOf(ctx, a), FactsOf(ctx, b);
    if OrgCands(f) != {} { PickPermutes(ctx, m.cls, a, b, OrgCands(f)); }
    if f.unknown != {} {
      UnknownLabelIsNoPage(ctx, a, TopLabel(f.unknownCount, f.unknown));
    }
  }

  lemma Rule7Permutes(ctx: Ctx, m: Meeting, f: Facts, g: Facts)
    requires Alike(f, g)
    ensures var h, k := Rule7(ctx, m, f), Rule7(ctx, m, g);
      && (h.Some? <==> k.Some?) && (h.Some? ==> h.value.rule == k.value.rule && h.value.rule in {7, 8})
      && (h.Some? && h.value.rule == 8 ==> h == k)
  {
    SameMembers(f.externals, g.externals);
    FirstPersonDecides(ctx, f.externals);
    FirstPersonDecides(ctx, g.externals);
    assert (exists p :: p in f.externals && Hard(ctx, p)) <==> exists p :: p in g.externals && Hard(ctx, p);
    assert f.externals == [] <==> g.externals == [];
    var named := NamedForRule7(ctx, m.cls.orgName);
    if named.Some? && named.value.client {
      assert ClientHit(ctx, named.value.slug, 7).rule == 7;
    }
  }

  lemma LowerRulesPermute(ctx: Ctx, m: Meeting, a: seq<Participant>, b: seq<Participant>)
    requires multiset(a) == multiset(b)
    ensures SameDecision(LowerRules(ctx, m, FactsOf(ctx, a)), LowerRules(ctx, m, FactsOf(ctx, b)))
  {
    var f, g := FactsOf(ctx, a), FactsOf(ctx, b);
    SameMembers(a, b);
    FactsPermute(ctx, a, b);
    Rule5Decides(ctx, a);
    Rule5Decides(ctx, b);
    Rule5Sound(ctx, a);
    Rule5Sound(ctx, b);
    Rule6Permutes(ctx, m, a, b);
    Rule7Permutes(ctx, m, f, g);
    assert f.externals == [] <==> g.externals == [];
  }

  /** Permuting the participants of a meeting. */
  lemma OrderDoesNotMatter(ctx: Ctx, m: Meeting, ps: seq<Participant>, qs: seq<Participant>)
    requires multiset(ps) == multiset(qs)
    ensures SameDecision(Resolve(ctx, m, ps), Resolve(ctx, m, qs))
  {
    SameMembers(ps, qs);
    ExternalsPermute(ctx, ps, qs);
    var a, b := Externals(ctx, ps), Externals(ctx, qs);
    FactsPermute(ctx, a, b);
    UpperRulesPermute(ctx, m, FactsOf(ctx, a), FactsOf(ctx, b));
    ClientRulesPermute(ctx, m, FactsOf(ctx, a), FactsOf(ctx, b));
    LowerRulesPermute(ctx, m, a, b);
    assert ps == [] <==> qs == [];
  }
}
