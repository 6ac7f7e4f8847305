/** What each rule of the resolver decides, in terms of the participants, the pages and
    the nodes: when it has an answer, which one, and what that prefers. */
module ResolverRules {
  import opened Common
  import opened Resolver
  import opened ResolverLadder
  import opened ResolverTheorems

  // ------------------------------------------------------------ addresses

  /** What follows the first `@`. */
  lemma {:induction false} AddressSplits(s: string) returns (local: string)
    requires HasAt(s)
    ensures '@' !in local && s == local + "@" + AfterAt(s)
  {
    if s[0] == '@' {
      local := "";
      assert s == "@" + s[1..];
    } else {
      assert s == [s[0]] + s[1..];
      var rest := AddressSplits(s[1..]);
      local := [s[0]] + rest;
      assert s == [s[0]] + (rest + "@" + AfterAt(s[1..])) == local + "@" + AfterAt(s);
    }
  }

  /** What follows the last dot. */
  lemma {:induction false} DomainSplits(s: string) returns (front: string)
    ensures '.' !in LastLabel(s) && s == front + LastLabel(s) && (front == "" || front[|front| - 1] == '.') && ('.' in s ==> front != "")
  {
    if '.' in s {
      assert s == [s[0]] + s[1..];
      var rest := DomainSplits(s[1..]);
      front := [s[0]] + rest;
      assert s == front + LastLabel(s);
    } else {
      front := "";
    }
  }

  // ------------------------------------------------------------ votes

  lemma {:induction false} CountAppends(a: seq<Participant>, p: Participant, f: Participant -> bool)
    ensures Count(a + [p], f) == Count(a, f) + if f(p) then 1 else 0
    decreases |a|
  {
    if a == [] {
      assert [p][1..] == [] && a + [p] == [p];
    } else {
      assert (a + [p])[1..] == a[1..] + [p];
      CountAppends(a[1..], p, f);
    }
  }

  ghost function Indices(es: seq<Participant>, f: Participant -> bool): set<int> {
    set i | 0 <= i < |es| && f(es[i])
  }

  lemma IndicesGrow(a: seq<Participant>, p: Participant, f: Participant -> bool)
    ensures |Indices(a + [p], f)| == |Indices(a, f)| + if f(p) then 1 else 0
  {
    assert Indices(a + [p], f) == Indices(a, f) + if f(p) then {|a|} else {};
  }

  /** A count is the number of places where the condition holds. */
  lemma {:induction false} CountIs(es: seq<Participant>, f: Participant -> bool)
    ensures Count(es, f) == |Indices(es, f)|
    decreases |es|
  {
    if es == [] {
      assert Indices(es, f) == {};
    } else {
      var n := |es| - 1;
      CountIs(es[..n], f);
      CountAppends(es[..n], es[n], f);
      IndicesGrow(es[..n], es[n], f);
      assert es == es[..n] + [es[n]];
      hide *;
    }
  }

  /** A participant speaks for a candidate: by what the domain is mapped to, else by its
      own label. */
  predicate SpeaksFor(ctx: Ctx, p: Participant, cands: set<Slug>, s: Slug) {
    Hard(ctx, p) && if Mapped(ctx, p) in cands then Mapped(ctx, p) == s else LabelOf(ctx, p) == s
  }

  ghost function Support(ctx: Ctx, es: seq<Participant>, cands: set<Slug>, s: Slug): nat {
    |set i | 0 <= i < |es| && SpeaksFor(ctx, es[i], cands, s)|
  }

  lemma VotesAreSupport(ctx: Ctx, es: seq<Participant>, cands: set<Slug>, s: Slug)
    requires s in cands && s != ""
    ensures Votes(ctx, es, cands, s) == Support(ctx, es, cands, s)
  {
    var votes := p => VoteOf(ctx, p, cands) == s;
    CountIs(es, votes);
    assert (set i | 0 <= i < |es| && SpeaksFor(ctx, es[i], cands, s)) == Indices(es, votes);
  }

  // ------------------------------------------------------------ which candidate is preferred

  predicate ClientLike(ctx: Ctx, s: Slug) {
    s in ctx.closed.clients || (s in ctx.closed.orgs && ctx.closed.relationOf(s) == Some("client"))
  }

  /** The classification names this slug, by its domain or by its organisation. */
  predicate NamedByClass(ctx: Ctx, cls: Classification, s: Slug) {
    s != "" && ((cls.domain != "" && s == ctx.registrable(cls.domain)) || (cls.orgName != "" && s == ctx.slugify(cls.orgName)))
  }

  ghost predicate Alphabetical(a: string, b: string) {
    exists k :: 0 <= k <= |a| && k <= |b| && a[..k] == b[..k] && k < |b| && (k == |a| || a[k] < b[k])
  }

  lemma {:induction false} LexIsAlphabetical(a: string, b: string)
    ensures LexLess(a, b) <==> Alphabetical(a, b)
    decreases |a|
  {
    if a != "" && b != "" && a[0] == b[0] {
      LexIsAlphabetical(a[1..], b[1..]);
      if k :| 0 <= k <= |a| && k <= |b| && a[..k] == b[..k] && k < |b| && (k == |a| || a[k] < b[k]) {
        assert k > 0 && a[1..][..k - 1] == a[..k][1..] && b[1..][..k - 1] == b[..k][1..];
        assert Alphabetical(a[1..], b[1..]);
      }
      if k :| 0 <= k <= |a[1..]| && k <= |b[1..]| && a[1..][..k] == b[1..][..k] && k < |b[1..]| && (k == |a[1..]| || a[1..][k] < b[1..][k]) {
        assert a[..k + 1] == [a[0]] + a[1..][..k] && b[..k + 1] == [b[0]] + b[1..][..k];
        assert Alphabetical(a, b);
      }
    } else if b != "" && (a == "" || a[0] < b[0]) {
      assert a[..0] == b[..0];
    }
  }

  /** `s` is preferred to `t`: client pages first, then more participants, then the one
      the classification names, then more open nodes, then the alphabet. */
  ghost predicate Preferred(ctx: Ctx, cls: Classification, es: seq<Participant>, cands: set<Slug>, s: Slug, t: Slug) {
    var votes, rivals := Votes(ctx, es, cands, s), Votes(ctx, es, cands, t);
    var open, others := |OpenNodes(ctx.closed.nodes, s)|, |OpenNodes(ctx.closed.nodes, t)|;
    if ClientLike(ctx, s) != ClientLike(ctx, t) then ClientLike(ctx, s)
    else if votes != rivals then votes > rivals
    else if NamedByClass(ctx, cls, s) != NamedByClass(ctx, cls, t) then NamedByClass(ctx, cls, s)
    else if open != others then open > others
    else Alphabetical(s, t)
  }

  lemma ClassMatchIs(ctx: Ctx, cls: Classification, s: Slug)
    ensures ClsMatch(ctx, cls, s) <==> NamedByClass(ctx, cls, s)
  {}

  lemma PickPrefers(ctx: Ctx, cls: Classification, es: seq<Participant>, cands: set<Slug>, t: Slug)
    requires cands != {} && t in cands
    ensures var s := Pick(ctx, cls, es, cands); s in cands && (t != s ==> Preferred(ctx, cls, es, cands, s, t))
  {
    var s := Pick(ctx, cls, es, cands);
    ClassMatchIs(ctx, cls, s);
    ClassMatchIs(ctx, cls, t);
    LexIsAlphabetical(s, t);
    assert IsBest(ctx, cls, es, cands, s);
    if t != s { assert Before(RankOf(ctx, cls, es, cands, s), s, RankOf(ctx, cls, es, cands, t), t); }
    hide Pick, ClsMatch, NamedByClass, LexLess, Alphabetical, Votes, OpenNodes;
  }

  lemma {:induction false} OpenNodesAppend(a: seq<Node>, n: Node, client: Slug)
    ensures OpenNodes(a + [n], client) == OpenNodes(a, client) + if OpenNode(n, client) then [n] else []
    decreases |a|
  {
    if a == [] {
      assert [n][1..] == [] && a + [n] == [n];
    } else {
      assert (a + [n])[1..] == a[1..] + [n];
      OpenNodesAppend(a[1..], n, client);
    }
  }

  /** A node of this client in scoping, active or paused. */
  predicate InProgress(n: Node, client: Slug) {
    n.client == client && n.state in {"scoping", "active", "paused"}
  }

  lemma OpenIsInProgress(n: Node, client: Slug)
    ensures OpenNode(n, client) <==> InProgress(n, client)
  {}

  ghost function Places(nodes: seq<Node>, client: Slug): set<int> {
    set i | 0 <= i < |nodes| && InProgress(nodes[i], client)
  }

  lemma PlacesGrow(a: seq<Node>, n: Node, client: Slug)
    ensures |Places(a + [n], client)| == |Places(a, client)| + if InProgress(n, client) then 1 else 0
  {
    hide InProgress;
    assert Places(a + [n], client) == Places(a, client) + if InProgress(n, client) then {|a|} else {};
  }

  lemma {:induction false} OpenNodesCount(nodes: seq<Node>, client: Slug)
    ensures |OpenNodes(nodes, client)| == |Places(nodes, client)|
    decreases |nodes|
  {
    if nodes == [] {
      assert Places(nodes, client) == {};
    } else {
      var n := |nodes| - 1;
      OpenNodesCount(nodes[..n], client);
      OpenNodesAppend(nodes[..n], nodes[n], client);
      OpenIsInProgress(nodes[n], client);
      PlacesGrow(nodes[..n], nodes[n], client);
      assert nodes == nodes[..n] + [nodes[n]];
      hide *;
    }
  }

  /** Who a company address names: the page its domain is mapped to, or the page of the
      domain's own label. */
  ghost predicate PointsTo(ctx: Ctx, ps: seq<Participant>, s: Slug) {
    exists p :: p in ps && External(ctx, p) && Hard(ctx, p) && (Mapped(ctx, p) == s || LabelOf(ctx, p) == s)
  }

  lemma {:induction false} ExternalsAre(ctx: Ctx, ps: seq<Participant>, p: Participant)
    ensures p in Externals(ctx, ps) <==> p in ps && !p.notetaker && !(ctx.norm(p.name) != "" && ctx.norm(p.name) in ctx.roster)
                                         && (p.side == "theirs" || (p.side == "unknown" && p.spoke))
    decreases |ps|
  {
    if ps != [] { ExternalsAre(ctx, ps[1..], p); assert ps == [ps[0]] + ps[1..]; }
  }

  lemma PointedAt(ctx: Ctx, ps: seq<Participant>, s: Slug, pages: seq<Slug>)
    ensures s in HardSlugs(ctx, Externals(ctx, ps), pages) <==> s in pages && PointsTo(ctx, ps, s)
  {
    var es := Externals(ctx, ps);
    forall p ensures p in es <==> p in ps && External(ctx, p) { ExternalsAre(ctx, ps, p); }
    hide Externals, External, Hard, Mapped, LabelOf;
    if PointsTo(ctx, ps, s) {
      var p :| p in ps && External(ctx, p) && Hard(ctx, p) && (Mapped(ctx, p) == s || LabelOf(ctx, p) == s);
      assert p in es;
    }
  }

  /** Somebody external has a company address under this label, which is no page and is
      not mapped to one. */
  ghost predicate NobodyKnows(ctx: Ctx, ps: seq<Participant>, s: string) {
    !IsPage(ctx, s) && exists p :: p in ps && External(ctx, p) && Hard(ctx, p) && LabelOf(ctx, p) == s && !IsPage(ctx, Mapped(ctx, p))
  }

  lemma UnknownIs(ctx: Ctx, ps: seq<Participant>, s: string)
    ensures s in UnknownLabels(ctx, Externals(ctx, ps)) <==> NobodyKnows(ctx, ps, s)
  {
    var es := Externals(ctx, ps);
    forall p ensures p in es <==> p in ps && External(ctx, p) { ExternalsAre(ctx, ps, p); }
    hide Externals, External, Hard, Mapped, LabelOf, IsPage;
    if NobodyKnows(ctx, ps, s) {
      var p :| p in ps && External(ctx, p) && Hard(ctx, p) && LabelOf(ctx, p) == s && !IsPage(ctx, Mapped(ctx, p));
      assert p in es;
    }
  }

  /** The candidates are exactly the existing pages the company addresses of the external
      participants point to; the unknown labels those where they point to no page at all. */
  lemma CandidatesAre(ctx: Ctx, ps: seq<Participant>, s: Slug)
    ensures var f := FactsOf(ctx, Externals(ctx, ps));
      && (s in f.clientCands <==> s in ctx.closed.clients && PointsTo(ctx, ps, s))
      && (s in f.domainOrgs <==> s in ctx.closed.orgs && PointsTo(ctx, ps, s))
      && (s in f.unknown <==> NobodyKnows(ctx, ps, s))
  {
    PointedAt(ctx, ps, s, ctx.closed.clients);
    PointedAt(ctx, ps, s, ctx.closed.orgs);
    UnknownIs(ctx, ps, s);
    hide PointsTo, HardSlugs, UnknownLabels, Externals, NobodyKnows;
  }

  // ------------------------------------------------------------ addresses and contacts

  /** The address is a name, an at sign and this domain. */
  ghost predicate At(p: Participant, domain: string) {
    exists local: string :: '@' !in local && p.email == local + "@" + domain
  }

  /** A company address is one whose domain, in lower case, is no free-mail domain; its
      label and its page are looked up from that. */
  lemma CompanyAddressIs(ctx: Ctx, p: Participant, domain: string)
    requires At(p, domain)
    ensures Hard(ctx, p) <==> ctx.lower(domain) !in ctx.freeMail
    ensures LabelOf(ctx, p) == ctx.registrable(ctx.lower(domain))
    ensures var known := ctx.domainMap; var lab, full := ctx.registrable(ctx.lower(domain)), ctx.lower(domain);
      Mapped(ctx, p) == if lab in known && known[lab] != "" then known[lab] else if full in known then known[full] else ""
  {
    var local: string :| '@' !in local && p.email == local + "@" + domain;
    AfterLocal(local, domain);
    assert p.email[|local|] == '@';
  }

  lemma {:induction false} AfterLocal(local: string, domain: string)
    requires '@' !in local
    ensures AfterAt(local + "@" + domain) == domain
    decreases |local|
  {
    var s := local + "@" + domain;
    if local == "" {
      assert s == ['@'] + domain && s[1..] == domain;
    } else {
      assert s[0] == local[0] && s[0] in local;
      assert s[1..] == local[1..] + "@" + domain;
      AfterLocal(local[1..], domain);
    }
  }

  /** Without an at sign there is no company address. */
  lemma NoAddressIsNoCompany(ctx: Ctx, p: Participant)
    ensures '@' in p.email <==> exists domain :: At(p, domain)
    ensures '@' !in p.email ==> !Hard(ctx, p) && !Free(ctx, p)
  {
    if '@' in p.email {
      var local := AddressSplits(p.email);
      assert At(p, AfterAt(p.email));
    }
    if domain :| At(p, domain) {
      var local: string :| '@' !in local && p.email == local + "@" + domain;
      assert p.email[|local|] == '@';
    }
  }

  /** Where an identified person works: the employer on the meeting's date, or else the
      company on the contact row. */
  ghost predicate WorksAt(ctx: Ctx, p: Participant, s: Slug) {
    ctx.identify(p).Some? && s != "" &&
    var row := ctx.identify(p).value;
    if ctx.datedEmployer(row).Some? && ctx.datedEmployer(row) != Some("") then ctx.datedEmployer(row) == Some(s) else ctx.companySlug(row.company) == Some(s)
  }

  lemma ContactSlugIs(ctx: Ctx, p: Participant, s: Slug)
    ensures ContactSlug(ctx, p) == Some(s) <==> WorksAt(ctx, p, s)
  {}

  /** The clients and orgs contacts bring in: a client for anybody identified, by name only
      for those without an address, an org only for those whose own address is on the row;
      and which of these are dated. */
  lemma ContactsAre(ctx: Ctx, ps: seq<Participant>, s: Slug)
    ensures var es := Externals(ctx, ps); var f := FactsOf(ctx, es);
      && (s in f.byContact <==> s in ctx.closed.clients && exists p :: p in es && WorksAt(ctx, p, s))
      && (s in f.byNameOnly <==> s in ctx.closed.clients && exists p :: p in es && WorksAt(ctx, p, s) && '@' !in p.email)
      && (s in f.contactOrgs <==> s in ctx.closed.orgs && exists p :: p in es && WorksAt(ctx, p, s) && OwnAddress(ctx, p))
      && (s in f.dated <==> s != "" && exists p :: p in es && ctx.identify(p).Some? && ctx.datedEmployer(ctx.identify(p).value) == Some(s))
  {
    var es := Externals(ctx, ps);
    forall p ensures ContactSlug(ctx, p) == Some(s) <==> WorksAt(ctx, p, s) { ContactSlugIs(ctx, p, s); }
    forall p ensures EmailMatched(ctx, p) <==> OwnAddress(ctx, p) { OwnAddressIs(ctx, p); }
    hide Externals, ContactSlug, WorksAt, EmailMatched, OwnAddress;
  }

  /** The address the person joined with is on the contact row, in any case. */
  ghost predicate OwnAddress(ctx: Ctx, p: Participant) {
    '@' in p.email && ctx.identify(p).Some? && exists e :: e in ctx.identify(p).value.emails && ctx.lower(e) == ctx.address(p.email)
  }

  lemma OwnAddressIs(ctx: Ctx, p: Participant)
    ensures EmailMatched(ctx, p) <==> OwnAddress(ctx, p)
  {
    if EmailMatched(ctx, p) {
      var row := ctx.identify(p).value;
      var i :| 0 <= i < |row.emails| && ctx.lower(row.emails[i]) == ctx.address(p.email);
      assert row.emails[i] in row.emails;
    }
  }

  /** The count behind an unknown label: the places of external participants who have a
      company address under it that names no page. */
  ghost function Strangers(ctx: Ctx, es: seq<Participant>, lab: string): set<int> {
    set i | 0 <= i < |es| && Hard(ctx, es[i]) && LabelOf(ctx, es[i]) == lab && !IsPage(ctx, lab) && !IsPage(ctx, Mapped(ctx, es[i]))
  }

  lemma UnknownCountIs(ctx: Ctx, es: seq<Participant>, lab: string)
    requires lab in FactsOf(ctx, es).unknownCount
    ensures FactsOf(ctx, es).unknownCount[lab] == |Strangers(ctx, es, lab)|
  {
    assert FactsOf(ctx, es).unknownCount == UnknownCounts(ctx, es);
    hide FactsOf;
    UnknownCountFolds(ctx, es, lab);
    var there := p => Unmapped(ctx, p) && LabelOf(ctx, p) == lab;
    CountIs(es, there);
    hide Hard, LabelOf, Mapped, IsPage, UnknownCounts;
    assert Strangers(ctx, es, lab) == Indices(es, there);
  }

  lemma UnknownCountFolds(ctx: Ctx, es: seq<Participant>, lab: string)
    requires lab in UnknownCounts(ctx, es)
    ensures UnknownCounts(ctx, es)[lab] == Count(es, p => Unmapped(ctx, p) && LabelOf(ctx, p) == lab)
  {
    CountSame(es, p => (q => Unmapped(ctx, q))(p) && (q => LabelOf(ctx, q))(p) == lab, p => Unmapped(ctx, p) && LabelOf(ctx, p) == lab);
  }

  lemma {:induction false} CountSame(es: seq<Participant>, f: Participant -> bool, g: Participant -> bool)
    requires forall p :: f(p) <==> g(p)
    ensures Count(es, f) == Count(es, g)
    decreases |es|
  {
    if es != [] { CountSame(es[1..], f, g); }
  }

  // ------------------------------------------------------------ rules 3 and 6 on the whole ladder

  /** When rule 3 decides, the home is a client that company addresses point to, and it is
      preferred to every other such client; so none has more participants behind it. */
  lemma Rule3TakesTheMajority(ctx: Ctx, m: Meeting, ps: seq<Participant>, t: Slug)
    requires var o := Resolve(ctx, m, ps); o.Resolved? && o.home.rule == 3
    ensures var f := FactsOf(ctx, Externals(ctx, ps)); var s := Resolve(ctx, m, ps).home.slug;
      && s in ctx.closed.clients && PointsTo(ctx, ps, s)
      && (t in ctx.closed.clients && PointsTo(ctx, ps, t) && t != s ==>
            && Preferred(ctx, m.cls, f.externals, f.clientCands, s, t)
            && Votes(ctx, f.externals, f.clientCands, s) >= Votes(ctx, f.externals, f.clientCands, t))
  {
    var f := FactsOf(ctx, Externals(ctx, ps));
    var s := Resolve(ctx, m, ps).home.slug;
    FactsOnPages(ctx, Externals(ctx, ps));
    DecidedBy3(ctx, m, f);
    CandidatesAre(ctx, ps, s);
    CandidatesAre(ctx, ps, t);
    hide FactsOf, Externals, Ladder, OnPages, PointsTo;
    ThePickIsPreferred(ctx, m.cls, f.externals, f.clientCands, s, t);
  }

  lemma ThePickIsPreferred(ctx: Ctx, cls: Classification, es: seq<Participant>, cands: set<Slug>, s: Slug, t: Slug)
    requires cands != {} && s == Pick(ctx, cls, es, cands)
    ensures s in cands
    ensures t in cands && t != s ==> Preferred(ctx, cls, es, cands, s, t)
    ensures t in cands && t != s && ClientLike(ctx, s) && ClientLike(ctx, t) ==> Votes(ctx, es, cands, s) >= Votes(ctx, es, cands, t)
  {
    if t in cands { PickPrefers(ctx, cls, es, cands, t); } else { PickPrefers(ctx, cls, es, cands, s); }
    hide Votes, OpenNodes, NamedByClass, Alphabetical, Pick, ClientLike;
  }

  lemma DecidedBy3(ctx: Ctx, m: Meeting, f: Facts)
    requires Ladder(ctx, m, f).Resolved? && Ladder(ctx, m, f).home.rule == 3
    ensures f.clientCands != {} && (OnPages(ctx, f) ==> Ladder(ctx, m, f).home.slug == Pick(ctx, m.cls, f.externals, f.clientCands))
  {
    UpperNumbers(ctx, m, f);
    ClientNumbers(ctx, m, f);
    LowerNumbers(ctx, m, f);
    if OnPages(ctx, f) && f.clientCands != {} { ClientHitSound(ctx, Pick(ctx, m.cls, f.externals, f.clientCands), 3); }
    hide Rule13, Rule1, Rule2, Rule11, Rule10, Rule12, Rule4ByName, Rule9, Rule5, Rule6Org, Rule6New, Rule7, Rule8, Pick, ClientHit;
  }

  lemma DecidedBy6(ctx: Ctx, m: Meeting, f: Facts)
    requires Ladder(ctx, m, f).Resolved? && Ladder(ctx, m, f).home.rule == 6
    ensures f.clientCands == {} && f.byContact == {}
    ensures OrgCands(f) != {} ==> Ladder(ctx, m, f).home.slug == Pick(ctx, m.cls, f.externals, OrgCands(f))
    ensures OrgCands(f) == {} ==> f.unknown != {} && Rule6New(ctx, m, f) == Some(Ladder(ctx, m, f).home)
  {
    UpperNumbers(ctx, m, f);
    ClientNumbers(ctx, m, f);
    LowerNumbers(ctx, m, f);
    NoDefault(ctx, m, f);
    hide Rule13, Rule1, Rule2, Rule11, Rule10, Rule12, Rule4ByName, Rule9, Rule34, Rule5, Rule6New, Rule7, Rule8, Pick;
  }

  lemma TopLabelIsMostFrequent(counts: map<string, nat>, labels: set<string>, t: string)
    requires labels != {} && t in labels
    ensures var s := TopLabel(counts, labels);
      s in labels && (s in counts && t in counts && t != s ==> counts[s] > counts[t] || (counts[s] == counts[t] && Alphabetical(s, t)))
  {
    LexIsAlphabetical(TopLabel(counts, labels), t);
    assert IsTopLabel(counts, labels, TopLabel(counts, labels));
    hide Alphabetical;
  }

  lemma CountedAreUnknown(ctx: Ctx, es: seq<Participant>)
    ensures FactsOf(ctx, es).unknownCount.Keys == FactsOf(ctx, es).unknown
  {}

  /** More participants, or as many and the earlier name. */
  ghost predicate MoreFrequent(counts: map<string, nat>, s: string, t: string) {
    s in counts && (t in counts && t != s ==> counts[s] > counts[t] || (counts[s] == counts[t] && Alphabetical(s, t)))
  }

  lemma Rule6TakesTheTop(ctx: Ctx, m: Meeting, es: seq<Participant>, t: Slug)
    requires FactsOf(ctx, es).unknown != {}
    ensures var f := FactsOf(ctx, es); Rule6New(ctx, m, f).Some? && MoreFrequent(f.unknownCount, Rule6New(ctx, m, f).value.slug, t)
  {
    hide *;
    var f := FactsOf(ctx, es);
    CountedAreUnknown(ctx, es);
    Rule6FilesUnderLabel(ctx, m, es);
    TopIsMoreFrequent(f.unknownCount, f.unknown, t);
  }

  lemma TopIsMoreFrequent(counts: map<string, nat>, labels: set<string>, t: string)
    requires labels != {} && counts.Keys == labels
    ensures MoreFrequent(counts, TopLabel(counts, labels), t)
  {
    if t in labels {
      TopLabelIsMostFrequent(counts, labels, t);
    } else {
      assert IsTopLabel(counts, labels, TopLabel(counts, labels));
    }
    hide Alphabetical, TopLabel;
  }

  /** When rule 6 decides, no client is a candidate.  With org pages in question the home
      is the preferred one; else it is the unknown label most participants have, the
      first in the alphabet among equals. */
  lemma Rule6TakesTheMajority(ctx: Ctx, m: Meeting, ps: seq<Participant>, t: Slug)
    requires var o := Resolve(ctx, m, ps); o.Resolved? && o.home.rule == 6
    ensures var f := FactsOf(ctx, Externals(ctx, ps)); var s := Resolve(ctx, m, ps).home.slug;
      && f.clientCands == {} && f.byContact == {} && f.unknownCount.Keys == f.unknown
      && if OrgCands(f) != {} then
           s in OrgCands(f) && (t in OrgCands(f) && t != s ==> Preferred(ctx, m.cls, f.externals, OrgCands(f), s, t))
         else MoreFrequent(f.unknownCount, s, t)
  {
    var es := Externals(ctx, ps);
    var f := FactsOf(ctx, es);
    assert Resolve(ctx, m, ps) == Ladder(ctx, m, f) && f.externals == es;
    hide *;
    DecidedBy6(ctx, m, f);
    CountedAreUnknown(ctx, es);
    if OrgCands(f) != {} { ThePickIsPreferred(ctx, m.cls, es, OrgCands(f), Ladder(ctx, m, f).home.slug, t); } else { Rule6TakesTheTop(ctx, m, es, t); }
  }

  // ------------------------------------------------------------ nodes and pages looked up

  /** The first node whose id the title names. */
  ghost predicate TitledFirst(ctx: Ctx, nodes: seq<Node>, title: string, k: nat) {
    k < |nodes| && ctx.inTitle(title, nodes[k].id) && forall j :: 0 <= j < k ==> !ctx.inTitle(title, nodes[j].id)
  }

  lemma {:induction false} FirstTitledIs(ctx: Ctx, nodes: seq<Node>, title: string)
    ensures match FirstTitled(ctx, nodes, title)
      case None => forall k :: 0 <= k < |nodes| ==> !ctx.inTitle(title, nodes[k].id)
      case Some(n) => exists k: nat :: TitledFirst(ctx, nodes, title, k) && nodes[k] == n
    decreases |nodes|
  {
    if nodes != [] {
      if ctx.inTitle(title, nodes[0].id) {
        assert TitledFirst(ctx, nodes, title, 0);
      } else {
        FirstTitledIs(ctx, nodes[1..], title);
        if FirstTitled(ctx, nodes[1..], title).Some? {
          var k: nat :| TitledFirst(ctx, nodes[1..], title, k) && nodes[1..][k] == FirstTitled(ctx, nodes[1..], title).value;
          assert TitledFirst(ctx, nodes, title, k + 1) && nodes[k + 1] == nodes[1..][k];
        } else {
          forall k | 0 <= k < |nodes| ensures !ctx.inTitle(title, nodes[k].id) { if k > 0 { assert nodes[1..][k - 1] == nodes[k]; } }
        }
      }
    }
  }

  /** The only node with an alias in the title. */
  ghost predicate AliasedOnly(ctx: Ctx, nodes: seq<Node>, title: string, k: nat) {
    k < |nodes| && ctx.aliasInTitle(title, nodes[k].id) && forall j :: 0 <= j < |nodes| && j != k ==> !ctx.aliasInTitle(title, nodes[j].id)
  }

  lemma {:induction false} AliasedNone(ctx: Ctx, nodes: seq<Node>, title: string)
    ensures Aliased(ctx, nodes, title) == [] <==> forall k :: 0 <= k < |nodes| ==> !ctx.aliasInTitle(title, nodes[k].id)
    decreases |nodes|
  {
    if nodes != [] {
      AliasedNone(ctx, nodes[1..], title);
      assert forall k :: 0 < k < |nodes| ==> nodes[k] == nodes[1..][k - 1];
    }
  }

  lemma {:induction false} AliasedOne(ctx: Ctx, nodes: seq<Node>, title: string)
    ensures |Aliased(ctx, nodes, title)| == 1 <==> exists k: nat :: AliasedOnly(ctx, nodes, title, k)
    ensures |Aliased(ctx, nodes, title)| == 1 ==> exists k: nat :: AliasedOnly(ctx, nodes, title, k) && nodes[k] == Aliased(ctx, nodes, title)[0]
    decreases |nodes|
  {
    if nodes != [] {
      var rest := nodes[1..];
      assert forall k :: 0 <= k < |rest| ==> rest[k] == nodes[k + 1];
      if ctx.aliasInTitle(title, nodes[0].id) {
        AliasedNone(ctx, rest, title);
        if Aliased(ctx, rest, title) == [] { assert AliasedOnly(ctx, nodes, title, 0); }
        if k: nat :| AliasedOnly(ctx, nodes, title, k) { forall j | 0 <= j < |rest| ensures !ctx.aliasInTitle(title, rest[j].id) { assert k == 0; } }
      } else {
        AliasedOne(ctx, rest, title);
        if k: nat :| AliasedOnly(ctx, rest, title, k) && (|Aliased(ctx, rest, title)| == 1 ==> rest[k] == Aliased(ctx, rest, title)[0]) {
          assert AliasedOnly(ctx, nodes, title, k + 1);
        }
        if k: nat :| AliasedOnly(ctx, nodes, title, k) { assert AliasedOnly(ctx, rest, title, k - 1); }
      }
    }
  }

  /** The client's only node in progress. */
  ghost predicate InProgressOnly(nodes: seq<Node>, client: Slug, k: nat) {
    k < |nodes| && InProgress(nodes[k], client) && forall j :: 0 <= j < |nodes| && j != k ==> !InProgress(nodes[j], client)
  }

  lemma {:induction false} OpenNone(nodes: seq<Node>, client: Slug)
    ensures OpenNodes(nodes, client) == [] <==> forall k :: 0 <= k < |nodes| ==> !InProgress(nodes[k], client)
    decreases |nodes|
  {
    if nodes != [] {
      OpenNone(nodes[1..], client);
      OpenIsInProgress(nodes[0], client);
      assert forall k :: 0 < k < |nodes| ==> nodes[k] == nodes[1..][k - 1];
      hide OpenNode, InProgress;
    }
  }

  lemma {:induction false} OpenOne(nodes: seq<Node>, client: Slug)
    ensures |OpenNodes(nodes, client)| == 1 <==> exists k: nat :: InProgressOnly(nodes, client, k)
    ensures |OpenNodes(nodes, client)| == 1 ==> exists k: nat :: InProgressOnly(nodes, client, k) && nodes[k] == OpenNodes(nodes, client)[0]
    decreases |nodes|
  {
    if nodes != [] {
      var rest := nodes[1..];
      assert forall k :: 0 <= k < |rest| ==> rest[k] == nodes[k + 1];
      OpenIsInProgress(nodes[0], client);
      OpenNone(rest, client);
      OpenOne(rest, client);
      hide OpenNode, InProgress;
      if InProgress(nodes[0], client) {
        if OpenNodes(rest, client) == [] { assert InProgressOnly(nodes, client, 0); }
        if k: nat :| InProgressOnly(nodes, client, k) { forall j | 0 <= j < |rest| ensures !InProgress(rest[j], client) { assert k == 0; } }
      } else {
        if k: nat :| InProgressOnly(rest, client, k) && (|OpenNodes(rest, client)| == 1 ==> rest[k] == OpenNodes(rest, client)[0]) {
          assert InProgressOnly(nodes, client, k + 1);
        }
        if k: nat :| InProgressOnly(nodes, client, k) { assert InProgressOnly(rest, client, k - 1); }
      }
    }
  }

  /** Filing under a client: at its only node in progress, else on its page; with no other
      party, at full confidence. */
  lemma ClientHitMeans(ctx: Ctx, s: Slug, rule: nat)
    ensures var h := ClientHit(ctx, s, rule);
      && h.slug == s && h.kind == "client" && h.relationship == "client" && h.created.None? && h.confidence == 1.0 && h.rule == rule && !h.corroborated && h.also == {}
      && ((exists k: nat :: InProgressOnly(ctx.closed.nodes, s, k)) ==>
            exists k: nat :: InProgressOnly(ctx.closed.nodes, s, k) && h.page == ProjectPage(ctx.closed.nodes[k].id) && h.node == Some(ctx.closed.nodes[k].id))
      && (!(exists k: nat :: InProgressOnly(ctx.closed.nodes, s, k)) ==> h.page == ClientPage(s) && h.node.None?)
  {
    OpenOne(ctx.closed.nodes, s);
    var open := OpenNodes(ctx.closed.nodes, s);
    if |open| == 1 {
      OpenNodesAreNodes(ctx.closed.nodes, s);
      assert open[0] in open;
    }
    hide OpenNodes, InProgressOnly;
  }

  ghost predicate EqualFirst(ctx: Ctx, pages: seq<Slug>, n: string, s: Slug) {
    exists k: nat :: k < |pages| && pages[k] == s && ctx.entity(s) == n && forall j :: 0 <= j < k ==> ctx.entity(pages[j]) != n
  }

  /** One name begins with the other, and the page's has four letters. */
  predicate Begins(ctx: Ctx, page: Slug, n: string) {
    var e := ctx.entity(page);
    |e| >= 4 && ((|e| <= |n| && n[..|e|] == e) || (|n| <= |e| && e[..|n|] == n))
  }

  ghost predicate PrefixFirst(ctx: Ctx, pages: seq<Slug>, n: string, s: Slug) {
    exists k: nat :: k < |pages| && pages[k] == s && Begins(ctx, s, n) && forall j :: 0 <= j < k ==> !Begins(ctx, pages[j], n)
  }

  lemma {:induction false} FirstEqualIs(ctx: Ctx, pages: seq<Slug>, n: string)
    ensures match FirstEqual(ctx, pages, n)
      case None => forall s :: s in pages ==> ctx.entity(s) != n
      case Some(s) => EqualFirst(ctx, pages, n, s)
    decreases |pages|
  {
    if pages != [] && ctx.entity(pages[0]) != n {
      var rest := pages[1..];
      FirstEqualIs(ctx, rest, n);
      if FirstEqual(ctx, rest, n).Some? {
        var s := FirstEqual(ctx, rest, n).value;
        var k: nat :| k < |rest| && rest[k] == s && ctx.entity(s) == n && forall j :: 0 <= j < k ==> ctx.entity(rest[j]) != n;
        forall j | 0 <= j < k + 1 ensures ctx.entity(pages[j]) != n { if j > 0 { assert pages[j] == rest[j - 1]; } }
        assert pages[k + 1] == s;
      } else {
        assert pages == [pages[0]] + rest;
      }
    } else if pages != [] {
      assert pages[0] == FirstEqual(ctx, pages, n).value;
    }
  }

  lemma BeginsIs(ctx: Ctx, page: Slug, n: string)
    ensures Begins(ctx, page, n) <==> var e := ctx.entity(page); |e| >= 4 && (e <= n || n <= e)
  {}

  lemma {:induction false} FirstPrefixIs(ctx: Ctx, pages: seq<Slug>, n: string)
    ensures match FirstPrefix(ctx, pages, n)
      case None => forall s :: s in pages ==> !Begins(ctx, s, n)
      case Some(s) => PrefixFirst(ctx, pages, n, s)
    decreases |pages|
  {
    if pages != [] {
      BeginsIs(ctx, pages[0], n);
      var rest := pages[1..];
      FirstPrefixIs(ctx, rest, n);
      var found := FirstPrefix(ctx, pages, n);
      assert found == if Begins(ctx, pages[0], n) then Some(pages[0]) else FirstPrefix(ctx, rest, n);
      hide Begins, FirstPrefix;
      if Begins(ctx, pages[0], n) {
        assert pages[0] == found.value;
      } else if found.Some? {
        var k: nat :| k < |rest| && rest[k] == found.value && Begins(ctx, found.value, n) && forall j :: 0 <= j < k ==> !Begins(ctx, rest[j], n);
        forall j | 0 <= j < k + 1 ensures !Begins(ctx, pages[j], n) { if j > 0 { assert pages[j] == rest[j - 1]; } }
        assert pages[k + 1] == found.value;
      } else {
        assert pages == [pages[0]] + rest;
      }
    }
  }

  /** The page an organisation name means: an equal name beats one that only begins alike,
      clients beat orgs, the first in the directory beats the rest; a name of fewer than
      four letters means none. */
  lemma ExistingPageMeans(ctx: Ctx, orgName: string)
    ensures var n := ctx.entity(orgName); var e := ExistingPage(ctx, orgName); var clients, orgs := ctx.closed.clients, ctx.closed.orgs;
      if |n| < 4 then e.None?
      else if exists s :: s in clients && ctx.entity(s) == n then e.Some? && e.value.client && EqualFirst(ctx, clients, n, e.value.slug)
      else if exists s :: s in orgs && ctx.entity(s) == n then e.Some? && !e.value.client && EqualFirst(ctx, orgs, n, e.value.slug)
      else if exists s :: s in clients && Begins(ctx, s, n) then e.Some? && e.value.client && PrefixFirst(ctx, clients, n, e.value.slug)
      else if exists s :: s in orgs && Begins(ctx, s, n) then e.Some? && !e.value.client && PrefixFirst(ctx, orgs, n, e.value.slug)
      else e.None?
  {
    var n := ctx.entity(orgName);
    FirstEqualIs(ctx, ctx.closed.clients, n);
    FirstEqualIs(ctx, ctx.closed.orgs, n);
    FirstPrefixIs(ctx, ctx.closed.clients, n);
    FirstPrefixIs(ctx, ctx.closed.orgs, n);
    FirstEqualIsPage(ctx, ctx.closed.clients, n);
    FirstEqualIsPage(ctx, ctx.closed.orgs, n);
    MatchIsFirst(ctx, ctx.closed.clients, n);
    MatchIsFirst(ctx, ctx.closed.orgs, n);
    hide FirstEqual, FirstPrefix, EqualFirst, PrefixFirst, Begins;
  }

  lemma MatchIsFirst(ctx: Ctx, pages: seq<Slug>, n: string)
    ensures forall s :: EqualFirst(ctx, pages, n, s) ==> s in pages && ctx.entity(s) == n
    ensures forall s :: PrefixFirst(ctx, pages, n, s) ==> s in pages && Begins(ctx, s, n)
  {
    hide Begins;
  }
}
