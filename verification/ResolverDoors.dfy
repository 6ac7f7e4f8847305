/** The door of every rule: exactly when it has an answer, and the home it gives. */
module ResolverDoors {
  import opened Common
  import opened Resolver
  import opened ResolverLadder
  import opened ResolverTheorems
  import opened ResolverRules

  // ------------------------------------------------------------ homes

  /** Filed under a client: at its only node in progress, else on its page. */
  ghost predicate AtClient(ctx: Ctx, h: Home, s: Slug, rule: nat) {
    && h.slug == s && h.kind == "client" && h.relationship == "client" && h.rule == rule
    && h.confidence == 1.0 && h.created.None? && !h.corroborated
    && if exists k: nat :: InProgressOnly(ctx.closed.nodes, s, k)
       then exists k: nat :: InProgressOnly(ctx.closed.nodes, s, k) && h.page == ProjectPage(ctx.closed.nodes[k].id) && h.node == Some(ctx.closed.nodes[k].id)
       else h.page == ClientPage(s) && h.node.None?
  }

  /** Filed at a node: on its page, under its client. */
  ghost predicate AtNode(h: Home, n: Node, rule: nat, corroborated: bool) {
    && h.slug == n.client && h.kind == "client" && h.relationship == "client" && h.page == ProjectPage(n.id) && h.node == Some(n.id)
    && h.rule == rule && h.confidence == 1.0 && h.created.None? && h.corroborated == corroborated
  }

  /** Filed on an org page, which is created exactly when it is not there. */
  ghost predicate AtOrg(ctx: Ctx, h: Home, s: Slug, kind: string, relationship: string, confidence: real, rule: nat) {
    && h.slug == s && h.kind == kind && h.relationship == relationship && h.page == OrgPage(s) && h.node.None?
    && h.rule == rule && h.confidence == confidence && !h.corroborated
    && h.created == (if s in ctx.closed.orgs then None else Some(Created(kind, s, relationship)))
  }

  /** A page's own relationship when it is a known one. */
  function Stated(ctx: Ctx, s: Slug, otherwise: string): string {
    match ctx.closed.relationOf(s)
    case Some(r) => if r in ctx.relationships then r else otherwise
    case None => otherwise
  }

  function OrClient(relationship: string): string {
    if relationship != "" then relationship else "client"
  }

  lemma HitIsAtClient(ctx: Ctx, s: Slug, rule: nat)
    ensures forall also :: AtClient(ctx, ClientHit(ctx, s, rule).(also := also), s, rule)
  {
    ClientHitMeans(ctx, s, rule);
    hide ClientHit, InProgressOnly;
  }

  /** Everybody else in question: the other candidates of the meeting. */
  function Others(f: Facts, s: Slug): set<Slug> {
    f.clientCands + f.domainOrgs + f.contactOrgs + f.byContact - {s}
  }

  /** The slug a human declared for a name; "" when nobody did. */
  function DeclaredAs(ctx: Ctx, name: string): Slug {
    if ctx.norm(name) in ctx.closed.orgNameToSlug then ctx.closed.orgNameToSlug[ctx.norm(name)] else ""
  }

  /** A description is no name. */
  function Name(ctx: Ctx, name: string): string {
    if ctx.description(name) then "" else name
  }

  // ------------------------------------------------------------ explicit statements about the meeting

  /** Rule 13: an override that names an existing page, unless the meeting is protected.  A
      node named in the title refines it only if it is the same client's, and another
      client's node keeps the meeting off every node. */
  lemma Rule13Door(ctx: Ctx, m: Meeting, f: Facts)
    ensures Rule13(ctx, m, f).Some? <==> !ctx.guarded && m.id in ctx.overrides && IsPage(ctx, ctx.overrides[m.id])
    ensures Rule13(ctx, m, f).Some? ==>
      var h := Rule13(ctx, m, f).value; var s := ctx.overrides[m.id]; var nodes := ctx.closed.nodes;
      if s !in ctx.closed.clients then AtOrg(ctx, h, s, "org", Stated(ctx, s, OrClient(m.cls.relationship)), m.cls.confidence, 13) && h.also == Others(f, s)
      else match FirstTitled(ctx, nodes, m.title)
        case None => AtClient(ctx, h, s, 13) && h.also == Others(f, s)
        case Some(n) => if n.client == s then AtNode(h, n, 13, false) && h.also == {}
                        else h == Home(s, "client", "client", ClientPage(s), None, None, 1.0, 13, false, Others(f, s))
  {
    if m.id in ctx.overrides { HitIsAtClient(ctx, ctx.overrides[m.id], 13); }
    hide ClientHit, FirstTitled, InProgressOnly, AtClient;
  }

  /** Rule 1: the first node whose id is in the title. */
  lemma Rule1Door(ctx: Ctx, m: Meeting, f: Facts)
    ensures Rule1(ctx, m, f).Some? <==> exists n :: n in ctx.closed.nodes && ctx.inTitle(m.title, n.id)
    ensures Rule1(ctx, m, f).Some? ==>
      exists k: nat :: TitledFirst(ctx, ctx.closed.nodes, m.title, k) && AtNode(Rule1(ctx, m, f).value, ctx.closed.nodes[k], 1, false)
    ensures Rule1(ctx, m, f).Some? ==> Rule1(ctx, m, f).value.also == f.clientCands - {Rule1(ctx, m, f).value.slug}
  {
    FirstTitledIs(ctx, ctx.closed.nodes, m.title);
    var found := FirstTitled(ctx, ctx.closed.nodes, m.title);
    if found.Some? {
      var k: nat :| TitledFirst(ctx, ctx.closed.nodes, m.title, k) && ctx.closed.nodes[k] == found.value;
      assert ctx.closed.nodes[k] in ctx.closed.nodes;
      assert AtNode(Rule1(ctx, m, f).value, ctx.closed.nodes[k], 1, false);
    }
    hide FirstTitled, TitledFirst;
  }

  /** Rule 2: the only node with an alias in the title, if its client is a candidate or
      nobody external took part. */
  lemma Rule2Door(ctx: Ctx, m: Meeting, f: Facts)
    ensures Rule2(ctx, m, f).Some? <==>
      exists k: nat :: AliasedOnly(ctx, ctx.closed.nodes, m.title, k) && (ctx.closed.nodes[k].client in f.clientCands || f.externals == [])
    ensures Rule2(ctx, m, f).Some? ==>
      exists k: nat :: AliasedOnly(ctx, ctx.closed.nodes, m.title, k) && AtNode(Rule2(ctx, m, f).value, ctx.closed.nodes[k], 2, true)
    ensures Rule2(ctx, m, f).Some? ==> Rule2(ctx, m, f).value.also == f.clientCands - {Rule2(ctx, m, f).value.slug}
  {
    var nodes := ctx.closed.nodes;
    AliasedOne(ctx, nodes, m.title);
    var hits := Aliased(ctx, nodes, m.title);
    if |hits| == 1 {
      var k: nat :| AliasedOnly(ctx, nodes, m.title, k) && nodes[k] == hits[0];
      assert forall j: nat :: AliasedOnly(ctx, nodes, m.title, j) ==> j == k;
    }
    hide Aliased, AliasedOnly;
  }

  /** Rule 11: an office-hours title, unless the meeting is protected. */
  lemma Rule11Door(ctx: Ctx, m: Meeting)
    ensures Rule11(ctx, m).Some? <==> !ctx.guarded && ctx.officeHours(m.title)
    ensures Rule11(ctx, m).Some? ==> AtOrg(ctx, Rule11(ctx, m).value, "clearworks-internal", "org", "internal", 1.0, 11) && Rule11(ctx, m).value.also == {}
  {}

  /** Rule 10: a community session of at least two external people, none with an address,
      that the classification calls collegial or personal and names. */
  lemma Rule10Door(ctx: Ctx, m: Meeting, f: Facts)
    ensures Rule10(ctx, m, f).Some? <==>
      && |f.externals| >= 2 && (forall p :: p in f.externals ==> '@' !in p.email)
      && m.cls.relationship in {"colleague", "personal"} && Name(ctx, m.cls.orgName) != "" && ctx.communitySlug(Name(ctx, m.cls.orgName)) != ""
    ensures Rule10(ctx, m, f).Some? ==>
      var h := Rule10(ctx, m, f).value; var name := Name(ctx, m.cls.orgName); var s, d := ctx.communitySlug(name), DeclaredAs(ctx, name);
      && h.also == {}
      && if s in ctx.closed.clients then AtClient(ctx, h, s, 10)
         else if d != "" && d in ctx.closed.clients then AtClient(ctx, h, d, 10)
         else if d != "" && d in ctx.closed.orgs then AtOrg(ctx, h, d, "org", Stated(ctx, d, m.cls.relationship), m.cls.confidence, 10)
         else AtOrg(ctx, h, s, "org", m.cls.relationship, m.cls.confidence, 10)
  {
    var name := Name(ctx, m.cls.orgName);
    HitIsAtClient(ctx, ctx.communitySlug(name), 10);
    HitIsAtClient(ctx, DeclaredAs(ctx, name), 10);
    hide ClientHit, AtClient;
  }

  /** Two participants speak for one client candidate. */
  ghost predicate TwoAgree(ctx: Ctx, f: Facts) {
    exists s :: s in f.clientCands && s != "" && Support(ctx, f.externals, f.clientCands, s) >= 2
  }

  lemma CorroborationIs(ctx: Ctx, f: Facts)
    ensures Corroborated(ctx, f) <==> TwoAgree(ctx, f)
  {
    forall s | s in f.clientCands && s != "" ensures Votes(ctx, f.externals, f.clientCands, s) == Support(ctx, f.externals, f.clientCands, s) {
      VotesAreSupport(ctx, f.externals, f.clientCands, s);
    }
    hide Support;
  }

  /** Rule 12: a declared name, unless the meeting is protected, or two participants agree
      on a client and the declared page is not among the candidates. */
  lemma Rule12Door(ctx: Ctx, m: Meeting, f: Facts)
    ensures var s := DeclaredAs(ctx, m.cls.orgName);
      Rule12(ctx, m, f).Some? <==>
        !ctx.guarded && m.cls.orgName != "" && s != "" && IsPage(ctx, s) && (TwoAgree(ctx, f) ==> s in f.clientCands)
    ensures Rule12(ctx, m, f).Some? ==>
      var h := Rule12(ctx, m, f).value; var s := DeclaredAs(ctx, m.cls.orgName);
      h.also == Others(f, s) &&
      if s in ctx.closed.clients then AtClient(ctx, h, s, 12)
      else AtOrg(ctx, h, s, "org", Stated(ctx, s, OrClient(m.cls.relationship)), m.cls.confidence, 12)
  {
    CorroborationIs(ctx, f);
    HitIsAtClient(ctx, DeclaredAs(ctx, m.cls.orgName), 12);
    hide ClientHit, AtClient, Corroborated, Support;
  }

  // ------------------------------------------------------------ clients

  /** The default: the preferred domain client, or without one the preferred client of an
      identified contact. */
  ghost predicate IsDefault(ctx: Ctx, m: Meeting, f: Facts, s: Slug) {
    if f.clientCands != {} then s in f.clientCands && forall t :: t in f.clientCands && t != s ==> Preferred(ctx, m.cls, f.externals, f.clientCands, s, t)
    else s in f.byContact && forall t :: t in f.byContact && t != s ==> Preferred(ctx, m.cls, f.externals, f.byContact, s, t)
  }

  lemma DefaultIs(ctx: Ctx, m: Meeting, f: Facts)
    ensures DefaultPick(ctx, m, f).Some? <==> f.clientCands != {} || f.byContact != {}
    ensures DefaultPick(ctx, m, f).Some? ==> IsDefault(ctx, m, f, DefaultPick(ctx, m, f).value)
  {
    hide Pick, Preferred;
    if f.clientCands != {} {
      forall t | t in f.clientCands { PickPrefers(ctx, m.cls, f.externals, f.clientCands, t); }
    } else if f.byContact != {} {
      forall t | t in f.byContact { PickPrefers(ctx, m.cls, f.externals, f.byContact, t); }
    }
  }

  /** Rules 3 and 4: the default, 3 when it comes from a domain and 4 from a contact. */
  lemma Rule34Door(ctx: Ctx, m: Meeting, f: Facts)
    ensures Rule34(ctx, m, f).Some? <==> f.clientCands != {} || f.byContact != {}
    ensures Rule34(ctx, m, f).Some? ==> var h := Rule34(ctx, m, f).value;
      IsDefault(ctx, m, f, h.slug) && AtClient(ctx, h, h.slug, if f.clientCands != {} then 3 else 4) && h.also == Others(f, h.slug)
  {
    DefaultIs(ctx, m, f);
    if DefaultPick(ctx, m, f).Some? { HitIsAtClient(ctx, DefaultPick(ctx, m, f).value, if f.clientCands != {} then 3 else 4); }
    hide DefaultPick, IsDefault, ClientHit, AtClient;
  }

  /** The preferred contact known by name only. */
  ghost predicate IsNamed(ctx: Ctx, m: Meeting, f: Facts, b: Slug) {
    b in f.byNameOnly && forall t :: t in f.byNameOnly && t != b ==> Preferred(ctx, m.cls, f.externals, f.byNameOnly, b, t)
  }

  /** Rule 4 by name: another existing page the classification names wins over the contact,
      unless a dated employer says otherwise; else the contact wins over the default. */
  lemma Rule4Door(ctx: Ctx, m: Meeting, f: Facts)
    ensures f.byNameOnly == {} ==> Rule4ByName(ctx, m, f).None?
    ensures f.byNameOnly != {} ==>
      exists b :: IsNamed(ctx, m, f, b) &&
        var named := ExistingPage(ctx, Name(ctx, m.cls.orgName)); var h := Rule4ByName(ctx, m, f);
        if named.Some? && named.value.slug != b && b !in f.dated then
          h.Some? && if named.value.client then AtClient(ctx, h.value, named.value.slug, 4) && h.value.also == Others(f, named.value.slug)
                     else AtOrg(ctx, h.value, named.value.slug, "org", OrClient(m.cls.relationship), m.cls.confidence, 4) && h.value.also == {}
        else if DefaultPick(ctx, m, f) == Some(b) then h.None?
        else h.Some? && AtClient(ctx, h.value, b, 4) && h.value.also == Others(f, b)
  {
    if f.byNameOnly != {} {
      var b := Pick(ctx, m.cls, f.externals, f.byNameOnly);
      forall t | t in f.byNameOnly { PickPrefers(ctx, m.cls, f.externals, f.byNameOnly, t); }
      assert IsNamed(ctx, m, f, b);
      var named := ExistingPage(ctx, Name(ctx, m.cls.orgName));
      HitIsAtClient(ctx, b, 4);
      ExistingPageExists(ctx, Name(ctx, m.cls.orgName));
      if named.Some? { HitIsAtClient(ctx, named.value.slug, 4); }
      hide Pick, Preferred, IsNamed, ClientHit, AtClient, ExistingPage, DefaultPick;
    }
  }

  /** How many external participants have a company address under this label. */
  ghost function LabelSupport(ctx: Ctx, es: seq<Participant>, lab: string): nat {
    |set i | 0 <= i < |es| && Hard(ctx, es[i]) && LabelOf(ctx, es[i]) == lab|
  }

  lemma SupportIsCount(ctx: Ctx, es: seq<Participant>, lab: string)
    ensures LabelSupport(ctx, es, lab) == Count(es, p => Hard(ctx, p) && LabelOf(ctx, p) == lab)
  {
    hide Hard, LabelOf;
    var there := p => Hard(ctx, p) && LabelOf(ctx, p) == lab;
    CountIs(es, there);
    assert (set i | 0 <= i < |es| && Hard(ctx, es[i]) && LabelOf(ctx, es[i]) == lab) == Indices(es, there);
  }

  lemma NoneCounted(ctx: Ctx, es: seq<Participant>, lab: string)
    requires lab !in LabelCounts(ctx, es)
    ensures Count(es, p => Hard(ctx, p) && LabelOf(ctx, p) == lab) == 0
  {
    hide Hard, LabelOf;
    forall i | 0 <= i < |es| ensures !(Hard(ctx, es[i]) && LabelOf(ctx, es[i]) == lab) { assert es[i] in es; }
    NoCount(es, p => Hard(ctx, p) && LabelOf(ctx, p) == lab);
  }

  lemma {:induction false} NoCount(es: seq<Participant>, f: Participant -> bool)
    requires forall i :: 0 <= i < |es| ==> !f(es[i])
    ensures Count(es, f) == 0
    decreases |es|
  {
    if es != [] { NoCount(es[1..], f); }
  }

  lemma LabelCountIs(ctx: Ctx, es: seq<Participant>, lab: string)
    ensures var f := FactsOf(ctx, es); (if lab in f.labelCount then f.labelCount[lab] else 0) == LabelSupport(ctx, es, lab)
  {
    assert FactsOf(ctx, es).labelCount == LabelCounts(ctx, es);
    hide FactsOf, Hard, LabelOf, LabelCounts, LabelSupport;
    SupportIsCount(ctx, es, lab);
    if lab in LabelCounts(ctx, es) { SameCount(ctx, es, lab, p => Hard(ctx, p) && LabelOf(ctx, p) == lab); } else { NoneCounted(ctx, es, lab); }
  }

  lemma SameCount(ctx: Ctx, es: seq<Participant>, lab: string, there: Participant -> bool)
    requires (forall p :: there(p) <==> Hard(ctx, p) && LabelOf(ctx, p) == lab) && lab in LabelCounts(ctx, es)
    ensures LabelCounts(ctx, es)[lab] == Count(es, there)
  {
    CountSame(es, p => (q => Hard(ctx, q))(p) && (q => LabelOf(ctx, q))(p) == lab, there);
  }

  /** What the classification would call the home: the organisation's slug, or else the
      label of its domain. */
  function ClassSlug(ctx: Ctx, cls: Classification): Slug {
    if Name(ctx, cls.orgName) != "" then ctx.slugify(Name(ctx, cls.orgName)) else ClassLabel(ctx, cls)
  }

  function ClassLabel(ctx: Ctx, cls: Classification): string {
    if cls.domain != "" then ctx.registrable(cls.domain) else ""
  }

  lemma Rule9When(ctx: Ctx, m: Meeting, f: Facts, pick: Slug)
    requires DefaultPick(ctx, m, f) == Some(pick)
    ensures var lab, s := ClassLabel(ctx, m.cls), ClassSlug(ctx, m.cls);
      Rule9(ctx, m, f).Some? <==>
        && m.cls.confidence >= 0.8 && s != "" && pick != lab && pick != s
        && (if lab != "" && lab in f.labelCount then f.labelCount[lab] else 0) > Votes(ctx, f.externals, {pick}, pick)
  {
    hide DefaultPick, ClientHit, Votes, OrgHome, ExistingOrg, PageRelation, Also;
  }

  /** Where rule 9 files: a client of that name or label, or one that claims the domain,
      then an org that does, then the org of that name or label, created if need be. */
  ghost predicate FiledByClass(ctx: Ctx, m: Meeting, h: Home) {
    var lab, s := ClassLabel(ctx, m.cls), ClassSlug(ctx, m.cls);
    var claims, conf := ctx.closed.domainToSlug, m.cls.confidence;
    var page := if lab != "" && lab in claims then claims[lab] else "";
    var rel := if m.cls.relationship in ctx.relationships then m.cls.relationship else "prospect";
    if s in ctx.closed.clients then AtClient(ctx, h, s, 9)
    else if lab != "" && lab in ctx.closed.clients then AtClient(ctx, h, lab, 9)
    else if page != "" && page in ctx.closed.clients then AtClient(ctx, h, page, 9)
    else if page != "" && page in ctx.closed.orgs then AtOrg(ctx, h, page, "org", Stated(ctx, page, rel), conf, 9)
    else if s in ctx.closed.orgs then AtOrg(ctx, h, s, "org", Stated(ctx, s, rel), conf, 9)
    else if lab != "" && lab in ctx.closed.orgs then AtOrg(ctx, h, lab, "org", Stated(ctx, lab, rel), conf, 9)
    else AtOrg(ctx, h, s, "org", rel, conf, 9)
  }

  /** Which client rule 9 files under, if any. */
  function ClassClient(ctx: Ctx, cls: Classification): Option<Slug> {
    var lab, s := ClassLabel(ctx, cls), ClassSlug(ctx, cls);
    var page := if lab != "" && lab in ctx.closed.domainToSlug then ctx.closed.domainToSlug[lab] else "";
    if s in ctx.closed.clients then Some(s)
    else if lab != "" && lab in ctx.closed.clients then Some(lab)
    else if page != "" && page in ctx.closed.clients then Some(page)
    else None
  }

  lemma Rule9AtClient(ctx: Ctx, m: Meeting, f: Facts)
    requires Rule9(ctx, m, f).Some? && ClassClient(ctx, m.cls).Some?
    ensures exists also :: Rule9(ctx, m, f).value == ClientHit(ctx, ClassClient(ctx, m.cls).value, 9).(also := also)
  {
    hide DefaultPick, ClientHit, Votes, Also, PageRelation, OrgHome, ExistingOrg;
    var s := ClassClient(ctx, m.cls).value;
    assert Rule9(ctx, m, f).value == ClientHit(ctx, s, 9).(also := Also(f, s));
  }

  lemma Rule9AtOrg(ctx: Ctx, m: Meeting, f: Facts)
    requires Rule9(ctx, m, f).Some? && ClassClient(ctx, m.cls).None?
    ensures FiledByClass(ctx, m, Rule9(ctx, m, f).value)
  {
    hide DefaultPick, ClientHit, AtClient, Votes, Also;
  }

  lemma Rule9Where(ctx: Ctx, m: Meeting, f: Facts)
    ensures Rule9(ctx, m, f).Some? ==> FiledByClass(ctx, m, Rule9(ctx, m, f).value)
  {
    hide Rule9, AtOrg, AtClient;
    if Rule9(ctx, m, f).Some? {
      if ClassClient(ctx, m.cls).Some? {
        Rule9AtClient(ctx, m, f);
        HitIsAtClient(ctx, ClassClient(ctx, m.cls).value, 9);
      } else {
        Rule9AtOrg(ctx, m, f);
      }
    }
  }

  lemma Rule9Others(ctx: Ctx, m: Meeting, f: Facts)
    ensures Rule9(ctx, m, f).Some? ==> Rule9(ctx, m, f).value.also == Others(f, Rule9(ctx, m, f).value.slug)
  {
    ClientHitSlugs(ctx, 9);
    hide DefaultPick, ClientHit, Votes, PageRelation, ClsSlug, ClsLabel;
  }

  lemma ClientHitSlugs(ctx: Ctx, rule: nat)
    ensures forall s, also :: ClientHit(ctx, s, rule).(also := also).slug == s && ClientHit(ctx, s, rule).(also := also).also == also
  {
    forall s ensures ClientHit(ctx, s, rule).slug == s { ClientHitMeans(ctx, s, rule); }
    hide ClientHit;
  }

  /** Rule 9: a classification of at least 0.8 that names something other than the default,
      and whose domain more participants have than speak for the default. */
  lemma Rule9Door(ctx: Ctx, m: Meeting, es: seq<Participant>)
    ensures var f := FactsOf(ctx, es); var lab, s := ClassLabel(ctx, m.cls), ClassSlug(ctx, m.cls); var pick := DefaultPick(ctx, m, f);
      Rule9(ctx, m, f).Some? <==>
        && pick.Some? && m.cls.confidence >= 0.8 && s != "" && pick.value != lab && pick.value != s
        && (if lab != "" then LabelSupport(ctx, es, lab) else 0) > Votes(ctx, es, {pick.value}, pick.value)
    ensures var f := FactsOf(ctx, es); Rule9(ctx, m, f).Some? ==> FiledByClass(ctx, m, Rule9(ctx, m, f).value) && Rule9(ctx, m, f).value.also == Others(f, Rule9(ctx, m, f).value.slug)
  {
    var f := FactsOf(ctx, es);
    var pick := DefaultPick(ctx, m, f);
    assert f.externals == es;
    assert pick.None? ==> Rule9(ctx, m, f).None?;
    hide FactsOf, DefaultPick, Votes, LabelSupport, FiledByClass, Rule9, ClassLabel, ClassSlug;
    LabelCountIs(ctx, es, ClassLabel(ctx, m.cls));
    Rule9Where(ctx, m, f);
    Rule9Others(ctx, m, f);
    if pick.Some? { Rule9When(ctx, m, f, pick.value); }
  }

  // ------------------------------------------------------------ people and unknown domains

  /** The first row that lists an address, in any case. */
  ghost predicate RowFirst(ctx: Ctx, rows: seq<Contact>, email: string, k: nat) {
    && k < |rows| && Lists(ctx, rows[k], email) && forall j :: 0 <= j < k ==> !Lists(ctx, rows[j], email)
  }

  ghost predicate Lists(ctx: Ctx, row: Contact, email: string) {
    exists e :: e in row.emails && ctx.lower(e) == ctx.lower(email)
  }

  lemma ListsIs(ctx: Ctx, row: Contact, email: string)
    ensures Lists(ctx, row, email) <==> exists i :: 0 <= i < |row.emails| && ctx.lower(row.emails[i]) == ctx.lower(email)
  {
    if i :| 0 <= i < |row.emails| && ctx.lower(row.emails[i]) == ctx.lower(email) { assert row.emails[i] in row.emails; }
  }

  lemma {:induction false} RowByEmailIs(ctx: Ctx, rows: seq<Contact>, email: string)
    ensures match RowByEmail(ctx, rows, email)
      case None => forall k :: 0 <= k < |rows| ==> !Lists(ctx, rows[k], email)
      case Some(row) => exists k: nat :: RowFirst(ctx, rows, email, k) && rows[k] == row
    decreases |rows|
  {
    if rows != [] {
      ListsIs(ctx, rows[0], email);
      var rest := rows[1..];
      RowByEmailIs(ctx, rest, email);
      assert forall k :: 0 <= k < |rest| ==> rest[k] == rows[k + 1];
      var found := RowByEmail(ctx, rows, email);
      assert found == if Lists(ctx, rows[0], email) then Some(rows[0]) else RowByEmail(ctx, rest, email);
      hide RowByEmail, Lists;
      if Lists(ctx, rows[0], email) {
        assert RowFirst(ctx, rows, email, 0);
      } else if found.Some? {
        var k: nat :| RowFirst(ctx, rest, email, k) && rest[k] == found.value;
        assert RowFirst(ctx, rows, email, k + 1);
      }
    }
  }

  /** Rule 5: the first external participant with a free-mail address that a contact row
      lists gets that row's own page. */
  ghost predicate KnownFirst(ctx: Ctx, es: seq<Participant>, k: nat) {
    k < |es| && FreeMailContact(ctx, es[k]).Some? && forall j :: 0 <= j < k ==> FreeMailContact(ctx, es[j]).None?
  }

  lemma FreeMailContactIs(ctx: Ctx, p: Participant)
    ensures FreeMailContact(ctx, p).Some? <==> Free(ctx, p) && exists row :: row in ctx.contacts && Lists(ctx, row, p.email)
    ensures FreeMailContact(ctx, p).Some? ==> exists k: nat :: RowFirst(ctx, ctx.contacts, p.email, k) && ctx.contacts[k] == FreeMailContact(ctx, p).value
  {
    RowByEmailIs(ctx, ctx.contacts, p.email);
    hide RowByEmail, Lists;
    if RowByEmail(ctx, ctx.contacts, p.email).Some? {
      var k: nat :| RowFirst(ctx, ctx.contacts, p.email, k) && ctx.contacts[k] == RowByEmail(ctx, ctx.contacts, p.email).value;
      assert ctx.contacts[k] in ctx.contacts;
    }
  }

  ghost predicate AtContact(ctx: Ctx, h: Home, p: Participant)
    requires FreeMailContact(ctx, p).Some?
  {
    var row := FreeMailContact(ctx, p).value;
    var slug := if row.id != "" then row.id else if row.name != "" then ctx.slugify(row.name) else ctx.slugify(p.email);
    AtOrg(ctx, h, slug, "person", "personal", 1.0, 5) && h.also == {}
  }

  lemma {:induction false} Rule5Door(ctx: Ctx, es: seq<Participant>)
    ensures Rule5(ctx, es).Some? <==> exists k: nat :: KnownFirst(ctx, es, k)
    ensures Rule5(ctx, es).Some? ==> exists k: nat :: KnownFirst(ctx, es, k) && AtContact(ctx, Rule5(ctx, es).value, es[k])
    decreases |es|
  {
    if es != [] {
      hide FreeMailContact;
      if FreeMailContact(ctx, es[0]).Some? {
        assert KnownFirst(ctx, es, 0);
      } else {
        var rest := es[1..];
        Rule5Door(ctx, rest);
        assert forall k :: 0 <= k < |rest| ==> rest[k] == es[k + 1];
        hide AtContact;
        if Rule5(ctx, rest).Some? {
          var k: nat :| KnownFirst(ctx, rest, k) && AtContact(ctx, Rule5(ctx, rest).value, rest[k]);
          assert KnownFirst(ctx, es, k + 1);
        }
        if k: nat :| KnownFirst(ctx, es, k) { assert KnownFirst(ctx, rest, k - 1); }
      }
    }
  }

  /** Rule 6 on an org page: the page's own relationship, else the classification's; with
      neither the meeting is ambiguous. */
  lemma Rule6OrgDoor(ctx: Ctx, m: Meeting, f: Facts)
    requires OnPages(ctx, f) && OrgCands(f) != {}
    ensures var s := Pick(ctx, m.cls, f.externals, OrgCands(f)); var o := Rule6Org(ctx, m, f); var page := ctx.closed.relationOf(s);
      o.Some? && if page.Some? && page.value in ctx.relationships then o.value.Resolved? && AtOrg(ctx, o.value.home, s, "org", page.value, m.cls.confidence, 6)
                 else if m.cls.relationship in ctx.relationships then o.value.Resolved? && AtOrg(ctx, o.value.home, s, "org", m.cls.relationship, m.cls.confidence, 6)
                 else o.value == AmbiguousRelationship
    ensures Rule6Org(ctx, m, f).value.Resolved? ==> Rule6Org(ctx, m, f).value.home.also == Others(f, Rule6Org(ctx, m, f).value.home.slug)
  {
    hide Pick;
  }

  /** Rule 6 on an unknown label: one of four relationships, a prospect unless the
      classification says otherwise. */
  lemma Rule6NewDoor(ctx: Ctx, m: Meeting, es: seq<Participant>)
    requires FactsOf(ctx, es).unknown != {}
    ensures var f := FactsOf(ctx, es); var h := Rule6New(ctx, m, f); var r := m.cls.relationship;
      h.Some? && AtOrg(ctx, h.value, TopLabel(f.unknownCount, f.unknown), "org", if r in {"prospect", "vendor", "partner", "personal"} then r else "prospect", m.cls.confidence, 6)
         && h.value.also == Others(f, h.value.slug)
  {
    var f := FactsOf(ctx, es);
    Rule6FilesUnderLabel(ctx, m, es);
    hide FactsOf, TopLabel, LastLabel;
  }

  /** The first external participant whose name is no placeholder. */
  ghost predicate PersonFirst(ctx: Ctx, es: seq<Participant>, k: nat) {
    k < |es| && !ctx.placeholder(es[k].name) && forall j :: 0 <= j < k ==> ctx.placeholder(es[j].name)
  }

  lemma {:induction false} FirstPersonIs(ctx: Ctx, es: seq<Participant>)
    ensures match FirstPerson(ctx, es)
      case None => forall p :: p in es ==> ctx.placeholder(p.name)
      case Some(p) => exists k: nat :: PersonFirst(ctx, es, k) && es[k] == p
    decreases |es|
  {
    if es != [] {
      var rest := es[1..];
      if !ctx.placeholder(es[0].name) {
        assert PersonFirst(ctx, es, 0);
      } else {
        FirstPersonIs(ctx, rest);
        assert es == [es[0]] + rest && forall k :: 0 <= k < |rest| ==> rest[k] == es[k + 1];
        if FirstPerson(ctx, rest).Some? {
          var k: nat :| PersonFirst(ctx, rest, k) && rest[k] == FirstPerson(ctx, rest).value;
          assert PersonFirst(ctx, es, k + 1);
        }
      }
    }
  }

  /** A person's own page, dated unless the name is a full one. */
  ghost predicate AtPerson(ctx: Ctx, m: Meeting, h: Home, p: Participant) {
    var slug := if ctx.fullName(p.name) then ctx.slugify(p.name)
                else ctx.slugify(if p.name != "" then p.name else if p.email != "" then p.email else "person") + "-" + m.month;
    AtOrg(ctx, h, slug, "person", "personal", m.cls.confidence, 7)
  }

  /** The page rule 7 looks for first: a declared one, else one of that name. */
  ghost function KnownPage(ctx: Ctx, name: string): Option<Named> {
    var d := DeclaredAs(ctx, name);
    if d == "" then ExistingPage(ctx, Name(ctx, name))
    else if d in ctx.closed.clients then Some(Named(true, d))
    else if d in ctx.closed.orgs then Some(Named(false, d))
    else None
  }

  /** Where rule 7 files: a known page of the classification's name, else the first real
      person's own page, else the internal page. */
  ghost predicate FiledByPeople(ctx: Ctx, m: Meeting, f: Facts, h: Home) {
    match KnownPage(ctx, m.cls.orgName)
    case Some(Named(true, s)) => AtClient(ctx, h, s, 7)
    case Some(Named(false, s)) => AtOrg(ctx, h, s, "org", OrClient(m.cls.relationship), m.cls.confidence, 7)
    case None =>
      if forall p :: p in f.externals ==> ctx.placeholder(p.name) then AtOrg(ctx, h, "clearworks-internal", "org", "internal", 1.0, 8)
      else exists k: nat :: PersonFirst(ctx, f.externals, k) && AtPerson(ctx, m, h, f.externals[k])
  }

  lemma Rule7AtPerson(ctx: Ctx, m: Meeting, f: Facts)
    requires Rule7(ctx, m, f).Some? && KnownPage(ctx, m.cls.orgName).None?
    ensures FiledByPeople(ctx, m, f, Rule7(ctx, m, f).value) && Rule7(ctx, m, f).value.also == {}
  {
    FirstPersonIs(ctx, f.externals);
    assert KnownPage(ctx, m.cls.orgName) == NamedForRule7(ctx, m.cls.orgName);
    hide ClientHit, AtClient, KnownPage, NamedForRule7, FirstPerson, Hard;
  }

  lemma Rule7AtPage(ctx: Ctx, m: Meeting, f: Facts)
    requires Rule7(ctx, m, f).Some? && KnownPage(ctx, m.cls.orgName).Some?
    ensures FiledByPeople(ctx, m, f, Rule7(ctx, m, f).value) && Rule7(ctx, m, f).value.also == {}
  {
    var known := KnownPage(ctx, m.cls.orgName);
    assert known == NamedForRule7(ctx, m.cls.orgName);
    NamedPageExists(ctx, m.cls.orgName);
    HitIsAtClient(ctx, known.value.slug, 7);
    hide ClientHit, AtClient, KnownPage, NamedForRule7, FirstPerson, Hard, PersonFirst, AtPerson;
  }

  /** Rule 7: external participants of whom none has a company address.  Rule 8: nobody
      external. */
  lemma Rule78Door(ctx: Ctx, m: Meeting, f: Facts)
    ensures Rule7(ctx, m, f).Some? <==> f.externals != [] && forall p :: p in f.externals ==> !Hard(ctx, p)
    ensures Rule7(ctx, m, f).Some? ==> FiledByPeople(ctx, m, f, Rule7(ctx, m, f).value) && Rule7(ctx, m, f).value.also == {}
    ensures Rule8(ctx, f).Some? <==> f.externals == []
    ensures Rule8(ctx, f).Some? ==> AtOrg(ctx, Rule8(ctx, f).value, "clearworks-internal", "org", "internal", 1.0, 8) && Rule8(ctx, f).value.also == {}
  {
    hide ClientHit, AtClient, KnownPage, NamedForRule7, FirstPerson, Hard, FiledByPeople;
    if Rule7(ctx, m, f).Some? {
      if KnownPage(ctx, m.cls.orgName).Some? { Rule7AtPage(ctx, m, f); } else { Rule7AtPerson(ctx, m, f); }
    }
  }
}
