/** The rules of the resolver, one function each, and the ladder that orders them. */
module ResolverLadder {
  import opened Common
  import opened Resolver

  // ------------------------------------------------------------ homes

  function Hit(n: Node, rule: nat, cands: set<Slug>, corroborated: bool): Home {
    Home(n.client, "client", "client", ProjectPage(n.id), Some(n.id), None, 1.0, rule, corroborated, cands - {n.client})
  }

  function ClientHome(s: Slug, rule: nat, also: set<Slug>): Home {
    Home(s, "client", "client", ClientPage(s), None, None, 1.0, rule, false, also)
  }

  /** The client's one open node, or else its page. */
  function ClientHit(ctx: Ctx, s: Slug, rule: nat): Home {
    var open := OpenNodes(ctx.closed.nodes, s);
    if |open| == 1 then Hit(open[0], rule, {s}, false) else ClientHome(s, rule, {})
  }

  /** An org page, created when it does not exist yet. */
  function OrgHome(ctx: Ctx, s: Slug, kind: string, relationship: string, confidence: real, rule: nat, also: set<Slug>): Home {
    Home(s, kind, relationship, OrgPage(s), None,
         if s in ctx.closed.orgs then None else Some(Created(kind, s, relationship)), confidence, rule, false, also)
  }

  /** An org page that is known to exist. */
  function ExistingOrg(s: Slug, relationship: string, confidence: real, rule: nat, also: set<Slug>): Home {
    Home(s, "org", relationship, OrgPage(s), None, None, confidence, rule, false, also)
  }

  function InternalHome(ctx: Ctx, rule: nat): Home {
    OrgHome(ctx, "clearworks-internal", "org", "internal", 1.0, rule, {})
  }

  function Also(f: Facts, picked: Slug): set<Slug> {
    f.clientCands + OrgCands(f) + f.byContact - {picked}
  }

  predicate PageRelates(ctx: Ctx, s: Slug) {
    ctx.closed.relationOf(s).Some? && ctx.closed.relationOf(s).value in ctx.relationships
  }

  /** The relationship a page declares, when it is a known one. */
  function PageRelation(ctx: Ctx, s: Slug, otherwise: string): string {
    if PageRelates(ctx, s) then ctx.closed.relationOf(s).value else otherwise
  }

  function OrDefault(s: string, otherwise: string): string {
    if s == "" then otherwise else s
  }

  // ------------------------------------------------------------ page lookups

  function FirstTitled(ctx: Ctx, nodes: seq<Node>, title: string): Option<Node> {
    if nodes == [] then None
    else if ctx.inTitle(title, nodes[0].id) then Some(nodes[0])
    else FirstTitled(ctx, nodes[1..], title)
  }

  function Aliased(ctx: Ctx, nodes: seq<Node>, title: string): seq<Node> {
    if nodes == [] then []
    else (if ctx.aliasInTitle(title, nodes[0].id) then [nodes[0]] else []) + Aliased(ctx, nodes[1..], title)
  }

  function FirstEqual(ctx: Ctx, pages: seq<Slug>, n: string): Option<Slug> {
    if pages == [] then None
    else if ctx.entity(pages[0]) == n then Some(pages[0])
    else FirstEqual(ctx, pages[1..], n)
  }

  function FirstPrefix(ctx: Ctx, pages: seq<Slug>, n: string): Option<Slug> {
    if pages == [] then None
    else
      var e := ctx.entity(pages[0]);
      if |e| >= 4 && (e <= n || n <= e) then Some(pages[0]) else FirstPrefix(ctx, pages[1..], n)
  }

  datatype Named = Named(client: bool, slug: Slug)

  /** The page an organisation name means: an exact match anywhere before a prefix
      match, clients before orgs. */
  function ExistingPage(ctx: Ctx, orgName: string): Option<Named> {
    var n := ctx.entity(orgName);
    if |n| < 4 then None
    else if FirstEqual(ctx, ctx.closed.clients, n).Some? then Some(Named(true, FirstEqual(ctx, ctx.closed.clients, n).value))
    else if FirstEqual(ctx, ctx.closed.orgs, n).Some? then Some(Named(false, FirstEqual(ctx, ctx.closed.orgs, n).value))
    else if FirstPrefix(ctx, ctx.closed.clients, n).Some? then Some(Named(true, FirstPrefix(ctx, ctx.closed.clients, n).value))
    else if FirstPrefix(ctx, ctx.closed.orgs, n).Some? then Some(Named(false, FirstPrefix(ctx, ctx.closed.orgs, n).value))
    else None
  }

  /** A description is treated as no name at all. */
  function Sanitized(ctx: Ctx, name: string): string {
    if ctx.description(name) then "" else name
  }

  /** The slug a human declared for this organisation name, or "". */
  function Declared(ctx: Ctx, orgName: string): Slug {
    var k := ctx.norm(orgName);
    if k in ctx.closed.orgNameToSlug then ctx.closed.orgNameToSlug[k] else ""
  }

  // ------------------------------------------------------------ the rules

  function Rule13(ctx: Ctx, m: Meeting, f: Facts): Option<Home> {
    if ctx.guarded || m.id !in ctx.overrides then None
    else
      var s := ctx.overrides[m.id];
      if s in ctx.closed.clients then
        var titled := FirstTitled(ctx, ctx.closed.nodes, m.title);
        if titled.Some? && titled.value.client == s then Some(Hit(titled.value, 13, {s}, false))
        else if titled.Some? then Some(ClientHome(s, 13, Also(f, s)))
        else Some(ClientHit(ctx, s, 13).(also := Also(f, s)))
      else if s in ctx.closed.orgs then
        Some(ExistingOrg(s, PageRelation(ctx, s, OrDefault(m.cls.relationship, "client")), m.cls.confidence, 13, Also(f, s)))
      else None
  }

  function Rule1(ctx: Ctx, m: Meeting, f: Facts): Option<Home> {
    match FirstTitled(ctx, ctx.closed.nodes, m.title)
    case Some(n) => Some(Hit(n, 1, f.clientCands, false))
    case None => None
  }

  function Rule2(ctx: Ctx, m: Meeting, f: Facts): Option<Home> {
    var hits := Aliased(ctx, ctx.closed.nodes, m.title);
    if |hits| == 1 && (hits[0].client in f.clientCands || f.externals == []) then Some(Hit(hits[0], 2, f.clientCands, true)) else None
  }

  function Rule11(ctx: Ctx, m: Meeting): Option<Home> {
    if !ctx.guarded && ctx.officeHours(m.title) then Some(InternalHome(ctx, 11)) else None
  }

  function Rule10(ctx: Ctx, m: Meeting, f: Facts): Option<Home> {
    var name := Sanitized(ctx, m.cls.orgName);
    var s := ctx.communitySlug(name);
    if |f.externals| < 2 || (exists p :: p in f.externals && HasAt(p.email)) then None
    else if m.cls.relationship != "colleague" && m.cls.relationship != "personal" then None
    else if name == "" || s == "" then None
    else if s in ctx.closed.clients then Some(ClientHit(ctx, s, 10).(also := {}))
    else
      var d := Declared(ctx, name);
      if d != "" && d in ctx.closed.clients then Some(ClientHit(ctx, d, 10).(also := {}))
      else if d != "" && d in ctx.closed.orgs then
        Some(ExistingOrg(d, PageRelation(ctx, d, m.cls.relationship), m.cls.confidence, 10, {}))
      else Some(OrgHome(ctx, s, "org", m.cls.relationship, m.cls.confidence, 10, {}))
  }

  /** At least two participants vote for one client. */
  ghost predicate Corroborated(ctx: Ctx, f: Facts) {
    exists s :: s in f.clientCands && Votes(ctx, f.externals, f.clientCands, s) >= 2
  }

  ghost function Rule12(ctx: Ctx, m: Meeting, f: Facts): Option<Home> {
    var s := Declared(ctx, m.cls.orgName);
    if ctx.guarded || m.cls.orgName == "" || s == "" then None
    else if f.clientCands != {} && s !in f.clientCands && Corroborated(ctx, f) then None
    else if s in ctx.closed.clients then Some(ClientHit(ctx, s, 12).(also := Also(f, s)))
    else if s in ctx.closed.orgs then
      Some(ExistingOrg(s, PageRelation(ctx, s, OrDefault(m.cls.relationship, "client")), m.cls.confidence, 12, Also(f, s)))
    else None
  }

  /** The rule 3/4 default: a domain client, or else a contact's client. */
  ghost function DefaultPick(ctx: Ctx, m: Meeting, f: Facts): Option<Slug> {
    if f.clientCands != {} then Some(Pick(ctx, m.cls, f.externals, f.clientCands))
    else if f.byContact != {} then Some(Pick(ctx, m.cls, f.externals, f.byContact))
    else None
  }

  /** A contact known by name only overrides the default, unless the
      classification names another existing page. */
  ghost function Rule4ByName(ctx: Ctx, m: Meeting, f: Facts): Option<Home> {
    if f.byNameOnly == {} then None
    else
      var b := Pick(ctx, m.cls, f.externals, f.byNameOnly);
      var named := ExistingPage(ctx, Sanitized(ctx, m.cls.orgName));
      if named.Some? && named.value.slug != b && b !in f.dated then
        if named.value.client then Some(ClientHit(ctx, named.value.slug, 4).(also := Also(f, named.value.slug)))
        else Some(ExistingOrg(named.value.slug, OrDefault(m.cls.relationship, "client"), m.cls.confidence, 4, {}))
      else if DefaultPick(ctx, m, f) != Some(b) then Some(ClientHit(ctx, b, 4).(also := Also(f, b)))
      else None
  }

  /** A confident classification whose domain outnumbers the default pick. */
  ghost function Rule9(ctx: Ctx, m: Meeting, f: Facts): Option<Home> {
    if DefaultPick(ctx, m, f).None? then None
    else
      var pick := DefaultPick(ctx, m, f).value;
      var lab := ClsLabel(ctx, m.cls);
      var s := ClsSlug(ctx, m.cls, Sanitized(ctx, m.cls.orgName));
      var clsCount := if lab != "" && lab in f.labelCount then f.labelCount[lab] else 0;
      if m.cls.confidence < 0.8 || s == "" || pick == lab || pick == s then None
      else if clsCount <= Votes(ctx, f.externals, {pick}, pick) then None
      else
        var rel := if m.cls.relationship in ctx.relationships then m.cls.relationship else "prospect";
        var page := if lab != "" && lab in ctx.closed.domainToSlug then ctx.closed.domainToSlug[lab] else "";
        if s in ctx.closed.clients then Some(ClientHit(ctx, s, 9).(also := Also(f, s)))
        else if lab != "" && lab in ctx.closed.clients then Some(ClientHit(ctx, lab, 9).(also := Also(f, lab)))
        else if page != "" && page in ctx.closed.clients then Some(ClientHit(ctx, page, 9).(also := Also(f, page)))
        else if page != "" && page in ctx.closed.orgs then
          Some(ExistingOrg(page, PageRelation(ctx, page, rel), m.cls.confidence, 9, Also(f, page)))
        else
          var org := if s in ctx.closed.orgs then s else if lab != "" && lab in ctx.closed.orgs then lab else s;
          Some(OrgHome(ctx, org, "org", if org in ctx.closed.orgs then PageRelation(ctx, org, rel) else rel,
                       m.cls.confidence, 9, Also(f, org)))
  }

  ghost function Rule34(ctx: Ctx, m: Meeting, f: Facts): Option<Home> {
    match DefaultPick(ctx, m, f)
    case Some(s) => Some(ClientHit(ctx, s, if f.clientCands != {} then 3 else 4).(also := Also(f, s)))
    case None => None
  }

  /** The first contact row that lists this address. */
  function RowByEmail(ctx: Ctx, rows: seq<Contact>, email: string): Option<Contact> {
    if rows == [] then None
    else if exists i :: 0 <= i < |rows[0].emails| && ctx.lower(rows[0].emails[i]) == ctx.lower(email) then Some(rows[0])
    else RowByEmail(ctx, rows[1..], email)
  }

  function FreeMailContact(ctx: Ctx, p: Participant): Option<Contact> {
    if Free(ctx, p) then RowByEmail(ctx, ctx.contacts, p.email) else None
  }

  function Rule5(ctx: Ctx, es: seq<Participant>): Option<Home>
    decreases |es|
  {
    if es == [] then None
    else
      match FreeMailContact(ctx, es[0])
      case Some(row) =>
        var id := if row.id != "" then row.id else ctx.slugify(if row.name != "" then row.name else es[0].email);
        Some(OrgHome(ctx, id, "person", "personal", 1.0, 5, {}))
      case None => Rule5(ctx, es[1..])
  }

  /** An org page known from a domain or an email-matched contact. */
  ghost function Rule6Org(ctx: Ctx, m: Meeting, f: Facts): Option<Outcome> {
    if OrgCands(f) == {} then None
    else
      var s := Pick(ctx, m.cls, f.externals, OrgCands(f));
      if !PageRelates(ctx, s) && m.cls.relationship !in ctx.relationships then Some(AmbiguousRelationship)
      else Some(Resolved(ExistingOrg(s, PageRelation(ctx, s, m.cls.relationship), m.cls.confidence, 6, Also(f, s))))
  }

  predicate LabelBefore(counts: map<string, nat>, a: string, b: string) {
    var ca, cb := if a in counts then counts[a] else 0, if b in counts then counts[b] else 0;
    ca > cb || (ca == cb && LexLess(a, b))
  }

  ghost predicate IsTopLabel(counts: map<string, nat>, labels: set<string>, s: string) {
    s in labels && forall t :: t in labels && t != s ==> LabelBefore(counts, s, t)
  }

  lemma {:induction false} TopLabelExists(counts: map<string, nat>, labels: set<string>) returns (s: string)
    requires labels != {}
    ensures IsTopLabel(counts, labels, s)
    decreases |labels|
  {
    var x :| x in labels;
    if labels == {x} {
      s := x;
    } else {
      var y := TopLabelExists(counts, labels - {x});
      LexTotal(x, y);
      s := if LabelBefore(counts, x, y) then x else y;
      forall t | t in labels && t != s ensures LabelBefore(counts, s, t) {
        if t != x { assert t in labels - {x}; }
        if t != x && t != y {
          assert LabelBefore(counts, y, t);
          if LexLess(x, y) && LexLess(y, t) { LexTransitive(x, y, t); }
        }
      }
    }
  }

  lemma SomeTopLabel(counts: map<string, nat>, labels: set<string>)
    requires labels != {}
    ensures exists s :: IsTopLabel(counts, labels, s)
  {
    var s := TopLabelExists(counts, labels);
  }

  /** The most frequent unknown label, ties alphabetical. */
  ghost function TopLabel(counts: map<string, nat>, labels: set<string>): (s: string)
    requires labels != {}
    ensures IsTopLabel(counts, labels, s)
  {
    SomeTopLabel(counts, labels);
    var s :| IsTopLabel(counts, labels, s);
    s
  }

  /** A page for the most frequent domain nobody knows. */
  ghost function Rule6New(ctx: Ctx, m: Meeting, f: Facts): Option<Home> {
    if f.unknown == {} then None
    else
      var picked := TopLabel(f.unknownCount, f.unknown);
      var domain := if picked in f.lastDomain then f.lastDomain[picked] else "";
      var s := if picked in ctx.closed.orgs && domain !in ctx.closed.domainsOf(picked)
               then picked + "-" + LastLabel(domain) else picked;
      var r := m.cls.relationship;
      var rel := if r == "prospect" || r == "vendor" || r == "partner" || r == "personal" then r else "prospect";
      Some(OrgHome(ctx, s, "org", rel, m.cls.confidence, 6, Also(f, s)))
  }

  function FirstPerson(ctx: Ctx, es: seq<Participant>): Option<Participant>
    decreases |es|
  {
    if es == [] then None else if ctx.placeholder(es[0].name) then FirstPerson(ctx, es[1..]) else Some(es[0])
  }

  function NamedForRule7(ctx: Ctx, orgName: string): Option<Named> {
    var d := Declared(ctx, orgName);
    if d == "" then ExistingPage(ctx, Sanitized(ctx, orgName))
    else if d in ctx.closed.clients then Some(Named(true, d))
    else if d in ctx.closed.orgs then Some(Named(false, d))
    else None
  }

  function PersonSlug(ctx: Ctx, m: Meeting, p: Participant): Slug {
    if ctx.fullName(p.name) then ctx.slugify(p.name)
    else ctx.slugify(if p.name != "" then p.name else OrDefault(p.email, "person")) + "-" + m.month
  }

  function Rule7(ctx: Ctx, m: Meeting, f: Facts): Option<Home> {
    if f.externals == [] || (exists p :: p in f.externals && Hard(ctx, p)) then None
    else
      match NamedForRule7(ctx, m.cls.orgName)
      case Some(named) =>
        if named.client then Some(ClientHit(ctx, named.slug, 7).(also := {}))
        else Some(ExistingOrg(named.slug, OrDefault(m.cls.relationship, "client"), m.cls.confidence, 7, {}))
      case None =>
        match FirstPerson(ctx, f.externals)
        case None => Some(InternalHome(ctx, 8))
        case Some(p) => Some(OrgHome(ctx, PersonSlug(ctx, m, p), "person", "personal", m.cls.confidence, 7, {}))
  }

  function Rule8(ctx: Ctx, f: Facts): Option<Home> {
    if f.externals == [] then Some(InternalHome(ctx, 8)) else None
  }

  // ------------------------------------------------------------ the ladder

  /** The rules above the domain and contact ladder. */
  ghost function UpperRules(ctx: Ctx, m: Meeting, f: Facts): Option<Home> {
    if Rule13(ctx, m, f).Some? then Rule13(ctx, m, f)
    else if Rule1(ctx, m, f).Some? then Rule1(ctx, m, f)
    else if Rule2(ctx, m, f).Some? then Rule2(ctx, m, f)
    else if Rule11(ctx, m).Some? then Rule11(ctx, m)
    else if Rule10(ctx, m, f).Some? then Rule10(ctx, m, f)
    else Rule12(ctx, m, f)
  }

  ghost function ClientRules(ctx: Ctx, m: Meeting, f: Facts): Option<Home> {
    if Rule4ByName(ctx, m, f).Some? then Rule4ByName(ctx, m, f)
    else if Rule9(ctx, m, f).Some? then Rule9(ctx, m, f)
    else Rule34(ctx, m, f)
  }

  ghost function LowerRules(ctx: Ctx, m: Meeting, f: Facts): Outcome {
    if Rule5(ctx, f.externals).Some? then Resolved(Rule5(ctx, f.externals).value)
    else if Rule6Org(ctx, m, f).Some? then Rule6Org(ctx, m, f).value
    else if Rule6New(ctx, m, f).Some? then Resolved(Rule6New(ctx, m, f).value)
    else if Rule7(ctx, m, f).Some? then Resolved(Rule7(ctx, m, f).value)
    else if Rule8(ctx, f).Some? then Resolved(Rule8(ctx, f).value)
    else Nothing
  }

  ghost function Ladder(ctx: Ctx, m: Meeting, f: Facts): Outcome {
    if UpperRules(ctx, m, f).Some? then Resolved(UpperRules(ctx, m, f).value)
    else if ClientRules(ctx, m, f).Some? then Resolved(ClientRules(ctx, m, f).value)
    else LowerRules(ctx, m, f)
  }

  ghost function Resolve(ctx: Ctx, m: Meeting, participants: seq<Participant>): Outcome {
    if participants == [] && !m.hasText then NoInput
    else Ladder(ctx, m, FactsOf(ctx, Externals(ctx, participants)))
  }
}
