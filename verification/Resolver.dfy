/** The meeting resolver: a ladder of thirteen rules that picks one home page for
    a meeting from its participants, its title and its classification.

    Text normalisation (slugs, registrable labels, title matching) and the
    contact book are parameters: everything proved holds for all of them. */
module Resolver {
  import opened Common

  type Slug = string

  // ------------------------------------------------------------ inputs

  datatype Participant = Participant(name: string, email: string, side: string, spoke: bool, notetaker: bool)

  datatype Contact = Contact(id: string, name: string, company: string, emails: seq<string>)

  datatype Classification = Classification(domain: string, orgName: string, relationship: string, confidence: real)

  /** Everything about a meeting except who took part. */
  datatype Meeting = Meeting(id: string, title: string, month: string, hasText: bool, cls: Classification)

  datatype Node = Node(id: string, client: Slug, state: string)

  /** The pages that exist. `clients` and `orgs` are in directory order. */
  datatype Closed = Closed(clients: seq<Slug>, orgs: seq<Slug>, nodes: seq<Node>,
                           domainToSlug: map<string, Slug>, orgNameToSlug: map<string, Slug>,
                           relationOf: Slug -> Option<string>, domainsOf: Slug -> set<string>)

  /** Text functions and curated data. */
  datatype Ctx = Ctx(
    closed: Closed,
    freeMail: set<string>, relationships: set<string>, roster: set<string>, guarded: bool,
    overrides: map<string, Slug>,
    domainMap: map<string, Slug>,                    // page domains overlaid with aliases and contacts
    contacts: seq<Contact>,
    identify: Participant -> Option<Contact>,        // contact row of a participant
    companySlug: string -> Option<Slug>,
    datedEmployer: Contact -> Option<Slug>,          // employer at meeting time
    lower: string -> string, address: string -> string, norm: string -> string, entity: string -> string,
    registrable: string -> string, slugify: string -> Slug, communitySlug: string -> Slug,
    inTitle: (string, string) -> bool,               // title names this node id
    aliasInTitle: (string, string) -> bool,          // title holds an alias of this node
    officeHours: string -> bool, description: string -> bool, placeholder: string -> bool,
    fullName: string -> bool)                        // at least two words

  // ------------------------------------------------------------ outputs

  datatype Page = ClientPage(slug: Slug) | OrgPage(slug: Slug) | ProjectPage(node: string)

  datatype Created = Created(kind: string, slug: Slug, relationship: string)

  datatype Home = Home(slug: Slug, kind: string, relationship: string, page: Page, node: Option<string>,
                       created: Option<Created>, confidence: real, rule: nat, corroborated: bool, also: set<Slug>)

  datatype Outcome =
    | Resolved(home: Home)
    | NoInput                  // exit 5: neither participants nor text
    | AmbiguousRelationship    // exit 5: an org page without a usable relationship
    | Nothing                  // the empty result

  // ------------------------------------------------------------ participants

  predicate HasAt(s: string) {
    '@' in s
  }

  /** What follows the first `@`. */
  function AfterAt(s: string): string {
    if s == "" then "" else if s[0] == '@' then s[1..] else AfterAt(s[1..])
  }

  /** What follows the last dot, or everything. */
  function LastLabel(s: string): string {
    if '.' in s then LastLabel(s[1..]) else s
  }

  predicate External(ctx: Ctx, p: Participant) {
    && !p.notetaker
    && !(ctx.norm(p.name) != "" && ctx.norm(p.name) in ctx.roster)
    && (p.side == "theirs" || (p.side == "unknown" && p.spoke))
  }

  function Externals(ctx: Ctx, ps: seq<Participant>): seq<Participant> {
    if ps == [] then [] else (if External(ctx, ps[0]) then [ps[0]] else []) + Externals(ctx, ps[1..])
  }

  function Domain(ctx: Ctx, p: Participant): string {
    ctx.lower(AfterAt(p.email))
  }

  predicate Hard(ctx: Ctx, p: Participant) {
    HasAt(p.email) && Domain(ctx, p) !in ctx.freeMail
  }

  predicate Free(ctx: Ctx, p: Participant) {
    HasAt(p.email) && Domain(ctx, p) in ctx.freeMail
  }

  function LabelOf(ctx: Ctx, p: Participant): string {
    ctx.registrable(Domain(ctx, p))
  }

  /** `d.get(a) or d.get(b) or ""`. */
  function Either(d: map<string, Slug>, a: string, b: string): Slug {
    if a in d && d[a] != "" then d[a] else if b in d then d[b] else ""
  }

  function Mapped(ctx: Ctx, p: Participant): Slug {
    Either(ctx.domainMap, LabelOf(ctx, p), Domain(ctx, p))
  }

  predicate IsPage(ctx: Ctx, s: Slug) {
    s in ctx.closed.clients || s in ctx.closed.orgs
  }

  predicate Unmapped(ctx: Ctx, p: Participant) {
    Hard(ctx, p) && !IsPage(ctx, LabelOf(ctx, p)) && !IsPage(ctx, Mapped(ctx, p))
  }

  // ------------------------------------------------------------ candidate facts

  function Count(ps: seq<Participant>, f: Participant -> bool): nat {
    if ps == [] then 0 else (if f(ps[0]) then 1 else 0) + Count(ps[1..], f)
  }

  /** What the candidate loops collect. `lastDomain` keeps the last writer. */
  datatype Facts = Facts(externals: seq<Participant>, clientCands: set<Slug>, domainOrgs: set<Slug>, contactOrgs: set<Slug>,
                         unknown: set<string>, lastDomain: map<string, string>, unknownCount: map<string, nat>,
                         labelCount: map<string, nat>, byContact: set<Slug>, byNameOnly: set<Slug>, dated: set<Slug>)

  function OrgCands(f: Facts): set<Slug> {
    f.domainOrgs + f.contactOrgs
  }

  function HardSlugs(ctx: Ctx, es: seq<Participant>, pages: seq<Slug>): set<Slug> {
    (set p | p in es && Hard(ctx, p) && Mapped(ctx, p) in pages :: Mapped(ctx, p))
    + (set p | p in es && Hard(ctx, p) && LabelOf(ctx, p) in pages :: LabelOf(ctx, p))
  }

  function UnknownLabels(ctx: Ctx, es: seq<Participant>): set<string> {
    set p | p in es && Unmapped(ctx, p) :: LabelOf(ctx, p)
  }

  function LabelsWhere(es: seq<Participant>, f: Participant -> bool, l: Participant -> string): set<string> {
    set p | p in es && f(p) :: l(p)
  }

  /** Occurrences of every label among the participants that satisfy `f`. */
  function Counts(es: seq<Participant>, f: Participant -> bool, l: Participant -> string): map<string, nat> {
    map s | s in LabelsWhere(es, f, l) :: Count(es, p => f(p) && l(p) == s)
  }

  function UnknownCounts(ctx: Ctx, es: seq<Participant>): map<string, nat> {
    Counts(es, p => Unmapped(ctx, p), p => LabelOf(ctx, p))
  }

  function LabelCounts(ctx: Ctx, es: seq<Participant>): map<string, nat> {
    Counts(es, p => Hard(ctx, p), p => LabelOf(ctx, p))
  }

  function LastDomain(ctx: Ctx, es: seq<Participant>): map<string, string> {
    if es == [] then map[]
    else
      var d, p := LastDomain(ctx, es[..|es| - 1]), es[|es| - 1];
      if Unmapped(ctx, p) then d[LabelOf(ctx, p) := Domain(ctx, p)] else d
  }

  /** The company or dated employer of the contact a participant is. */
  function ContactSlug(ctx: Ctx, p: Participant): Option<Slug> {
    if ctx.identify(p).None? then None
    else
      var row := ctx.identify(p).value;
      var dated := ctx.datedEmployer(row);
      if dated.Some? && dated.value != "" then dated
      else if ctx.companySlug(row.company).Some? && ctx.companySlug(row.company).value != "" then ctx.companySlug(row.company)
      else None
  }

  /** The participant's own address, and not merely the name, is in the row. */
  predicate EmailMatched(ctx: Ctx, p: Participant) {
    ctx.identify(p).Some? && HasAt(p.email) &&
    exists i :: 0 <= i < |ctx.identify(p).value.emails| && ctx.lower(ctx.identify(p).value.emails[i]) == ctx.address(p.email)
  }

  function ContactSlugs(ctx: Ctx, es: seq<Participant>): set<Slug> {
    set p | p in es && ContactSlug(ctx, p).Some? && ContactSlug(ctx, p).value in ctx.closed.clients :: ContactSlug(ctx, p).value
  }

  function NameOnlySlugs(ctx: Ctx, es: seq<Participant>): set<Slug> {
    set p | p in es && ContactSlug(ctx, p).Some? && ContactSlug(ctx, p).value in ctx.closed.clients && !HasAt(p.email) :: ContactSlug(ctx, p).value
  }

  function ContactOrgs(ctx: Ctx, es: seq<Participant>): set<Slug> {
    set p | p in es && ContactSlug(ctx, p).Some? && ContactSlug(ctx, p).value in ctx.closed.orgs && EmailMatched(ctx, p) :: ContactSlug(ctx, p).value
  }

  function DatedSlugs(ctx: Ctx, es: seq<Participant>): set<Slug> {
    set p | p in es && ctx.identify(p).Some? && ctx.datedEmployer(ctx.identify(p).value).Some? && ctx.datedEmployer(ctx.identify(p).value).value != ""
      :: ctx.datedEmployer(ctx.identify(p).value).value
  }

  function FactsOf(ctx: Ctx, es: seq<Participant>): Facts {
    Facts(es, HardSlugs(ctx, es, ctx.closed.clients), HardSlugs(ctx, es, ctx.closed.orgs), ContactOrgs(ctx, es),
          UnknownLabels(ctx, es), LastDomain(ctx, es),
          UnknownCounts(ctx, es), LabelCounts(ctx, es),
          ContactSlugs(ctx, es), NameOnlySlugs(ctx, es), DatedSlugs(ctx, es))
  }

  // ------------------------------------------------------------ votes and picks

  function VoteOf(ctx: Ctx, p: Participant, cands: set<Slug>): Slug {
    if !Hard(ctx, p) then ""
    else if Mapped(ctx, p) in cands then Mapped(ctx, p)
    else if LabelOf(ctx, p) in cands then LabelOf(ctx, p)
    else ""
  }

  function Votes(ctx: Ctx, es: seq<Participant>, cands: set<Slug>, s: Slug): nat {
    if s == "" then 0 else Count(es, p => VoteOf(ctx, p, cands) == s)
  }

  predicate OpenNode(n: Node, client: Slug) {
    n.client == client && (n.state == "scoping" || n.state == "active" || n.state == "paused")
  }

  function OpenNodes(nodes: seq<Node>, client: Slug): seq<Node> {
    if nodes == [] then [] else (if OpenNode(nodes[0], client) then [nodes[0]] else []) + OpenNodes(nodes[1..], client)
  }

  /** Client pages and org pages marked `client` come first. */
  function Tier(ctx: Ctx, s: Slug): nat {
    if s in ctx.closed.clients then 0
    else if s in ctx.closed.orgs && ctx.closed.relationOf(s) == Some("client") then 0
    else 1
  }

  function ClsLabel(ctx: Ctx, cls: Classification): string {
    if cls.domain == "" then "" else ctx.registrable(cls.domain)
  }

  function ClsSlug(ctx: Ctx, cls: Classification, orgName: string): Slug {
    if orgName != "" then ctx.slugify(orgName) else ClsLabel(ctx, cls)
  }

  predicate ClsMatch(ctx: Ctx, cls: Classification, s: Slug) {
    s != "" && (s == ClsLabel(ctx, cls) || s == ClsSlug(ctx, cls, cls.orgName))
  }

  /** Alphabetical order by character. */
  predicate LexLess(a: string, b: string) {
    b != "" && (a == "" || a[0] < b[0] || (a[0] == b[0] && LexLess(a[1..], b[1..])))
  }

  datatype Rank = Rank(tier: nat, votes: nat, matches: bool, open: nat)

  function RankOf(ctx: Ctx, cls: Classification, es: seq<Participant>, cands: set<Slug>, s: Slug): Rank {
    Rank(Tier(ctx, s), Votes(ctx, es, cands, s), ClsMatch(ctx, cls, s), |OpenNodes(ctx.closed.nodes, s)|)
  }

  /** The tuple comparison of the key, slugs last. */
  predicate Before(a: Rank, sa: Slug, b: Rank, sb: Slug) {
    if a.tier != b.tier then a.tier < b.tier
    else if a.votes != b.votes then a.votes > b.votes
    else if a.matches != b.matches then a.matches
    else if a.open != b.open then a.open > b.open
    else LexLess(sa, sb)
  }

  ghost predicate IsBest(ctx: Ctx, cls: Classification, es: seq<Participant>, cands: set<Slug>, s: Slug) {
    s in cands && forall t :: t in cands && t != s ==> Before(RankOf(ctx, cls, es, cands, s), s, RankOf(ctx, cls, es, cands, t), t)
  }

  lemma {:induction false} LexTotal(a: string, b: string)
    ensures a != b <==> LexLess(a, b) || LexLess(b, a)
    ensures !(LexLess(a, b) && LexLess(b, a))
    decreases |a|
  {
    if a != "" && b != "" {
      LexTotal(a[1..], b[1..]);
      assert a == [a[0]] + a[1..] && b == [b[0]] + b[1..];
    }
  }

  lemma {:induction false} LexTransitive(a: string, b: string, c: string)
    requires LexLess(a, b) && LexLess(b, c)
    ensures LexLess(a, c)
    decreases |a|
  {
    if a != "" && a[0] == b[0] == c[0] { LexTransitive(a[1..], b[1..], c[1..]); }
  }

  lemma BeforeTransitive(a: Rank, sa: Slug, b: Rank, sb: Slug, c: Rank, sc: Slug)
    requires Before(a, sa, b, sb) && Before(b, sb, c, sc)
    ensures Before(a, sa, c, sc)
  {
    if LexLess(sa, sb) && LexLess(sb, sc) { LexTransitive(sa, sb, sc); }
  }

  lemma BeforeTotal(a: Rank, sa: Slug, b: Rank, sb: Slug)
    requires sa != sb
    ensures Before(a, sa, b, sb) != Before(b, sb, a, sa)
  {
    LexTotal(sa, sb);
  }

  lemma {:induction false} BestExists(ctx: Ctx, cls: Classification, es: seq<Participant>, cands: set<Slug>, sub: set<Slug>) returns (best: Slug)
    requires sub != {} && sub <= cands
    ensures best in sub
    ensures forall t :: t in sub && t != best ==> Before(RankOf(ctx, cls, es, cands, best), best, RankOf(ctx, cls, es, cands, t), t)
    decreases |sub|
  {
    var x :| x in sub;
    if sub == {x} {
      best := x;
    } else {
      var y := BestExists(ctx, cls, es, cands, sub - {x});
      var rx, ry := RankOf(ctx, cls, es, cands, x), RankOf(ctx, cls, es, cands, y);
      BeforeTotal(rx, x, ry, y);
      if Before(rx, x, ry, y) {
        best := x;
        forall t | t in sub && t != x ensures Before(rx, x, RankOf(ctx, cls, es, cands, t), t) {
          if t != y { BeforeTransitive(rx, x, ry, y, RankOf(ctx, cls, es, cands, t), t); }
        }
      } else {
        best := y;
      }
    }
  }

  lemma BestUnique(ctx: Ctx, cls: Classification, es: seq<Participant>, cands: set<Slug>, s: Slug, t: Slug)
    requires IsBest(ctx, cls, es, cands, s) && IsBest(ctx, cls, es, cands, t)
    ensures s == t
  {
    if s != t { BeforeTotal(RankOf(ctx, cls, es, cands, s), s, RankOf(ctx, cls, es, cands, t), t); }
  }

  lemma SomeBest(ctx: Ctx, cls: Classification, es: seq<Participant>, cands: set<Slug>)
    requires cands != {}
    ensures exists s :: IsBest(ctx, cls, es, cands, s)
  {
    var best := BestExists(ctx, cls, es, cands, cands);
    assert IsBest(ctx, cls, es, cands, best);
  }

  /** The minimum of the key over the candidates: it exists and is unique. */
  ghost function Pick(ctx: Ctx, cls: Classification, es: seq<Participant>, cands: set<Slug>): (s: Slug)
    requires cands != {}
    ensures IsBest(ctx, cls, es, cands, s)
  {
    SomeBest(ctx, cls, es, cands);
    var s :| IsBest(ctx, cls, es, cands, s);
    s
  }
}
