/** The active-work list of the state block: open engagements and open projects
    grouped under their parents; and the two resolvers that find the engagement a
    node belongs to. */
module StateSections {
  import opened Common

  type Key = string

  datatype Kind = Engagement | Project

  datatype Item = Item(open: bool, ours: bool)

  /** A node file. `id` may be empty; the file's own name is then its key. */
  datatype Node = Node(id: string, kind: Kind, parent: string, open: bool, items: seq<Item>)

  /** As loaded: keyed by the id, or by the file name when the id is empty. */
  predicate Loaded(nodes: map<Key, Node>) {
    forall k :: k in nodes ==> k != "" && (nodes[k].id == k || nodes[k].id == "")
  }

  /** Sorting, of which only this matters here: every member once. */
  ghost predicate Lists(list: set<Key> -> seq<Key>) {
    forall s :: multiset(list(s)) == multiset(s)
  }

  // ------------------------------------------------------------ grouping

  datatype Line = Emitted(key: Key, top: bool) | Headline(key: Key) | Unparented

  function OpenKeys(nodes: map<Key, Node>, kind: Kind): set<Key> {
    set k | k in nodes && nodes[k].open && nodes[k].kind == kind
  }

  function OpenIds(nodes: map<Key, Node>): set<string> {
    set k | k in OpenKeys(nodes, Engagement) :: nodes[k].id
  }

  /** The parent names an existing node. */
  predicate HasParent(nodes: map<Key, Node>, k: Key)
    requires k in nodes
  {
    nodes[k].parent != "" && nodes[k].parent in nodes
  }

  function Children(nodes: map<Key, Node>, g: Key): set<Key> {
    set k | k in OpenKeys(nodes, Project) && HasParent(nodes, k) && nodes[k].parent == g
  }

  function Parents(nodes: map<Key, Node>): set<Key> {
    set k | k in OpenKeys(nodes, Project) && HasParent(nodes, k) :: nodes[k].parent
  }

  function Orphans(nodes: map<Key, Node>, ps: seq<Key>): seq<Key>
    requires forall k :: k in ps ==> k in nodes
  {
    if ps == [] then [] else (if HasParent(nodes, ps[0]) then [] else [ps[0]]) + Orphans(nodes, ps[1..])
  }

  function Below(keys: seq<Key>): seq<Line> {
    if keys == [] then [] else [Emitted(keys[0], false)] + Below(keys[1..])
  }

  function Group(nodes: map<Key, Node>, list: set<Key> -> seq<Key>, g: Key): seq<Line> {
    [if g in OpenIds(nodes) then Emitted(g, true) else Headline(g)] + Below(list(Children(nodes, g)))
  }

  function Groups(nodes: map<Key, Node>, list: set<Key> -> seq<Key>, gs: seq<Key>): seq<Line> {
    if gs == [] then [] else Group(nodes, list, gs[0]) + Groups(nodes, list, gs[1..])
  }

  function Rest(orphans: seq<Key>): seq<Line> {
    if orphans == [] then [] else [Unparented] + Below(orphans)
  }

  /** The lines, or nothing for the lookup error on an engagement without an id. */
  ghost function ActiveWork(nodes: map<Key, Node>, list: set<Key> -> seq<Key>): Option<seq<Line>>
    requires Lists(list)
  {
    if "" in OpenIds(nodes) then None
    else
      ListsMembers(list, OpenKeys(nodes, Project));
      Some(Groups(nodes, list, list(OpenIds(nodes) + Parents(nodes))) + Rest(Orphans(nodes, list(OpenKeys(nodes, Project)))))
  }

  lemma ListsMembers(list: set<Key> -> seq<Key>, s: set<Key>)
    requires Lists(list)
    ensures forall k :: k in list(s) <==> k in s
  {
    assert multiset(list(s)) == multiset(s);
    forall k ensures k in list(s) <==> k in s { assert k in list(s) <==> k in multiset(list(s)); assert k in s <==> k in multiset(s); }
  }

  // ------------------------------------------------------------ the loops

  /** `setdefault` and append, project by project. */
  function ByParent(nodes: map<Key, Node>, ps: seq<Key>): map<Key, set<Key>>
    requires forall k :: k in ps ==> k in nodes
  {
    if ps == [] then map[]
    else
      var m, k := ByParent(nodes, ps[..|ps| - 1]), ps[|ps| - 1];
      if HasParent(nodes, k) then m[nodes[k].parent := (if nodes[k].parent in m then m[nodes[k].parent] else {}) + {k}] else m
  }

  function At(m: map<Key, set<Key>>, g: Key): set<Key> {
    if g in m then m[g] else {}
  }

  lemma {:induction false} ByParentMembers(nodes: map<Key, Node>, ps: seq<Key>, g: Key, k: Key)
    requires forall x :: x in ps ==> x in nodes
    ensures k in At(ByParent(nodes, ps), g) <==> k in ps && HasParent(nodes, k) && nodes[k].parent == g
    ensures g in ByParent(nodes, ps) <==> exists x :: x in ps && HasParent(nodes, x) && nodes[x].parent == g
    decreases |ps|
  {
    if ps != [] {
      var front, last := ps[..|ps| - 1], ps[|ps| - 1];
      assert ps == front + [last];
      ByParentMembers(nodes, front, g, k);
      if x :| x in ps && HasParent(nodes, x) && nodes[x].parent == g { assert x in front || x == last; }
      if x :| x in front && HasParent(nodes, x) && nodes[x].parent == g { assert x in ps; }
      assert last in ps;
    }
  }

  lemma OrphansStep(nodes: map<Key, Node>, ps: seq<Key>, i: nat)
    requires i < |ps| && forall k :: k in ps ==> k in nodes
    ensures Orphans(nodes, ps[i..]) == (if HasParent(nodes, ps[i]) then [] else [ps[i]]) + Orphans(nodes, ps[i + 1..])
    ensures HasParent(nodes, ps[i]) ==> Orphans(nodes, ps[i..]) == Orphans(nodes, ps[i + 1..])
  {
    assert ps[i..][1..] == ps[i + 1..];
  }

  lemma NoMoreOrphans(nodes: map<Key, Node>, ps: seq<Key>)
    requires forall k :: k in ps ==> k in nodes
    ensures Orphans(nodes, ps[|ps|..]) == []
  {}

  method GroupProjects(nodes: map<Key, Node>, projects: seq<Key>) returns (byParent: map<Key, set<Key>>, unparented: seq<Key>)
    requires forall k :: k in projects ==> k in nodes
    ensures unparented == Orphans(nodes, projects)
    ensures byParent == ByParent(nodes, projects)
  {
    hide Orphans;
    byParent, unparented := map[], [];
    assert projects[0..] == projects;
    for i := 0 to |projects|
      invariant unparented + Orphans(nodes, projects[i..]) == Orphans(nodes, projects)
      invariant byParent == ByParent(nodes, projects[..i])
    {
      var k := projects[i];
      ghost var rest := Orphans(nodes, projects[i + 1..]);
      OrphansStep(nodes, projects, i);
      assert projects[..i + 1][..i] == projects[..i];
      var parent := nodes[k].parent;
      if parent != "" && parent in nodes {
        byParent := byParent[parent := (if parent in byParent then byParent[parent] else {}) + {k}];
      } else {
        assert unparented + ([k] + rest) == (unparented + [k]) + rest;
        unparented := unparented + [k];
      }
    }
    NoMoreOrphans(nodes, projects);
    assert projects[..|projects|] == projects && unparented + [] == unparented;
  }

  /** The groups that the loop makes are the children of their parents. */
  lemma GroupsAreChildren(nodes: map<Key, Node>, projects: seq<Key>)
    requires forall k :: k in projects <==> k in OpenKeys(nodes, Project)
    ensures ByParent(nodes, projects).Keys == Parents(nodes)
    ensures forall g :: At(ByParent(nodes, projects), g) == Children(nodes, g)
  {
    var m := ByParent(nodes, projects);
    forall g, k ensures k in At(m, g) <==> k in Children(nodes, g) { ByParentMembers(nodes, projects, g, k); }
    forall g ensures g in m <==> g in Parents(nodes) { ByParentMembers(nodes, projects, g, g); }
  }

  method EmitBelow(keys: seq<Key>) returns (lines: seq<Line>)
    ensures lines == Below(keys)
  {
    lines := [];
    for i := 0 to |keys|
      invariant lines + Below(keys[i..]) == Below(keys)
    {
      assert keys[i..][1..] == keys[i + 1..];
      assert lines + ([Emitted(keys[i], false)] + Below(keys[i + 1..])) == (lines + [Emitted(keys[i], false)]) + Below(keys[i + 1..]);
      lines := lines + [Emitted(keys[i], false)];
    }
  }

  lemma GroupsStep(nodes: map<Key, Node>, list: set<Key> -> seq<Key>, gs: seq<Key>, i: nat)
    requires i < |gs|
    ensures Groups(nodes, list, gs[i..]) == Group(nodes, list, gs[i]) + Groups(nodes, list, gs[i + 1..])
  {
    assert gs[i..][1..] == gs[i + 1..];
  }

  /** The loop over the groups; a group that is an open id but no key is the lookup error. */
  method RenderGroups(nodes: map<Key, Node>, list: set<Key> -> seq<Key>, byParent: map<Key, set<Key>>, groups: seq<Key>) returns (lines: Option<seq<Line>>)
    requires forall g :: At(byParent, g) == Children(nodes, g)
    ensures lines == if forall g :: g in groups && g in OpenIds(nodes) ==> g in nodes then Some(Groups(nodes, list, groups)) else None
  {
    hide Groups, OpenIds, Children, Below, At;
    var openIds := OpenIds(nodes);
    var active: seq<Line> := [];
    assert groups[0..] == groups;
    for i := 0 to |groups|
      invariant active + Groups(nodes, list, groups[i..]) == Groups(nodes, list, groups)
      invariant forall j :: 0 <= j < i ==> groups[j] !in openIds || groups[j] in nodes
    {
      var g := groups[i];
      GroupsStep(nodes, list, groups, i);
      if g in openIds && g !in nodes { assert g in groups; return None; }
      var below := EmitBelow(list(At(byParent, g)));
      var group := [if g in openIds then Emitted(g, true) else Headline(g)] + below;
      assert active + (group + Groups(nodes, list, groups[i + 1..])) == (active + group) + Groups(nodes, list, groups[i + 1..]);
      active := active + group;
    }
    NoMoreGroups(nodes, list, groups);
    assert active + [] == active;
    lines := Some(active);
  }

  method RenderActive(nodes: map<Key, Node>, list: set<Key> -> seq<Key>) returns (active: Option<seq<Line>>)
    requires Loaded(nodes) && Lists(list)
    ensures active == ActiveWork(nodes, list)
  {
    var projects := list(OpenKeys(nodes, Project));
    ListsMembers(list, OpenKeys(nodes, Project));
    var byParent, unparented := GroupProjects(nodes, projects);
    GroupsAreChildren(nodes, projects);
    var groups := list(OpenIds(nodes) + byParent.Keys);
    ListsMembers(list, OpenIds(nodes) + byParent.Keys);
    MissingIsEmpty(nodes);
    assert "" in OpenIds(nodes) ==> "" in groups;
    hide Groups, OpenIds, Parents, Children, ByParent, Orphans, Below, OpenKeys;
    active := RenderGroups(nodes, list, byParent, groups);
    if active.None? { return; }
    if unparented == [] {
      assert active.value + [] == active.value;
    } else {
      var below := EmitBelow(unparented);
      active := Some(active.value + ([Unparented] + below));
    }
  }

  lemma NoMoreGroups(nodes: map<Key, Node>, list: set<Key> -> seq<Key>, gs: seq<Key>)
    ensures Groups(nodes, list, gs[|gs|..]) == []
  {}

  /** An open engagement is missing under its id exactly when it has none. */
  lemma MissingIsEmpty(nodes: map<Key, Node>)
    requires Loaded(nodes)
    ensures forall g :: g in OpenIds(nodes) ==> (g !in nodes <==> g == "")
  {}

  // ------------------------------------------------------------ nothing lost, nothing twice

  /** The nodes that contribute their history and open items, in order. */
  function Contributors(lines: seq<Line>): seq<Key> {
    if lines == [] then [] else (if lines[0].Emitted? then [lines[0].key] else []) + Contributors(lines[1..])
  }

  lemma {:induction false} ContributorsConcat(a: seq<Line>, b: seq<Line>)
    ensures Contributors(a + b) == Contributors(a) + Contributors(b)
    decreases |a|
  {
    if a == [] {
      assert a + b == b;
    } else {
      assert (a + b)[1..] == a[1..] + b;
      ContributorsConcat(a[1..], b);
    }
  }

  lemma {:induction false} ContributorsBelow(keys: seq<Key>)
    ensures Contributors(Below(keys)) == keys
    decreases |keys|
  {
    if keys != [] {
      assert Below(keys)[1..] == Below(keys[1..]);
      ContributorsBelow(keys[1..]);
    }
  }

  /** How often a group makes a node contribute. */
  lemma GroupCounts(nodes: map<Key, Node>, list: set<Key> -> seq<Key>, g: Key, k: Key)
    requires Lists(list)
    ensures multiset(Contributors(Group(nodes, list, g)))[k] ==
      (if k == g && g in OpenIds(nodes) then 1 else 0) + (if k in Children(nodes, g) then 1 else 0)
  {
    var head := [if g in OpenIds(nodes) then Emitted(g, true) else Headline(g)];
    var children := list(Children(nodes, g));
    ContributorsConcat(head, Below(children));
    ContributorsBelow(children);
    assert head[1..] == [];
    assert multiset(children) == multiset(Children(nodes, g));
  }

  ghost predicate Distinct(gs: seq<Key>) {
    forall i, j :: 0 <= i < j < |gs| ==> gs[i] != gs[j]
  }

  lemma {:induction false} GroupsCount(nodes: map<Key, Node>, list: set<Key> -> seq<Key>, gs: seq<Key>, k: Key)
    requires Lists(list) && Distinct(gs)
    ensures multiset(Contributors(Groups(nodes, list, gs)))[k] ==
      (if k in gs && k in OpenIds(nodes) then 1 else 0)
      + (if k in OpenKeys(nodes, Project) && HasParent(nodes, k) && nodes[k].parent in gs then 1 else 0)
    decreases |gs|
  {
    if gs != [] {
      assert gs == [gs[0]] + gs[1..];
      assert gs[0] !in gs[1..];
      GroupCounts(nodes, list, gs[0], k);
      GroupsCount(nodes, list, gs[1..], k);
      ContributorsConcat(Group(nodes, list, gs[0]), Groups(nodes, list, gs[1..]));
    }
  }

  lemma {:induction false} OrphansCount(nodes: map<Key, Node>, ps: seq<Key>, k: Key)
    requires forall x :: x in ps ==> x in nodes
    ensures multiset(Orphans(nodes, ps))[k] == if k in ps && !HasParent(nodes, k) then multiset(ps)[k] else 0
    decreases |ps|
  {
    if ps != [] {
      assert ps == [ps[0]] + ps[1..];
      OrphansCount(nodes, ps[1..], k);
    }
  }

  lemma TwiceCounts(gs: seq<Key>, i: nat, j: nat)
    requires i < j < |gs| && gs[i] == gs[j]
    ensures multiset(gs)[gs[i]] >= 2
  {
    var a, b := gs[..j], gs[j..];
    assert gs == a + b && gs[i] in a && gs[j] in b;
  }

  lemma OnceIsDistinct(gs: seq<Key>, s: set<Key>)
    requires multiset(gs) == multiset(s)
    ensures Distinct(gs)
  {
    forall i, j | 0 <= i < j < |gs| ensures gs[i] != gs[j] {
      if gs[i] == gs[j] { TwiceCounts(gs, i, j); }
    }
  }

  lemma RestContributors(orphans: seq<Key>)
    ensures Contributors(Rest(orphans)) == orphans
  {
    if orphans != [] {
      assert Rest(orphans)[1..] == Below(orphans);
      ContributorsBelow(orphans);
    }
  }

  lemma ContributorCount(nodes: map<Key, Node>, list: set<Key> -> seq<Key>, gs: seq<Key>, ps: seq<Key>, k: Key)
    requires Lists(list) && Distinct(gs) && (forall g :: g in gs <==> g in OpenIds(nodes) + Parents(nodes))
    requires OpenIds(nodes) == OpenKeys(nodes, Engagement) && multiset(ps) == multiset(OpenKeys(nodes, Project))
    requires forall x :: x in ps ==> x in nodes
    ensures multiset(Contributors(Groups(nodes, list, gs) + Rest(Orphans(nodes, ps))))[k]
         == if k in OpenKeys(nodes, Engagement) + OpenKeys(nodes, Project) then 1 else 0
  {
    var groups, orphans := Groups(nodes, list, gs), Orphans(nodes, ps);
    ContributorsConcat(groups, Rest(orphans));
    RestContributors(orphans);
    GroupsCount(nodes, list, gs, k);
    OrphansCount(nodes, ps, k);
    ParentIsGroup(nodes, gs, k);
    assert k in ps <==> k in multiset(ps);
    hide Contributors, Groups, Rest, Orphans, Distinct, OpenIds, OpenKeys, Parents;
  }

  /** Every open engagement and every open project contributes exactly once, and no
      closed node ever does. */
  lemma EveryOpenNodeOnce(nodes: map<Key, Node>, list: set<Key> -> seq<Key>)
    requires Loaded(nodes) && Lists(list) && ActiveWork(nodes, list).Some?
    ensures multiset(Contributors(ActiveWork(nodes, list).value)) == multiset(OpenKeys(nodes, Engagement) + OpenKeys(nodes, Project))
  {
    hide *;
    var gs, ps := ActiveParts(nodes, list);
    var all := OpenKeys(nodes, Engagement) + OpenKeys(nodes, Project);
    forall k ensures multiset(Contributors(ActiveWork(nodes, list).value))[k] == if k in all then 1 else 0 { ContributorCount(nodes, list, gs, ps, k); }
    CountsOnce(Contributors(ActiveWork(nodes, list).value), all);
  }

  lemma CountsOnce(keys: seq<Key>, all: set<Key>)
    requires forall k :: multiset(keys)[k] == if k in all then 1 else 0
    ensures multiset(keys) == multiset(all)
  {}

  /** What the lines are made of. */
  lemma ActiveParts(nodes: map<Key, Node>, list: set<Key> -> seq<Key>) returns (gs: seq<Key>, ps: seq<Key>)
    requires Loaded(nodes) && Lists(list) && ActiveWork(nodes, list).Some?
    ensures Distinct(gs) && (forall g :: g in gs <==> g in OpenIds(nodes) + Parents(nodes))
    ensures OpenIds(nodes) == OpenKeys(nodes, Engagement) && multiset(ps) == multiset(OpenKeys(nodes, Project)) && forall x :: x in ps ==> x in nodes
    ensures ActiveWork(nodes, list).value == Groups(nodes, list, gs) + Rest(Orphans(nodes, ps))
  {
    gs, ps := list(OpenIds(nodes) + Parents(nodes)), list(OpenKeys(nodes, Project));
    ListsMembers(list, OpenIds(nodes) + Parents(nodes));
    ListsMembers(list, OpenKeys(nodes, Project));
    OnceIsDistinct(gs, OpenIds(nodes) + Parents(nodes));
    IdsAreKeys(nodes);
  }

  lemma ParentIsGroup(nodes: map<Key, Node>, gs: seq<Key>, k: Key)
    requires forall g :: g in gs <==> g in OpenIds(nodes) + Parents(nodes)
    ensures k in OpenKeys(nodes, Project) && HasParent(nodes, k) ==> nodes[k].parent in gs
    ensures !(k in OpenKeys(nodes, Engagement) && k in OpenKeys(nodes, Project))
  {
    if k in OpenKeys(nodes, Project) && HasParent(nodes, k) { assert nodes[k].parent in Parents(nodes); }
  }

  /** Without an empty one, the ids of the open engagements are their keys. */
  lemma IdsAreKeys(nodes: map<Key, Node>)
    requires Loaded(nodes) && "" !in OpenIds(nodes)
    ensures OpenIds(nodes) == OpenKeys(nodes, Engagement)
  {
    forall k | k in OpenKeys(nodes, Engagement) ensures nodes[k].id == k { assert nodes[k].id in OpenIds(nodes); }
  }

  /** The section renders exactly when no open engagement lacks an id. */
  lemma RendersIff(nodes: map<Key, Node>, list: set<Key> -> seq<Key>)
    requires Loaded(nodes) && Lists(list)
    ensures ActiveWork(nodes, list).Some? <==> forall k :: k in nodes && nodes[k].open && nodes[k].kind.Engagement? ==> nodes[k].id != ""
  {
    if "" in OpenIds(nodes) { var k :| k in OpenKeys(nodes, Engagement) && nodes[k].id == ""; }
    forall k | k in nodes && nodes[k].open && nodes[k].kind.Engagement? && nodes[k].id == "" ensures "" in OpenIds(nodes) { assert k in OpenKeys(nodes, Engagement); }
  }

  // ------------------------------------------------------------ every project under its parent

  predicate IsHead(l: Line) {
    !l.Emitted? || l.top
  }

  ghost predicate Belongs(nodes: map<Key, Node>, head: Option<Line>, k: Key) {
    k in nodes && head.Some? &&
    if nodes[k].parent in nodes then head.value == Headline(nodes[k].parent) || head.value == Emitted(nodes[k].parent, true)
    else head.value == Unparented
  }

  /** Every indented line stands under the last line that is not. */
  ghost predicate Placed(nodes: map<Key, Node>, head: Option<Line>, lines: seq<Line>)
    decreases |lines|
  {
    lines != [] ==>
      if IsHead(lines[0]) then Placed(nodes, Some(lines[0]), lines[1..])
      else Belongs(nodes, head, lines[0].key) && Placed(nodes, head, lines[1..])
  }

  lemma {:induction false} BelowPlaced(nodes: map<Key, Node>, head: Line, keys: seq<Key>, rest: seq<Line>)
    requires (forall k :: k in keys ==> Belongs(nodes, Some(head), k)) && Placed(nodes, None, rest)
    ensures Placed(nodes, Some(head), Below(keys) + rest)
    decreases |keys|
  {
    hide Belongs, Placed;
    if keys == [] {
      assert Below(keys) + rest == rest;
      HeadDoesNotMatter(nodes, Some(head), rest);
    } else {
      assert keys[0] in keys && forall k :: k in keys[1..] ==> k in keys;
      BelowPlaced(nodes, head, keys[1..], rest);
      LinePlaced(nodes, head, keys[0], Below(keys[1..]) + rest);
      assert Below(keys) + rest == [Emitted(keys[0], false)] + (Below(keys[1..]) + rest);
    }
  }

  lemma LinePlaced(nodes: map<Key, Node>, head: Line, k: Key, lines: seq<Line>)
    requires Belongs(nodes, Some(head), k) && Placed(nodes, Some(head), lines)
    ensures Placed(nodes, Some(head), [Emitted(k, false)] + lines)
  {
    assert ([Emitted(k, false)] + lines)[1..] == lines;
  }

  /** Lines that are placed on their own start with a head, if there are any. */
  lemma HeadDoesNotMatter(nodes: map<Key, Node>, head: Option<Line>, lines: seq<Line>)
    requires Placed(nodes, None, lines)
    ensures Placed(nodes, head, lines)
  {}

  lemma {:induction false} GroupsPlaced(nodes: map<Key, Node>, list: set<Key> -> seq<Key>, gs: seq<Key>, rest: seq<Line>)
    requires Lists(list) && Placed(nodes, None, rest)
    ensures Placed(nodes, None, Groups(nodes, list, gs) + rest)
    decreases |gs|
  {
    if gs == [] {
      assert Groups(nodes, list, gs) + rest == rest;
    } else {
      hide Placed, Belongs, OpenIds, Children, Below;
      var g := gs[0];
      var head := if g in OpenIds(nodes) then Emitted(g, true) else Headline(g);
      var below, after := Below(list(Children(nodes, g))), Groups(nodes, list, gs[1..]) + rest;
      GroupsPlaced(nodes, list, gs[1..], rest);
      ListsMembers(list, Children(nodes, g));
      forall k | k in list(Children(nodes, g)) ensures Belongs(nodes, Some(head), k) { ChildBelongs(nodes, head, g, k); }
      BelowPlaced(nodes, head, list(Children(nodes, g)), after);
      HeadFirst(nodes, head, below + after);
      Regroup(head, below, Groups(nodes, list, gs[1..]), rest);
    }
  }

  lemma Regroup(head: Line, below: seq<Line>, groups: seq<Line>, rest: seq<Line>)
    ensures [head] + below + groups + rest == [head] + (below + (groups + rest))
  {}

  lemma ChildBelongs(nodes: map<Key, Node>, head: Line, g: Key, k: Key)
    requires k in Children(nodes, g) && (head == Emitted(g, true) || head == Headline(g))
    ensures Belongs(nodes, Some(head), k)
  {}

  lemma HeadFirst(nodes: map<Key, Node>, head: Line, lines: seq<Line>)
    requires IsHead(head) && Placed(nodes, Some(head), lines)
    ensures Placed(nodes, None, [head] + lines)
  {
    assert ([head] + lines)[1..] == lines;
  }

  lemma {:induction false} OrphansHaveNoParent(nodes: map<Key, Node>, ps: seq<Key>)
    requires forall x :: x in ps ==> x in nodes
    ensures forall k :: k in Orphans(nodes, ps) ==> k in nodes && !HasParent(nodes, k)
    decreases |ps|
  {
    if ps != [] { OrphansHaveNoParent(nodes, ps[1..]); }
  }

  /** Every open project stands under its parent, open or not, or under the heading
      for projects whose parent does not exist. */
  lemma EveryProjectUnderItsParent(nodes: map<Key, Node>, list: set<Key> -> seq<Key>)
    requires Loaded(nodes) && Lists(list) && ActiveWork(nodes, list).Some?
    ensures Placed(nodes, None, ActiveWork(nodes, list).value)
  {
    var ps := list(OpenKeys(nodes, Project));
    ListsMembers(list, OpenKeys(nodes, Project));
    var orphans := Orphans(nodes, ps);
    OrphansHaveNoParent(nodes, ps);
    assert Placed(nodes, None, Rest(orphans)) by {
      if orphans != [] {
        BelowPlaced(nodes, Unparented, orphans, []);
        assert Below(orphans) + [] == Below(orphans);
        HeadFirst(nodes, Unparented, Below(orphans));
      }
    }
    GroupsPlaced(nodes, list, list(OpenIds(nodes) + Parents(nodes)), Rest(orphans));
  }

  // ------------------------------------------------------------ the open items

  /** A row of the Open Items table of a node. */
  datatype Ref = Ref(key: Key, row: nat)

  /** The open rows of a node from `i` on whose owner is ours, or is not. */
  function OpenRows(k: Key, items: seq<Item>, i: nat, ours: bool): seq<Ref>
    requires i <= |items|
    decreases |items| - i
  {
    if i == |items| then []
    else (if items[i].open && items[i].ours == ours then [Ref(k, i)] else []) + OpenRows(k, items, i + 1, ours)
  }

  function AllRows(nodes: map<Key, Node>, keys: seq<Key>, ours: bool): seq<Ref>
    requires forall k :: k in keys ==> k in nodes
  {
    if keys == [] then [] else OpenRows(keys[0], nodes[keys[0]].items, 0, ours) + AllRows(nodes, keys[1..], ours)
  }

  method SortItems(nodes: map<Key, Node>, keys: seq<Key>) returns (waiting: seq<Ref>, next: seq<Ref>)
    requires forall k :: k in keys ==> k in nodes
    ensures waiting == AllRows(nodes, keys, false) && next == AllRows(nodes, keys, true)
  {
    hide AllRows;
    waiting, next := [], [];
    assert keys[0..] == keys;
    for i := 0 to |keys|
      invariant waiting + AllRows(nodes, keys[i..], false) == AllRows(nodes, keys, false)
      invariant next + AllRows(nodes, keys[i..], true) == AllRows(nodes, keys, true)
    {
      AllRowsStep(nodes, keys, i);
      assert keys[i] in keys;
      var theirs, ours := SortRows(keys[i], nodes[keys[i]].items);
      assert (waiting + theirs) + AllRows(nodes, keys[i + 1..], false) == waiting + (theirs + AllRows(nodes, keys[i + 1..], false));
      assert (next + ours) + AllRows(nodes, keys[i + 1..], true) == next + (ours + AllRows(nodes, keys[i + 1..], true));
      waiting, next := waiting + theirs, next + ours;
    }
    NoMoreRows(nodes, keys);
    assert waiting + [] == waiting && next + [] == next;
  }

  lemma AllRowsStep(nodes: map<Key, Node>, keys: seq<Key>, i: nat)
    requires i < |keys| && forall k :: k in keys ==> k in nodes
    ensures keys[i] in nodes
    ensures forall ours :: AllRows(nodes, keys[i..], ours) == OpenRows(keys[i], nodes[keys[i]].items, 0, ours) + AllRows(nodes, keys[i + 1..], ours)
  {
    assert keys[i..][1..] == keys[i + 1..];
  }

  lemma NoMoreRows(nodes: map<Key, Node>, keys: seq<Key>)
    requires forall k :: k in keys ==> k in nodes
    ensures forall ours :: AllRows(nodes, keys[|keys|..], ours) == []
  {}

  method SortRows(k: Key, items: seq<Item>) returns (theirs: seq<Ref>, ours: seq<Ref>)
    ensures theirs == OpenRows(k, items, 0, false) && ours == OpenRows(k, items, 0, true)
  {
    theirs, ours := [], [];
    for i := 0 to |items|
      invariant theirs + OpenRows(k, items, i, false) == OpenRows(k, items, 0, false)
      invariant ours + OpenRows(k, items, i, true) == OpenRows(k, items, 0, true)
    {
      if !items[i].open { continue; }
      if items[i].ours {
        assert (ours + [Ref(k, i)]) + OpenRows(k, items, i + 1, true) == ours + ([Ref(k, i)] + OpenRows(k, items, i + 1, true));
        ours := ours + [Ref(k, i)];
      } else {
        assert (theirs + [Ref(k, i)]) + OpenRows(k, items, i + 1, false) == theirs + ([Ref(k, i)] + OpenRows(k, items, i + 1, false));
        theirs := theirs + [Ref(k, i)];
      }
    }
  }

  lemma {:induction false} OpenRowsCount(k: Key, items: seq<Item>, i: nat, ours: bool, r: Ref)
    requires i <= |items|
    ensures multiset(OpenRows(k, items, i, ours))[r] ==
      if r.key == k && i <= r.row < |items| && items[r.row].open && items[r.row].ours == ours then 1 else 0
    decreases |items| - i
  {
    if i < |items| { OpenRowsCount(k, items, i + 1, ours, r); }
  }

  /** A row is listed as often as its node contributes, on the list of its owner's side. */
  lemma {:induction false} AllRowsCount(nodes: map<Key, Node>, keys: seq<Key>, ours: bool, r: Ref)
    requires forall k :: k in keys ==> k in nodes
    ensures multiset(AllRows(nodes, keys, ours))[r] ==
      if r.key in nodes && r.row < |nodes[r.key].items| && nodes[r.key].items[r.row].open && nodes[r.key].items[r.row].ours == ours
      then multiset(keys)[r.key] else 0
    decreases |keys|
  {
    if keys != [] {
      assert keys == [keys[0]] + keys[1..];
      OpenRowsCount(keys[0], nodes[keys[0]].items, 0, ours, r);
      AllRowsCount(nodes, keys[1..], ours, r);
    }
  }

  /** Every open row of every open node is on exactly one of the two lists, once: next
      priorities when its owner is ours, waiting otherwise.  No other row is listed. */
  lemma EveryOpenItemOnce(nodes: map<Key, Node>, list: set<Key> -> seq<Key>, keys: seq<Key>, ours: bool, r: Ref)
    requires Loaded(nodes) && Lists(list) && ActiveWork(nodes, list).Some? && keys == Contributors(ActiveWork(nodes, list).value)
    ensures forall k :: k in keys ==> k in nodes
    ensures multiset(AllRows(nodes, keys, ours))[r] ==
      if r.key in nodes && nodes[r.key].open && r.row < |nodes[r.key].items|
         && nodes[r.key].items[r.row].open && nodes[r.key].items[r.row].ours == ours then 1 else 0
  {
    EveryOpenNodeOnce(nodes, list);
    var all := OpenKeys(nodes, Engagement) + OpenKeys(nodes, Project);
    assert forall k :: k in keys <==> k in multiset(keys);
    assert forall k :: k in multiset(all) <==> k in nodes && nodes[k].open;
    hide ActiveWork, Contributors, AllRows;
    AllRowsCount(nodes, keys, ours, r);
  }

  // ------------------------------------------------------------ the engagement of a node

  /** As the meeting apply finds it: the node itself, or its parent when that exists
      and is an engagement. */
  function ResolveEngagement(nodes: map<Key, Node>, node: Key): Option<Key> {
    if node == "" || node == "none" || node !in nodes then None
    else if nodes[node].kind.Engagement? then Some(node)
    else if nodes[node].parent != "" && nodes[node].parent in nodes && nodes[nodes[node].parent].kind.Engagement? then Some(nodes[node].parent)
    else None
  }

  /** As the status planner finds it: the id the node states, or its parent unchecked. */
  function ResolveEngagementId(nodes: map<Key, Node>, node: Key): Option<string> {
    if node !in nodes then None
    else if nodes[node].kind.Engagement? then Some(nodes[node].id)
    else if nodes[node].parent != "" then Some(nodes[node].parent)
    else None
  }

  /** The two agree exactly when the node is not called `none`, an engagement states
      its id, and a project's parent is none or an existing engagement. */
  lemma ResolversAgreeIff(nodes: map<Key, Node>, node: Key)
    requires Loaded(nodes) && node in nodes
    ensures ResolveEngagement(nodes, node) == ResolveEngagementId(nodes, node) <==>
      if nodes[node].kind.Engagement? then node != "none" && nodes[node].id != ""
      else nodes[node].parent == "" || (node != "none" && nodes[node].parent in nodes && nodes[nodes[node].parent].kind.Engagement?)
  {}

  /** The planner is given the engagement the apply found: it opens that very page
      exactly when the page states its id. */
  lemma PlannerOpensTheEngagement(nodes: map<Key, Node>, node: Key)
    requires Loaded(nodes) && ResolveEngagement(nodes, node).Some?
    ensures var e := ResolveEngagement(nodes, node).value; var id := ResolveEngagementId(nodes, e);
      && e in nodes && nodes[e].kind.Engagement? && id.Some?
      && (id.value in nodes <==> nodes[e].id != "") && (id.value in nodes ==> id.value == e)
  {}
}
