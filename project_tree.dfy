/**
 * The project helpers of the org-reproduction tooling: looking objects up by
 * name, creating projects and environments, walking a project and its
 * transitive dependents, and deleting such a tree children-first.
 *
 * Every remote read is an input: a listing is a given sequence of records, and
 * a GET on a dependents URL is a lookup in `fetch`. Every remote write is an
 * event appended to a trace.
 */
module ProjectTree {
  import opened Wrappers

  /**
   * A project record as the projects endpoint returns it. `dependsOn` is the
   * parent's URL (`None` when the field is null); `dependents` are the URLs of
   * the direct children.
   */
  datatype Project = Project(
    id: string,
    name: string,
    url: string,
    dependsOn: Option<string>,
    dependents: seq<string>)

  /** An environment record; only its `url` matters when it is a parent. */
  datatype Environment = Environment(id: string, name: string, url: string)

  /** A JSON request body with string values, as an ordered list of fields. */
  type Body = seq<(string, string)>

  /** The answer to a GET on each URL; a URL that is absent answers with an HTTP error. */
  type Fetch = map<string, Project>

  /** The writes `delete_project` issues. */
  datatype Call = DeleteProjectParameters(project: Project) | DeleteObject(project: Project)

  // ---------------------------------------------------------------------------
  // Predicates on one record

  predicate ProjectHasDependents(p: Project)
  {
    |p.dependents| > 0
  }

  /** Python truthiness of `depends_on`: neither null nor the empty string. */
  predicate ProjectHasParent(p: Project)
  {
    match p.dependsOn
    case None => false
    case Some(u) => u != ""
  }

  // ---------------------------------------------------------------------------
  // Lookups over a listing

  /** The first listed object whose name equals `name` exactly, or `None`. */
  method GetObjectByName<T>(objs: seq<T>, nameOf: T -> string, name: string) returns (r: Option<T>)
    ensures r.None? <==> forall i :: 0 <= i < |objs| ==> nameOf(objs[i]) != name
    ensures r.Some? ==> exists i :: 0 <= i < |objs| && objs[i] == r.value && nameOf(objs[i]) == name
                                    && forall j :: 0 <= j < i ==> nameOf(objs[j]) != name
  {
    for i := 0 to |objs|
      invariant forall j :: 0 <= j < i ==> nameOf(objs[j]) != name
    {
      if nameOf(objs[i]) == name {
        return Some(objs[i]);
      }
    }
    return None;
  }

  /** The projects of a listing that have no parent, in listing order. */
  function TopLevel(projects: seq<Project>): seq<Project>
  {
    if projects == [] then []
    else if ProjectHasParent(projects[0]) then TopLevel(projects[1..])
    else [projects[0]] + TopLevel(projects[1..])
  }

  method GetAllTopLevelProjects(allProjects: seq<Project>) returns (topLevel: seq<Project>)
    ensures topLevel == TopLevel(allProjects)
  {
    topLevel := [];
    assert allProjects[0..] == allProjects;
    for i := 0 to |allProjects|
      invariant topLevel + TopLevel(allProjects[i..]) == TopLevel(allProjects)
    {
      assert allProjects[i..][1..] == allProjects[i + 1..];
      if !ProjectHasParent(allProjects[i]) {
        topLevel := topLevel + [allProjects[i]];
      }
    }
    assert allProjects[|allProjects|..] == [];
  }

  /** The top-level listing holds exactly the parentless projects, and each as often as the listing does. */
  lemma {:induction false} TopLevelExactly(projects: seq<Project>)
    ensures forall p :: p in TopLevel(projects) <==> p in projects && !ProjectHasParent(p)
    ensures forall p :: !ProjectHasParent(p) ==> multiset(TopLevel(projects))[p] == multiset(projects)[p]
    ensures forall p :: ProjectHasParent(p) ==> multiset(TopLevel(projects))[p] == 0
  {
    if projects != [] {
      TopLevelExactly(projects[1..]);
      assert projects == [projects[0]] + projects[1..];
    }
  }

  // ---------------------------------------------------------------------------
  // Request bodies of create_project and create_environment

  function ParentUrlOf(parentUrl: Option<string>): string
  {
    match parentUrl
    case None => ""
    case Some(u) => u
  }

  function CreateProjectBody(name: string, parent: Option<Project>): Body
  {
    [("name", name), ("depends_on", ParentUrlOf(if parent.Some? then Some(parent.value.url) else None))]
  }

  function CreateEnvironmentBody(name: string, parent: Option<Environment>): Body
  {
    [("name", name), ("parent", ParentUrlOf(if parent.Some? then Some(parent.value.url) else None))]
  }

  /** The value of the first field named `k`. */
  function FieldOf(body: Body, k: string): Option<string>
  {
    if body == [] then None else if body[0].0 == k then Some(body[0].1) else FieldOf(body[1..], k)
  }

  /**
   * Both bodies carry the name and link the parent by its URL, or send `''`
   * without a parent; a project record whose `depends_on` is that value has
   * a parent exactly when a parent with a non-empty URL was given.
   */
  lemma CreateBodiesLinkParent(name: string, parent: Option<Project>, env: Option<Environment>)
    ensures FieldOf(CreateProjectBody(name, parent), "name") == Some(name)
    ensures FieldOf(CreateProjectBody(name, parent), "depends_on")
            == Some(if parent.Some? then parent.value.url else "")
    ensures FieldOf(CreateEnvironmentBody(name, env), "name") == Some(name)
    ensures FieldOf(CreateEnvironmentBody(name, env), "parent")
            == Some(if env.Some? then env.value.url else "")
    ensures |CreateProjectBody(name, parent)| == 2 && |CreateEnvironmentBody(name, env)| == 2
    ensures forall id, url, kids ::
              ProjectHasParent(Project(id, name, url, FieldOf(CreateProjectBody(name, parent), "depends_on"), kids))
              <==> parent.Some? && parent.value.url != ""
  {
  }

  // ---------------------------------------------------------------------------
  // The tree walk

  /**
   * `rank` witnesses that the dependents graph reachable through `fetch` is
   * acyclic: every child URL ranks below the URL it was fetched from.
   */
  ghost predicate Ranked(fetch: Fetch, rank: string -> nat)
  {
    forall u, c :: u in fetch && c in fetch[u].dependents ==> rank(c) < rank(u)
  }

  /** One more than the largest rank among `kids` (0 for none). */
  function KidsBound(rank: string -> nat, kids: seq<string>): (b: nat)
    ensures forall c :: c in kids ==> rank(c) < b
  {
    if kids == [] then 0
    else
      var rest := KidsBound(rank, kids[1..]);
      if rank(kids[0]) + 1 > rest then rank(kids[0]) + 1 else rest
  }

  lemma {:induction false} KidsBoundBelow(rank: string -> nat, kids: seq<string>, b: nat)
    requires forall c :: c in kids ==> rank(c) < b
    ensures KidsBound(rank, kids) <= b
  {
    if kids != [] {
      KidsBoundBelow(rank, kids[1..], b);
    }
  }

  /**
   * The child at URL `u` followed by its own subtree, or the first URL whose
   * GET fails.
   */
  function WalkUrl(fetch: Fetch, rank: string -> nat, u: string): Result<seq<Project>, string>
    requires Ranked(fetch, rank)
    decreases rank(u) + 1, 0
  {
    if u !in fetch then Failure(u)
    else
      KidsBoundBelow(rank, fetch[u].dependents, rank(u));
      Then(Success([fetch[u]]), Children(fetch, rank, fetch[u].dependents))
  }

  /** The subtrees of `kids`, one after another in list order. */
  function Children(fetch: Fetch, rank: string -> nat, kids: seq<string>): Result<seq<Project>, string>
    requires Ranked(fetch, rank)
    decreases KidsBound(rank, kids), |kids|
  {
    if kids == [] then Success([])
    else Then(WalkUrl(fetch, rank, kids[0]), Children(fetch, rank, kids[1..]))
  }

  /**
   * What `get_project_tree_projects` returns for a top-level call: `None` for
   * no project, otherwise the project followed by the walk of its dependents
   * (or the URL whose GET failed, on which the script exits).
   */
  function TreeProjects(fetch: Fetch, rank: string -> nat, project: Option<Project>): (r: Option<Result<seq<Project>, string>>)
    requires Ranked(fetch, rank)
    ensures r.None? <==> project.None?
    ensures r.Some? && r.value.Success? ==> |r.value.value| >= 1 && r.value.value[0] == project.value
  {
    match project
    case None => None
    case Some(p) => Some(Then(Success([p]), Children(fetch, rank, p.dependents)))
  }

  lemma {:induction false} ChildrenConcat(fetch: Fetch, rank: string -> nat, xs: seq<string>, ys: seq<string>)
    requires Ranked(fetch, rank)
    ensures Children(fetch, rank, xs + ys) == Then(Children(fetch, rank, xs), Children(fetch, rank, ys))
    decreases |xs|
  {
    if xs == [] {
      assert [] + ys == ys;
      ThenUnit(Children(fetch, rank, ys));
    } else {
      assert (xs + ys)[1..] == xs[1..] + ys;
      ChildrenConcat(fetch, rank, xs[1..], ys);
      ThenAssoc(WalkUrl(fetch, rank, xs[0]), Children(fetch, rank, xs[1..]), Children(fetch, rank, ys));
    }
  }

  lemma ChildrenSingle(fetch: Fetch, rank: string -> nat, u: string)
    requires Ranked(fetch, rank)
    ensures Children(fetch, rank, [u]) == WalkUrl(fetch, rank, u)
  {
    assert [u][1..] == [];
    ThenUnit(WalkUrl(fetch, rank, u));
  }

  /**
   * One step of the loop over `kids`: with the first `i` subtrees walked into
   * `done`, either the GET of `kids[i]` fails, or the walk below the child
   * fails, or the first `i + 1` subtrees are `done`, the child and its walk.
   */
  lemma ChildStep(fetch: Fetch, rank: string -> nat, kids: seq<string>, i: nat, done: seq<Project>)
    requires Ranked(fetch, rank)
    requires i < |kids| && Children(fetch, rank, kids[..i]) == Success(done)
    ensures kids[i] !in fetch ==> Children(fetch, rank, kids) == Failure(kids[i])
    ensures kids[i] in fetch && Children(fetch, rank, fetch[kids[i]].dependents).Failure? ==>
              Children(fetch, rank, kids) == Children(fetch, rank, fetch[kids[i]].dependents)
    ensures kids[i] in fetch && Children(fetch, rank, fetch[kids[i]].dependents).Success? ==>
              Children(fetch, rank, kids[..i + 1])
              == Success(done + [fetch[kids[i]]] + Children(fetch, rank, fetch[kids[i]].dependents).value)
  {
    assert kids[..i + 1] == kids[..i] + [kids[i]];
    assert kids == kids[..i + 1] + kids[i + 1..];
    ChildrenConcat(fetch, rank, kids[..i], [kids[i]]);
    ChildrenConcat(fetch, rank, kids[..i + 1], kids[i + 1..]);
    ChildrenSingle(fetch, rank, kids[i]);
    if kids[i] in fetch {
      var below := Children(fetch, rank, fetch[kids[i]].dependents);
      if below.Success? {
        assert done + ([fetch[kids[i]]] + below.value) == done + [fetch[kids[i]]] + below.value;
      }
    }
  }

  /**
   * The recursive accumulation of `get_project_tree_projects` when called with
   * a list already started: for each dependents URL, fetch the child, append
   * it, then walk below it.
   */
  method CollectDependents(fetch: Fetch, rank: string -> nat, project: Project, projects: seq<Project>)
    returns (r: Result<seq<Project>, string>)
    requires Ranked(fetch, rank)
    ensures r == Then(Success(projects), Children(fetch, rank, project.dependents))
    decreases KidsBound(rank, project.dependents)
  {
    var acc := projects;
    ThenUnit<Project, string>(Success(projects));
    if ProjectHasDependents(project) {
      var kids := project.dependents;
      assert kids[..0] == [];
      for i := 0 to |kids|
        invariant Children(fetch, rank, kids[..i]).Success?
        invariant acc == projects + Children(fetch, rank, kids[..i]).value
      {
        ghost var done := Children(fetch, rank, kids[..i]).value;
        ChildStep(fetch, rank, kids, i, done);
        if kids[i] !in fetch {
          return Failure(kids[i]);
        }
        var child := fetch[kids[i]];
        KidsBoundBelow(rank, child.dependents, rank(kids[i]));
        if ProjectHasDependents(child) {
          acc := acc + [child];
          var sub := CollectDependents(fetch, rank, child, acc);
          if sub.Failure? {
            return sub;
          }
          acc := sub.value;
        } else {
          assert Children(fetch, rank, child.dependents) == Success([]);
          acc := acc + [child];
          assert done + [child] + [] == done + [child];
        }
      }
      assert kids[..|kids|] == kids;
    }
    r := Success(acc);
  }

  method GetProjectTreeProjects(fetch: Fetch, rank: string -> nat, project: Option<Project>)
    returns (r: Option<Result<seq<Project>, string>>)
    requires Ranked(fetch, rank)
    ensures r == TreeProjects(fetch, rank, project)
  {
    if project.None? {
      return None;
    }
    var projects := [project.value];
    var walked := CollectDependents(fetch, rank, project.value, projects);
    r := Some(walked);
  }

  // ---------------------------------------------------------------------------
  // Shape of the walk

  /** `child` was fetched from one of `parent`'s dependents URLs. */
  ghost predicate ChildOf(fetch: Fetch, parent: Project, child: Project)
  {
    exists u :: u in parent.dependents && u in fetch && fetch[u] == child
  }

  /** The element at `j` is a child of an element before it. */
  ghost predicate HasParentBefore(fetch: Fetch, w: seq<Project>, j: int)
    requires 0 <= j < |w|
  {
    exists i :: 0 <= i < j && ChildOf(fetch, w[i], w[j])
  }

  /** The element at `j` was fetched from one of `tops`, or is a child of an element before it. */
  ghost predicate TopOrParent(fetch: Fetch, w: seq<Project>, tops: seq<string>, j: int)
    requires 0 <= j < |w|
  {
    (exists k :: k in tops && k in fetch && w[j] == fetch[k]) || HasParentBefore(fetch, w, j)
  }

  ghost predicate RootedIn(fetch: Fetch, w: seq<Project>, tops: seq<string>)
  {
    forall j :: 0 <= j < |w| ==> TopOrParent(fetch, w, tops, j)
  }

  /** Every element after the first is a child of some earlier element. */
  ghost predicate ParentsEarlier(fetch: Fetch, w: seq<Project>)
  {
    forall j :: 0 < j < |w| ==> HasParentBefore(fetch, w, j)
  }

  /** The project fetched from `v` is somewhere in `w`. */
  ghost predicate Listed(fetch: Fetch, w: seq<Project>, v: string)
  {
    v in fetch && exists j :: 0 <= j < |w| && w[j] == fetch[v]
  }

  /** The project fetched from `v` appears after position `i`. */
  ghost predicate ListedAfter(fetch: Fetch, w: seq<Project>, i: nat, v: string)
  {
    v in fetch && exists j :: i < j < |w| && w[j] == fetch[v]
  }

  /** Every dependents URL of every element was fetched, and the child appears later. */
  ghost predicate ChildrenLater(fetch: Fetch, w: seq<Project>)
  {
    forall i, v :: 0 <= i < |w| && v in w[i].dependents ==> ListedAfter(fetch, w, i, v)
  }

  lemma RootedInConcat(fetch: Fetch, a: seq<Project>, b: seq<Project>, k0: string, tops: seq<string>)
    requires |tops| > 0 && k0 == tops[0]
    requires |a| > 0 && k0 in fetch && a[0] == fetch[k0] && ParentsEarlier(fetch, a)
    requires RootedIn(fetch, b, tops[1..])
    ensures RootedIn(fetch, a + b, tops)
  {
    var w := a + b;
    forall j | 0 <= j < |w|
      ensures TopOrParent(fetch, w, tops, j)
    {
      if j == 0 {
        assert w[0] == fetch[tops[0]];
      } else if j < |a| {
        assert HasParentBefore(fetch, a, j);
        var i :| 0 <= i < j && ChildOf(fetch, a[i], a[j]);
        assert w[i] == a[i] && w[j] == a[j];
        assert HasParentBefore(fetch, w, j);
      } else {
        var j' := j - |a|;
        assert w[j] == b[j'];
        assert TopOrParent(fetch, b, tops[1..], j');
        if exists k :: k in tops[1..] && k in fetch && b[j'] == fetch[k] {
          var k :| k in tops[1..] && k in fetch && b[j'] == fetch[k];
          assert k in tops;
        } else {
          var i :| 0 <= i < j' && ChildOf(fetch, b[i], b[j']);
          assert w[i + |a|] == b[i];
          assert HasParentBefore(fetch, w, j);
        }
      }
    }
  }

  lemma RootedInCons(fetch: Fetch, c: Project, rest: seq<Project>)
    requires RootedIn(fetch, rest, c.dependents)
    ensures ParentsEarlier(fetch, [c] + rest)
  {
    var w := [c] + rest;
    forall j | 0 < j < |w|
      ensures HasParentBefore(fetch, w, j)
    {
      assert w[j] == rest[j - 1] && w[0] == c;
      assert TopOrParent(fetch, rest, c.dependents, j - 1);
      if exists k :: k in c.dependents && k in fetch && rest[j - 1] == fetch[k] {
        var k :| k in c.dependents && k in fetch && rest[j - 1] == fetch[k];
        assert ChildOf(fetch, w[0], w[j]);
      } else {
        var i :| 0 <= i < j - 1 && ChildOf(fetch, rest[i], rest[j - 1]);
        assert w[i + 1] == rest[i];
        assert ChildOf(fetch, w[i + 1], w[j]);
      }
    }
  }

  lemma ChildrenLaterConcat(fetch: Fetch, a: seq<Project>, b: seq<Project>)
    requires ChildrenLater(fetch, a) && ChildrenLater(fetch, b)
    ensures ChildrenLater(fetch, a + b)
  {
    var w := a + b;
    forall i, v | 0 <= i < |w| && v in w[i].dependents
      ensures ListedAfter(fetch, w, i, v)
    {
      if i < |a| {
        assert w[i] == a[i];
        assert ListedAfter(fetch, a, i, v);
        var j :| i < j < |a| && a[j] == fetch[v];
        assert w[j] == a[j];
      } else {
        assert w[i] == b[i - |a|];
        assert ListedAfter(fetch, b, i - |a|, v);
        var j' :| i - |a| < j' < |b| && b[j'] == fetch[v];
        assert w[j' + |a|] == b[j'];
      }
    }
  }

  lemma ChildrenLaterCons(fetch: Fetch, c: Project, rest: seq<Project>)
    requires ChildrenLater(fetch, rest)
    requires forall v :: v in c.dependents ==> Listed(fetch, rest, v)
    ensures ChildrenLater(fetch, [c] + rest)
  {
    var w := [c] + rest;
    forall i, v | 0 <= i < |w| && v in w[i].dependents
      ensures ListedAfter(fetch, w, i, v)
    {
      if i == 0 {
        assert Listed(fetch, rest, v);
        var j' :| 0 <= j' < |rest| && rest[j'] == fetch[v];
        assert w[j' + 1] == rest[j'];
      } else {
        assert w[i] == rest[i - 1];
        assert ListedAfter(fetch, rest, i - 1, v);
        var j' :| i - 1 < j' < |rest| && rest[j'] == fetch[v];
        assert w[j' + 1] == rest[j'];
      }
    }
  }

  lemma ListedConcat(fetch: Fetch, a: seq<Project>, b: seq<Project>, k0: string, tops: seq<string>)
    requires |tops| > 0 && k0 == tops[0]
    requires |a| > 0 && k0 in fetch && a[0] == fetch[k0]
    requires forall k :: k in tops[1..] ==> Listed(fetch, b, k)
    ensures forall k :: k in tops ==> Listed(fetch, a + b, k)
  {
    var w := a + b;
    forall k | k in tops
      ensures Listed(fetch, w, k)
    {
      if k == k0 {
        assert w[0] == a[0];
      } else {
        assert k in tops[1..];
        var j' :| 0 <= j' < |b| && b[j'] == fetch[k];
        assert w[j' + |a|] == b[j'];
      }
    }
  }

  lemma {:induction false} WalkUrlParents(fetch: Fetch, rank: string -> nat, u: string)
    requires Ranked(fetch, rank)
    requires WalkUrl(fetch, rank, u).Success?
    ensures u in fetch
    ensures var w := WalkUrl(fetch, rank, u).value; |w| >= 1 && w[0] == fetch[u] && ParentsEarlier(fetch, w)
    decreases rank(u) + 1, 0
  {
    var c := fetch[u];
    KidsBoundBelow(rank, c.dependents, rank(u));
    ThenParts(Success([c]), Children(fetch, rank, c.dependents));
    ChildrenParents(fetch, rank, c.dependents);
    RootedInCons(fetch, c, Children(fetch, rank, c.dependents).value);
  }

  lemma {:induction false} ChildrenParents(fetch: Fetch, rank: string -> nat, kids: seq<string>)
    requires Ranked(fetch, rank)
    requires Children(fetch, rank, kids).Success?
    ensures RootedIn(fetch, Children(fetch, rank, kids).value, kids)
    decreases KidsBound(rank, kids), |kids|
  {
    if kids != [] {
      ThenParts(WalkUrl(fetch, rank, kids[0]), Children(fetch, rank, kids[1..]));
      WalkUrlParents(fetch, rank, kids[0]);
      ChildrenParents(fetch, rank, kids[1..]);
      RootedInConcat(fetch, WalkUrl(fetch, rank, kids[0]).value, Children(fetch, rank, kids[1..]).value, kids[0], kids);
    }
  }

  /** In a subtree walk every child of every element appears after that element. */
  lemma {:induction false} WalkUrlChildren(fetch: Fetch, rank: string -> nat, u: string)
    requires Ranked(fetch, rank)
    requires WalkUrl(fetch, rank, u).Success?
    ensures ChildrenLater(fetch, WalkUrl(fetch, rank, u).value)
    decreases rank(u) + 1, 0
  {
    var c := fetch[u];
    KidsBoundBelow(rank, c.dependents, rank(u));
    ThenParts(Success([c]), Children(fetch, rank, c.dependents));
    ChildrenChildren(fetch, rank, c.dependents);
    ChildrenLaterCons(fetch, c, Children(fetch, rank, c.dependents).value);
  }

  lemma {:induction false} ChildrenChildren(fetch: Fetch, rank: string -> nat, kids: seq<string>)
    requires Ranked(fetch, rank)
    requires Children(fetch, rank, kids).Success?
    ensures ChildrenLater(fetch, Children(fetch, rank, kids).value)
    ensures forall k :: k in kids ==> Listed(fetch, Children(fetch, rank, kids).value, k)
    decreases KidsBound(rank, kids), |kids|
  {
    if kids != [] {
      ThenParts(WalkUrl(fetch, rank, kids[0]), Children(fetch, rank, kids[1..]));
      var first := WalkUrl(fetch, rank, kids[0]).value;
      var rest := Children(fetch, rank, kids[1..]).value;
      WalkUrlParents(fetch, rank, kids[0]);
      WalkUrlChildren(fetch, rank, kids[0]);
      ChildrenChildren(fetch, rank, kids[1..]);
      ChildrenLaterConcat(fetch, first, rest);
      ListedConcat(fetch, first, rest, kids[0], kids);
    }
  }

  /**
   * The tree list is a pre-order walk: it starts with the project, every later
   * element is a dependent of an earlier one, and every dependent of every
   * element appears after it.
   */
  lemma TreeIsPreOrder(fetch: Fetch, rank: string -> nat, p: Project)
    requires Ranked(fetch, rank)
    requires TreeProjects(fetch, rank, Some(p)).value.Success?
    ensures var w := TreeProjects(fetch, rank, Some(p)).value.value;
            w[0] == p && ParentsEarlier(fetch, w) && ChildrenLater(fetch, w)
  {
    ThenParts(Success([p]), Children(fetch, rank, p.dependents));
    var rest := Children(fetch, rank, p.dependents).value;
    ChildrenParents(fetch, rank, p.dependents);
    ChildrenChildren(fetch, rank, p.dependents);
    RootedInCons(fetch, p, rest);
    ChildrenLaterCons(fetch, p, rest);
  }

  /** A project's tree is the project alone exactly when it has no dependents. */
  lemma LeafTree(fetch: Fetch, rank: string -> nat, p: Project)
    requires Ranked(fetch, rank)
    requires TreeProjects(fetch, rank, Some(p)).value.Success?
    ensures |TreeProjects(fetch, rank, Some(p)).value.value| == 1 <==> !ProjectHasDependents(p)
  {
    TreeIsPreOrder(fetch, rank, p);
    var w := TreeProjects(fetch, rank, Some(p)).value.value;
    if ProjectHasDependents(p) {
      var v := p.dependents[0];
      assert v in w[0].dependents;
      assert ListedAfter(fetch, w, 0, v);
      var j :| 0 < j < |w| && w[j] == fetch[v];
    }
  }

  /**
   * `path` is a chain of dependents URLs leading down from `p`; the project at
   * its last URL is a descendant of `p`.
   */
  ghost predicate DescendsVia(fetch: Fetch, p: Project, path: seq<string>)
  {
    && |path| >= 1
    && path[0] in p.dependents
    && (forall k :: 0 <= k < |path| ==> path[k] in fetch)
    && forall k :: 0 <= k < |path| - 1 ==> path[k + 1] in fetch[path[k]].dependents
  }

  /** Whatever descends from an element of a pre-order walk appears after it. */
  lemma {:induction false} DescendantsLater(fetch: Fetch, w: seq<Project>, i: nat, path: seq<string>)
    requires ChildrenLater(fetch, w)
    requires i < |w| && DescendsVia(fetch, w[i], path)
    ensures exists j :: i < j < |w| && w[j] == fetch[path[|path| - 1]]
    decreases |path|
  {
    if |path| == 1 {
      assert ListedAfter(fetch, w, i, path[0]);
    } else {
      var prefix := path[..|path| - 1];
      assert DescendsVia(fetch, w[i], prefix);
      DescendantsLater(fetch, w, i, prefix);
      var j0 :| i < j0 < |w| && w[j0] == fetch[prefix[|prefix| - 1]];
      assert path[|path| - 1] in w[j0].dependents;
      assert ListedAfter(fetch, w, j0, path[|path| - 1]);
      var j :| j0 < j < |w| && w[j] == fetch[path[|path| - 1]];
    }
  }
  // ---------------------------------------------------------------------------
  // Deletion

  /** The calls of `delete_project` for a tree list: the list in reverse, parameters first when forced. */
  function DeletionPlan(tree: seq<Project>, force: bool): seq<Call>
  {
    if tree == [] then []
    else DeletionPlan(tree[1..], force)
         + (if force then [DeleteProjectParameters(tree[0]), DeleteObject(tree[0])] else [DeleteObject(tree[0])])
  }

  /** Position in the plan of the deletion of the `m`-th project from the end of the tree list. */
  function ObjectSlot(m: nat, force: bool): nat
  {
    if force then 2 * m + 1 else m
  }

  /**
   * The plan deletes the tree list in reverse; with `force` each project's
   * parameters go immediately before it, without `force` no parameters are
   * deleted at all.
   */
  lemma {:induction false} DeletionPlanShape(tree: seq<Project>, force: bool)
    ensures var plan := DeletionPlan(tree, force);
            && |plan| == (if force then 2 * |tree| else |tree|)
            && (forall m :: 0 <= m < |tree| ==> plan[ObjectSlot(m, force)] == DeleteObject(tree[|tree| - 1 - m]))
            && (force ==> forall m :: 0 <= m < |tree| ==> plan[2 * m] == DeleteProjectParameters(tree[|tree| - 1 - m]))
            && (force ==> forall k :: 0 <= k < |plan| ==> (plan[k].DeleteObject? <==> k % 2 == 1))
            && (!force ==> forall k :: 0 <= k < |plan| ==> plan[k].DeleteObject?)
  {
    if tree != [] {
      DeletionPlanShape(tree[1..], force);
      var plan := DeletionPlan(tree, force);
      var prev := DeletionPlan(tree[1..], force);
      forall m | 0 <= m < |tree|
        ensures plan[ObjectSlot(m, force)] == DeleteObject(tree[|tree| - 1 - m])
      {
        if m < |tree| - 1 {
          assert plan[ObjectSlot(m, force)] == prev[ObjectSlot(m, force)];
          assert tree[1..][|tree| - 2 - m] == tree[|tree| - 1 - m];
        }
      }
      if force {
        forall m | 0 <= m < |tree|
          ensures plan[2 * m] == DeleteProjectParameters(tree[|tree| - 1 - m])
        {
          if m < |tree| - 1 {
            assert plan[2 * m] == prev[2 * m];
            assert tree[1..][|tree| - 2 - m] == tree[|tree| - 1 - m];
          }
        }
      }
    }
  }

  /** Which project from the end of the tree list a deletion in the plan belongs to. */
  lemma PlanSlotOf(tree: seq<Project>, force: bool, k: nat)
    requires k < |DeletionPlan(tree, force)| && DeletionPlan(tree, force)[k].DeleteObject?
    ensures var m := if force then k / 2 else k;
            m < |tree| && ObjectSlot(m, force) == k
            && DeletionPlan(tree, force)[k] == DeleteObject(tree[|tree| - 1 - m])
  {
    DeletionPlanShape(tree, force);
  }

  /**
   * `delete_project`: walk the tree, then delete the list in reverse order,
   * deleting each project's parameters first when `force` is set. A failed
   * fetch during the walk ends the run before anything is deleted.
   */
  method DeleteProject(fetch: Fetch, rank: string -> nat, project: Project, force: bool)
    returns (r: Result<seq<Call>, string>)
    requires Ranked(fetch, rank)
    ensures TreeProjects(fetch, rank, Some(project)).value.Failure? ==>
              r == Failure(TreeProjects(fetch, rank, Some(project)).value.error)
    ensures TreeProjects(fetch, rank, Some(project)).value.Success? ==>
              r == Success(DeletionPlan(TreeProjects(fetch, rank, Some(project)).value.value, force))
  {
    var walked := GetProjectTreeProjects(fetch, rank, Some(project));
    if walked.value.Failure? {
      return Failure(walked.value.error);
    }
    var tree := walked.value.value;
    var calls: seq<Call> := [];
    var i := |tree|;
    while i > 0
      invariant 0 <= i <= |tree|
      invariant calls == DeletionPlan(tree[i..], force)
    {
      i := i - 1;
      assert tree[i..][1..] == tree[i + 1..];
      if force {
        calls := calls + [DeleteProjectParameters(tree[i])];
      }
      calls := calls + [DeleteObject(tree[i])];
    }
    assert tree[0..] == tree;
    r := Success(calls);
  }

  /**
   * Every deletion of a project in the plan comes after the deletion of each
   * of its descendants, and the given project is deleted last.
   */
  lemma DescendantsDeletedFirst(fetch: Fetch, rank: string -> nat, root: Project, force: bool, k: nat, path: seq<string>)
    requires Ranked(fetch, rank)
    requires TreeProjects(fetch, rank, Some(root)).value.Success?
    requires var plan := DeletionPlan(TreeProjects(fetch, rank, Some(root)).value.value, force);
             k < |plan| && plan[k].DeleteObject? && DescendsVia(fetch, plan[k].project, path)
    ensures var plan := DeletionPlan(TreeProjects(fetch, rank, Some(root)).value.value, force);
            exists k' :: 0 <= k' < k && plan[k'] == DeleteObject(fetch[path[|path| - 1]])
  {
    var tree := TreeProjects(fetch, rank, Some(root)).value.value;
    var plan := DeletionPlan(tree, force);
    TreeIsPreOrder(fetch, rank, root);
    PlanSlotOf(tree, force, k);
    var m := if force then k / 2 else k;
    var i := |tree| - 1 - m;
    DescendantsLater(fetch, tree, i, path);
    var j :| i < j < |tree| && tree[j] == fetch[path[|path| - 1]];
    DeletionPlanShape(tree, force);
    var m' := |tree| - 1 - j;
    assert plan[ObjectSlot(m', force)] == DeleteObject(tree[j]);
  }

  lemma RootDeletedLast(fetch: Fetch, rank: string -> nat, root: Project, force: bool)
    requires Ranked(fetch, rank)
    requires TreeProjects(fetch, rank, Some(root)).value.Success?
    ensures var plan := DeletionPlan(TreeProjects(fetch, rank, Some(root)).value.value, force);
            |plan| > 0 && plan[|plan| - 1] == DeleteObject(root)
  {
    var tree := TreeProjects(fetch, rank, Some(root)).value.value;
    DeletionPlanShape(tree, force);
    assert ObjectSlot(|tree| - 1, force) == |DeletionPlan(tree, force)| - 1;
  }

  /** An acyclicity witness for the example below: the leaf ranks lowest. */
  function ExampleRank(u: string): nat
  {
    if u == "d" then 0 else 1
  }

  /**
   * A child reached through two parents is listed, and deleted, twice: the
   * walk keeps no record of what it has already visited.
   */
  lemma SharedChildListedTwice()
    ensures var d := Project("d", "d", "d", Some("b"), []);
            var b := Project("b", "b", "b", Some("a"), ["d"]);
            var c := Project("c", "c", "c", Some("a"), ["d"]);
            var a := Project("a", "a", "a", None, ["b", "c"]);
            var fetch := map["b" := b, "c" := c, "d" := d];
            Ranked(fetch, ExampleRank)
            && TreeProjects(fetch, ExampleRank, Some(a)) == Some(Success([a, b, d, c, d]))
  {
    var d := Project("d", "d", "d", Some("b"), []);
    var b := Project("b", "b", "b", Some("a"), ["d"]);
    var c := Project("c", "c", "c", Some("a"), ["d"]);
    var a := Project("a", "a", "a", None, ["b", "c"]);
    var fetch := map["b" := b, "c" := c, "d" := d];
    assert Ranked(fetch, ExampleRank);
    assert fetch["d"] == d && fetch["b"] == b && fetch["c"] == c;
    assert Children(fetch, ExampleRank, []) == Success([]);
    assert [d] + [] == [d] && [b] + [d] == [b, d] && [c] + [d] == [c, d];
    assert [b, d] + [c, d] == [b, d, c, d] && [a] + [b, d, c, d] == [a, b, d, c, d];
    assert WalkUrl(fetch, ExampleRank, "d") == Success([d]);
    ChildrenSingle(fetch, ExampleRank, "d");
    assert WalkUrl(fetch, ExampleRank, "b") == Success([b, d]);
    assert WalkUrl(fetch, ExampleRank, "c") == Success([c, d]);
    ChildrenSingle(fetch, ExampleRank, "c");
    assert ["b", "c"][1..] == ["c"];
    assert Children(fetch, ExampleRank, ["b", "c"]) == Success([b, d, c, d]);
  }
}
