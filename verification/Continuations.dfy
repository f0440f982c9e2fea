/** Continuation policies: compiling the member edges reachable from some roots, checking a retained policy
    against a live registry, and enforcing it on the follow-ups of one handler.

    The policy hash is the manifest itself here: the serialization is canonical and the hash is taken to be injective. */
module Continuations {
  import opened TaskTypes
  import opened Ordering
  import opened Registry

  /** A node of the graph: queue and job type, in the order they are sorted by. */
  type Node = (string, string)

  datatype PolicyParent = PolicyParent(node: Node, revision: string, targets: seq<Node>)

  datatype Manifest = Manifest(roots: seq<Node>, parents: seq<PolicyParent>)

  datatype Policy = Policy(manifest: Manifest, digest: Manifest, queues: seq<string>)

  datatype Root = ByName(name: string) | ByTask(task: Task)

  const MAX_POLICY_QUEUES := 32

  function Require(c: Catalog, root: Root): Option<Task> {
    match root
    case ByName(name) => Resolve(c, name)
    case ByTask(task) => if task.name in c.canonical && c.canonical[task.name] == task then Some(task) else None
  }

  function NodeOf(c: Catalog, n: string): Node
    requires n in c.canonical
  {
    (c.canonical[n].queue, n)
  }

  predicate PointsTo(c: Catalog, t: Target, b: string) {
    ForMembers(t) && t.jobType in c.lookup && c.lookup[t.jobType].name == b
  }

  /** Task `a` may create a member of task `b`. */
  predicate Edge(c: Catalog, a: string, b: string) {
    a in c.canonical && exists i :: 0 <= i < |c.canonical[a].targets| && PointsTo(c, c.canonical[a].targets[i], b)
  }

  predicate HasMembers(t: Task) {
    exists i :: 0 <= i < |t.targets| && ForMembers(t.targets[i])
  }

  ghost predicate Closed(c: Catalog, s: set<string>) {
    forall a, b :: a in s && Edge(c, a, b) ==> b in s
  }

  /** The least set of tasks that holds the roots and every task a member may create. */
  ghost predicate Closure(c: Catalog, roots: set<string>, s: set<string>) {
    && roots <= s && Closed(c, s) && s <= c.canonical.Keys
    && (forall t: set<string> :: roots <= t && Closed(c, t) ==> s <= t)
  }

  ghost function MemberNodes(c: Catalog, a: string): set<Node>
    requires a in c.canonical
  {
    set b | b in c.canonical && Edge(c, a, b) :: NodeOf(c, b)
  }

  ghost function Nodes(c: Catalog, names: set<string>): set<Node> {
    set n | n in names && n in c.canonical :: NodeOf(c, n)
  }

  ghost function Queues(c: Catalog, names: set<string>): set<string> {
    set n | n in names && n in c.canonical :: c.canonical[n].queue
  }

  /** The entry of a task with member targets. */
  ghost predicate ParentEntry(c: Catalog, p: PolicyParent) {
    && p.node.1 in c.canonical && p.node == NodeOf(c, p.node.1) && HasMembers(c.canonical[p.node.1])
    && (forall i :: 0 <= i < |c.canonical[p.node.1].targets| && ForMembers(c.canonical[p.node.1].targets[i]) ==>
          c.canonical[p.node.1].targets[i].revision == Some(p.revision))
    && Listing(p.targets, MemberNodes(c, p.node.1), PairLe)
  }

  function ParentNodes(ps: seq<PolicyParent>): seq<Node> {
    seq(|ps|, i requires 0 <= i < |ps| => ps[i].node)
  }

  /** What the compiled policy of these roots is, independent of any traversal. */
  ghost predicate Compiled(c: Catalog, roots: set<string>, s: set<string>, p: Policy) {
    && Closure(c, roots, s)
    && Listing(p.manifest.roots, Nodes(c, roots), PairLe)
    && (forall i :: 0 <= i < |p.manifest.parents| ==> ParentEntry(c, p.manifest.parents[i]))
    && Listing(ParentNodes(p.manifest.parents), set n | n in s && n in c.canonical && HasMembers(c.canonical[n]) :: NodeOf(c, n), PairLe)
    && Listing(p.queues, Queues(c, s), StringLe)
    && p.digest == p.manifest
  }

  // ---- the policy is determined by the set of roots ------------------------------------------

  lemma ClosureUnique(c: Catalog, roots: set<string>, s: set<string>, t: set<string>)
    requires Closure(c, roots, s) && Closure(c, roots, t)
    ensures s == t
  {
  }

  lemma EntryUnique(c: Catalog, p: PolicyParent, q: PolicyParent)
    requires ParentEntry(c, p) && ParentEntry(c, q) && p.node == q.node
    ensures p == q
  {
    hide PairLe, Listing;
    PairOrder();
    ListingUnique(p.targets, q.targets, MemberNodes(c, p.node.1), PairLe);
    var t := c.canonical[p.node.1];
    var i :| 0 <= i < |t.targets| && ForMembers(t.targets[i]);
  }

  /** The compiled policy does not depend on the order of the roots nor on the order of the traversal. */
  lemma CompiledUnique(c: Catalog, roots: set<string>, s: set<string>, p: Policy, t: set<string>, q: Policy)
    requires Compiled(c, roots, s, p) && Compiled(c, roots, t, q)
    ensures s == t && p == q
  {
    hide Closure, PairLe, StringLe, Listing, ParentEntry, TotalOrder;
    ClosureUnique(c, roots, s, t);
    PairOrder();
    StringOrder();
    ListingUnique(p.manifest.roots, q.manifest.roots, Nodes(c, roots), PairLe);
    ListingUnique(p.queues, q.queues, Queues(c, s), StringLe);
    var a, b := p.manifest.parents, q.manifest.parents;
    ListingUnique(ParentNodes(a), ParentNodes(b), set n | n in s && n in c.canonical && HasMembers(c.canonical[n]) :: NodeOf(c, n), PairLe);
    assert |ParentNodes(a)| == |a| && |ParentNodes(b)| == |b|;
    forall i | 0 <= i < |a| ensures a[i] == b[i] {
      assert ParentNodes(a)[i] == ParentNodes(b)[i];
      EntryUnique(c, a[i], b[i]);
    }
  }

  // ---- the compiler --------------------------------------------------------------------------

  function NamesOf(ts: seq<Task>): set<string> {
    set t | t in ts :: t.name
  }

  function TaskNode(t: Task): Node {
    (t.queue, t.name)
  }

  predicate Registered(c: Catalog, t: Task) {
    t.name in c.canonical && c.canonical[t.name] == t
  }

  ghost predicate RootsOk(c: Catalog, roots: seq<Root>) {
    && roots != []
    && (forall i :: 0 <= i < |roots| ==> Require(c, roots[i]).Some?)
    && (forall i, j :: 0 <= i < j < |roots| ==> TaskNode(Require(c, roots[i]).value) != TaskNode(Require(c, roots[j]).value))
  }

  ghost function RootNames(c: Catalog, roots: seq<Root>): set<string> {
    set i | 0 <= i < |roots| && Require(c, roots[i]).Some? :: Require(c, roots[i]).value.name
  }

  lemma RequiredIsRegistered(c: Catalog, root: Root)
    requires CatalogOk(c) && Require(c, root).Some?
    ensures Registered(c, Require(c, root).value)
  {
  }

  method ResolveRoots(registry: TaskRegistry, roots: seq<Root>) returns (r: Result<seq<Task>, Error>)
    requires registry.Valid()
    ensures r.Ok? <==> RootsOk(registry.Contents(), roots)
    ensures r.Ok? ==> NamesOf(r.value) == RootNames(registry.Contents(), roots)
    ensures r.Ok? ==> Distinct(NodesOf(r.value)) && forall t :: t in r.value ==> Registered(registry.Contents(), t)
  {
    hide CatalogOk;
    var c := Catalog(registry.canonical, registry.lookup);
    var resolved: seq<Task> := [];
    var k := 0;
    while k < |roots|
      invariant k <= |roots| && |resolved| == k
      invariant forall i :: 0 <= i < k ==> Require(c, roots[i]) == Some(resolved[i]) && Registered(c, resolved[i])
    {
      var task := Require(c, roots[k]);
      if task.None? {
        return Err(NotFound);
      }
      RequiredIsRegistered(c, roots[k]);
      resolved := resolved + [task.value];
      k := k + 1;
    }
    if resolved == [] {
      return Err(Config("continuation policy requires at least one root task"));
    }
    if exists i, j :: 0 <= i < j < |resolved| && TaskNode(resolved[i]) == TaskNode(resolved[j]) {
      return Err(Config("continuation policy roots must be canonically distinct"));
    }
    assert forall n :: n in NamesOf(resolved) <==> n in RootNames(c, roots) by {
      forall n | n in RootNames(c, roots) ensures n in NamesOf(resolved) {
        var i :| 0 <= i < |roots| && Require(c, roots[i]).Some? && Require(c, roots[i]).value.name == n;
        assert resolved[i] in resolved;
      }
      forall n | n in NamesOf(resolved) ensures n in RootNames(c, roots) {
        var i :| 0 <= i < |resolved| && resolved[i].name == n;
        assert Require(c, roots[i]).value.name == n;
      }
    }
    r := Ok(resolved);
  }

  function NodesOf(ts: seq<Task>): seq<Node> {
    seq(|ts|, i requires 0 <= i < |ts| => TaskNode(ts[i]))
  }

  predicate Pointed(c: Catalog, parent: Task, k: nat, b: string)
    requires k <= |parent.targets|
  {
    exists i :: 0 <= i < k && PointsTo(c, parent.targets[i], b)
  }

  predicate Identified(c: Catalog, parent: Task, k: nat, node: Node)
    requires k <= |parent.targets|
  {
    exists i :: 0 <= i < k && parent.targets[i].jobType in c.lookup && Identity(c, parent.targets[i]) == node
  }

  predicate MembersUpTo(parent: Task, k: nat)
    requires k <= |parent.targets|
  {
    exists i :: 0 <= i < k && ForMembers(parent.targets[i])
  }

  lemma OneMoreTarget(c: Catalog, parent: Task, k: nat)
    requires k < |parent.targets|
    ensures forall b :: Pointed(c, parent, k + 1, b) <==> Pointed(c, parent, k, b) || PointsTo(c, parent.targets[k], b)
    ensures forall node :: Identified(c, parent, k, node) ==> Identified(c, parent, k + 1, node)
    ensures MembersUpTo(parent, k + 1) <==> MembersUpTo(parent, k) || ForMembers(parent.targets[k])
  {
    forall node | Identified(c, parent, k, node) ensures Identified(c, parent, k + 1, node) {
      var i :| 0 <= i < k && parent.targets[i].jobType in c.lookup && Identity(c, parent.targets[i]) == node;
    }
  }

  /** The next identity is new: declared targets are canonically distinct. */
  lemma NextIdentity(c: Catalog, parent: Task, k: nat)
    requires CatalogOk(c) && ParentOk(c, parent) && k < |parent.targets|
    ensures parent.targets[k].jobType in c.lookup
    ensures var child := c.lookup[parent.targets[k].jobType];
            && Registered(c, child) && !Identified(c, parent, k, TaskNode(child)) && Identified(c, parent, k + 1, TaskNode(child))
  {
    var t := parent.targets[k];
    assert TargetOk(c, t);
    var child := c.lookup[t.jobType];
    assert Identity(c, t) == TaskNode(child);
    forall i | 0 <= i < k && parent.targets[i].jobType in c.lookup ensures Identity(c, parent.targets[i]) != TaskNode(child) {
    }
  }

  /** The children of the first `k` targets, in declaration order. */
  ghost predicate ChildrenUpTo(c: Catalog, parent: Task, k: nat, children: seq<Task>)
    requires k <= |parent.targets|
  {
    && (forall t :: t in children ==> Registered(c, t))
    && (forall b :: b in NamesOf(children) <==> Pointed(c, parent, k, b))
    && (forall node :: node in NodesOf(children) ==> Identified(c, parent, k, node))
    && Distinct(NodesOf(children))
    && (children == [] <==> !MembersUpTo(parent, k))
  }

  lemma NextChild(c: Catalog, parent: Task, k: nat, children: seq<Task>)
    requires CatalogOk(c) && ParentOk(c, parent) && k < |parent.targets| && ChildrenUpTo(c, parent, k, children)
    requires ForMembers(parent.targets[k])
    ensures parent.targets[k].jobType in c.lookup
    ensures ChildrenUpTo(c, parent, k + 1, children + [c.lookup[parent.targets[k].jobType]])
  {
    NextIdentity(c, parent, k);
    OneMoreTarget(c, parent, k);
    var child := c.lookup[parent.targets[k].jobType];
    OneMoreChild(children, child);
    assert forall b :: PointsTo(c, parent.targets[k], b) <==> b == child.name;
    hide CatalogOk, ParentOk, Registered, Pointed, Identified, MembersUpTo, NamesOf, NodesOf;
  }

  lemma OutsideChild(c: Catalog, parent: Task, k: nat, children: seq<Task>)
    requires k < |parent.targets| && ChildrenUpTo(c, parent, k, children) && !ForMembers(parent.targets[k])
    ensures ChildrenUpTo(c, parent, k + 1, children)
  {
    OneMoreTarget(c, parent, k);
    assert forall b :: !PointsTo(c, parent.targets[k], b);
    hide Pointed, Identified, MembersUpTo, NamesOf, NodesOf;
  }

  /** The registered tasks the member edges of `parent` lead to, each once. */
  ghost predicate ChildrenOf(c: Catalog, parent: Task, children: seq<Task>) {
    && (forall t :: t in children ==> Registered(c, t))
    && (forall b :: b in NamesOf(children) <==> Edge(c, parent.name, b))
    && Distinct(NodesOf(children)) && (children == [] <==> !HasMembers(parent))
  }

  lemma AllChildren(c: Catalog, parent: Task, children: seq<Task>)
    requires Registered(c, parent) && ChildrenUpTo(c, parent, |parent.targets|, children)
    ensures ChildrenOf(c, parent, children)
  {
  }

  lemma FirstChildren(c: Catalog, parent: Task)
    requires GraphOk(c) && Registered(c, parent)
    ensures ParentOk(c, parent) && ChildrenUpTo(c, parent, 0, [])
  {
  }

  /** The children a task may add to its workflow, in declaration order. */
  method MemberChildren(registry: TaskRegistry, parent: Task) returns (children: seq<Task>)
    requires registry.Valid() && GraphOk(registry.Contents()) && Registered(registry.Contents(), parent)
    ensures ChildrenOf(registry.Contents(), parent, children)
  {
    hide GraphOk, CatalogOk, ParentOk, ChildrenUpTo, ChildrenOf, Registered;
    var c := Catalog(registry.canonical, registry.lookup);
    FirstChildren(c, parent);
    children := [];
    var k := 0;
    while k < |parent.targets|
      invariant k <= |parent.targets| && ChildrenUpTo(c, parent, k, children)
    {
      var t := parent.targets[k];
      if ForMembers(t) {
        NextChild(c, parent, k, children);
        children := children + [c.lookup[t.jobType]];
      } else {
        OutsideChild(c, parent, k, children);
      }
      k := k + 1;
    }
    AllChildren(c, parent, children);
  }

  lemma OneMoreChild(children: seq<Task>, child: Task)
    ensures NamesOf(children + [child]) == NamesOf(children) + {child.name}
    ensures NodesOf(children + [child]) == NodesOf(children) + [TaskNode(child)]
  {
  }

  // ---- the worklist --------------------------------------------------------------------------

  /** Every edge out of a visited task leads to a known one, and only reachable tasks are known. */
  ghost predicate Frontier(c: Catalog, roots: set<string>, visited: set<string>, waiting: set<string>) {
    && roots <= visited + waiting <= c.canonical.Keys
    && (forall a, b :: a in visited && Edge(c, a, b) ==> b in visited + waiting)
    && (forall t: set<string> :: roots <= t && Closed(c, t) ==> visited + waiting <= t)
  }

  lemma FrontierStarts(c: Catalog, roots: set<string>)
    requires roots <= c.canonical.Keys
    ensures Frontier(c, roots, {}, roots)
  {
  }

  lemma FrontierSkips(c: Catalog, roots: set<string>, visited: set<string>, waiting: set<string>, rest: set<string>, n: string)
    requires Frontier(c, roots, visited, waiting) && n in visited && waiting == rest + {n}
    ensures Frontier(c, roots, visited, rest) && visited + rest == visited + waiting
  {
    assert visited + rest == visited + waiting;
  }

  lemma FrontierVisits(c: Catalog, roots: set<string>, visited: set<string>, waiting: set<string>, rest: set<string>, n: string, next: set<string>)
    requires Frontier(c, roots, visited, waiting) && waiting == rest + {n} && next <= c.canonical.Keys
    requires forall b :: b in next <==> Edge(c, n, b)
    ensures Frontier(c, roots, visited + {n}, rest + next)
    ensures visited + {n} + (rest + next) == visited + waiting + next
  {
    forall t: set<string> | roots <= t && Closed(c, t) ensures visited + {n} + (rest + next) <= t {
      assert visited + waiting <= t && n in waiting;
    }
  }

  lemma FrontierEnds(c: Catalog, roots: set<string>, visited: set<string>)
    requires Frontier(c, roots, visited, {})
    ensures Closure(c, roots, visited)
  {
    assert visited + {} == visited;
  }

  /** The entries so far: one for each visited task with member targets. */
  ghost predicate Entries(c: Catalog, visited: set<string>, parents: seq<PolicyParent>) {
    && (forall i :: 0 <= i < |parents| ==> ParentEntry(c, parents[i]) && parents[i].node.1 in visited)
    && Distinct(ParentNodes(parents))
    && (forall n :: n in visited && n in c.canonical && HasMembers(c.canonical[n]) ==> NodeOf(c, n) in ParentNodes(parents))
  }

  lemma NoEntry(c: Catalog, visited: set<string>, parents: seq<PolicyParent>, n: string)
    requires Entries(c, visited, parents) && n in c.canonical && !HasMembers(c.canonical[n])
    ensures Entries(c, visited + {n}, parents)
  {
    hide ParentEntry;
  }

  lemma NextEntry(c: Catalog, visited: set<string>, parents: seq<PolicyParent>, p: PolicyParent)
    requires Entries(c, visited, parents) && ParentEntry(c, p) && p.node.1 !in visited
    ensures Entries(c, visited + {p.node.1}, parents + [p])
  {
    var all := parents + [p];
    assert p.node == NodeOf(c, p.node.1);
    hide ParentEntry;
    assert ParentNodes(all) == ParentNodes(parents) + [p.node];
    forall i | 0 <= i < |parents| ensures ParentNodes(parents)[i] != p.node {
      assert parents[i].node.1 in visited;
    }
  }

  /** The entry the compiler builds for one task. */
  lemma EntryIsRight(c: Catalog, parent: Task, children: seq<Task>, revision: string)
    requires CatalogOk(c) && Registered(c, parent) && HasMembers(parent)
    requires Distinct(NodesOf(children)) && (forall t :: t in children ==> Registered(c, t))
    requires forall b :: b in NamesOf(children) <==> Edge(c, parent.name, b)
    requires exists i :: 0 <= i < |parent.targets| && parent.targets[i].revision == Some(revision)
    ensures ParentEntry(c, PolicyParent(TaskNode(parent), revision, Sort(NodesOf(children), PairLe)))
  {
    PairOrder();
    SortLists(NodesOf(children), PairLe);
    SharedRevision(parent, revision) by { assert ValidTask(parent); }
    hide CatalogOk, PairLe, Sort, TotalOrder, Preorder, Listing;
    ChildNodes(c, parent, children);
  }

  lemma SharedRevision(t: Task, revision: string)
    requires ValidTask(t) && exists i :: 0 <= i < |t.targets| && t.targets[i].revision == Some(revision)
    ensures forall i :: 0 <= i < |t.targets| && ForMembers(t.targets[i]) ==> t.targets[i].revision == Some(revision)
  {
    var j :| 0 <= j < |t.targets| && t.targets[j].revision == Some(revision);
    forall i | 0 <= i < |t.targets| && ForMembers(t.targets[i]) ensures t.targets[i].revision == Some(revision) {
      if i < j { assert t.targets[i].revision == t.targets[j].revision; }
    }
  }

  lemma ChildNodes(c: Catalog, parent: Task, children: seq<Task>)
    requires Registered(c, parent) && forall t :: t in children ==> Registered(c, t)
    requires forall b :: b in NamesOf(children) <==> Edge(c, parent.name, b)
    ensures Elements(NodesOf(children)) == MemberNodes(c, parent.name)
  {
    hide Edge;
    forall node | node in MemberNodes(c, parent.name) ensures node in NodesOf(children) {
      var b :| b in c.canonical && Edge(c, parent.name, b) && NodeOf(c, b) == node;
      assert b in NamesOf(children);
      var i :| 0 <= i < |children| && children[i].name == b;
      assert Registered(c, children[i]) && NodesOf(children)[i] == node;
    }
    forall node | node in NodesOf(children) ensures node in MemberNodes(c, parent.name) {
      var i :| 0 <= i < |children| && NodesOf(children)[i] == node;
      assert children[i] in children && children[i].name in NamesOf(children);
    }
  }

  lemma NamesSplit(rest: seq<Task>, t: Task)
    ensures NamesOf(rest + [t]) == NamesOf(rest) + {t.name}
  {
  }

  lemma NamesJoin(a: seq<Task>, b: seq<Task>)
    ensures NamesOf(a + b) == NamesOf(a) + NamesOf(b)
  {
    assert forall t :: t in a + b <==> t in a || t in b;
  }

  lemma QueuesJoin(c: Catalog, names: set<string>, ts: seq<Task>)
    requires forall t :: t in ts ==> Registered(c, t)
    ensures Queues(c, names + NamesOf(ts)) == Queues(c, names) + (set t | t in ts :: t.queue)
  {
    forall q | q in (set t | t in ts :: t.queue) ensures q in Queues(c, names + NamesOf(ts)) {
      var t :| t in ts && t.queue == q;
      assert t.name in NamesOf(ts);
    }
  }

  lemma NamesRegistered(c: Catalog, ts: seq<Task>)
    requires forall t :: t in ts ==> Registered(c, t)
    ensures NamesOf(ts) <= c.canonical.Keys
  {
  }

  /** What holds between two steps of the worklist. */
  ghost predicate Exploring(c: Catalog, names: set<string>, visited: set<string>, pending: seq<Task>, queues: set<string>, parents: seq<PolicyParent>) {
    && (forall t :: t in pending ==> Registered(c, t))
    && Frontier(c, names, visited, NamesOf(pending)) && visited <= c.canonical.Keys
    && queues == Queues(c, visited + NamesOf(pending)) && Entries(c, visited, parents)
  }

  lemma ExploreStarts(c: Catalog, roots: seq<Task>)
    requires forall t :: t in roots ==> Registered(c, t)
    ensures Exploring(c, NamesOf(roots), {}, roots, set t | t in roots :: t.queue, [])
  {
    NamesRegistered(c, roots);
    FrontierStarts(c, NamesOf(roots));
    StartingPoint(c, roots);
  }

  lemma ExploreSkips(c: Catalog, names: set<string>, visited: set<string>, rest: seq<Task>, parent: Task, queues: set<string>, parents: seq<PolicyParent>)
    requires Exploring(c, names, visited, rest + [parent], queues, parents) && parent.name in visited
    ensures Exploring(c, names, visited, rest, queues, parents)
  {
    hide Frontier, Entries, Registered, NamesOf, Queues;
    assert forall t :: t in rest ==> t in rest + [parent];
    NamesSplit(rest, parent);
    FrontierSkips(c, names, visited, NamesOf(rest + [parent]), NamesOf(rest), parent.name);
  }

  /** The parent is visited: its children join the worklist. The entries are those after it. */
  lemma ExploreVisits(c: Catalog, names: set<string>, visited: set<string>, rest: seq<Task>, parent: Task, children: seq<Task>,
                      queues: set<string>, parents: seq<PolicyParent>, after: seq<PolicyParent>)
    requires Exploring(c, names, visited, rest + [parent], queues, parents) && ChildrenOf(c, parent, children)
    requires Entries(c, visited + {parent.name}, after)
    ensures Exploring(c, names, visited + {parent.name}, rest + children, queues + (set t | t in children :: t.queue), after)
  {
    hide Frontier, Entries, NamesOf, Queues, Edge, HasMembers, Distinct, NodesOf;
    assert parent in rest + [parent];
    NamesSplit(rest, parent);
    NamesRegistered(c, children);
    FrontierVisits(c, names, visited, NamesOf(rest + [parent]), NamesOf(rest), parent.name, NamesOf(children));
    NamesJoin(rest, children);
    QueuesJoin(c, visited + NamesOf(rest + [parent]), children);
    assert forall t :: t in rest + children ==> t in rest + [parent] || t in children;
  }

  lemma ExploreEnds(c: Catalog, names: set<string>, visited: set<string>, queues: set<string>, parents: seq<PolicyParent>)
    requires Exploring(c, names, visited, [], queues, parents)
    ensures Closure(c, names, visited) && queues == Queues(c, visited) && Entries(c, visited, parents)
  {
    hide Frontier, Entries, Registered, Queues, Closure;
    NoNames([]);
    FrontierEnds(c, names, visited);
    assert visited + {} == visited;
  }

  lemma NextParent(c: Catalog, names: set<string>, visited: set<string>, rest: seq<Task>, parent: Task, queues: set<string>, parents: seq<PolicyParent>)
    requires Exploring(c, names, visited, rest + [parent], queues, parents)
    ensures Registered(c, parent) && Entries(c, visited, parents)
  {
    hide Frontier, Entries, Registered, Queues;
    assert parent in rest + [parent];
  }

  /** Visit everything reachable from the roots, last found first. */
  method Explore(registry: TaskRegistry, roots: seq<Task>) returns (visited: set<string>, queues: set<string>, parents: seq<PolicyParent>)
    requires registry.Valid() && GraphOk(registry.Contents()) && forall t :: t in roots ==> Registered(registry.Contents(), t)
    ensures Closure(registry.Contents(), NamesOf(roots), visited)
    ensures queues == Queues(registry.Contents(), visited) && Entries(registry.Contents(), visited, parents)
  {
    hide CatalogOk, GraphOk, Exploring, Closure, Entries, ChildrenOf, Registered, NamesOf, Queues;
    ghost var c, names := registry.Contents(), NamesOf(roots);
    var pending := roots;
    visited, queues, parents := {}, set t | t in roots :: t.queue, [];
    ExploreStarts(c, roots);
    while pending != []
      invariant Exploring(c, names, visited, pending, queues, parents)
      decreases |c.canonical.Keys - visited|, |pending|
    {
      var parent := pending[|pending| - 1];
      var rest := pending[..|pending| - 1];
      assert pending == rest + [parent];
      if parent.name in visited {
        ExploreSkips(c, names, visited, rest, parent, queues, parents);
        pending := rest;
        continue;
      }
      NextParent(c, names, visited, rest, parent, queues, parents);
      RegisteredName(c, parent);
      NewlyVisited(c.canonical.Keys, visited, parent.name);
      var children := MemberChildren(registry, parent);
      var after := AddEntry(registry, visited, parents, parent, children);
      ExploreVisits(c, names, visited, rest, parent, children, queues, parents, after);
      visited := visited + {parent.name};
      queues := queues + set t | t in children :: t.queue;
      pending := rest + children;
      parents := after;
    }
    ExploreEnds(c, names, visited, queues, parents);
  }

  /** One entry more, if the task has member targets. */
  method AddEntry(registry: TaskRegistry, ghost visited: set<string>, parents: seq<PolicyParent>, parent: Task, children: seq<Task>)
    returns (after: seq<PolicyParent>)
    requires registry.Valid() && Registered(registry.Contents(), parent) && ChildrenOf(registry.Contents(), parent, children)
    requires parent.name !in visited && Entries(registry.Contents(), visited, parents)
    ensures Entries(registry.Contents(), visited + {parent.name}, after)
  {
    hide CatalogOk, Entries, ParentEntry, NamesOf, NodesOf, Edge, HasMembers, Distinct, Sort;
    ghost var c := registry.Contents();
    if children == [] {
      NoEntry(c, visited, parents, parent.name);
      return parents;
    }
    var revision := SomeRevision(parent);
    var entry := PolicyParent(TaskNode(parent), revision, Sort(NodesOf(children), PairLe));
    EntryIsRight(c, parent, children, revision);
    NextEntry(c, visited, parents, entry);
    after := parents + [entry];
  }

  lemma StartingPoint(c: Catalog, roots: seq<Task>)
    requires forall t :: t in roots ==> Registered(c, t)
    ensures Queues(c, {} + NamesOf(roots)) == (set t | t in roots :: t.queue) && Entries(c, {}, [])
  {
    QueuesJoin(c, {}, roots);
    assert Queues(c, {}) == {};
  }

  lemma RegisteredName(c: Catalog, t: Task)
    requires Registered(c, t)
    ensures t.name in c.canonical && c.canonical[t.name] == t
  {
  }

  lemma NoNames(ts: seq<Task>)
    requires ts == []
    ensures NamesOf(ts) == {}
  {
  }

  lemma NewlyVisited(all: set<string>, visited: set<string>, n: string)
    requires n in all && n !in visited
    ensures |all - (visited + {n})| < |all - visited|
  {
    assert all - visited == (all - (visited + {n})) + {n};
  }

  /** The revision the member targets of the task share. */
  method SomeRevision(t: Task) returns (revision: string)
    requires HasMembers(t)
    ensures exists i :: 0 <= i < |t.targets| && t.targets[i].revision == Some(revision)
  {
    var i :| 0 <= i < |t.targets| && ForMembers(t.targets[i]);
    revision := t.targets[i].revision.value;
  }

  predicate EntryLe(p: PolicyParent, q: PolicyParent) {
    PairLe(p.node, q.node)
  }

  method Compile(registry: TaskRegistry, roots: seq<Root>) returns (r: Result<Policy, Error>, ghost reached: set<string>)
    requires registry.Valid()
    ensures !(GraphOk(registry.Contents()) && RootsOk(registry.Contents(), roots)) ==> r.Err?
    ensures GraphOk(registry.Contents()) && RootsOk(registry.Contents(), roots) ==>
      && Closure(registry.Contents(), RootNames(registry.Contents(), roots), reached)
      && (r.Ok? <==> |Queues(registry.Contents(), reached)| <= MAX_POLICY_QUEUES)
      && (r.Ok? ==> Compiled(registry.Contents(), RootNames(registry.Contents(), roots), reached, r.value))
  {
    hide CatalogOk, GraphOk, RootsOk, Closure, Closed, Entries, Compiled, Queues, RootNames, NamesOf, Sort, Require;
    reached := {};
    var valid := registry.ValidateFollowupGraph();
    if !valid {
      return Err(Config("followup graph")), reached;
    }
    var resolved := ResolveRoots(registry, roots);
    if resolved.Err? {
      return Err(resolved.error), reached;
    }
    var visited, queues, parents := Explore(registry, resolved.value);
    reached := visited;
    if |queues| > MAX_POLICY_QUEUES {
      return Err(Config("continuation policy reaches more than 32 queues")), reached;
    }
    var manifest := Manifest(Sort(NodesOf(resolved.value), PairLe), Sort(parents, EntryLe));
    var listed := ListStrings(queues);
    var policy := Policy(manifest, manifest, Sort(listed, StringLe));
    CompiledParts(registry.Contents(), resolved.value, visited, queues, parents, listed, policy);
    r := Ok(policy);
  }

  method ListStrings(s: set<string>) returns (listed: seq<string>)
    ensures Distinct(listed) && Elements(listed) == s
  {
    listed := [];
    var left := s;
    while left != {}
      invariant left <= s && Distinct(listed) && Elements(listed) == s - left
      decreases left
    {
      var x :| x in left;
      assert x !in Elements(listed);
      assert Elements(listed + [x]) == Elements(listed) + {x};
      listed := listed + [x];
      left := left - {x};
    }
  }

  lemma CompiledParts(c: Catalog, roots: seq<Task>, visited: set<string>, queues: set<string>, parents: seq<PolicyParent>, listed: seq<string>,
                      p: Policy)
    requires Closure(c, NamesOf(roots), visited) && queues == Queues(c, visited) && Entries(c, visited, parents)
    requires (forall t :: t in roots ==> Registered(c, t)) && Distinct(NodesOf(roots))
    requires Distinct(listed) && Elements(listed) == queues
    requires p == Policy(p.manifest, p.manifest, Sort(listed, StringLe))
    requires p.manifest == Manifest(Sort(NodesOf(roots), PairLe), Sort(parents, EntryLe))
    ensures Compiled(c, NamesOf(roots), visited, p)
  {
    hide Closure, Queues, PairLe, StringLe, EntryLe, Preorder, TotalOrder, Sort, Listing, Entries;
    PairOrder();
    StringOrder();
    TotalIsPreorder(PairLe);
    TotalIsPreorder(StringLe);
    SortLists(NodesOf(roots), PairLe);
    SortLists(listed, StringLe);
    RootNodes(c, roots);
    SortedEntries(c, visited, parents);
  }

  lemma RootNodes(c: Catalog, roots: seq<Task>)
    requires forall t :: t in roots ==> Registered(c, t)
    ensures Elements(NodesOf(roots)) == Nodes(c, NamesOf(roots))
  {
    forall node | node in NodesOf(roots) ensures node in Nodes(c, NamesOf(roots)) {
      var i :| 0 <= i < |roots| && NodesOf(roots)[i] == node;
      assert roots[i] in roots && roots[i].name in NamesOf(roots);
    }
    forall node | node in Nodes(c, NamesOf(roots)) ensures node in NodesOf(roots) {
      var n :| n in NamesOf(roots) && n in c.canonical && NodeOf(c, n) == node;
      var i :| 0 <= i < |roots| && roots[i].name == n;
      assert roots[i] in roots && NodesOf(roots)[i] == node;
    }
  }

  lemma EntryPreorder()
    ensures Preorder(EntryLe)
  {
    hide PairLe;
    PairOrder();
    forall p, q ensures EntryLe(p, q) || EntryLe(q, p) {
      assert PairLe(p.node, q.node) || PairLe(q.node, p.node);
    }
    forall p, q, r | EntryLe(p, q) && EntryLe(q, r) ensures EntryLe(p, r) {
      assert PairLe(p.node, q.node) && PairLe(q.node, r.node);
    }
  }

  /** Sorting the entries by node lists the nodes of all visited tasks with member targets. */
  lemma SortedEntries(c: Catalog, visited: set<string>, parents: seq<PolicyParent>)
    requires Entries(c, visited, parents)
    ensures var sorted := Sort(parents, EntryLe);
            && (forall i :: 0 <= i < |sorted| ==> ParentEntry(c, sorted[i]))
            && Listing(ParentNodes(sorted), set n | n in visited && n in c.canonical && HasMembers(c.canonical[n]) :: NodeOf(c, n), PairLe)
  {
    hide PairLe, EntryLe, Preorder, Sort, ParentEntry, Listing, HasMembers, Sorted;
    EntryPreorder();
    DistinctEntries(parents);
    SortLists(parents, EntryLe);
    var sorted := Sort(parents, EntryLe);
    SortSorts(parents, EntryLe);
    SameBag(parents, sorted);
    forall i | 0 <= i < |sorted| ensures ParentEntry(c, sorted[i]) && sorted[i].node.1 in visited {
      assert sorted[i] in parents;
    }
    SortedNodes(parents, sorted);
    EntryNodes(c, visited, parents);
  }

  lemma DistinctEntries(parents: seq<PolicyParent>)
    requires Distinct(ParentNodes(parents))
    ensures Distinct(parents)
  {
    forall i, j | 0 <= i < j < |parents| ensures parents[i] != parents[j] {
      assert ParentNodes(parents)[i] != ParentNodes(parents)[j];
    }
  }

  lemma SortedNodes(parents: seq<PolicyParent>, sorted: seq<PolicyParent>)
    requires Distinct(ParentNodes(parents)) && Distinct(sorted) && Sorted(sorted, EntryLe) && forall p :: p in sorted <==> p in parents
    ensures Listing(ParentNodes(sorted), Elements(ParentNodes(parents)), PairLe)
  {
    hide PairLe;
    var nodes := ParentNodes(sorted);
    forall i, j | 0 <= i < j < |nodes| ensures PairLe(nodes[i], nodes[j]) && nodes[i] != nodes[j] {
      assert EntryLe(sorted[i], sorted[j]) && sorted[i] in parents && sorted[j] in parents;
      var a :| 0 <= a < |parents| && parents[a] == sorted[i];
      var b :| 0 <= b < |parents| && parents[b] == sorted[j];
      assert ParentNodes(parents)[a] != ParentNodes(parents)[b];
    }
    forall node ensures node in nodes <==> node in ParentNodes(parents) {
      if i :| 0 <= i < |nodes| && nodes[i] == node {
        assert sorted[i] in parents;
        var a :| 0 <= a < |parents| && parents[a] == sorted[i];
        assert ParentNodes(parents)[a] == node;
      }
      if a :| 0 <= a < |parents| && ParentNodes(parents)[a] == node {
        assert parents[a] in sorted;
        var i :| 0 <= i < |sorted| && sorted[i] == parents[a];
        assert nodes[i] == node;
      }
    }
  }

  lemma EntryNodes(c: Catalog, visited: set<string>, parents: seq<PolicyParent>)
    requires Entries(c, visited, parents)
    ensures Elements(ParentNodes(parents))
         == (set n | n in visited && n in c.canonical && HasMembers(c.canonical[n]) :: NodeOf(c, n))
  {
    forall node | node in ParentNodes(parents)
      ensures node in (set n | n in visited && n in c.canonical && HasMembers(c.canonical[n]) :: NodeOf(c, n))
    {
      var i :| 0 <= i < |parents| && ParentNodes(parents)[i] == node;
      assert ParentEntry(c, parents[i]) && parents[i].node == NodeOf(c, parents[i].node.1);
    }
  }

  // ---- checking a retained policy ------------------------------------------------------------

  /** The node is a registered task under exactly this name and queue. */
  predicate Runnable(c: Catalog, node: Node) {
    node.1 in c.lookup && c.lookup[node.1].name == node.1 && c.lookup[node.1].queue == node.0
  }

  /** The live registry still has the member edge. */
  predicate LiveEdge(c: Catalog, parent: Task, node: Node) {
    exists i :: 0 <= i < |parent.targets| && ForMembers(parent.targets[i]) && parent.targets[i].jobType in c.lookup
      && Identity(c, parent.targets[i]) == node
  }

  predicate EntryRunnable(c: Catalog, p: PolicyParent) {
    && Runnable(c, p.node)
    && (forall i :: 0 <= i < |c.lookup[p.node.1].targets| ==> c.lookup[p.node.1].targets[i].jobType in c.lookup)
    && (forall i :: 0 <= i < |p.targets| ==> Runnable(c, p.targets[i]) && LiveEdge(c, c.lookup[p.node.1], p.targets[i]))
  }

  /** Every queue a policy names. */
  ghost function ManifestQueues(m: Manifest): set<string> {
    (set i | 0 <= i < |m.roots| :: m.roots[i].0)
    + (set i, j | 0 <= i < |m.parents| && 0 <= j < |m.parents[i].targets| :: m.parents[i].targets[j].0)
  }

  ghost predicate Canonical(xs: seq<Node>) {
    Sorted(xs, PairLe) && Distinct(xs)
  }

  ghost predicate Accepted(c: Catalog, p: Policy) {
    && p.digest == p.manifest
    && Canonical(p.manifest.roots) && Canonical(ParentNodes(p.manifest.parents))
    && (forall i :: 0 <= i < |p.manifest.roots| ==> Runnable(c, p.manifest.roots[i]))
    && (forall i :: 0 <= i < |p.manifest.parents| ==> Canonical(p.manifest.parents[i].targets) && EntryRunnable(c, p.manifest.parents[i]))
    && Listing(p.queues, ManifestQueues(p.manifest), StringLe)
  }

  /** The registry keeps the tasks, their queues and their member edges; tasks and edges may be added. */
  ghost predicate Keeps(c: Catalog, d: Catalog) {
    forall n :: n in c.canonical ==>
      && n in d.canonical && d.canonical[n].queue == c.canonical[n].queue
      && (forall b :: Edge(c, n, b) ==> Edge(d, n, b))
  }

  lemma CanonicalIsRunnable(d: Catalog, n: string)
    requires CatalogOk(d) && n in d.canonical
    ensures Runnable(d, NodeOf(d, n)) && d.lookup[n] == d.canonical[n]
  {
    assert Names(d.canonical[n], n);
  }

  lemma EdgeIsLive(d: Catalog, a: string, b: string)
    requires CatalogOk(d) && GraphOk(d) && Edge(d, a, b)
    ensures b in d.canonical && LiveEdge(d, d.canonical[a], NodeOf(d, b))
  {
    var parent := d.canonical[a];
    var i :| 0 <= i < |parent.targets| && PointsTo(d, parent.targets[i], b);
    assert ParentOk(d, parent) && TargetOk(d, parent.targets[i]);
    assert d.lookup[parent.targets[i].jobType] == d.canonical[b];
  }

  lemma EntryStaysRunnable(c: Catalog, d: Catalog, p: PolicyParent)
    requires CatalogOk(d) && GraphOk(d) && Keeps(c, d) && ParentEntry(c, p)
    ensures Canonical(p.targets) && EntryRunnable(d, p)
  {
    hide CatalogOk, GraphOk, PairLe, HasMembers, Edge, Sorted;
    var a := p.node.1;
    CanonicalIsRunnable(d, a);
    assert p.node == NodeOf(d, a);
    TargetsResolve(d, a);
    forall i | 0 <= i < |p.targets| ensures Runnable(d, p.targets[i]) && LiveEdge(d, d.lookup[a], p.targets[i]) {
      assert p.targets[i] in Elements(p.targets);
      var b :| b in c.canonical && Edge(c, a, b) && NodeOf(c, b) == p.targets[i];
      CanonicalIsRunnable(d, b);
      EdgeIsLive(d, a, b);
    }
  }

  lemma TargetsResolve(d: Catalog, a: string)
    requires CatalogOk(d) && GraphOk(d) && a in d.canonical
    ensures forall i :: 0 <= i < |d.canonical[a].targets| ==> d.canonical[a].targets[i].jobType in d.lookup
  {
    assert ParentOk(d, d.canonical[a]);
    forall i | 0 <= i < |d.canonical[a].targets| ensures d.canonical[a].targets[i].jobType in d.lookup {
      assert TargetOk(d, d.canonical[a].targets[i]);
    }
  }

  /** Everything in a closure is a root or the target of a member edge inside it. */
  lemma ClosureIsReached(c: Catalog, roots: set<string>, s: set<string>, b: string)
    requires Closure(c, roots, s) && b in s
    ensures b in roots || exists a :: a in s && Edge(c, a, b)
  {
    hide Edge;
    var t := set x | x in s && (x in roots || exists a :: a in s && Edge(c, a, x));
    assert Closed(c, t);
  }

  /** The queues a compiled policy lists are exactly those its manifest names. */
  lemma QueuesOfManifest(c: Catalog, roots: set<string>, s: set<string>, p: Policy)
    requires Compiled(c, roots, s, p)
    ensures Queues(c, s) == ManifestQueues(p.manifest)
  {
    hide PairLe, StringLe, Sorted, Edge, HasMembers, Closed;
    var m := p.manifest;
    forall q | q in ManifestQueues(m) ensures q in Queues(c, s) {
      if i :| 0 <= i < |m.roots| && m.roots[i].0 == q {
        RootOfManifest(c, roots, s, p, i);
      } else {
        var i, j :| 0 <= i < |m.parents| && 0 <= j < |m.parents[i].targets| && m.parents[i].targets[j].0 == q;
        TargetOfManifest(c, roots, s, p, i, j);
      }
    }
    forall q | q in Queues(c, s) ensures q in ManifestQueues(m) {
      var b :| b in s && b in c.canonical && c.canonical[b].queue == q;
      NodeInManifest(c, roots, s, p, b);
      QueueNamed(m, NodeOf(c, b));
    }
  }

  predicate InManifest(m: Manifest, node: Node) {
    node in m.roots || exists i :: 0 <= i < |m.parents| && node in m.parents[i].targets
  }

  lemma QueueNamed(m: Manifest, node: Node)
    requires InManifest(m, node)
    ensures node.0 in ManifestQueues(m)
  {
    if node in m.roots {
      var i :| 0 <= i < |m.roots| && m.roots[i] == node;
    } else {
      var i :| 0 <= i < |m.parents| && node in m.parents[i].targets;
      var j :| 0 <= j < |m.parents[i].targets| && m.parents[i].targets[j] == node;
    }
  }

  lemma RootOfManifest(c: Catalog, roots: set<string>, s: set<string>, p: Policy, i: nat)
    requires Compiled(c, roots, s, p) && i < |p.manifest.roots|
    ensures var node := p.manifest.roots[i]; node.1 in s && node.1 in c.canonical && node == NodeOf(c, node.1)
  {
    hide PairLe, StringLe, Sorted, ParentEntry;
    assert p.manifest.roots[i] in Elements(p.manifest.roots);
  }

  lemma TargetOfManifest(c: Catalog, roots: set<string>, s: set<string>, p: Policy, i: nat, j: nat)
    requires Compiled(c, roots, s, p) && i < |p.manifest.parents| && j < |p.manifest.parents[i].targets|
    ensures var node := p.manifest.parents[i].targets[j]; node.1 in s && node.1 in c.canonical && node == NodeOf(c, node.1)
  {
    hide PairLe, StringLe, Sorted, HasMembers, Edge;
    var parent := p.manifest.parents[i];
    assert ParentEntry(c, parent) && ParentNodes(p.manifest.parents)[i] in Elements(ParentNodes(p.manifest.parents));
    assert parent.targets[j] in Elements(parent.targets);
    var b :| b in c.canonical && Edge(c, parent.node.1, b) && NodeOf(c, b) == parent.targets[j];
    assert Closed(c, s);
  }

  lemma EdgeHasMembers(c: Catalog, a: string, b: string)
    requires Edge(c, a, b)
    ensures HasMembers(c.canonical[a])
  {
  }

  /** Every task of the closure is a node of the manifest. */
  lemma NodeInManifest(c: Catalog, roots: set<string>, s: set<string>, p: Policy, b: string)
    requires Compiled(c, roots, s, p) && b in s
    ensures b in c.canonical && InManifest(p.manifest, NodeOf(c, b))
  {
    hide PairLe, StringLe, Sorted, HasMembers, Edge, Closed;
    ClosureIsReached(c, roots, s, b);
    var m := p.manifest;
    if b in roots {
      assert NodeOf(c, b) in Nodes(c, roots);
      assert NodeOf(c, b) in Elements(m.roots);
    } else {
      var a :| a in s && Edge(c, a, b);
      EdgeHasMembers(c, a, b);
      assert a in c.canonical;
      var nodes := set n | n in s && n in c.canonical && HasMembers(c.canonical[n]) :: NodeOf(c, n);
      assert NodeOf(c, a) in nodes && nodes == Elements(ParentNodes(m.parents));
      var i :| 0 <= i < |m.parents| && ParentNodes(m.parents)[i] == NodeOf(c, a);
      assert ParentEntry(c, m.parents[i]) && m.parents[i].node.1 == a;
      assert NodeOf(c, b) in MemberNodes(c, a);
      assert NodeOf(c, b) in Elements(m.parents[i].targets);
    }
  }

  /** A policy compiled from a registry is accepted by it, and by every well-formed registry that keeps its tasks
      and their member edges. */
  lemma CompiledIsAccepted(c: Catalog, roots: set<string>, s: set<string>, p: Policy, d: Catalog)
    requires Compiled(c, roots, s, p) && CatalogOk(d) && GraphOk(d) && Keeps(c, d)
    ensures Accepted(d, p)
  {
    hide CatalogOk, GraphOk, PairLe, StringLe, Sorted, Closure, ParentEntry, EntryRunnable, Edge;
    QueuesOfManifest(c, roots, s, p);
    var m := p.manifest;
    forall i | 0 <= i < |m.roots| ensures Runnable(d, m.roots[i]) {
      RootOfManifest(c, roots, s, p, i);
      CanonicalIsRunnable(d, m.roots[i].1);
      assert NodeOf(d, m.roots[i].1) == m.roots[i];
    }
    forall i | 0 <= i < |m.parents| ensures Canonical(m.parents[i].targets) && EntryRunnable(d, m.parents[i]) {
      EntryStaysRunnable(c, d, m.parents[i]);
    }
  }

  /** `xs` is sorted and without repetition, as tested by sorting it. */
  predicate CanonicalList(xs: seq<Node>) {
    xs == Sort(xs, PairLe) && Distinct(xs)
  }

  lemma CanonicalTest(xs: seq<Node>)
    ensures CanonicalList(xs) <==> Canonical(xs)
  {
    hide PairLe, Sorted, Sort, TotalOrder;
    PairOrder();
    TotalIsPreorder(PairLe);
    SortSorts(xs, PairLe);
    if Sorted(xs, PairLe) { SortedUnique(xs, Sort(xs, PairLe), PairLe); }
  }

  lemma ListingTest(xs: seq<string>, listed: seq<string>, s: set<string>)
    requires Distinct(listed) && Elements(listed) == s
    ensures xs == Sort(listed, StringLe) <==> Listing(xs, s, StringLe)
  {
    hide StringLe, Sorted, Sort, TotalOrder, Preorder, Listing;
    StringOrder();
    TotalIsPreorder(StringLe);
    SortLists(listed, StringLe);
    if Listing(xs, s, StringLe) { ListingUnique(xs, Sort(listed, StringLe), s, StringLe); }
  }

  /** Whether a retained policy can run on the live registry. */
  method Validate(registry: TaskRegistry, p: Policy) returns (ok: bool)
    ensures ok <==> Accepted(registry.Contents(), p)
  {
    hide Canonical, CanonicalList, Listing, Runnable, EntryRunnable;
    var m := p.manifest;
    CanonicalTest(m.roots);
    CanonicalTest(ParentNodes(m.parents));
    if p.digest != m || !CanonicalList(m.roots) || !CanonicalList(ParentNodes(m.parents)) {
      return false;
    }
    var c := Catalog(registry.canonical, registry.lookup);
    var reachable: set<string> := {};
    var k := 0;
    while k < |m.roots|
      invariant k <= |m.roots| && forall i :: 0 <= i < k ==> Runnable(c, m.roots[i])
      invariant reachable == set i | 0 <= i < k :: m.roots[i].0
    {
      if !Runnable(c, m.roots[k]) {
        return false;
      }
      reachable := reachable + {m.roots[k].0};
      k := k + 1;
    }
    ghost var ofRoots := reachable;
    k := 0;
    while k < |m.parents|
      invariant k <= |m.parents| && forall i :: 0 <= i < k ==> Canonical(m.parents[i].targets) && EntryRunnable(c, m.parents[i])
      invariant reachable == ofRoots + set i, j | 0 <= i < k && 0 <= j < |m.parents[i].targets| :: m.parents[i].targets[j].0
    {
      var good := ValidateEntry(registry, m.parents[k]);
      if !good {
        return false;
      }
      reachable := reachable + set j | 0 <= j < |m.parents[k].targets| :: m.parents[k].targets[j].0;
      k := k + 1;
    }
    assert reachable == ManifestQueues(m);
    var listed := ListStrings(reachable);
    ListingTest(p.queues, listed, reachable);
    ok := p.queues == Sort(listed, StringLe);
  }

  method ValidateEntry(registry: TaskRegistry, p: PolicyParent) returns (ok: bool)
    ensures ok <==> Canonical(p.targets) && EntryRunnable(registry.Contents(), p)
  {
    hide Canonical, CanonicalList, Runnable, LiveEdge;
    var c := Catalog(registry.canonical, registry.lookup);
    var registered := Runnable(c, p.node);
    if !registered {
      return false;
    }
    assert p.node.1 in c.lookup by { RunnableIsNamed(c, p.node); }
    var parent := registry.lookup[p.node.1];
    CanonicalTest(p.targets);
    if !CanonicalList(p.targets) {
      return false;
    }
    var known, live := LiveEdges(registry, parent);
    if !known {
      return false;
    }
    var k := 0;
    while k < |p.targets|
      invariant k <= |p.targets| && forall i :: 0 <= i < k ==> Runnable(c, p.targets[i]) && LiveEdge(c, parent, p.targets[i])
    {
      if !Runnable(c, p.targets[k]) || p.targets[k] !in live {
        return false;
      }
      k := k + 1;
    }
    ok := true;
  }

  lemma RunnableIsNamed(c: Catalog, node: Node)
    requires Runnable(c, node)
    ensures node.1 in c.lookup
  {
  }

  /** The member edges the live registry declares for a task. */
  method LiveEdges(registry: TaskRegistry, parent: Task) returns (known: bool, live: set<Node>)
    ensures known <==> forall i :: 0 <= i < |parent.targets| ==> parent.targets[i].jobType in registry.lookup
    ensures known ==> forall node :: node in live <==> LiveEdge(registry.Contents(), parent, node)
  {
    ghost var c := registry.Contents();
    live := {};
    var k := 0;
    while k < |parent.targets|
      invariant k <= |parent.targets|
      invariant forall i :: 0 <= i < k ==> parent.targets[i].jobType in registry.lookup
      invariant forall node :: node in live <==>
        exists i :: 0 <= i < k && ForMembers(parent.targets[i]) && parent.targets[i].jobType in c.lookup && Identity(c, parent.targets[i]) == node
    {
      var t := parent.targets[k];
      if t.jobType !in registry.lookup {
        return false, live;
      }
      if ForMembers(t) {
        live := live + {(t.queue, registry.lookup[t.jobType].name)};
      }
      k := k + 1;
    }
    known := true;
  }

  // ---- enforcing a policy --------------------------------------------------------------------

  /** The targets of the first entry for a node. */
  function Allowed(parents: seq<PolicyParent>, node: Node): seq<Node> {
    if parents == [] then [] else if parents[0].node == node then parents[0].targets else Allowed(parents[1..], node)
  }

  /** Member follow-ups are checked against the claimed policy; the others pass. */
  function Enforce(parent: Task, fs: seq<Followup>, policy: Option<Policy>): Result<seq<Followup>, Error> {
    if !exists f :: f in fs && f.member then Ok(fs)
    else if policy.None? then Err(Validation("workflow member followups require a continuation policy"))
    else if forall f :: f in fs && f.member ==> (QueueOf(f, parent), f.jobType) in Allowed(policy.value.manifest.parents, TaskNode(parent)) then Ok(fs)
    else Err(Validation("followup target is absent from the claimed continuation policy"))
  }

  lemma {:induction false} AllowedIsListed(m: Manifest, parents: seq<PolicyParent>, node: Node, target: Node)
    requires target in Allowed(parents, node) && forall q :: q in parents ==> q in m.parents
    ensures InManifest(m, target)
  {
    if parents[0].node == node {
      assert parents[0] in parents && parents[0] in m.parents;
    } else {
      AllowedIsListed(m, parents[1..], node, target);
    }
  }

  /** What passes the enforcer stays inside the policy: each member follow-up is a node of the manifest, on a queue
      the policy lists. */
  lemma EnforcedStaysInside(d: Catalog, p: Policy, parent: Task, fs: seq<Followup>, f: Followup)
    requires Accepted(d, p) && Enforce(parent, fs, Some(p)).Ok? && f in fs && f.member
    ensures InManifest(p.manifest, (QueueOf(f, parent), f.jobType)) && QueueOf(f, parent) in p.queues
  {
    hide Canonical, Runnable, EntryRunnable, Sorted, StringLe, InManifest, ManifestQueues;
    var node := (QueueOf(f, parent), f.jobType);
    AllowedIsListed(p.manifest, p.manifest.parents, TaskNode(parent), node);
    QueueNamed(p.manifest, node);
    assert node.0 in Elements(p.queues);
  }

  /** With distinct entries, the enforcer allows exactly the compiled edges of the parent. */
  lemma AllowedIffEdge(c: Catalog, roots: set<string>, s: set<string>, p: Policy, a: string, target: Node)
    requires Compiled(c, roots, s, p) && a in s
    ensures a in c.canonical
    ensures target in Allowed(p.manifest.parents, NodeOf(c, a)) <==> target in MemberNodes(c, a)
  {
    hide PairLe, StringLe, Sorted, Closed;
    var ps := p.manifest.parents;
    if HasMembers(c.canonical[a]) {
      var nodes := set n | n in s && n in c.canonical && HasMembers(c.canonical[n]) :: NodeOf(c, n);
      assert NodeOf(c, a) in nodes;
      assert NodeOf(c, a) in Elements(ParentNodes(ps));
      var i :| 0 <= i < |ps| && ParentNodes(ps)[i] == NodeOf(c, a);
      AllowedAt(ps, i);
      assert ParentEntry(c, ps[i]) && target in ps[i].targets <==> target in Elements(ps[i].targets);
    } else {
      forall i | 0 <= i < |ps| ensures ps[i].node != NodeOf(c, a) {
        assert ParentEntry(c, ps[i]);
      }
      NoneAllowed(ps, NodeOf(c, a));
    }
  }

  /** Under a compiled policy the enforcer passes a handler's follow-ups, unchanged, exactly when every member among them goes
      along an edge of its task. Without a policy it passes only follow-ups that are no members. */
  lemma EnforcesEdges(c: Catalog, roots: set<string>, s: set<string>, p: Policy, a: string, fs: seq<Followup>)
    requires CatalogOk(c) && Compiled(c, roots, s, p) && a in s
    ensures a in c.canonical
    ensures var parent := c.canonical[a];
            && (Enforce(parent, fs, Some(p)).Ok? <==> forall f :: f in fs && f.member ==> (QueueOf(f, parent), f.jobType) in MemberNodes(c, a))
            && (Enforce(parent, fs, Some(p)).Ok? ==> Enforce(parent, fs, Some(p)).value == fs)
            && Enforce(parent, fs, None) == if exists f :: f in fs && f.member then Err(Validation("workflow member followups require a continuation policy")) else Ok(fs)
  {
    hide MemberNodes, Allowed;
    CompiledNode(c, roots, s, p, a);
    forall node ensures node in Allowed(p.manifest.parents, TaskNode(c.canonical[a])) <==> node in MemberNodes(c, a) {
      AllowedIffEdge(c, roots, s, p, a, node);
    }
  }

  lemma CompiledNode(c: Catalog, roots: set<string>, s: set<string>, p: Policy, a: string)
    requires CatalogOk(c) && Compiled(c, roots, s, p) && a in s
    ensures a in c.canonical && NodeOf(c, a) == TaskNode(c.canonical[a])
  {
  }

  lemma {:induction false} AllowedAt(ps: seq<PolicyParent>, i: nat)
    requires Distinct(ParentNodes(ps)) && i < |ps|
    ensures Allowed(ps, ps[i].node) == ps[i].targets
  {
    if i > 0 {
      assert ParentNodes(ps)[0] != ParentNodes(ps)[i];
      assert ParentNodes(ps[1..]) == ParentNodes(ps)[1..];
      AllowedAt(ps[1..], i - 1);
    }
  }

  lemma {:induction false} NoneAllowed(ps: seq<PolicyParent>, node: Node)
    requires forall i :: 0 <= i < |ps| ==> ps[i].node != node
    ensures Allowed(ps, node) == []
  {
    if ps != [] { NoneAllowed(ps[1..], node); }
  }
}
