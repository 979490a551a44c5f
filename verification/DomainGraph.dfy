/** The graph of linked domains, shortest walks in it, and the search that finds them. */
module DomainGraphs {
  import opened Types

  type Walk = seq<string>

  /** `links` connect in both directions. */
  datatype Graph = Graph(domains: set<string>, links: set<(string, string)>)
  {
    predicate Linked(a: string, b: string) {
      (a, b) in links || (b, a) in links
    }

    predicate IsWalk(p: Walk) {
      && |p| >= 1
      && (forall i :: 0 <= i < |p| ==> p[i] in domains)
      && (forall i :: 0 <= i < |p| - 1 ==> Linked(p[i], p[i + 1]))
    }

    predicate Joins(p: Walk, a: string, b: string) {
      IsWalk(p) && p[0] == a && p[|p| - 1] == b
    }

    ghost predicate Reachable(a: string, b: string) {
      exists p :: Joins(p, a, b)
    }

    ghost predicate IsShortest(p: Walk, a: string, b: string) {
      Joins(p, a, b) && forall q :: Joins(q, a, b) ==> |p| <= |q|
    }

    function Neighbours(a: string): set<string> {
      set b | b in domains && Linked(a, b)
    }
  }

  ghost function ShortestOf(g: Graph, p: Walk, a: string, b: string): (q: Walk)
    requires g.Joins(p, a, b)
    ensures g.IsShortest(q, a, b)
    decreases |p|
  {
    if s: Walk :| g.Joins(s, a, b) && |s| < |p| then ShortestOf(g, s, a, b) else p
  }

  /** The number of hops on a shortest walk. */
  ghost function Dist(g: Graph, a: string, b: string): nat
    requires g.Reachable(a, b)
  {
    var p :| g.Joins(p, a, b);
    |ShortestOf(g, p, a, b)| - 1
  }

  lemma {:induction false} DistOfShortest(g: Graph, p: Walk, a: string, b: string)
    requires g.IsShortest(p, a, b)
    ensures g.Reachable(a, b) && Dist(g, a, b) == |p| - 1
  {
  }

  // ---- finding shortest walks

  /** Every walk of at most `n` domains from `source` ends in `known`. */
  ghost predicate Covers(g: Graph, source: string, known: set<string>, n: nat) {
    forall p :: g.IsWalk(p) && p[0] == source && |p| <= n ==> p[|p| - 1] in known
  }

  ghost predicate Closed(g: Graph, done: set<string>, known: set<string>) {
    forall v :: v in done ==> g.Neighbours(v) <= known
  }

  lemma {:induction false} CoversMore(g: Graph, source: string, known: set<string>, more: set<string>, n: nat)
    requires Covers(g, source, known, n) && n >= 1 && known <= more && Closed(g, known, more)
    ensures Covers(g, source, more, n + 1)
  {
    forall p | g.IsWalk(p) && p[0] == source && |p| <= n + 1 ensures p[|p| - 1] in more {
      if |p| == n + 1 {
        var q := p[..n];
        assert g.IsWalk(q) && q[0] == source;
        assert p[n] in g.Neighbours(p[n - 1]);
      }
    }
  }

  lemma {:induction false} ClosedCoversAll(g: Graph, source: string, known: set<string>, p: Walk)
    requires source in known && Closed(g, known, known)
    requires g.IsWalk(p) && p[0] == source
    ensures p[|p| - 1] in known
    decreases |p|
  {
    if |p| > 1 {
      var q := p[..|p| - 1];
      assert g.IsWalk(q);
      ClosedCoversAll(g, source, known, q);
      assert p[|p| - 1] in g.Neighbours(q[|q| - 1]);
    }
  }

  lemma {:induction false} Extend(g: Graph, p: Walk, a: string, b: string, c: string)
    requires g.Joins(p, a, b) && c in g.Neighbours(b)
    ensures g.Joins(p + [c], a, c)
  {
  }

  /** A walk into unknown territory is longer than what is covered. */
  lemma {:induction false} NewIsShortest(g: Graph, source: string, known: set<string>, n: nat, p: Walk, w: string)
    requires Covers(g, source, known, n) && w !in known && g.Joins(p, source, w) && |p| == n + 1
    ensures g.IsShortest(p, source, w)
  {
  }

  ghost predicate PathsOk(g: Graph, source: string, paths: map<string, Walk>) {
    forall t :: t in paths ==> g.IsShortest(paths[t], source, t)
  }

  /** The state of the search between two levels: walks of up to `n` domains are all known. */
  ghost predicate LevelOk(g: Graph, source: string, paths: map<string, Walk>, done: set<string>, frontier: set<string>,
                          n: nat) {
    && n >= 1 && source in paths
    && done !! frontier && paths.Keys == done + frontier && paths.Keys <= g.domains
    && PathsOk(g, source, paths)
    && (forall v :: v in frontier ==> |paths[v]| == n)
    && Covers(g, source, paths.Keys, n)
    && Closed(g, done, paths.Keys)
  }

  lemma {:induction false} FoundIsShortest(g: Graph, source: string, known: set<string>, paths: map<string, Walk>,
                                           v: string, n: nat, w: string)
    requires PathsOk(g, source, paths) && Covers(g, source, known, n) && known <= paths.Keys
    requires v in paths && |paths[v]| == n && w in g.Neighbours(v) - paths.Keys
    ensures g.IsShortest(paths[v] + [w], source, w) && w in g.domains
  {
    Extend(g, paths[v], source, v, w);
    NewIsShortest(g, source, known, n, paths[v] + [w], w);
  }

  /** The unknown neighbours of `v` get the path of `v` and one hop. */
  method Visit(g: Graph, source: string, ghost known: set<string>, paths: map<string, Walk>, v: string, ghost n: nat)
    returns (more: map<string, Walk>)
    requires PathsOk(g, source, paths) && Covers(g, source, known, n) && known <= paths.Keys <= g.domains
    requires v in known && |paths[v]| == n
    ensures PathsOk(g, source, more)
    ensures more.Keys == paths.Keys + g.Neighbours(v) && more.Keys <= g.domains
    ensures forall w :: w in paths ==> more[w] == paths[w]
    ensures forall w :: w in more && w !in paths ==> |more[w]| == n + 1
  {
    var found := g.Neighbours(v) - paths.Keys;
    more := paths + map w | w in found :: paths[v] + [w];
    MapGrows(paths, found, paths[v], more);
    hide Graph.Neighbours, Graph.IsShortest, Covers;
    forall w | w in found ensures g.IsShortest(more[w], source, w) && w in g.domains {
      FoundIsShortest(g, source, known, paths, v, n, w);
    }
  }

  /** The map update on its own. */
  lemma {:induction false} MapGrows(paths: map<string, Walk>, found: set<string>, p: Walk, more: map<string, Walk>)
    requires more == paths + map w | w in found :: p + [w]
    requires found !! paths.Keys
    ensures more.Keys == paths.Keys + found
    ensures forall t :: t in paths ==> more[t] == paths[t]
    ensures forall w :: w in found ==> more[w] == p + [w]
  {
  }

  lemma {:induction false} ClosedVisit(g: Graph, done: set<string>, v: string, known: set<string>, more: set<string>)
    requires Closed(g, done, known) && known <= more && g.Neighbours(v) <= more
    ensures Closed(g, done + {v}, more)
  {
  }

  /** `more` extends `paths` by paths of `n + 1` domains. */
  ghost predicate Extends(paths: map<string, Walk>, more: map<string, Walk>, n: nat) {
    && paths.Keys <= more.Keys
    && (forall v :: v in paths ==> more[v] == paths[v])
    && (forall v :: v in more && v !in paths ==> |more[v]| == n + 1)
  }

  lemma {:induction false} LevelDone(g: Graph, source: string, paths: map<string, Walk>, more: map<string, Walk>,
                                     done: set<string>, frontier: set<string>, n: nat)
    requires LevelOk(g, source, paths, done, frontier, n)
    requires Extends(paths, more, n) && more.Keys <= g.domains && PathsOk(g, source, more)
    requires Closed(g, done + frontier, more.Keys)
    ensures LevelOk(g, source, more, done + frontier, more.Keys - paths.Keys, n + 1)
  {
    CoversMore(g, source, paths.Keys, more.Keys, n);
  }

  method VisitLevel(g: Graph, source: string, ghost paths: map<string, Walk>, found: map<string, Walk>,
                    ghost done: set<string>, ghost frontier: set<string>, ghost settled: set<string>,
                    v: string, ghost n: nat)
    returns (more: map<string, Walk>)
    requires LevelOk(g, source, paths, done, frontier, n) && v in frontier
    requires Extends(paths, found, n) && found.Keys <= g.domains && PathsOk(g, source, found)
    requires Closed(g, settled, found.Keys)
    ensures Extends(paths, more, n) && more.Keys <= g.domains && PathsOk(g, source, more)
    ensures Closed(g, settled + {v}, more.Keys)
  {
    hide Covers, PathsOk, Closed;
    more := Visit(g, source, paths.Keys, found, v, n);
    ClosedVisit(g, settled, v, found.Keys, more.Keys);
  }

  method NextLevel(g: Graph, source: string, paths: map<string, Walk>, ghost done: set<string>, frontier: set<string>,
                   ghost n: nat)
    returns (more: map<string, Walk>)
    requires LevelOk(g, source, paths, done, frontier, n)
    ensures LevelOk(g, source, more, done + frontier, more.Keys - paths.Keys, n + 1)
    ensures paths.Keys <= more.Keys
  {
    hide Covers, PathsOk, Closed;
    more := paths;
    var todo := frontier;
    ghost var settled := done;
    while todo != {}
      invariant todo <= frontier && settled + todo == done + frontier
      invariant Extends(paths, more, n) && more.Keys <= g.domains
      invariant PathsOk(g, source, more)
      invariant Closed(g, settled, more.Keys)
      decreases |todo|
    {
      var v :| v in todo;
      more := VisitLevel(g, source, paths, more, done, frontier, settled, v, n);
      todo, settled := todo - {v}, settled + {v};
    }
    LevelDone(g, source, paths, more, done, frontier, n);
  }

  /** Unit-weight search, level by level, in place of the library's Dijkstra. Which of several
  shortest walks is found is left open. */
  method SingleSourcePaths(g: Graph, source: string) returns (paths: map<string, Walk>)
    requires source in g.domains
    ensures forall t :: t in paths <==> g.Reachable(source, t)
    ensures forall t :: t in paths ==> g.IsShortest(paths[t], source, t)
  {
    paths := map[source := [source]];
    assert g.Joins([source], source, source);
    var done, frontier := {}, {source};
    ghost var n := 1;
    while frontier != {}
      invariant LevelOk(g, source, paths, done, frontier, n)
      decreases g.domains - done
    {
      var more := NextLevel(g, source, paths, done, frontier, n);
      done, frontier, n := done + frontier, more.Keys - paths.Keys, n + 1;
      paths := more;
    }
    forall t | g.Reachable(source, t) ensures t in paths {
      var p :| g.Joins(p, source, t);
      ClosedCoversAll(g, source, paths.Keys, p);
    }
  }

  /** `DomainGraphService`: the graph and the paths from the current domain. */
  class DomainGraphService {
    const domainName: string
    var graph: Graph
    var path: map<string, Walk>
    var source: string

    constructor (domainName: string)
      ensures this.domainName == domainName && path == map[]
    {
      this.domainName := domainName;
      graph, path, source := Graph({}, {}), map[], domainName;
    }

    /** `path` holds a shortest walk to every domain that can be reached, and to no other. */
    ghost predicate Valid()
      reads this
    {
      && (forall t :: t in path <==> graph.Reachable(source, t))
      && (forall t :: t in path ==> graph.IsShortest(path[t], source, t))
    }

    /** `ok` is false when the Java method throws: a link or the current domain is not in the graph. */
    method SetupGraph(routers: set<string>, links: set<(string, string)>, currentRouterName: string) returns (ok: bool)
      modifies this
      ensures ok <==>
        && (forall l :: l in links ==> l.0 in routers && l.1 in routers)
        && (if IsBlank(currentRouterName) then domainName else currentRouterName) in routers
      ensures ok ==> graph == Graph(routers, links) && Valid()
      ensures ok ==> source == if IsBlank(currentRouterName) then domainName else currentRouterName
    {
      var g := Graph(routers, {});
      var todo := links;
      while todo != {}
        invariant todo <= links && g == Graph(routers, links - todo)
        invariant forall l :: l in links - todo ==> l.0 in routers && l.1 in routers
        decreases |todo|
      {
        var l :| l in todo;
        if l.0 !in routers || l.1 !in routers {
          return false;
        }
        g := g.(links := g.links + {l});
        todo := todo - {l};
      }
      assert links - todo == links;
      graph := g;
      var current := currentRouterName;
      if IsBlank(current) {
        current := domainName;
      }
      if current !in routers {
        return false;
      }
      source := current;
      path := SingleSourcePaths(graph, current);
      ok := true;
    }

    function ComputePath(to: string): Walk
      reads this
    {
      if to in path then path[to] else []
    }

    /** Null exactly for an unreachable target, the current domain exactly for itself, and otherwise
    the second domain of a shortest walk. */
    function GetNextDomainName(to: string): (next: Option<string>)
      requires Valid()
      reads this
      ensures next.None? <==> !graph.Reachable(source, to)
      ensures next.Some? ==> (next.value == source <==> to == source)
      ensures next.Some? && to != source ==> IsNextHop(graph, source, to, next.value)
    {
      var p := ComputePath(to);
      if |p| == 0 then None
      else if |p| == 1 then Some(p[0])
      else
        FirstHopLeaves(graph, p, source, to);
        assert IsNextHop(graph, source, to, p[1]);
        Some(p[1])
    }
  }

  /** `next` comes second on some shortest walk from `a` to `b`. */
  ghost predicate IsNextHop(g: Graph, a: string, b: string, next: string) {
    exists p :: g.IsShortest(p, a, b) && |p| >= 2 && p[1] == next
  }

  /** A shortest walk does not stand still, and never has two domains when it has nowhere to go. */
  lemma {:induction false} FirstHopLeaves(g: Graph, p: Walk, a: string, b: string)
    requires g.IsShortest(p, a, b) && |p| >= 2
    ensures p[1] != a && a != b
  {
    if p[1] == a {
      assert g.Joins(p[1..], a, b);
    }
    if a == b {
      assert g.Joins([a], a, b);
    }
  }

  /** One hop along any shortest walk: the next domain is linked to the current one and exactly one
  hop nearer to the target. */
  lemma {:induction false} HopsGetNearer(g: Graph, a: string, b: string, next: string)
    requires IsNextHop(g, a, b, next)
    ensures g.Reachable(a, b) && g.Reachable(next, b) && g.Linked(a, next)
    ensures Dist(g, a, b) == Dist(g, next, b) + 1
  {
    var p :| g.IsShortest(p, a, b) && |p| >= 2 && p[1] == next;
    var rest := p[1..];
    assert g.Joins(rest, next, b);
    forall q | g.Joins(q, next, b) ensures |rest| <= |q| {
      assert g.Joins([a] + q, a, b);
    }
    DistOfShortest(g, p, a, b);
    DistOfShortest(g, rest, next, b);
  }

  lemma {:induction false} DistZero(g: Graph, a: string, b: string)
    requires g.Reachable(a, b)
    ensures Dist(g, a, b) == 0 <==> a == b
  {
    var p :| g.Joins(p, a, b);
    var q := ShortestOf(g, p, a, b);
    DistOfShortest(g, q, a, b);
    if a == b {
      assert g.Joins([a], a, b);
    }
  }

  /** A link leads both ways: each of its ends is one hop from the other. */
  lemma {:induction false} LinksLeadBothWays(g: Graph, a: string, b: string)
    requires (a, b) in g.links && a in g.domains && b in g.domains && a != b
    ensures g.Reachable(a, b) && Dist(g, a, b) == 1 && IsNextHop(g, a, b, b)
    ensures g.Reachable(b, a) && Dist(g, b, a) == 1 && IsNextHop(g, b, a, a)
  {
    OneHop(g, a, b);
    OneHop(g, b, a);
  }

  lemma {:induction false} OneHop(g: Graph, a: string, b: string)
    requires g.Linked(a, b) && a in g.domains && b in g.domains && a != b
    ensures g.Reachable(a, b) && Dist(g, a, b) == 1 && IsNextHop(g, a, b, b)
  {
    var p := [a, b];
    assert g.Joins(p, a, b);
    forall q | g.Joins(q, a, b) ensures |p| <= |q| {
    }
    DistOfShortest(g, p, a, b);
    assert g.IsShortest(p, a, b) && p[1] == b;
  }

  /** Without links nobody else is reached, and a walk never leaves the linked domains. */
  lemma {:induction false} StrangersAreNotReached(g: Graph, a: string, b: string)
    requires a != b && forall l :: l in g.links ==> l.0 != a && l.1 != a
    ensures !g.Reachable(a, b) && !g.Reachable(b, a)
  {
    forall p ensures !g.Joins(p, a, b) && !g.Joins(p, b, a) {
      EndsAreLinked(g, p);
    }
  }

  lemma {:induction false} EndsAreLinked(g: Graph, p: Walk)
    ensures g.IsWalk(p) && |p| >= 2 ==> g.Linked(p[0], p[1]) && g.Linked(p[|p| - 2], p[|p| - 1])
  {
    if g.IsWalk(p) && |p| >= 2 {
      assert g.Linked(p[|p| - 2], p[|p| - 2 + 1]);
    }
  }
}
