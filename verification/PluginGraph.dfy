/** The plugin dependency graph: validation by colour-marking depth-first search, and what
    validation means for the enable guard that consults the same graph.

    A graph maps every registered plugin name to its declared dependencies.  A dependency need
    not be registered; that is exactly what the first validation pass reports. */
module PluginGraph {

  datatype Manifest = Manifest(name: string, dependencies: seq<string>)

  type Graph = map<string, seq<string>>

  datatype Issue =
    | MissingDependency(plugin: string, dep: string)
    | CircularDependency(plugin: string, cycle: seq<string>)

  // ---------------------------------------------------------------- walks and cycles

  predicate Edge(g: Graph, u: string, v: string) {
    u in g && v in g && v in g[u]
  }

  predicate IsWalk(g: Graph, p: seq<string>) {
    && p != []
    && (forall i :: 0 <= i < |p| ==> p[i] in g)
    && (forall i :: 0 <= i < |p| - 1 ==> Edge(g, p[i], p[i + 1]))
  }

  predicate IsCycle(g: Graph, c: seq<string>) {
    && |c| >= 2
    && IsWalk(g, c)
    && c[0] == c[|c| - 1]
  }

  ghost predicate HasCycle(g: Graph) {
    exists c :: IsCycle(g, c)
  }

  ghost predicate OnCycle(g: Graph, q: string) {
    exists c :: IsCycle(g, c) && c[0] == q
  }

  predicate HasMissing(g: Graph, p: string)
    requires p in g
  {
    exists d :: d in g[p] && d !in g
  }

  // ---------------------------------------------------------------- depth-first search

  datatype Color = White | Gray | Black

  predicate NoCircular(issues: seq<Issue>) {
    forall i :: 0 <= i < |issues| ==> !issues[i].CircularDependency?
  }

  /** A reported cycle is a closed walk of the graph that meets no plugin twice but its first, and whose
      last step leaves the reporting plugin. */
  ghost predicate RealCycle(g: Graph, issue: Issue) {
    issue.CircularDependency? ==>
      && IsCycle(g, issue.cycle)
      && Distinct(issue.cycle[1..])
      && issue.cycle[|issue.cycle| - 2] == issue.plugin
  }

  /** The issue is a cycle closed by the edge from u to v. */
  predicate Closes(issue: Issue, u: string, v: string) {
    issue.CircularDependency? && issue.plugin == u && issue.cycle != [] && issue.cycle[|issue.cycle| - 1] == v
  }

  predicate Reported(issues: seq<Issue>, u: string, v: string) {
    exists i :: 0 <= i < |issues| && Closes(issues[i], u, v)
  }

  /** Some edge of the walk is one that a reported cycle ends with. */
  predicate IsBroken(issues: seq<Issue>, c: seq<string>) {
    exists k :: 0 <= k < |c| - 1 && Reported(issues, c[k], c[k + 1])
  }

  /** Every edge between nodes of the ranked set goes strictly down, but for the reported ones. */
  ghost predicate Descends(g: Graph, done: set<string>, rank: map<string, nat>, issues: seq<Issue>) {
    && done <= rank.Keys
    && forall u, v :: u in done && Edge(g, u, v) && !Reported(issues, u, v) ==> v in done && rank[v] < rank[u]
  }

  lemma {:induction false} WalkDescends(g: Graph, rank: map<string, nat>, issues: seq<Issue>, p: seq<string>)
    requires Descends(g, g.Keys, rank, issues)
    requires IsWalk(g, p) && !IsBroken(issues, p)
    ensures |p| >= 2 ==> rank[p[|p| - 1]] < rank[p[0]]
    decreases |p|
  {
    if |p| >= 2 {
      assert Edge(g, p[0], p[1]);
      var q := p[1..];
      forall i | 0 <= i < |q| - 1 ensures Edge(g, q[i], q[i + 1]) && !Reported(issues, q[i], q[i + 1]) {
        assert Edge(g, p[i + 1], p[i + 2]) && !Reported(issues, p[i + 1], p[i + 2]);
      }
      assert !Reported(issues, p[0], p[1]);
      WalkDescends(g, rank, issues, q);
    }
  }

  /** Without the reported edges the graph has no cycle. */
  lemma ReportsBreakCycles(g: Graph, rank: map<string, nat>, issues: seq<Issue>)
    requires Descends(g, g.Keys, rank, issues)
    ensures forall c :: IsCycle(g, c) ==> IsBroken(issues, c)
  {
    forall c | IsCycle(g, c) ensures IsBroken(issues, c) {
      if !IsBroken(issues, c) {
        WalkDescends(g, rank, issues, c);
      }
    }
  }

  function IndexOf(s: seq<string>, x: string): (k: int)
    ensures x in s ==> 0 <= k < |s| && s[k] == x
    ensures x !in s ==> k == -1
    ensures forall i :: 0 <= i < k ==> s[i] != x
  {
    if s == [] then -1
    else if s[0] == x then 0
    else
      var k := IndexOf(s[1..], x);
      if k < 0 then -1 else k + 1
  }

  function Having(color: map<string, Color>, c: Color): (s: set<string>)
    ensures forall n :: n in s <==> n in color && color[n] == c
  {
    set n | n in color && color[n] == c
  }

  /** The gray nodes are exactly the current path; finished nodes are ranked in finishing order,
      and every edge out of a finished node descends unless it was reported. */
  ghost predicate SearchInv(g: Graph, color: map<string, Color>, issues: seq<Issue>,
                            rank: map<string, nat>, clock: nat, path: seq<string>) {
    && color.Keys == g.Keys
    && (path == [] || IsWalk(g, path)) && Distinct(path)
    && (forall n :: n in color ==> (color[n] == Gray <==> n in path))
    && (forall i :: 0 <= i < |issues| ==> RealCycle(g, issues[i]))
    && (forall n :: n in rank ==> rank[n] < clock)
    && Descends(g, Having(color, Black), rank, issues)
  }

  lemma PathOf(g: Graph, color: map<string, Color>, issues: seq<Issue>,
               rank: map<string, nat>, clock: nat, path: seq<string>)
    requires SearchInv(g, color, issues, rank, clock, path)
    ensures color.Keys == g.Keys && (path == [] || IsWalk(g, path)) && Distinct(path)
    ensures forall n :: n in color && color[n] == White ==> n !in path
    ensures forall n :: n in color && color[n] == Gray ==> n in path
  {
  }

  lemma WalkEnds(g: Graph, path: seq<string>)
    requires IsWalk(g, path)
    ensures path[|path| - 1] in g
  {
  }

  lemma EdgeEnds(g: Graph, u: string, v: string)
    requires Edge(g, u, v)
    ensures u in g && v in g
  {
  }

  lemma ClosedWalkIsReal(g: Graph, issue: Issue)
    requires issue.CircularDependency? && IsCycle(g, issue.cycle) && Distinct(issue.cycle[1..])
    requires issue.cycle[|issue.cycle| - 2] == issue.plugin
    ensures RealCycle(g, issue)
  {
  }

  lemma EnterNode(g: Graph, color: map<string, Color>, issues: seq<Issue>,
                  rank: map<string, nat>, clock: nat, path: seq<string>, node: string)
    requires SearchInv(g, color, issues, rank, clock, path)
    requires node in color && color[node] == White
    requires path == [] || Edge(g, path[|path| - 1], node)
    ensures SearchInv(g, color[node := Gray], issues, rank, clock, path + [node])
    ensures Having(color[node := Gray], Black) == Having(color, Black)
    ensures Having(color[node := Gray], White) == Having(color, White) - {node}
  {
    var p := path + [node];
    forall i | 0 <= i < |p| - 1 ensures Edge(g, p[i], p[i + 1]) {
      if i < |path| - 1 {
        assert Edge(g, path[i], path[i + 1]);
      }
    }
    assert Having(color[node := Gray], Black) == Having(color, Black);
  }

  lemma LeaveNode(g: Graph, color: map<string, Color>, issues: seq<Issue>,
                  rank: map<string, nat>, clock: nat, path: seq<string>, node: string)
    requires SearchInv(g, color, issues, rank, clock, path + [node])
    requires node !in path && node in g
    requires path == [] || IsWalk(g, path)
    requires forall d :: d in g[node] && d in g ==> d in Having(color, Black) || Reported(issues, node, d)
    ensures SearchInv(g, color[node := Black], issues, rank[node := clock], clock + 1, path)
    ensures Having(color[node := Black], Black) == Having(color, Black) + {node}
    ensures Having(color[node := Black], White) == Having(color, White)
  {
    var p := path + [node];
    forall i, j | 0 <= i < j < |path| ensures path[i] != path[j] {
      assert p[i] != p[j];
    }
    assert forall n :: n in p <==> n in path || n == node;
    assert forall d :: Edge(g, node, d) ==> d in Having(color, Black) || Reported(issues, node, d);
  }

  lemma ReportCycle(g: Graph, color: map<string, Color>, issues: seq<Issue>,
                    rank: map<string, nat>, clock: nat, path: seq<string>, issue: Issue)
    requires SearchInv(g, color, issues, rank, clock, path)
    requires issue.CircularDependency? && RealCycle(g, issue)
    ensures SearchInv(g, color, issues + [issue], rank, clock, path)
    ensures issue.cycle != [] && Reported(issues + [issue], issue.plugin, issue.cycle[|issue.cycle| - 1])
  {
    assert Closes((issues + [issue])[|issues|], issue.plugin, issue.cycle[|issue.cycle| - 1]);
    ReportedStays(issues, issues + [issue]);
  }

  lemma ReportedStays(before: seq<Issue>, issues: seq<Issue>)
    requires before <= issues
    ensures forall u, v :: Reported(before, u, v) ==> Reported(issues, u, v)
  {
    forall u, v | Reported(before, u, v) ensures Reported(issues, u, v) {
      var i :| 0 <= i < |before| && Closes(before[i], u, v);
      assert Closes(issues[i], u, v);
    }
  }

  /** issues grew from before by circular reports only. */
  predicate GrewByCircular(before: seq<Issue>, issues: seq<Issue>) {
    && before <= issues
    && forall i :: |before| <= i < |issues| ==> issues[i].CircularDependency?
  }

  /** What every part of the search keeps: nothing finished is revisited, nothing turns white
      again, and only cycle reports are added. */
  predicate Progress(color: map<string, Color>, issues: seq<Issue>,
                     color': map<string, Color>, issues': seq<Issue>) {
    && GrewByCircular(issues, issues')
    && Having(color, Black) <= Having(color', Black)
    && Having(color', White) <= Having(color, White)
  }

  lemma ProgressSelf(color: map<string, Color>, issues: seq<Issue>)
    ensures Progress(color, issues, color, issues)
  {
  }

  lemma ProgressReport(color: map<string, Color>, issues: seq<Issue>, issue: Issue)
    requires issue.CircularDependency?
    ensures Progress(color, issues, color, issues + [issue])
  {
  }

  lemma ProgressThen(color0: map<string, Color>, issues0: seq<Issue>, color1: map<string, Color>, issues1: seq<Issue>,
                     color2: map<string, Color>, issues2: seq<Issue>)
    requires Progress(color0, issues0, color1, issues1) && Progress(color1, issues1, color2, issues2)
    ensures Progress(color0, issues0, color2, issues2)
    ensures forall u, v :: Reported(issues1, u, v) ==> Reported(issues2, u, v)
    ensures forall n :: n in Having(color1, Black) ==> n in Having(color2, Black)
    ensures Having(color2, White) <= Having(color0, White)
  {
    ReportedStays(issues1, issues2);
  }

  /** Entering a node, searching below it and leaving it, taken together. */
  lemma DfsProgress(node: string, color0: map<string, Color>, color1: map<string, Color>, color2: map<string, Color>,
                    color3: map<string, Color>, before: seq<Issue>, issues: seq<Issue>)
    requires Having(color1, Black) == Having(color0, Black) && Having(color1, White) == Having(color0, White) - {node}
    requires Progress(color1, before, color2, issues)
    requires Having(color3, Black) == Having(color2, Black) + {node} && Having(color3, White) == Having(color2, White)
    ensures Progress(color0, before, color3, issues)
  {
  }

  lemma ProgressGrew(color0: map<string, Color>, issues0: seq<Issue>, color1: map<string, Color>, issues1: seq<Issue>)
    requires Progress(color0, issues0, color1, issues1)
    ensures GrewByCircular(issues0, issues1)
  {
  }

  lemma NothingGray(g: Graph, color: map<string, Color>, issues: seq<Issue>, rank: map<string, nat>, clock: nat)
    requires SearchInv(g, color, issues, rank, clock, [])
    ensures forall n :: n in color && color[n] != White ==> n in Having(color, Black)
  {
  }

  /** One run of the search: the colour map and the growing issue list it closes over. */
  class Search {
    const g: Graph
    var color: map<string, Color>
    var issues: seq<Issue>
    ghost var rank: map<string, nat>
    ghost var clock: nat

    constructor (g: Graph, issues: seq<Issue>)
      requires NoCircular(issues)
      ensures this.g == g && this.issues == issues
      ensures Having(color, White) == g.Keys == color.Keys
      ensures Inv([])
    {
      this.g := g;
      this.color := map n | n in g :: White;
      this.issues := issues;
      this.rank := map[];
      this.clock := 0;
    }

    ghost predicate Inv(path: seq<string>)
      reads this
    {
      SearchInv(g, color, issues, rank, clock, path)
    }

    method Dfs(node: string, path: seq<string>)
      requires Inv(path)
      requires node in color && color[node] == White
      requires path == [] || Edge(g, path[|path| - 1], node)
      modifies this
      decreases Having(color, White), 0
      ensures Inv(path) && color.Keys == g.Keys
      ensures node in Having(color, Black)
      ensures Progress(old(color), old(issues), color, issues)
    {
      hide SearchInv, Edge, IsWalk, Progress, Reported, Distinct;
      ghost var color0 := color;
      PathOf(g, color, issues, rank, clock, path);
      EnterNode(g, color, issues, rank, clock, path, node);
      color := color[node := Gray];
      ghost var color1 := color;
      VisitDependencies(node, path + [node]);
      ghost var color2 := color;
      LeaveNode(g, color, issues, rank, clock, path, node);
      color := color[node := Black];
      rank := rank[node := clock];
      clock := clock + 1;
      PathOf(g, color, issues, rank, clock, path);
      DfsProgress(node, color0, color1, color2, color, old(issues), issues);
    }

    lemma Finished()
      requires Inv([]) && forall n :: n in g ==> n in Having(color, Black)
      ensures forall i :: 0 <= i < |issues| ==> RealCycle(g, issues[i])
      ensures Descends(g, g.Keys, rank, issues)
    {
      assert Having(color, Black) == g.Keys;
    }

    /** A search from one name of the index, when it is not finished yet. */
    method Root(name: string, ghost start: map<string, Color>, ghost missing: seq<Issue>)
      requires Inv([]) && name in g && color.Keys == g.Keys
      requires Progress(start, missing, color, issues)
      modifies this
      ensures Inv([]) && color.Keys == g.Keys
      ensures Progress(start, missing, color, issues)
      ensures name in Having(color, Black)
      ensures forall n :: n in old(Having(color, Black)) ==> n in Having(color, Black)
    {
      hide SearchInv, Progress, NoCircular;
      if color[name] == White {
        ghost var colored, before := color, issues;
        Dfs(name, []);
        ProgressThen(start, missing, colored, before, color, issues);
      } else {
        NothingGray(g, color, issues, rank, clock);
      }
    }

    /** The dependency loop of the node at the end of the path. */
    method VisitDependencies(node: string, currentPath: seq<string>)
      requires Inv(currentPath) && currentPath != [] && currentPath[|currentPath| - 1] == node
      modifies this
      decreases Having(color, White), 2
      ensures Inv(currentPath)
      ensures forall d :: d in g[node] && d in g ==> d in Having(color, Black) || Reported(issues, node, d)
      ensures Progress(old(color), old(issues), color, issues)
    {
      hide SearchInv, IsWalk, Progress, Reported, Distinct;
      PathOf(g, color, issues, rank, clock, currentPath);
      WalkEnds(g, currentPath);
      var deps := g[node];
      ProgressSelf(color, issues);
      for i := 0 to |deps|
        invariant Inv(currentPath)
        invariant Progress(old(color), old(issues), color, issues)
        invariant Having(color, White) <= old(Having(color, White))
        invariant forall k :: 0 <= k < i && deps[k] in g ==>
                    deps[k] in Having(color, Black) || Reported(issues, node, deps[k])
      {
        if deps[i] in g {
          ghost var before, colored := issues, color;
          Visit(node, deps[i], currentPath);
          ProgressThen(old(color), old(issues), colored, before, color, issues);
        }
      }
    }

    /** One registered dependency of the node at the end of the path. */
    method Visit(node: string, dep: string, currentPath: seq<string>)
      requires Inv(currentPath) && currentPath != [] && currentPath[|currentPath| - 1] == node
      requires Edge(g, node, dep)
      modifies this
      decreases Having(color, White), 1
      ensures Inv(currentPath)
      ensures dep in Having(color, Black) || Reported(issues, node, dep)
      ensures Progress(old(color), old(issues), color, issues)
    {
      hide SearchInv, IsWalk, Progress, RealCycle, Reported, Distinct;
      PathOf(g, color, issues, rank, clock, currentPath);
      assert dep in g by { EdgeEnds(g, node, dep); }
      if color[dep] == Gray {
        var cycleStart := IndexOf(currentPath, dep);
        assert cycleStart >= 0;
        var cycle := if cycleStart >= 0 then currentPath[cycleStart..] + [dep] else currentPath + [dep];
        var issue := CircularDependency(node, cycle);
        LoopBack(g, currentPath, cycleStart);
        ClosedWalkIsReal(g, issue);
        ReportCycle(g, color, issues, rank, clock, currentPath, issue);
        ProgressReport(color, issues, issue);
        issues := issues + [issue];
      } else if color[dep] == White {
        Dfs(dep, currentPath);
      } else {
        ProgressSelf(color, issues);
      }
    }
  }

  /** Walking back onto the path closes a cycle. */
  lemma LoopBack(g: Graph, path: seq<string>, k: nat)
    requires IsWalk(g, path) && Distinct(path)
    requires k < |path| && Edge(g, path[|path| - 1], path[k])
    ensures IsCycle(g, path[k..] + [path[k]]) && Distinct((path[k..] + [path[k]])[1..])
  {
  }

  class PluginDependencyService {
    const index: Graph
    const names: seq<string>  // key order of the index

    /** Later manifests replace earlier ones of the same name, which keep their key position. */
    constructor (manifests: seq<Manifest>)
      ensures Valid()
      ensures forall n :: n in index <==> exists i :: 0 <= i < |manifests| && manifests[i].name == n
      ensures forall i ::
                && 0 <= i < |manifests|
                && (forall j :: i < j < |manifests| ==> manifests[j].name != manifests[i].name)
                ==> index[manifests[i].name] == manifests[i].dependencies
    {
      var m: Graph, order: seq<string> := map[], [];
      for i := 0 to |manifests|
        invariant Distinct(order) && forall n :: n in order <==> n in m
        invariant forall n :: n in m <==> exists k :: 0 <= k < i && manifests[k].name == n
        invariant forall k :: 0 <= k < i && (forall j :: k < j < i ==> manifests[j].name != manifests[k].name)
                    ==> m[manifests[k].name] == manifests[k].dependencies
      {
        if manifests[i].name !in m {
          order := order + [manifests[i].name];
        }
        m := m[manifests[i].name := manifests[i].dependencies];
      }
      index, names := m, order;
    }

    ghost predicate Valid() {
      Distinct(names) && forall n :: n in names <==> n in index
    }

    lemma NamesAreKeys()
      requires Valid()
      ensures forall n :: n in names <==> n in index
    {
    }

    /** How often a plugin declares a dependency that is not registered. */
    function Missing(p: string, d: string): nat {
      if p in index && d !in index then multiset(index[p])[d] else 0
    }

    /** Pass 1: every dependency that is not registered, as often as the plugin declares it, each with
        that plugin. */
    method MissingDependencies() returns (issues: seq<Issue>)
      requires Valid()
      ensures NoCircular(issues)
      ensures forall p, d :: multiset(issues)[MissingDependency(p, d)] == Missing(p, d)
      ensures forall p, d :: MissingDependency(p, d) in issues <==> p in index && d in index[p] && d !in index
    {
      issues := [];
      for i := 0 to |names|
        invariant NoCircular(issues)
        invariant forall p, d ::
                    multiset(issues)[MissingDependency(p, d)] == if p in names[..i] then Missing(p, d) else 0
      {
        issues := MissingOf(names[i], issues);
        assert names[..i + 1] == names[..i] + [names[i]];
        assert names[i] !in names[..i];
      }
      assert names[..|names|] == names;
      MissingIsMember(issues);
    }

    method MissingOf(name: string, before: seq<Issue>) returns (issues: seq<Issue>)
      requires NoCircular(before) && name in index
      ensures NoCircular(issues)
      ensures forall p, d :: multiset(issues)[MissingDependency(p, d)] ==
                multiset(before)[MissingDependency(p, d)] + if p == name then Missing(name, d) else 0
    {
      issues := before;
      var deps := index[name];
      for j := 0 to |deps|
        invariant NoCircular(issues)
        invariant forall p, d :: multiset(issues)[MissingDependency(p, d)] ==
                    multiset(before)[MissingDependency(p, d)]
                    + if p == name && d !in index then multiset(deps[..j])[d] else 0
      {
        if deps[j] !in index {
          issues := issues + [MissingDependency(name, deps[j])];
        }
        assert deps[..j + 1] == deps[..j] + [deps[j]];
      }
      assert deps[..|deps|] == deps;
    }

    lemma MissingIsMember(issues: seq<Issue>)
      requires forall p, d :: multiset(issues)[MissingDependency(p, d)] == Missing(p, d)
      ensures forall p, d :: MissingDependency(p, d) in issues <==> p in index && d in index[p] && d !in index
    {
      forall p, d ensures MissingDependency(p, d) in issues <==> p in index && d in index[p] && d !in index {
        assert MissingDependency(p, d) in issues <==> multiset(issues)[MissingDependency(p, d)] > 0;
        if p in index && d !in index {
          assert d in index[p] <==> multiset(index[p])[d] > 0;
        }
      }
    }

    method ValidateGraph() returns (issues: seq<Issue>)
      requires Valid()
      ensures forall p, d :: multiset(issues)[MissingDependency(p, d)] == Missing(p, d)
      ensures forall i :: 0 <= i < |issues| ==> RealCycle(index, issues[i])
      ensures forall c :: IsCycle(index, c) ==> IsBroken(issues, c)
      ensures NoCircular(issues) <==> !HasCycle(index)
      ensures issues == [] <==> forall p :: p in index ==> Enableable(index, p)
    {
      hide *;
      issues := MissingDependencies();
      ghost var missing := issues;
      ghost var rank;
      issues, rank := CircularDependencies(issues);
      ReportsAreComplete(missing, issues, rank);
    }

    /** Pass 2: circular dependencies. */
    method CircularDependencies(missing: seq<Issue>) returns (issues: seq<Issue>, ghost rank: map<string, nat>)
      requires Valid() && NoCircular(missing)
      ensures GrewByCircular(missing, issues)
      ensures forall i :: 0 <= i < |issues| ==> RealCycle(index, issues[i])
      ensures Descends(index, index.Keys, rank, issues)
    {
      hide *;
      NamesAreKeys();
      var search := new Search(index, missing);
      ghost var start := search.color;
      ProgressSelf(start, missing);
      for i := 0 to |names|
        invariant search.g == index && search.Inv([]) && search.color.Keys == index.Keys
        invariant fresh(search)
        invariant Progress(start, missing, search.color, search.issues)
        invariant forall k :: 0 <= k < i ==> names[k] in Having(search.color, Black)
      {
        search.Root(names[i], start, missing);
      }
      issues, rank := search.issues, search.rank;
      ProgressGrew(start, missing, search.color, issues);
      search.Finished();
    }

    lemma ReportsAreComplete(missing: seq<Issue>, issues: seq<Issue>, rank: map<string, nat>)
      requires NoCircular(missing) && GrewByCircular(missing, issues)
      requires forall p, d :: MissingDependency(p, d) in missing <==> p in index && d in index[p] && d !in index
      requires forall i :: 0 <= i < |issues| ==> RealCycle(index, issues[i])
      requires Descends(index, index.Keys, rank, issues)
      requires forall p, d :: multiset(missing)[MissingDependency(p, d)] == Missing(p, d)
      ensures forall p, d :: multiset(issues)[MissingDependency(p, d)] == Missing(p, d)
      ensures forall c :: IsCycle(index, c) ==> IsBroken(issues, c)
      ensures NoCircular(issues) <==> !HasCycle(index)
      ensures issues == [] <==> forall p :: p in index ==> Enableable(index, p)
    {
      SameMissing(missing, issues);
      ReportsBreakCycles(index, rank, issues);
      if NoCircular(issues) {
        assert forall u, v :: !Reported(issues, u, v);
      } else {
        var k :| 0 <= k < |issues| && issues[k].CircularDependency?;
        assert RealCycle(index, issues[k]);
      }
      assert forall i :: 0 <= i < |missing| ==> missing[i] == issues[i];
      if issues != [] && missing == [] {
        assert issues[0].CircularDependency?;
      }
      assert issues == [] <==> NoCircular(issues) && missing == [];
      if missing == [] {
        forall p | p in index ensures !HasMissing(index, p) {
          assert forall d :: d in index[p] && d !in index ==> MissingDependency(p, d) in missing;
        }
      } else {
        assert missing[0] in missing;
        assert HasMissing(index, missing[0].plugin);
      }
      SoundIffAllEnableable(index);
    }

    lemma SameMissing(missing: seq<Issue>, issues: seq<Issue>)
      requires GrewByCircular(missing, issues)
      ensures forall p, d ::
                multiset(issues)[MissingDependency(p, d)] == multiset(missing)[MissingDependency(p, d)]
    {
      var rest := issues[|missing|..];
      assert issues == missing + rest;
      forall p, d ensures MissingDependency(p, d) !in rest {
        assert forall i :: 0 <= i < |rest| ==> rest[i] == issues[|missing| + i];
      }
    }

    function GetMissingDeps(plugin: string, enabled: set<string>): (missing: seq<string>)
      ensures forall d :: d in missing <==> plugin in index && d in index[plugin] && d !in enabled
    {
      if plugin !in index then [] else Without(index[plugin], enabled)
    }

    function GetBlockingDependents(plugin: string, enabled: set<string>): (blocking: seq<string>)
      requires Valid()
      ensures forall q :: q in blocking <==> q in index && plugin in index[q] && q in enabled
    {
      DependentsIn(index, names, plugin, enabled)
    }
  }

  function Without(s: seq<string>, xs: set<string>): (r: seq<string>)
    ensures forall d :: d in r <==> d in s && d !in xs
  {
    if s == [] then []
    else (if s[0] in xs then [] else [s[0]]) + Without(s[1..], xs)
  }

  function DependentsIn(g: Graph, names: seq<string>, plugin: string, enabled: set<string>): (r: seq<string>)
    requires forall i :: 0 <= i < |names| ==> names[i] in g
    ensures forall q :: q in r <==> q in names && plugin in g[q] && q in enabled
  {
    if names == [] then []
    else (if plugin in g[names[0]] && names[0] in enabled then [names[0]] else [])
         + DependentsIn(g, names[1..], plugin, enabled)
  }

  // ---------------------------------------------------------------- the toggle guard

  datatype Toggle = Toggle(plugin: string, on: bool)

  /** What one togglePlugin call accepts, given the set of enabled plugins. */
  predicate Accepts(g: Graph, enabled: set<string>, t: Toggle) {
    && t.plugin in g
    && if t.on then forall d :: d in g[t.plugin] ==> d in enabled
       else forall q :: q in g && t.plugin in g[q] ==> q !in enabled
  }

  function Toggled(enabled: set<string>, t: Toggle): set<string> {
    if t.on then enabled + {t.plugin} else enabled - {t.plugin}
  }

  function After(enabled: set<string>, run: seq<Toggle>): set<string> {
    if run == [] then enabled
    else Toggled(After(enabled, run[..|run| - 1]), run[|run| - 1])
  }

  predicate AcceptedRun(g: Graph, enabled: set<string>, run: seq<Toggle>) {
    run != [] ==>
      && AcceptedRun(g, enabled, run[..|run| - 1])
      && Accepts(g, After(enabled, run[..|run| - 1]), run[|run| - 1])
  }

  predicate OnlyEnables(run: seq<Toggle>) {
    forall i :: 0 <= i < |run| ==> run[i].on
  }

  /** Some run of accepted enable calls, from nothing enabled, ends with p enabled. */
  ghost predicate Enableable(g: Graph, p: string) {
    exists run :: OnlyEnables(run) && AcceptedRun(g, {}, run) && p in After({}, run)
  }

  /** p is on or above a cycle or a plugin with an unregistered dependency. */
  ghost predicate Doomed(g: Graph, p: string) {
    exists w :: DoomedBy(g, p, w)
  }

  ghost predicate DoomedBy(g: Graph, p: string, w: seq<string>) {
    && IsWalk(g, w)
    && w[0] == p
    && (HasMissing(g, w[|w| - 1]) || OnCycle(g, w[|w| - 1]))
  }

  /** Doom is inherited from below: a doomed plugin either misses a dependency or depends on a
      doomed one. */
  lemma DoomComesFromBelow(g: Graph, p: string)
    requires Doomed(g, p)
    ensures p in g
    ensures HasMissing(g, p) || exists d :: Edge(g, p, d) && Doomed(g, d)
  {
    var w :| DoomedBy(g, p, w);
    if |w| > 1 {
      var d := w[1];
      assert Edge(g, w[0], w[1]);
      var tail := w[1..];
      forall i | 0 <= i < |tail| - 1 ensures Edge(g, tail[i], tail[i + 1]) {
        assert Edge(g, w[i + 1], w[i + 2]);
      }
      assert DoomedBy(g, d, tail);
    } else if !HasMissing(g, p) {
      var c :| IsCycle(g, c) && c[0] == p;
      var d := c[1];
      assert Edge(g, c[0], c[1]);
      Rotate(g, c);
      assert DoomedBy(g, d, [d]);
    }
  }

  lemma Rotate(g: Graph, c: seq<string>)
    requires IsCycle(g, c)
    ensures IsCycle(g, c[1..] + [c[1]])
    ensures OnCycle(g, c[1])
  {
  }

  /** No toggle run whatever, disables included, ever enables a doomed plugin. */
  lemma {:induction false} DoomedNeverEnabled(g: Graph, run: seq<Toggle>, p: string)
    requires AcceptedRun(g, {}, run)
    requires Doomed(g, p)
    ensures p !in After({}, run)
    decreases |run|
  {
    if run != [] {
      var prefix, t := run[..|run| - 1], run[|run| - 1];
      DoomedNeverEnabled(g, prefix, p);
      if t.on && t.plugin == p {
        DoomComesFromBelow(g, p);
        if HasMissing(g, p) {
          var d :| d in g[p] && d !in g;
          EnabledAreRegistered(g, prefix);
        } else {
          var d :| Edge(g, p, d) && Doomed(g, d);
          DoomedNeverEnabled(g, prefix, d);
        }
      }
    }
  }

  lemma {:induction false} EnabledAreRegistered(g: Graph, run: seq<Toggle>)
    requires AcceptedRun(g, {}, run)
    ensures After({}, run) <= g.Keys
    decreases |run|
  {
    if run != [] {
      EnabledAreRegistered(g, run[..|run| - 1]);
    }
  }

  /** Enable-only runs compose: more plugins enabled never makes an enable call fail. */
  lemma {:induction false} RunsCompose(g: Graph, a: seq<Toggle>, b: seq<Toggle>)
    requires OnlyEnables(a) && OnlyEnables(b)
    requires AcceptedRun(g, {}, a) && AcceptedRun(g, {}, b)
    ensures OnlyEnables(a + b) && AcceptedRun(g, {}, a + b)
    ensures After({}, a + b) == After({}, a) + After({}, b)
    decreases |b|
  {
    if b == [] {
      assert a + b == a;
    } else {
      var b' := b[..|b| - 1];
      RunsCompose(g, a, b');
      assert (a + b)[..|a + b| - 1] == a + b';
      assert (a + b)[|a + b| - 1] == b[|b| - 1];
    }
  }

  lemma {:induction false} EnableAllOf(g: Graph, deps: seq<string>) returns (run: seq<Toggle>)
    requires forall d :: d in deps ==> Enableable(g, d)
    ensures OnlyEnables(run) && AcceptedRun(g, {}, run)
    ensures forall d :: d in deps ==> d in After({}, run)
  {
    if deps == [] {
      run := [];
    } else {
      var rest := EnableAllOf(g, deps[1..]);
      assert Enableable(g, deps[0]);
      var first :| OnlyEnables(first) && AcceptedRun(g, {}, first) && deps[0] in After({}, first);
      RunsCompose(g, rest, first);
      run := rest + first;
    }
  }

  lemma EnableableFromDeps(g: Graph, p: string)
    requires p in g
    requires forall d :: d in g[p] ==> Enableable(g, d)
    ensures Enableable(g, p)
  {
    var run := EnableAllOf(g, g[p]);
    var full := run + [Toggle(p, true)];
    assert full[..|full| - 1] == run;
    assert AcceptedRun(g, {}, full) && OnlyEnables(full);
  }

  predicate Distinct(s: seq<string>) {
    forall i, j :: 0 <= i < j < |s| ==> s[i] != s[j]
  }

  lemma {:induction false} DistinctFits(s: seq<string>, xs: set<string>)
    requires Distinct(s)
    requires forall i :: 0 <= i < |s| ==> s[i] in xs
    ensures |s| <= |xs|
    decreases |s|
  {
    if s != [] {
      var last := s[|s| - 1];
      DistinctFits(s[..|s| - 1], xs - {last});
    }
  }

  /** From a plugin that no run enables, follow dependencies that no run enables: the walk must
      end at an unregistered dependency or bite its own tail. */
  lemma {:induction false} StuckWalkDooms(g: Graph, path: seq<string>)
    requires IsWalk(g, path) && Distinct(path)
    requires !Enableable(g, path[|path| - 1])
    ensures Doomed(g, path[0])
    decreases |g.Keys| - |path|
  {
    DistinctFits(path, g.Keys);
    var p := path[|path| - 1];
    if HasMissing(g, p) {
      assert DoomedBy(g, path[0], path);
    } else {
      if forall d :: d in g[p] ==> Enableable(g, d) {
        EnableableFromDeps(g, p);
      }
      var d :| d in g[p] && !Enableable(g, d);
      assert Edge(g, p, d);
      if d in path {
        var k := IndexOf(path, d);
        LoopBack(g, path, k);
        assert (path[k..] + [path[k]])[0] == d;
        assert OnCycle(g, d);
        assert DoomedBy(g, path[0], path[..k + 1]);
      } else {
        DistinctFits(path + [d], g.Keys);
        StuckWalkDooms(g, path + [d]);
      }
    }
  }

  /** Exact characterisation, plugin by plugin, of what the enable guard can ever reach. */
  lemma EnableableIffNotDoomed(g: Graph, p: string)
    requires p in g
    ensures Enableable(g, p) <==> !Doomed(g, p)
  {
    if Enableable(g, p) {
      var run :| OnlyEnables(run) && AcceptedRun(g, {}, run) && p in After({}, run);
      if Doomed(g, p) {
        DoomedNeverEnabled(g, run, p);
      }
    } else {
      StuckWalkDooms(g, [p]);
    }
  }

  /** The graph has no missing dependency and no cycle if and only if every registered plugin can
      be enabled. */
  lemma SoundIffAllEnableable(g: Graph)
    ensures (!HasCycle(g) && forall p :: p in g ==> !HasMissing(g, p)) <==> forall p :: p in g ==> Enableable(g, p)
  {
    forall p | p in g ensures Enableable(g, p) <==> !Doomed(g, p) {
      EnableableIffNotDoomed(g, p);
    }
    if p :| p in g && HasMissing(g, p) {
      assert DoomedBy(g, p, [p]);
    } else if c :| IsCycle(g, c) {
      assert OnCycle(g, c[0]);
      assert DoomedBy(g, c[0], [c[0]]);
    } else {
      SoundDoomsNothing(g);
    }
  }

  lemma SoundDoomsNothing(g: Graph)
    requires !HasCycle(g) && forall p :: p in g ==> !HasMissing(g, p)
    ensures forall p :: !Doomed(g, p)
  {
  }
}
