/** The dependency check on proposed tasks: a depth-first search over mutable visiting and visited sets. */
module TaskGraph {
  import opened Wrappers

  type Graph = map<string, set<string>>

  datatype Task = Task(id: string, dependencies: seq<string>)

  datatype GraphError = InvalidDependency | Cyclic

  // ----- cycles and orders, independently of the search -----------------------------------

  predicate Closed(g: Graph) {
    forall id, dependency | id in g && dependency in g[id] :: dependency in g
  }

  /** Each task depends on the next one. */
  predicate IsPath(g: Graph, path: seq<string>) {
    && (forall i | 0 <= i < |path| :: path[i] in g)
    && forall i | 0 <= i < |path| - 1 :: path[i + 1] in g[path[i]]
  }

  predicate IsCycle(g: Graph, path: seq<string>) {
    IsPath(g, path) && path != [] && path[0] in g[path[|path| - 1]]
  }

  ghost predicate HasCycle(g: Graph) {
    exists path :: IsCycle(g, path)
  }

  /** Every task comes after all it depends on, and no task comes twice. */
  predicate Topological(g: Graph, order: seq<string>) {
    && (forall i, j | 0 <= i < j < |order| :: order[i] != order[j])
    && forall i | 0 <= i < |order| :: order[i] in g && forall d | d in g[order[i]] :: d in order[..i]
  }

  lemma {:induction false} PathClimbsDown(g: Graph, order: seq<string>, path: seq<string>, i: nat, j: nat)
    requires Topological(g, order) && IsPath(g, path) && path != []
    requires i < |order| && order[i] == path[0] && j < |order| && order[j] == path[|path| - 1]
    ensures j <= i && (|path| > 1 ==> j < i)
    decreases |path|
  {
    if |path| > 1 {
      assert path[1] in order[..i];
      var k :| 0 <= k < i && order[k] == path[1];
      PathClimbsDown(g, order, path[1..], k, j);
    }
  }

  /** A topological order of all tasks rules out every cycle. */
  lemma OrderRulesOutCycles(g: Graph, order: seq<string>)
    requires Topological(g, order) && forall id | id in g :: id in order
    ensures !HasCycle(g)
  {
    forall path | IsCycle(g, path)
      ensures false
    {
      var last := path[|path| - 1];
      var j :| 0 <= j < |order| && order[j] == last;
      assert path[0] in order[..j];
      var i :| 0 <= i < j && order[i] == path[0];
      PathClimbsDown(g, order, path, i, j);
    }
  }

  /** Meeting a task that is still being visited closes a cycle. */
  lemma RevisitIsCycle(g: Graph, stack: seq<string>, id: string)
    requires IsPath(g, stack) && stack != [] && id in stack && id in g[stack[|stack| - 1]]
    ensures HasCycle(g)
  {
    var k :| 0 <= k < |stack| && stack[k] == id;
    assert IsCycle(g, stack[k..]);
  }

  lemma PathGrows(g: Graph, path: seq<string>, id: string)
    requires IsPath(g, path) && id in g && (path != [] ==> id in g[path[|path| - 1]])
    ensures IsPath(g, path + [id])
  {
  }

  lemma OrderGrows(g: Graph, order: seq<string>, id: string)
    requires Topological(g, order) && id in g && id !in order && forall d | d in g[id] :: d in order
    ensures Topological(g, order + [id])
  {
    var grown := order + [id];
    assert grown[..|order|] == order;
    forall i | 0 <= i < |order| ensures forall d | d in g[grown[i]] :: d in grown[..i] {
      assert grown[..i] == order[..i];
    }
  }

  // ----- the search -----------------------------------------------------------------------

  class DependencySearch {
    const graph: Graph
    var visiting: set<string>
    var visited: set<string>
    ghost var stack: seq<string>      // the visiting tasks, outermost first
    ghost var order: seq<string>      // the visited tasks, in the order they were finished

    ghost predicate Valid()
      reads this
    {
      && Closed(graph)
      && visiting <= graph.Keys && visiting !! visited
      && IsPath(graph, stack) && (forall id :: id in visiting <==> id in stack)
      && Topological(graph, order) && (forall id :: id in visited <==> id in order)
    }

    constructor (graph: Graph)
      requires Closed(graph)
      ensures Valid() && this.graph == graph && stack == [] && order == []
    {
      this.graph := graph;
      visiting, visited := {}, {};
      stack, order := [], [];
    }

    /** A refusal exhibits a cycle; otherwise the task is visited and the stack is as it was. */
    method Visit(id: string) returns (ok: bool)
      requires Valid() && id in graph
      requires stack != [] ==> id in graph[stack[|stack| - 1]]
      modifies this
      ensures !ok ==> HasCycle(graph)
      ensures ok ==> Valid() && id in visited && stack == old(stack) && visiting == old(visiting)
      ensures ok ==> old(visited) <= visited
      decreases graph.Keys - visiting
    {
      hide Topological, IsPath, HasCycle;
      assert forall d | d in graph[id] :: d in graph;
      hide Closed;
      if id in visiting {
        RevisitIsCycle(graph, stack, id);
        return false;
      }
      if id in visited {
        return true;
      }
      visiting := visiting + {id};
      ghost var outer := stack;
      PathGrows(graph, outer, id);
      stack := outer + [id];
      assert id in graph.Keys - old(visiting);
      var todo := graph[id];
      while todo != {}
        invariant todo <= graph[id] && Valid()
        invariant stack == old(stack) + [id] && visiting == old(visiting) + {id}
        invariant old(visited) <= visited
        invariant forall d | d in graph[id] - todo :: d in visited
        decreases |todo|
      {
        var dependency :| dependency in todo;
        ok := Visit(dependency);
        if !ok {
          return;
        }
        todo := todo - {dependency};
      }
      Leave(id, outer);
      return true;
    }

    /** The innermost task is finished, after all it depends on. */
    method Leave(id: string, ghost outer: seq<string>)
      requires Valid() && stack == outer + [id] && id !in outer && id in graph && id !in visited
      requires forall d | d in graph[id] :: d in visited
      modifies this
      ensures Valid() && stack == outer && visiting == old(visiting) - {id} && visited == old(visited) + {id}
    {
      hide Topological, HasCycle, Closed;
      assert stack[..|stack| - 1] == outer;
      OrderGrows(graph, order, id);
      visiting := visiting - {id};
      stack := outer;
      visited := visited + {id};
      order := order + [id];
    }
  }

  // ----- the whole check --------------------------------------------------------------------

  function Names(tasks: seq<Task>): set<string> {
    set i | 0 <= i < |tasks| :: tasks[i].id
  }

  /** Task identifiers are numbered by position, so no two are equal. */
  predicate DistinctNames(tasks: seq<Task>) {
    forall i, j | 0 <= i < j < |tasks| :: tasks[i].id != tasks[j].id
  }

  predicate DependenciesOk(task: Task, names: set<string>) {
    task.id !in task.dependencies && forall d | d in task.dependencies :: d in names
  }

  /** A dependency is faulty if it names its own task or none at all. */
  lemma DependenciesExactly(tasks: seq<Task>)
    ensures (exists i | 0 <= i < |tasks| :: !DependenciesOk(tasks[i], Names(tasks))) <==>
              exists task, d :: task in tasks && d in task.dependencies
                                && (d == task.id || forall other | other in tasks :: other.id != d)
  {
    forall d ensures d in Names(tasks) <==> exists other :: other in tasks && other.id == d {
      if d in Names(tasks) {
        var i :| 0 <= i < |tasks| && tasks[i].id == d;
        assert tasks[i] in tasks;
      }
    }
    if i :| 0 <= i < |tasks| && !DependenciesOk(tasks[i], Names(tasks)) {
      assert tasks[i] in tasks;
    }
    if task, d :| task in tasks && d in task.dependencies && (d == task.id || d !in Names(tasks)) {
      var i :| 0 <= i < |tasks| && tasks[i] == task;
      assert !DependenciesOk(tasks[i], Names(tasks));
    }
  }

  function Distinct(dependencies: seq<string>): set<string> { set d | d in dependencies }

  function GraphUpTo(tasks: seq<Task>, n: nat): Graph
    requires n <= |tasks|
  {
    if n == 0 then map[]
    else GraphUpTo(tasks, n - 1)[tasks[n - 1].id := Distinct(tasks[n - 1].dependencies)]
  }

  function GraphOf(tasks: seq<Task>): Graph { GraphUpTo(tasks, |tasks|) }

  lemma {:induction false} GraphHolds(tasks: seq<Task>, n: nat)
    requires n <= |tasks| && DistinctNames(tasks)
    ensures GraphUpTo(tasks, n).Keys == Names(tasks[..n])
    ensures forall i | 0 <= i < n :: GraphUpTo(tasks, n)[tasks[i].id] == Distinct(tasks[i].dependencies)
  {
    if n > 0 {
      GraphHolds(tasks, n - 1);
      assert tasks[..n] == tasks[..n - 1] + [tasks[n - 1]];
      assert Names(tasks[..n]) == Names(tasks[..n - 1]) + {tasks[n - 1].id} by {
        forall id ensures id in Names(tasks[..n]) <==> id in Names(tasks[..n - 1]) + {tasks[n - 1].id} {
          if id == tasks[n - 1].id {
            assert tasks[..n][n - 1].id == id;
          }
          if id in Names(tasks[..n - 1]) {
            var i :| 0 <= i < n - 1 && tasks[..n - 1][i].id == id;
            assert tasks[..n][i].id == id;
          }
        }
      }
      forall i | 0 <= i < n - 1
        ensures tasks[i].id in GraphUpTo(tasks, n - 1)
      {
        assert tasks[..n - 1][i].id == tasks[i].id;
      }
    }
  }

  lemma GraphIsClosed(tasks: seq<Task>)
    requires DistinctNames(tasks)
    requires forall i | 0 <= i < |tasks| :: DependenciesOk(tasks[i], Names(tasks))
    ensures Closed(GraphOf(tasks)) && GraphOf(tasks).Keys == Names(tasks)
  {
    GraphHolds(tasks, |tasks|);
    assert tasks[..|tasks|] == tasks;
    var g := GraphOf(tasks);
    forall id, dependency | id in g && dependency in g[id]
      ensures dependency in g
    {
      var i :| 0 <= i < |tasks| && tasks[i].id == id;
      assert DependenciesOk(tasks[i], Names(tasks));
    }
  }

  /**
   Refused as cyclic exactly when the graph has a cycle; accepted only with a topological order of all
   tasks, which `order` exhibits.
  */
  method CheckDependencies(tasks: seq<Task>) returns (r: Result<(), GraphError>, ghost order: seq<string>)
    requires DistinctNames(tasks)
    ensures r == Err(InvalidDependency) <==>
              exists task, d :: task in tasks && d in task.dependencies
                                && (d == task.id || forall other | other in tasks :: other.id != d)
    ensures r == Err(Cyclic) ==> HasCycle(GraphOf(tasks))
    ensures r.Ok? ==> !HasCycle(GraphOf(tasks))
    ensures r.Ok? ==> Topological(GraphOf(tasks), order) && forall id :: id in order <==> id in Names(tasks)
  {
    order := [];
    var names := Names(tasks);
    DependenciesExactly(tasks);
    for i := 0 to |tasks|
      invariant forall j | 0 <= j < i :: DependenciesOk(tasks[j], names)
    {
      if !DependenciesOk(tasks[i], names) {
        return Err(InvalidDependency), order;
      }
    }
    GraphIsClosed(tasks);
    var graph := GraphOf(tasks);
    var search := new DependencySearch(graph);
    for i := 0 to |tasks|
      invariant search.Valid() && search.stack == []
      invariant forall j | 0 <= j < i :: tasks[j].id in search.visited
    {
      assert tasks[i].id in names;
      var ok := search.Visit(tasks[i].id);
      if !ok {
        return Err(Cyclic), order;
      }
      forall j | 0 <= j < i ensures tasks[j].id in search.visited {
        assert tasks[j].id in search.order;
      }
    }
    order := search.order;
    OrderRulesOutCycles(graph, order);
    return Ok(()), order;
  }
}
