/**
 * A job's flow: named nodes (steps and deciders) and, for each, how the flow
 * leaves it. A job is a walk from the start node that executes each node it
 * visits and follows the route the node's exit token selects.
 */
module Flow {
  import opened Batch

  /**
   * How the flow leaves a node: to one next node when the node completed
   * (`next(...)`), to the node registered for the answered token
   * (`on(token).to(...)`), or nowhere, the flow ending there when the node
   * completed.
   */
  datatype Route<N> = Next(to: N) | On(branches: map<string, N>) | End

  datatype Graph<N> = Graph(start: N, routes: map<N, Route<N>>)

  datatype Resolution<N> = Goto(node: N) | Finish | NoRoute

  /**
   * The transition a route takes for a node's exit token. `next` and the end
   * of the flow are transitions on the exit code COMPLETED only; any other
   * exit code falls through to the builder's fallback, which fails the job.
   */
  function Resolve<N>(route: Route<N>, token: string): (r: Resolution<N>)
    ensures r.Finish? <==> route.End? && token == EXIT_COMPLETED
    ensures r.NoRoute? <==> if route.On? then token !in route.branches else token != EXIT_COMPLETED
    ensures r.Goto? && route.Next? ==> token == EXIT_COMPLETED && r.node == route.to
    ensures r.Goto? && route.On? ==> token in route.branches && r.node == route.branches[token]
  {
    match route
    case Next(to) => if token == EXIT_COMPLETED then Goto(to) else NoRoute
    case On(branches) => if token in branches then Goto(branches[token]) else NoRoute
    case End => if token == EXIT_COMPLETED then Finish else NoRoute
  }

  /** The nodes visited in order, the state they left behind, and the job's status. */
  datatype FlowRun<N, S> = FlowRun(trace: seq<N>, state: S, status: BatchStatus)

  /**
   * Walk from `node`, at most `fuel` nodes. A token no route accepts fails
   * the job; a node without outgoing route that completes completes the job.
   */
  function Walk<N(==), S>(g: Graph<N>, exec: (N, S) -> (S, string), node: N, s: S, fuel: nat): (r: FlowRun<N, S>)
    ensures r.status == COMPLETED || r.status == FAILED
    ensures |r.trace| <= fuel
    ensures fuel > 0 && node in g.routes ==> |r.trace| > 0 && r.trace[0] == node
    ensures forall i :: 0 <= i < |r.trace| ==> r.trace[i] in g.routes
    ensures r.status == COMPLETED ==> |r.trace| > 0 && g.routes[r.trace[|r.trace| - 1]].End?
    decreases fuel
  {
    if fuel == 0 || node !in g.routes then FlowRun([], s, FAILED)
    else
      var (s', token) := exec(node, s);
      match Resolve(g.routes[node], token)
      case Finish => FlowRun([node], s', COMPLETED)
      case NoRoute => FlowRun([node], s', FAILED)
      case Goto(next) =>
        var rest := Walk(g, exec, next, s', fuel - 1);
        FlowRun([node] + rest.trace, rest.state, rest.status)
  }

  /** A launch: walk from the start node, visiting at most as many nodes as the graph declares. */
  function Run<N(==), S>(g: Graph<N>, exec: (N, S) -> (S, string), s: S): FlowRun<N, S>
  {
    Walk(g, exec, g.start, s, |g.routes|)
  }

  /** A node that leaves by `next` or ends the flow, and does not complete, fails the job on the spot. */
  lemma NotCompletedFails<N, S>(g: Graph<N>, exec: (N, S) -> (S, string), node: N, s: S, fuel: nat)
    requires fuel > 0 && node in g.routes && !g.routes[node].On?
    requires exec(node, s).1 != EXIT_COMPLETED
    ensures Walk(g, exec, node, s, fuel) == FlowRun([node], exec(node, s).0, FAILED)
  {
    var r := Resolve(g.routes[node], exec(node, s).1);
    assert r.NoRoute?;
  }
}
