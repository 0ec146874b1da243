/** Vertex.DijkstraShortestPath: the single-source search as the code runs it.
    A polled vertex overwrites the distance and predecessor of every
    unvisited neighbour, without comparing against the distance already
    recorded; the priority queue hands out any queued vertex of least
    distance. */
module Dijkstra {
  import opened Wrappers
  import opened Vertices

  /** The weight of the last edge of `adj` that points at `v`. Relaxing an
      adjacency list in order, the last such edge is the one whose weight
      sticks. */
  function LastWeightTo(adj: seq<Edge>, v: string): Option<nat>
  {
    if |adj| == 0 then None
    else if adj[|adj| - 1].target == Some(v) then Some(adj[|adj| - 1].weight)
    else LastWeightTo(adj[..|adj| - 1], v)
  }

  /** `LastWeightTo` finds a weight exactly when some edge points at `v`, and
      the weight it finds is that of an edge pointing at `v` followed by no
      other such edge. */
  lemma {:induction false} LastWeightToWitness(adj: seq<Edge>, v: string)
    ensures LastWeightTo(adj, v).None? <==> forall e :: e in adj ==> e.target != Some(v)
    ensures LastWeightTo(adj, v).Some? ==>
      exists i :: 0 <= i < |adj| && adj[i].target == Some(v) && adj[i].weight == LastWeightTo(adj, v).value
        && forall k :: i < k < |adj| ==> adj[k].target != Some(v)
  {
    if |adj| > 0 {
      var n := |adj| - 1;
      var front := adj[..n];
      assert forall e :: e in adj <==> e in front || e == adj[n];
      if adj[n].target == Some(v) {
        assert adj[n].weight == LastWeightTo(adj, v).value;
      } else {
        LastWeightToWitness(front, v);
        if LastWeightTo(front, v).Some? {
          var i :| 0 <= i < |front| && front[i].target == Some(v) && front[i].weight == LastWeightTo(front, v).value
            && forall k :: i < k < |front| ==> front[k].target != Some(v);
          assert adj[i] == front[i];
          forall k | i < k < |adj|
            ensures adj[k].target != Some(v)
          {
            if k < n {
              assert adj[k] == front[k];
            }
          }
        }
      }
    }
  }

  /** The shape of every graph the builder produces: positive weights, and
      every non-null edge target is another vertex of the graph. */
  ghost predicate Searchable(g: Graph)
  {
    forall v, e :: v in g && e in g[v].adj ==>
      e.weight >= 1 && (e.target.Some? ==> e.target.value in g && e.target.value != v)
  }

  /** `v` was last relaxed from `p`: its distance is the distance of `p` plus
      the weight of the last edge `p -> v`. */
  ghost predicate RelaxedFrom(h: Graph, v: string, p: string)
    requires v in h && p in h
  {
    && h[v].predecessor == Some(p)
    && h[v].distance.Some?
    && h[p].distance.Some?
    && LastWeightTo(h[p].adj, v).Some?
    && h[v].distance.value == h[p].distance.value + LastWeightTo(h[p].adj, v).value
  }

  /** The state a run leaves behind: the source is reached at distance 0 with
      no predecessor, and every other visited vertex was relaxed from a visited
      predecessor. */
  ghost predicate SearchShape(h: Graph, source: string)
  {
    && source in h
    && h[source].visited
    && h[source].distance == Some(0)
    && h[source].predecessor.None?
    && forall v :: v in h && h[v].visited && v != source ==>
         && h[v].predecessor.Some?
         && h[v].predecessor.value in h
         && h[h[v].predecessor.value].visited
         && RelaxedFrom(h, v, h[v].predecessor.value)
  }

  /** The visited vertices are closed under edges. */
  ghost predicate VisitedClosed(h: Graph)
  {
    forall u, e :: u in h && h[u].visited && e in h[u].adj && e.target.Some? ==>
      e.target.value in h && h[e.target.value].visited
  }

  /** `Searchable` depends on nothing but the vertex set and the adjacency
      lists. */
  lemma SearchableFrame(g: Graph, h: Graph)
    requires Searchable(g) && h.Keys == g.Keys
    requires forall v :: v in h ==> h[v].adj == g[v].adj
    ensures Searchable(h)
  {
    forall v, e | v in h && e in h[v].adj
      ensures e.weight >= 1 && (e.target.Some? ==> e.target.value in h && e.target.value != v)
    {
      assert e in g[v].adj;
    }
  }

  /** Following predecessors from a visited vertex strictly lowers the
      distance, so `getShortestPathTo` stops. */
  ghost predicate PredecessorsDescend(h: Graph)
  {
    forall v :: v in h && h[v].visited ==>
      && h[v].distance.Some?
      && (h[v].predecessor.Some? ==>
            && h[v].predecessor.value in h
            && h[h[v].predecessor.value].visited
            && h[h[v].predecessor.value].distance.Some?
            && h[h[v].predecessor.value].distance.value < h[v].distance.value)
  }

  lemma MinimalExists(s: set<string>, d: map<string, nat>)
    requires s != {} && s <= d.Keys
    ensures exists x :: x in s && forall y :: y in s ==> d[x] <= d[y]
  {
    var x :| x in s;
    if s != {x} {
      MinimalExists(s - {x}, d);
      var m :| m in s - {x} && forall y :: y in s - {x} ==> d[m] <= d[y];
      if d[x] <= d[m] {
        assert forall y :: y in s ==> d[x] <= d[y];
      } else {
        assert forall y :: y in s ==> d[m] <= d[y];
      }
    }
  }

  lemma LastWeightToPositive(g: Graph, u: string, v: string)
    requires Searchable(g) && u in g && LastWeightTo(g[u].adj, v).Some?
    ensures LastWeightTo(g[u].adj, v).value >= 1
  {
    LastWeightToWitness(g[u].adj, v);
  }

  lemma LastWeightToStep(adj: seq<Edge>, j: int, v: string)
    requires 0 <= j < |adj|
    ensures LastWeightTo(adj[..j + 1], v)
      == if adj[j].target == Some(v) then Some(adj[j].weight) else LastWeightTo(adj[..j], v)
  {
    assert adj[..j + 1][..j] == adj[..j];
  }

  /** A queued vertex during the relaxation of `u`'s first edges `adj`: either
      already relaxed from `u`, or still relaxed from a polled vertex. */
  ghost predicate Pending(h: Graph, v: string, u: string, du: nat, adj: seq<Edge>, done: set<string>)
    requires v in h
  {
    || (&& h[v].predecessor == Some(u)
        && LastWeightTo(adj, v).Some?
        && h[v].distance == Some(du + LastWeightTo(adj, v).value))
    || (&& h[v].predecessor.Some?
        && h[v].predecessor.value in done
        && h[v].predecessor.value in h
        && RelaxedFrom(h, v, h[v].predecessor.value))
  }

  /** Relaxing `x` leaves every other pending vertex pending. */
  lemma PendingAfterRelax(h: Graph, h': Graph, x: string, v: string, u: string, du: nat,
                          adj: seq<Edge>, adj': seq<Edge>, done: set<string>)
    requires x in h && v in h && v != x && x !in done
    requires x in h' && h' == h[x := h'[x]]
    requires LastWeightTo(adj', v) == LastWeightTo(adj, v)
    requires Pending(h, v, u, du, adj, done)
    ensures Pending(h', v, u, du, adj', done)
  {
  }

  /** What holds while the edges `adj[..j]` of the polled vertex `u` (at
      distance `du`) have been relaxed, starting from state `h` and queue
      `rest`. */
  ghost predicate RelaxInv(g: Graph, h: Graph, h': Graph, rest: set<string>, queue': set<string>,
                           done: set<string>, source: string, u: string, du: nat, j: int)
  {
    && u in g && u in h && 0 <= j <= |g[u].adj|
    && h'.Keys == h.Keys && h'[u] == h[u]
    && (forall v :: v in h' ==> h'[v].name == h[v].name && h'[v].adj == h[v].adj && h'[v].visited == h[v].visited)
    && (forall v :: v in h' && h'[v].visited ==> h'[v] == h[v])
    && rest <= queue' <= h'.Keys && queue' !! done && u !in queue' && source !in queue'
    && (forall v :: v in queue' ==> h'[v].distance.Some? && !h'[v].visited)
    && (forall v :: v in queue' ==> Pending(h', v, u, du, g[u].adj[..j], done))
    && (forall i :: 0 <= i < j && g[u].adj[i].target.Some? ==>
          g[u].adj[i].target.value in done || g[u].adj[i].target.value in queue')
    && (forall v :: v in h' && v !in queue' && v != u && v !in done ==> h'[v] == h[v])
  }

  /** The facts about the state before the polled vertex `u` is relaxed
      that the inner loop relies on. */
  ghost predicate RelaxPre(g: Graph, h: Graph, done: set<string>, source: string, u: string)
  {
    && Searchable(g) && h.Keys == g.Keys && done <= h.Keys
    && (forall v :: v in h ==> (h[v].visited <==> v in done || v == source))
    && source in h && (source in done || source == u)
    && u in g && h[u].adj == g[u].adj
  }

  /** The shared preconditions of one pass of the inner loop. */
  ghost predicate EdgeStepPre(g: Graph, h: Graph, h': Graph, rest: set<string>, queue': set<string>,
                              done: set<string>, source: string, u: string, du: nat, j: int)
  {
    RelaxPre(g, h, done, source, u) && RelaxInv(g, h, h', rest, queue', done, source, u, du, j) && j < |g[u].adj|
  }

  /** The facts one pass of the inner loop starts from; in particular the
      current edge's target, if any, is a vertex. */
  lemma StepFacts(g: Graph, h: Graph, h': Graph, rest: set<string>, queue': set<string>,
                  done: set<string>, source: string, u: string, du: nat, j: int)
    requires RelaxPre(g, h, done, source, u) && RelaxInv(g, h, h', rest, queue', done, source, u, du, j)
    requires j < |g[u].adj|
    ensures EdgeStepPre(g, h, h', rest, queue', done, source, u, du, j)
    ensures g[u].adj[j].target.Some? ==> g[u].adj[j].target.value in h'
  {
    assert g[u].adj[j] in g[u].adj;
  }

  /** A pass over an edge whose target is null or visited changes nothing. */
  lemma SkipEdge(g: Graph, h: Graph, h': Graph, rest: set<string>, queue': set<string>,
                 done: set<string>, source: string, u: string, du: nat, j: nat)
    requires EdgeStepPre(g, h, h', rest, queue', done, source, u, du, j)
    requires g[u].adj[j].target.Some? ==> h'[g[u].adj[j].target.value].visited
    ensures RelaxInv(g, h, h', rest, queue', done, source, u, du, j + 1)
  {
    var adj := g[u].adj;
    var e := adj[j];
    assert e in g[u].adj;
    forall v | v in queue'
      ensures Pending(h', v, u, du, adj[..j + 1], done)
    {
      LastWeightToStep(adj, j, v);
    }
    forall i | 0 <= i < j + 1 && adj[i].target.Some?
      ensures adj[i].target.value in done || adj[i].target.value in queue'
    {
    }
  }

  /** One relaxation step of `computeShortestPaths`: a non-null, unvisited
      target gets distance `du + weight` and predecessor `u`; a null or
      visited target leaves the state as it is. */
  function RelaxEdge(h: Graph, u: string, du: nat, e: Edge): (r: Graph)
    requires e.target.Some? ==> e.target.value in h
    ensures r.Keys == h.Keys
    ensures e.target.Some? && !h[e.target.value].visited ==>
      r[e.target.value] == h[e.target.value].(distance := Some(du + e.weight), predecessor := Some(u))
    ensures forall v :: v in h && (e.target != Some(v) || h[v].visited) ==> r[v] == h[v]
  {
    match e.target
    case None => h
    case Some(x) =>
      if h[x].visited then h
      else h[x := h[x].(distance := Some(du + e.weight), predecessor := Some(u))]
  }

  /** A pass over an edge to an unvisited vertex `x`: `x` gets distance
      `du + weight` and predecessor `u`, and is requeued. */
  method RelaxTarget(g: Graph, ghost h: Graph, h': Graph, ghost rest: set<string>, queue': set<string>,
                     ghost done: set<string>, ghost source: string, u: string, du: nat, j: nat)
    returns (h'': Graph, queue'': set<string>)
    requires EdgeStepPre(g, h, h', rest, queue', done, source, u, du, j)
    requires g[u].adj[j].target.Some? && !h'[g[u].adj[j].target.value].visited
    ensures RelaxInv(g, h, h'', rest, queue'', done, source, u, du, j + 1)
  {
    var e := g[u].adj[j];
    StepFacts(g, h, h', rest, queue', done, source, u, du, j);
    var x := e.target.value;
    h'' := RelaxEdge(h', u, du, e);
    queue'' := queue' + {x};
    RelaxedPending(g, h, h', rest, queue', done, source, u, du, j);
    RelaxedCovered(g, h, h', rest, queue', done, source, u, du, j);
  }

  /** After relaxing the `j`-th edge of `u`, every queued vertex is pending
      for the first `j + 1` edges. */
  lemma RelaxedPending(g: Graph, h: Graph, h': Graph, rest: set<string>, queue': set<string>,
                       done: set<string>, source: string, u: string, du: nat, j: nat)
    requires EdgeStepPre(g, h, h', rest, queue', done, source, u, du, j)
    requires g[u].adj[j].target.Some? && g[u].adj[j].target.value in h'
    requires !h'[g[u].adj[j].target.value].visited
    ensures forall v :: v in queue' + {g[u].adj[j].target.value} ==>
      Pending(RelaxEdge(h', u, du, g[u].adj[j]), v, u, du, g[u].adj[..j + 1], done)
  {
    var adj := g[u].adj;
    var e := adj[j];
    var x := e.target.value;
    var h'' := RelaxEdge(h', u, du, e);
    assert e in g[u].adj;
    forall v | v in queue' + {x}
      ensures Pending(h'', v, u, du, adj[..j + 1], done)
    {
      LastWeightToStep(adj, j, v);
      if v == x {
        assert LastWeightTo(adj[..j + 1], v) == Some(e.weight);
      } else {
        PendingAfterRelax(h', h'', x, v, u, du, adj[..j], adj[..j + 1], done);
      }
    }
  }

  /** After relaxing the `j`-th edge of `u`, the targets of the first
      `j + 1` edges are polled or queued. */
  lemma RelaxedCovered(g: Graph, h: Graph, h': Graph, rest: set<string>, queue': set<string>,
                       done: set<string>, source: string, u: string, du: nat, j: nat)
    requires EdgeStepPre(g, h, h', rest, queue', done, source, u, du, j)
    requires g[u].adj[j].target.Some?
    ensures forall i :: 0 <= i < j + 1 && g[u].adj[i].target.Some? ==>
      g[u].adj[i].target.value in done || g[u].adj[i].target.value in queue' + {g[u].adj[j].target.value}
  {
  }

  /** Facts about a polled vertex `u` that `LoopInv` provides. */
  lemma PolledFacts(g: Graph, h: Graph, queue: set<string>, done: set<string>, source: string, u: string)
    requires LoopInv(g, h, queue, done, source) && u in queue
    ensures u in g && u !in done && h[u].distance.Some? && h[u].adj == g[u].adj
    ensures source in done || source == u
    ensures RelaxPre(g, h, done, source, u)
    ensures RelaxInv(g, h, h, queue - {u}, queue - {u}, done, source, u, h[u].distance.value, 0)
  {
    var adj := g[u].adj;
    assert adj[..0] == [];
    forall v | v in queue - {u}
      ensures Pending(h, v, u, h[u].distance.value, adj[..0], done)
    {
    }
  }

  /** The state after all edges of the polled vertex `u` were relaxed. */
  ghost predicate RelaxDone(g: Graph, h: Graph, h': Graph, queue: set<string>, queue': set<string>,
                            done: set<string>, source: string, u: string)
    requires u in h
  {
    && h'.Keys == h.Keys && h'[u] == h[u]
    && (forall v :: v in h' ==> h'[v].name == h[v].name && h'[v].adj == h[v].adj && h'[v].visited == h[v].visited)
    && (forall v :: v in h' && h'[v].visited ==> h'[v] == h[v])
    && queue - {u} <= queue' <= h'.Keys && queue' !! done && u !in queue'
    && (forall v :: v in queue' ==> h'[v].distance.Some?)
    && (forall v :: v in h' && v != source && (v in done || v in queue' || v == u) ==>
          && h'[v].predecessor.Some? && h'[v].predecessor.value in done + {u} && h'[v].predecessor.value in h'
          && RelaxedFrom(h', v, h'[v].predecessor.value))
    && (u in g ==> forall e :: e in g[u].adj && e.target.Some? ==> e.target.value in done || e.target.value in queue')
    && (forall v :: v in h' && v !in queue' && v != u && v !in done ==> h'[v] == h[v])
  }

  /** The inner loop's invariant at the end of the adjacency list gives the
      postcondition of `RelaxNeighbours`. */
  lemma RelaxFinished(g: Graph, h: Graph, h': Graph, queue: set<string>, queue': set<string>,
                      done: set<string>, source: string, u: string, du: nat)
    requires LoopInv(g, h, queue, done, source) && u in queue && h[u].distance == Some(du)
    requires RelaxInv(g, h, h', queue - {u}, queue', done, source, u, du, |g[u].adj|)
    ensures RelaxDone(g, h, h', queue, queue', done, source, u)
  {
    var adj := g[u].adj;
    assert adj[..|adj|] == adj;
    forall v | v in h' && v != source && (v in done || v in queue' || v == u)
      ensures h'[v].predecessor.Some? && h'[v].predecessor.value in done + {u}
      ensures RelaxedFrom(h', v, h'[v].predecessor.value)
    {
      if v in queue' {
        assert Pending(h', v, u, du, adj, done);
      }
    }
    forall e | e in adj && e.target.Some?
      ensures e.target.value in done || e.target.value in queue'
    {
      var i :| 0 <= i < |adj| && adj[i] == e;
    }
  }

  /** The inner loop of `computeShortestPaths` for the polled vertex `u` at
      distance `du`: every unvisited non-null neighbour gets distance
      `du + weight` and predecessor `u`, and is (re)queued. `done` holds the
      vertices already polled, `rest` the queue without `u`. */
  method RelaxNeighbours(g: Graph, h: Graph, rest: set<string>, ghost done: set<string>, ghost source: string,
                         u: string, du: nat)
    returns (h': Graph, queue': set<string>)
    requires RelaxPre(g, h, done, source, u)
    requires RelaxInv(g, h, h, rest, rest, done, source, u, du, 0)
    ensures RelaxInv(g, h, h', rest, queue', done, source, u, du, |g[u].adj|)
  {
    var adj := g[u].adj;
    h', queue' := h, rest;
    var j := 0;
    while j < |adj|
      invariant RelaxInv(g, h, h', rest, queue', done, source, u, du, j)
    {
      h', queue' := RelaxStep(g, h, h', rest, queue', done, source, u, du, j);
      j := j + 1;
    }
  }

  /** One pass of the inner loop: relax the `j`-th edge of `u` when its
      target is a vertex not yet visited, and skip it otherwise. */
  method RelaxStep(g: Graph, ghost h: Graph, h': Graph, ghost rest: set<string>, queue': set<string>,
                   ghost done: set<string>, ghost source: string, u: string, du: nat, j: nat)
    returns (h'': Graph, queue'': set<string>)
    requires RelaxPre(g, h, done, source, u) && RelaxInv(g, h, h', rest, queue', done, source, u, du, j)
    requires j < |g[u].adj|
    ensures RelaxInv(g, h, h'', rest, queue'', done, source, u, du, j + 1)
  {
    StepFacts(g, h, h', rest, queue', done, source, u, du, j);
    var e := g[u].adj[j];
    if e.target.Some? && !h'[e.target.value].visited {
      h'', queue'' := RelaxTarget(g, h, h', rest, queue', done, source, u, du, j);
    } else {
      SkipEdge(g, h, h', rest, queue', done, source, u, du, j);
      h'', queue'' := h', queue';
    }
  }

  /** Changing visited flags does not disturb the relaxation records. */
  lemma RelaxedFromIgnoresVisited(h: Graph, h': Graph, v: string, p: string)
    requires v in h && p in h && v in h' && p in h'
    requires h'[v].(visited := h[v].visited) == h[v] && h'[p].(visited := h[p].visited) == h[p]
    ensures RelaxedFrom(h', v, p) == RelaxedFrom(h, v, p)
  {
  }

  /** The run changes neither the vertex set nor any name or adjacency list. */
  ghost predicate SameFrame(g: Graph, h: Graph)
  {
    && Searchable(g)
    && h.Keys == g.Keys
    && (forall v :: v in h ==> h[v].name == g[v].name && h[v].adj == g[v].adj)
  }

  /** The visited flags mark the polled vertices and the source; the source
      sits at distance 0 and every queued vertex has a distance. */
  ghost predicate Marks(h: Graph, queue: set<string>, done: set<string>, source: string)
  {
    && source in h
    && queue <= h.Keys && done <= h.Keys && queue !! done
    && (forall v :: v in h ==> (h[v].visited <==> v in done || v == source))
    && (source in done || (queue == {source} && done == {}))
    && h[source].distance == Some(0) && h[source].predecessor.None?
    && (forall v :: v in queue ==> h[v].distance.Some?)
  }

  /** Every polled or queued vertex other than the source was relaxed from a
      polled vertex. */
  ghost predicate RelaxedFromDone(h: Graph, queue: set<string>, done: set<string>, source: string)
  {
    forall v :: v in h && v != source && (v in done || v in queue) ==>
      && h[v].predecessor.Some? && h[v].predecessor.value in done && h[v].predecessor.value in h
      && RelaxedFrom(h, v, h[v].predecessor.value)
  }

  /** Every edge out of a polled vertex leads to a polled or a queued vertex. */
  ghost predicate Frontier(g: Graph, queue: set<string>, done: set<string>)
  {
    forall u, e :: u in done && u in g && e in g[u].adj && e.target.Some? ==>
      e.target.value in done || e.target.value in queue
  }

  /** Vertices neither polled nor queued are as the run found them. */
  ghost predicate Untouched(g: Graph, h: Graph, queue: set<string>, done: set<string>)
  {
    forall v :: v in h && v in g && v !in done && v !in queue ==> h[v] == g[v]
  }

  /** What holds between two polls: `done` is the set of polled vertices,
      `queue` the priority queue. */
  ghost predicate LoopInv(g: Graph, h: Graph, queue: set<string>, done: set<string>, source: string)
  {
    && SameFrame(g, h)
    && Marks(h, queue, done, source)
    && RelaxedFromDone(h, queue, done, source)
    && Frontier(g, queue, done)
    && Untouched(g, h, queue, done)
  }

  /** Marking the polled vertex `u` visited after relaxing its edges
      re-establishes the loop invariant with `u` added to `done`. */
  lemma MarkVisited(g: Graph, h: Graph, hr: Graph, queue: set<string>, queue': set<string>,
                    done: set<string>, source: string, u: string)
    requires LoopInv(g, h, queue, done, source) && u in queue
    requires RelaxDone(g, h, hr, queue, queue', done, source, u)
    ensures LoopInv(g, hr[u := hr[u].(visited := true)], queue', done + {u}, source)
  {
    MarkedFrame(g, h, hr, queue, queue', done, source, u);
    MarkedMarks(g, h, hr, queue, queue', done, source, u);
    MarkedRelaxed(g, h, hr, queue, queue', done, source, u);
    MarkedFrontier(g, h, hr, queue, queue', done, source, u);
  }

  /** The vertex set, names and adjacency lists after the polled vertex is
      marked. */
  lemma MarkedFrame(g: Graph, h: Graph, hr: Graph, queue: set<string>, queue': set<string>,
                    done: set<string>, source: string, u: string)
    requires LoopInv(g, h, queue, done, source) && u in queue
    requires RelaxDone(g, h, hr, queue, queue', done, source, u)
    ensures SameFrame(g, hr[u := hr[u].(visited := true)])
  {
  }

  /** The visited marks, the source and the queue after the polled vertex is
      marked. */
  lemma MarkedMarks(g: Graph, h: Graph, hr: Graph, queue: set<string>, queue': set<string>,
                    done: set<string>, source: string, u: string)
    requires LoopInv(g, h, queue, done, source) && u in queue
    requires RelaxDone(g, h, hr, queue, queue', done, source, u)
    ensures Marks(hr[u := hr[u].(visited := true)], queue', done + {u}, source)
  {
    PolledFacts(g, h, queue, done, source, u);
    var h' := hr[u := hr[u].(visited := true)];
    var done' := done + {u};
    forall v | v in h'
      ensures h'[v].visited <==> v in done' || v == source
    {
      if v != u {
        assert h'[v].visited == h[v].visited;
      }
    }
    assert h'[source] == hr[source].(visited := true) by {
      if source != u {
        assert h[source].visited;
      }
    }
  }

  /** The relaxation records after the polled vertex is marked. */
  lemma MarkedRelaxed(g: Graph, h: Graph, hr: Graph, queue: set<string>, queue': set<string>,
                      done: set<string>, source: string, u: string)
    requires LoopInv(g, h, queue, done, source) && u in queue
    requires RelaxDone(g, h, hr, queue, queue', done, source, u)
    ensures RelaxedFromDone(hr[u := hr[u].(visited := true)], queue', done + {u}, source)
  {
    var h' := hr[u := hr[u].(visited := true)];
    var done' := done + {u};
    forall v | v in h' && v != source && (v in done' || v in queue')
      ensures h'[v].predecessor.Some? && h'[v].predecessor.value in done' && RelaxedFrom(h', v, h'[v].predecessor.value)
    {
      var p := hr[v].predecessor.value;
      RelaxedFromIgnoresVisited(hr, h', v, p);
    }
  }

  /** The frontier and the untouched vertices after the polled vertex is
      marked. */
  lemma MarkedFrontier(g: Graph, h: Graph, hr: Graph, queue: set<string>, queue': set<string>,
                       done: set<string>, source: string, u: string)
    requires LoopInv(g, h, queue, done, source) && u in queue
    requires RelaxDone(g, h, hr, queue, queue', done, source, u)
    ensures Frontier(g, queue', done + {u})
    ensures Untouched(g, hr[u := hr[u].(visited := true)], queue', done + {u})
  {
    PolledFacts(g, h, queue, done, source, u);
  }

  /** One iteration of the main loop once `u` has been polled: relax its
      neighbours, then mark it visited. */
  method PollVertex(g: Graph, h: Graph, queue: set<string>, ghost done: set<string>, ghost source: string, u: string)
    returns (h': Graph, queue': set<string>)
    requires LoopInv(g, h, queue, done, source) && u in queue
    ensures LoopInv(g, h', queue', done + {u}, source)
    ensures h'[u].visited && u !in queue'
  {
    PolledFacts(g, h, queue, done, source, u);
    var du := h[u].distance.value;
    h', queue' := RelaxNeighbours(g, h, queue - {u}, done, source, u, du);
    RelaxFinished(g, h, h', queue, queue', done, source, u, du);
    MarkVisited(g, h, h', queue, queue', done, source, u);
    h' := h'[u := h'[u].(visited := true)];
  }

  /** `computeShortestPaths(source)` on a graph whose visited flags were all
      cleared by `resetGraph`. */
  method ComputeShortestPaths(g: Graph, source: string) returns (h: Graph)
    requires Searchable(g) && source in g
    requires forall v :: v in g ==> !g[v].visited
    ensures h.Keys == g.Keys
    ensures forall v :: v in h ==> h[v].name == g[v].name && h[v].adj == g[v].adj
    ensures SearchShape(h, source)
    ensures VisitedClosed(h)
    ensures forall v :: v in h && !h[v].visited ==> h[v] == g[v]
  {
    h := g;
    h := h[source := h[source].(distance := Some(0))];
    var queue: set<string> := {source};
    h := h[source := h[source].(visited := true, predecessor := None)];
    ghost var done: set<string> := {};
    while queue != {}
      invariant LoopInv(g, h, queue, done, source)
      decreases g.Keys - done
    {
      MinimalExists(queue, map v | v in queue :: h[v].distance.value);
      var u :| u in queue && forall q :: q in queue ==> h[u].distance.value <= h[q].distance.value;
      h, queue := PollVertex(g, h, queue, done, source, u);
      done := done + {u};
    }
    forall v | v in h && h[v].visited && v != source
      ensures h[v].predecessor.Some? && h[v].predecessor.value in h && h[h[v].predecessor.value].visited
      ensures RelaxedFrom(h, v, h[v].predecessor.value)
    {
    }
  }

  /** `getShortestPathTo`: the predecessor chain of `t`, reversed. */
  function ShortestPathTo(h: Graph, t: string): (p: seq<string>)
    requires PredecessorsDescend(h) && t in h && h[t].visited
    ensures |p| >= 1 && p[|p| - 1] == t
    ensures forall i :: 0 <= i < |p| ==> p[i] in h && h[p[i]].visited
    ensures h[p[0]].predecessor.None?
    ensures forall i :: 0 <= i < |p| - 1 ==> h[p[i + 1]].predecessor == Some(p[i])
    decreases h[t].distance.value
  {
    match h[t].predecessor
    case None => [t]
    case Some(q) => ShortestPathTo(h, q) + [t]
  }

  /** The weight of the last edge `u -> v`, 0 when there is none. */
  function EdgeWeight(h: Graph, u: string, v: string): nat
  {
    if u in h then
      match LastWeightTo(h[u].adj, v)
      case Some(w) => w
      case None => 0
    else 0
  }

  /** The summed edge weights along `p`. */
  function PathWeight(h: Graph, p: seq<string>): nat
  {
    if |p| < 2 then 0
    else PathWeight(h, p[..|p| - 1]) + EdgeWeight(h, p[|p| - 2], p[|p| - 1])
  }

  /** A finished run keeps predecessors descending. */
  lemma SearchShapeDescends(h: Graph, source: string)
    requires Searchable(h) && SearchShape(h, source)
    ensures PredecessorsDescend(h)
  {
    forall v | v in h && h[v].visited && h[v].predecessor.Some?
      ensures h[h[v].predecessor.value].distance.value < h[v].distance.value
    {
      LastWeightToPositive(h, h[v].predecessor.value, v);
    }
  }

  /** After a run, the path to a reached target starts at the source and its
      edge weights add up to the target's distance. */
  lemma {:induction false} ShortestPathToFromSource(h: Graph, source: string, t: string)
    requires Searchable(h) && SearchShape(h, source) && t in h && h[t].visited
    ensures PredecessorsDescend(h)
    ensures ShortestPathTo(h, t)[0] == source
    ensures PathWeight(h, ShortestPathTo(h, t)) == h[t].distance.value
    decreases h[t].distance.value
  {
    SearchShapeDescends(h, source);
    var p := ShortestPathTo(h, t);
    if t != source {
      var q := h[t].predecessor.value;
      ShortestPathToFromSource(h, source, q);
      assert p == ShortestPathTo(h, q) + [t];
      assert p[..|p| - 1] == ShortestPathTo(h, q);
      assert p[|p| - 2] == q;
    }
  }

  /** A chain of edges in `g`. */
  ghost predicate EdgeChain(g: Graph, p: seq<string>)
  {
    forall i :: 0 <= i < |p| - 1 ==> p[i] in g && LastWeightTo(g[p[i]].adj, p[i + 1]).Some?
  }

  /** Every vertex reachable from a visited vertex along edges is visited:
      with `VisitedClosed`, a run reaches everything reachable from its
      source. */
  lemma {:induction false} ReachableIsVisited(h: Graph, p: seq<string>)
    requires VisitedClosed(h) && EdgeChain(h, p) && |p| >= 1 && p[0] in h && h[p[0]].visited
    ensures p[|p| - 1] in h && h[p[|p| - 1]].visited
    decreases |p|
  {
    if |p| > 1 {
      ReachableIsVisited(h, p[..|p| - 1]);
      var u, v := p[|p| - 2], p[|p| - 1];
      LastWeightToWitness(h[u].adj, v);
      var i :| 0 <= i < |h[u].adj| && h[u].adj[i].target == Some(v);
      assert h[u].adj[i] in h[u].adj;
    }
  }
}
