/** build_dag: reaching definitions over a flat trace, and why its edges determine every value. */
module Dag {
  import opened EventTrace

  datatype Edge = Edge(src: nat, dst: nat, res: Resource)

  /** Event i is the reaching definition of r at position n. */
  ghost predicate Reaches(events: seq<Event>, i: nat, n: nat, r: Resource)
    requires n <= |events|
  {
    i < n && r in events[i].defs && forall k :: i < k < n ==> r !in events[k].defs
  }

  /** Def-use: dst uses the resource and src is its reaching definition. */
  ghost predicate IsEdge(events: seq<Event>, e: Edge)
  {
    e.dst < |events| && e.res in events[e.dst].uses && Reaches(events, e.src, e.dst, e.res)
  }

  ghost predicate Distinct(edges: seq<Edge>)
  {
    forall i, j :: 0 <= i < j < |edges| ==> edges[i] != edges[j]
  }

  /** lastDef maps exactly the resources defined so far, each to its latest definer. */
  ghost predicate LastDefs(events: seq<Event>, n: nat, lastDef: map<Resource, nat>)
    requires n <= |events|
  {
    (forall r :: r in lastDef ==> Reaches(events, lastDef[r], n, r)) &&
    (forall r, i :: 0 <= i < n && r in events[i].defs ==> r in lastDef)
  }

  /** The inner loop over an event's definitions. */
  method RecordDefs(ev: Event, lastDef: map<Resource, nat>) returns (after: map<Resource, nat>)
    ensures forall r :: r in after <==> r in lastDef || r in ev.defs
    ensures forall r :: r in after ==> after[r] == if r in ev.defs then ev.idx else lastDef[r]
  {
    after := lastDef;
    for i := 0 to |ev.defs|
      invariant forall r :: r in after <==> r in lastDef || r in ev.defs[..i]
      invariant forall r :: r in after ==> after[r] == if r in ev.defs[..i] then ev.idx else lastDef[r]
    {
      after := after[ev.defs[i] := ev.idx];
      assert ev.defs[..i + 1] == ev.defs[..i] + [ev.defs[i]];
    }
    assert ev.defs[..|ev.defs|] == ev.defs;
  }

  /** The inner loop over an event's uses: new edges only, each once. */
  method LinkUses(ev: Event, lastDef: map<Resource, nat>, edges: seq<Edge>, seen: set<Edge>)
    returns (edges': seq<Edge>, seen': set<Edge>)
    requires Distinct(edges) && forall e :: e in seen <==> e in edges
    ensures Distinct(edges') && forall e :: e in seen' <==> e in edges'
    ensures forall e :: e in edges' <==>
      e in edges || (e.dst == ev.idx && e.res in ev.uses && e.res in lastDef && e.src == lastDef[e.res])
  {
    edges', seen' := edges, seen;
    for i := 0 to |ev.uses|
      invariant Distinct(edges') && forall e :: e in seen' <==> e in edges'
      invariant forall e :: e in edges' <==>
        e in edges || (e.dst == ev.idx && e.res in ev.uses[..i] && e.res in lastDef && e.src == lastDef[e.res])
    {
      var use := ev.uses[i];
      assert ev.uses[..i + 1] == ev.uses[..i] + [use];
      if use in lastDef {
        var edge := Edge(lastDef[use], ev.idx, use);
        if edge !in seen' {
          edges' := edges' + [edge];
          seen' := seen' + {edge};
        }
      }
    }
    assert ev.uses[..|ev.uses|] == ev.uses;
  }

  /** The edges are exactly the def-use pairs, each listed once. */
  method BuildDag(events: seq<Event>) returns (edges: seq<Edge>)
    requires Numbered(events)
    ensures Distinct(edges) && forall e :: e in edges <==> IsEdge(events, e)
  {
    edges := [];
    var lastDef: map<Resource, nat> := map[];
    var seen: set<Edge> := {};
    for n := 0 to |events|
      invariant LastDefs(events, n, lastDef)
      invariant Distinct(edges) && forall e :: e in seen <==> e in edges
      invariant forall e :: e in edges <==> IsEdge(events, e) && e.dst < n
    {
      ghost var before := edges;
      edges, seen := LinkUses(events[n], lastDef, edges, seen);
      EdgesInto(events, n, lastDef);
      assert forall e :: e in edges <==> IsEdge(events, e) && e.dst < n + 1;
      ghost var earlier := lastDef;
      lastDef := RecordDefs(events[n], lastDef);
      NextDefs(events, n, earlier, lastDef);
    }
  }

  lemma ReachesUnique(events: seq<Event>, i: nat, j: nat, n: nat, r: Resource)
    requires n <= |events| && Reaches(events, i, n, r) && Reaches(events, j, n, r)
    ensures i == j
  {
  }

  lemma EdgesInto(events: seq<Event>, n: nat, lastDef: map<Resource, nat>)
    requires n < |events| && LastDefs(events, n, lastDef)
    ensures forall e: Edge :: e.dst == n ==>
      (IsEdge(events, e) <==> e.res in events[n].uses && e.res in lastDef && e.src == lastDef[e.res])
  {
    forall e: Edge | e.dst == n && IsEdge(events, e)
      ensures e.res in lastDef && e.src == lastDef[e.res]
    {
      ReachesUnique(events, e.src, lastDef[e.res], n, e.res);
    }
  }

  lemma NextDefs(events: seq<Event>, n: nat, before: map<Resource, nat>, after: map<Resource, nat>)
    requires n < |events| && Numbered(events) && LastDefs(events, n, before)
    requires forall r :: r in after <==> r in before || r in events[n].defs
    requires forall r :: r in after ==> after[r] == if r in events[n].defs then n else before[r]
    ensures LastDefs(events, n + 1, after)
  {
    forall r | r in after ensures Reaches(events, after[r], n + 1, r) {
      if r !in events[n].defs { assert Reaches(events, before[r], n, r); }
    }
  }

  // ---- Meaning ----

  /** What an event computes: the value of one defined resource from the values of its uses. */
  type Semantics<!V> = (nat, seq<V>, Resource) -> V

  /** Value of r before event n under sequential execution. */
  ghost function SeqValue<V>(events: seq<Event>, f: Semantics<V>, init: Resource -> V, n: nat, r: Resource): V
    requires n <= |events|
    decreases n, 1
  {
    if n == 0 then init(r)
    else if r in events[n - 1].defs then SeqOutput(events, f, init, n - 1, r)
    else SeqValue(events, f, init, n - 1, r)
  }

  /** What event j writes to r under sequential execution. */
  ghost function SeqOutput<V>(events: seq<Event>, f: Semantics<V>, init: Resource -> V, j: nat, r: Resource): V
    requires j < |events|
    decreases j + 1, 0
  {
    f(j, SeqInputs(events, f, init, j, |events[j].uses|), r)
  }

  ghost function SeqInputs<V>(events: seq<Event>, f: Semantics<V>, init: Resource -> V, j: nat, n: nat): (v: seq<V>)
    requires j < |events| && n <= |events[j].uses|
    ensures |v| == n
    decreases j, 2, n
  {
    if n == 0 then [] else SeqInputs(events, f, init, j, n - 1) + [SeqValue(events, f, init, j, events[j].uses[n - 1])]
  }

  /** An edge from i into j for r, in a list of edges. */
  predicate HasSource(edges: seq<Edge>, i: nat, j: nat, r: Resource)
  {
    Edge(i, j, r) in edges
  }

  /** Value event j reads from r when it looks only at its incoming edge, or at the initial store. */
  ghost function DagValue<V>(events: seq<Event>, edges: seq<Edge>, f: Semantics<V>,
                             init: Resource -> V, j: nat, r: Resource): V
    requires j < |events|
    decreases j, 1
  {
    if exists i :: 0 <= i < j && HasSource(edges, i, j, r) then
      var i :| 0 <= i < j && HasSource(edges, i, j, r);
      DagOutput(events, edges, f, init, i, r)
    else init(r)
  }

  ghost function DagOutput<V>(events: seq<Event>, edges: seq<Edge>, f: Semantics<V>,
                              init: Resource -> V, j: nat, r: Resource): V
    requires j < |events|
    decreases j + 1, 0
  {
    f(j, DagInputs(events, edges, f, init, j, |events[j].uses|), r)
  }

  ghost function DagInputs<V>(events: seq<Event>, edges: seq<Edge>, f: Semantics<V>,
                              init: Resource -> V, j: nat, n: nat): (v: seq<V>)
    requires j < |events| && n <= |events[j].uses|
    ensures |v| == n
    decreases j, 2, n
  {
    if n == 0 then []
    else DagInputs(events, edges, f, init, j, n - 1) + [DagValue(events, edges, f, init, j, events[j].uses[n - 1])]
  }

  /** Sequential values come from the reaching definition, or from the initial store. */
  lemma {:induction false} SeqValueReaches<V>(events: seq<Event>, f: Semantics<V>,
                                              init: Resource -> V, n: nat, r: Resource)
    requires n <= |events|
    ensures forall i :: Reaches(events, i, n, r) ==> SeqValue(events, f, init, n, r) == SeqOutput(events, f, init, i, r)
    ensures (forall i :: 0 <= i < n ==> r !in events[i].defs) ==> SeqValue(events, f, init, n, r) == init(r)
  {
    if n > 0 {
      SeqValueReaches(events, f, init, n - 1, r);
      forall i: nat | Reaches(events, i, n, r)
        ensures SeqValue(events, f, init, n, r) == SeqOutput(events, f, init, i, r)
      {
        if i < n - 1 { assert Reaches(events, i, n - 1, r); }
      }
    }
  }

  lemma {:induction false} SomeReaches(events: seq<Event>, n: nat, r: Resource) returns (i: nat)
    requires n <= |events| && exists k :: 0 <= k < n && r in events[k].defs
    ensures Reaches(events, i, n, r)
  {
    if r in events[n - 1].defs { i := n - 1; } else { i := SomeReaches(events, n - 1, r); }
  }

  /** Replaying every event from its incoming edges alone gives the sequential values. */
  lemma {:induction false} DagGivesSequentialValues<V>(events: seq<Event>, edges: seq<Edge>, f: Semantics<V>,
                                                       init: Resource -> V, j: nat, r: Resource)
    requires j < |events| && r in events[j].uses && forall e :: e in edges <==> IsEdge(events, e)
    ensures DagValue(events, edges, f, init, j, r) == SeqValue(events, f, init, j, r)
    decreases j, 1
  {
    SeqValueReaches(events, f, init, j, r);
    if exists k :: 0 <= k < j && r in events[k].defs {
      var i := SomeReaches(events, j, r);
      assert IsEdge(events, Edge(i, j, r));
      assert HasSource(edges, i, j, r);
      forall k | 0 <= k < j && HasSource(edges, k, j, r) ensures k == i {
        ReachesUnique(events, k, i, j, r);
      }
      OutputsAgree(events, edges, f, init, i, r);
    } else {
      assert forall k: nat :: HasSource(edges, k, j, r) ==> IsEdge(events, Edge(k, j, r));
    }
  }

  lemma {:induction false} OutputsAgree<V>(events: seq<Event>, edges: seq<Edge>, f: Semantics<V>,
                                           init: Resource -> V, j: nat, r: Resource)
    requires j < |events| && forall e :: e in edges <==> IsEdge(events, e)
    ensures DagOutput(events, edges, f, init, j, r) == SeqOutput(events, f, init, j, r)
    decreases j + 1, 0
  {
    InputsAgree(events, edges, f, init, j, |events[j].uses|);
  }

  lemma {:induction false} InputsAgree<V>(events: seq<Event>, edges: seq<Edge>, f: Semantics<V>,
                                          init: Resource -> V, j: nat, n: nat)
    requires j < |events| && n <= |events[j].uses| && forall e :: e in edges <==> IsEdge(events, e)
    ensures DagInputs(events, edges, f, init, j, n) == SeqInputs(events, f, init, j, n)
    decreases j, 2, n
  {
    if n > 0 {
      InputsAgree(events, edges, f, init, j, n - 1);
      DagGivesSequentialValues(events, edges, f, init, j, events[j].uses[n - 1]);
    }
  }
}
