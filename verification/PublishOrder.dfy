/** The release orderer of `ci/publish_order.py`: Kahn's algorithm over a sorted
    ready list, proved to print the least topological order. */
module PublishOrder {
  import opened Wrappers
  import opened Text
  import opened Graphs

  /** What each package needs among the packages being published. */
  function DependencyGraph(packages: map<string, seq<string>>): Graph {
    map name | name in packages :: set d | d in packages[name] && d in packages
  }

  ghost predicate Topological(g: Graph, order: seq<string>) {
    Distinct(order) && Elems(order) == g.Keys && DepsFirst(g, order)
  }

  // The order Python gives two lists.
  ghost predicate LexLe(a: seq<string>, b: seq<string>) {
    a <= b || exists k :: FirstDifference(a, b, k) && StrLt(a[k], b[k])
  }

  ghost predicate FirstDifference(a: seq<string>, b: seq<string>, k: int) {
    0 <= k < |a| && k < |b| && a[..k] == b[..k] && a[k] != b[k]
  }

  lemma DependencyGraphClosed(packages: map<string, seq<string>>)
    ensures Closed(DependencyGraph(packages))
  {
  }

  // ----- The loop's bookkeeping -----

  // Everything emitted so far could start a topological order, and no such
  // order can do better.
  ghost predicate LeastPrefix(g: Graph, order: seq<string>) {
    forall o :: Topological(g, o) ==> LexLe(order, o)
  }

  ghost predicate ReadyExactly(incoming: Graph, order: seq<string>, ready: seq<string>) {
    Ascending(ready) &&
    forall x :: x in ready <==> x in incoming && x !in order && incoming[x] == {}
  }

  // What a topological order that starts like ours continues with.
  lemma NextInOrder(g: Graph, order: seq<string>, name: string, o: seq<string>)
    requires order <= o && Topological(g, o) && name in g && name !in order
    ensures |o| > |order|
    ensures o[|order|] in g && o[|order|] !in order && g[o[|order|]] <= Elems(order)
  {
    assert name in Elems(o);
    assert o[..|order|] == order;
    assert forall i :: 0 <= i < |order| ==> order[i] == o[i];
  }

  lemma BeatenStaysBeaten(order: seq<string>, name: string, o: seq<string>, k: int)
    requires FirstDifference(order, o, k) && StrLt(order[k], o[k])
    ensures LexLe(order + [name], o)
  {
    var longer := order + [name];
    assert longer[..k] == order[..k];
    assert FirstDifference(longer, o, k) && StrLt(longer[k], o[k]);
  }

  /** Emitting the least ready package keeps the output the least possible. */
  lemma LeastPrefixStep(g: Graph, order: seq<string>, name: string)
    requires Distinct(order) && DepsFirst(g, order) && LeastPrefix(g, order)
    requires name in g && name !in order
    requires forall x :: x in g && x !in order && g[x] <= Elems(order) ==> StrLe(name, x)
    ensures LeastPrefix(g, order + [name])
  {
    hide Topological, StrLe;
    forall o | Topological(g, o) ensures LexLe(order + [name], o) {
      var longer, n := order + [name], |order|;
      assert LexLe(order, o);
      if k :| FirstDifference(order, o, k) && StrLt(order[k], o[k]) {
        BeatenStaysBeaten(order, name, o, k);
      } else {
        NextInOrder(g, order, name, o);
        assert o[..n] == order;
        if o[n] == name {
          assert longer == o[..n + 1];
        } else {
          assert longer[..n] == order;
          assert FirstDifference(longer, o, n) && StrLt(longer[n], o[n]);
        }
      }
    }
  }

  lemma DepsFirstStep(g: Graph, order: seq<string>, name: string)
    requires Distinct(order) && DepsFirst(g, order)
    requires name in g && name !in order && g[name] <= Elems(order)
    ensures Distinct(order + [name]) && DepsFirst(g, order + [name])
    ensures Elems(order + [name]) == Elems(order) + {name}
  {
    var longer := order + [name];
    forall i | 0 <= i < |longer| ensures longer[i] in g && g[longer[i]] <= Elems(longer[..i]) {
      assert longer[..i] == order[..i];
      assert order[..|order|] == order;
    }
  }

  /** Once nothing is ready, the packages left over are those that reach a cycle. */
  lemma LeftOverReachesCycle(g: Graph, order: seq<string>)
    requires Closed(g) && DepsFirst(g, order)
    requires forall x :: x in g && x !in order ==> !(g[x] <= Elems(order))
    ensures forall x :: x in g ==> (x !in order <==> ReachesCycle(g, x))
  {
    var left := set x | x in g && x !in order;
    forall x | x in left ensures g[x] * left != {} {
      var d :| d in g[x] && d !in Elems(order);
      assert d in g[x] * left;
    }
    forall x | x in g ensures x !in order <==> ReachesCycle(g, x) {
      if x in order { OrderedReachesNoCycle(g, order, x); } else { Trapped(g, left, x); }
    }
  }

  // Every dependency is recorded from both ends.
  ghost predicate Mirrored(incoming: Graph, outgoing: Graph) {
    && incoming.Keys == outgoing.Keys && Closed(outgoing)
    && forall d, n :: d in outgoing && n in incoming ==> (n in outgoing[d] <==> d in incoming[n])
  }

  lemma MirroredStep(incoming: Graph, outgoing: Graph, name: string, d: string)
    requires Mirrored(incoming, outgoing) && name in incoming && d in outgoing
    ensures Mirrored(incoming[name := incoming[name] + {d}], outgoing[d := outgoing[d] + {name}])
  {
  }

  method AddDependencies(names: set<string>, deps: seq<string>, name: string, in0: Graph, out0: Graph)
    returns (incoming: Graph, outgoing: Graph)
    requires name in names && in0.Keys == names && in0[name] == {} && Mirrored(in0, out0)
    ensures incoming == in0[name := set d | d in deps && d in names] && Mirrored(incoming, outgoing)
  {
    incoming, outgoing := in0, out0;
    for i := 0 to |deps|
      invariant incoming.Keys == names && forall n :: n in names && n != name ==> incoming[n] == in0[n]
      invariant incoming[name] == set d | d in deps[..i] && d in names
      invariant Mirrored(incoming, outgoing)
    {
      assert deps[..i + 1] == deps[..i] + [deps[i]];
      if deps[i] in names {
        MirroredStep(incoming, outgoing, name, deps[i]);
        incoming := incoming[name := incoming[name] + {deps[i]}];
        outgoing := outgoing[deps[i] := outgoing[deps[i]] + {name}];
      }
    }
    assert deps[..|deps|] == deps;
  }

  /** The two edge maps: what each package waits for, and who waits for it. */
  method BuildEdges(packages: map<string, seq<string>>) returns (incoming: Graph, outgoing: Graph)
    ensures incoming == DependencyGraph(packages) && Mirrored(incoming, outgoing)
  {
    incoming := map n | n in packages :: {};
    outgoing := map n | n in packages :: {};
    var todo := packages.Keys;
    while todo != {}
      invariant todo <= packages.Keys && incoming.Keys == packages.Keys && Mirrored(incoming, outgoing)
      invariant forall n :: n in packages ==> incoming[n] == if n in todo then {} else DependencyGraph(packages)[n]
    {
      var name :| name in todo;
      incoming, outgoing := AddDependencies(packages.Keys, packages[name], name, incoming, outgoing);
      todo := todo - {name};
    }
  }

  lemma EnterReady(ready: seq<string>, x: string)
    requires Ascending(ready) && x !in ready
    ensures Ascending(Sort(ready + [x]))
    ensures forall y :: y in Sort(ready + [x]) <==> y in ready || y == x
  {
    SortCorrect(ready + [x]);
    assert forall y :: y in Sort(ready + [x]) <==> y in Elems(ready + [x]);
  }

  /** Strikes an emitted package from its dependents, releasing those it was the last hold on. */
  method ReleaseDependents(name: string, dependents: seq<string>, in0: Graph, order: seq<string>, ready0: seq<string>)
    returns (incoming: Graph, ready: seq<string>)
    requires Elems(dependents) <= in0.Keys
    requires ReadyExactly(in0, order, ready0)
    ensures incoming.Keys == in0.Keys
    ensures forall n :: n in in0 ==> incoming[n] == if n in dependents then in0[n] - {name} else in0[n]
    ensures ReadyExactly(incoming, order, ready)
  {
    incoming, ready := in0, ready0;
    for i := 0 to |dependents|
      invariant incoming.Keys == in0.Keys
      invariant forall n :: n in in0 ==> incoming[n] == if n in dependents[..i] then in0[n] - {name} else in0[n]
      invariant ReadyExactly(incoming, order, ready)
    {
      var dependent := dependents[i];
      assert dependent in Elems(dependents);
      assert dependents[..i + 1] == dependents[..i] + [dependent];
      incoming := incoming[dependent := incoming[dependent] - {name}];
      if incoming[dependent] == {} && dependent !in order && dependent !in ready {
        EnterReady(ready, dependent);
        ready := Sort(ready + [dependent]);
      }
    }
    assert dependents[..|dependents|] == dependents;
  }

  // What the ready-list loop keeps true.
  ghost predicate Emitting(g: Graph, incoming: Graph, order: seq<string>, ready: seq<string>) {
    && incoming.Keys == g.Keys
    && (forall n :: n in g ==> incoming[n] == g[n] - Elems(order))
    && Distinct(order) && DepsFirst(g, order) && LeastPrefix(g, order)
    && ReadyExactly(incoming, order, ready)
  }

  // Striking a package from its dependents leaves what each still waits for.
  lemma StruckOut(g: Graph, incoming: Graph, outgoing: Graph, order: seq<string>, name: string, dependents: seq<string>)
    requires Mirrored(g, outgoing) && incoming.Keys == g.Keys && name in g
    requires forall n :: n in g ==> incoming[n] == g[n] - Elems(order)
    requires Elems(dependents) == outgoing[name]
    ensures Elems(dependents) <= g.Keys
    ensures forall n :: n in g ==>
      (if n in dependents then incoming[n] - {name} else incoming[n]) == g[n] - Elems(order + [name])
  {
    assert Elems(order + [name]) == Elems(order) + {name};
    forall n | n in g
      ensures (if n in dependents then incoming[n] - {name} else incoming[n]) == g[n] - Elems(order + [name])
    {
      assert n in dependents <==> n in Elems(dependents);
    }
  }

  lemma PopReady(g: Graph, incoming: Graph, order: seq<string>, ready: seq<string>)
    requires ready != [] && Emitting(g, incoming, order, ready)
    ensures var name := ready[0];
      && name in g && name !in order
      && Distinct(order + [name]) && DepsFirst(g, order + [name]) && LeastPrefix(g, order + [name])
      && Elems(order + [name]) == Elems(order) + {name}
      && ReadyExactly(incoming, order + [name], ready[1..])
  {
    var name := ready[0];
    AscendingTail(ready);
    assert name in ready;
    assert forall x :: x in ready[1..] <==> x in Elems(ready[1..]);
    assert forall x :: x in ready <==> x in Elems(ready);
    forall x | x in g && x !in order && g[x] <= Elems(order) ensures StrLe(name, x) {
      assert incoming[x] == {};
      assert x in ready;
      StrLeTotal(name, name);
    }
    assert incoming[name] == {} && incoming[name] == g[name] - Elems(order);
    forall d | d in g[name] ensures d in Elems(order) {
      assert d !in g[name] - Elems(order);
    }
    DepsFirstStep(g, order, name);
    LeastPrefixStep(g, order, name);
  }

  /** One turn of the loop: emit the least ready package and release its dependents. */
  method EmitNext(ghost g: Graph, in0: Graph, outgoing: Graph, order0: seq<string>, ready0: seq<string>)
    returns (incoming: Graph, order: seq<string>, ready: seq<string>)
    requires ready0 != [] && Emitting(g, in0, order0, ready0) && Mirrored(g, outgoing)
    ensures Emitting(g, incoming, order, ready)
    ensures order == order0 + [ready0[0]] && ready0[0] in g.Keys - Elems(order0)
    ensures Elems(order) == Elems(order0) + {ready0[0]}
  {
    PopReady(g, in0, order0, ready0);
    var name := ready0[0];
    var dependents := SortedOf(outgoing[name]);
    StruckOut(g, in0, outgoing, order0, name, dependents);
    order := order0 + [name];
    incoming, ready := ReleaseDependents(name, dependents, in0, order, ready0[1..]);
  }

  /** The ready-list loop: emits the least ready package until none is ready. */
  method EmitReady(ghost g: Graph, in0: Graph, outgoing: Graph) returns (order: seq<string>)
    requires Closed(g) && in0 == g && Mirrored(g, outgoing)
    ensures Distinct(order) && DepsFirst(g, order) && LeastPrefix(g, order) && Elems(order) <= g.Keys
    ensures forall x :: x in g ==> (x !in order <==> ReachesCycle(g, x))
  {
    var incoming := in0;
    var ready := SortedOf(set n | n in incoming && incoming[n] == {});
    order := [];
    assert forall x :: x in ready <==> x in Elems(ready);
    while ready != []
      invariant Emitting(g, incoming, order, ready)
      decreases g.Keys - Elems(order)
    {
      incoming, order, ready := EmitNext(g, incoming, outgoing, order, ready);
    }
    NothingReady(g, incoming, order);
  }

  lemma NothingReady(g: Graph, incoming: Graph, order: seq<string>)
    requires Closed(g) && Emitting(g, incoming, order, [])
    ensures Elems(order) <= g.Keys && forall x :: x in g ==> (x !in order <==> ReachesCycle(g, x))
  {
    assert forall x :: x in g && x !in order ==> incoming[x] != {};
    LeftOverReachesCycle(g, order);
  }

  /** Release order of the packages, or the packages it cannot be computed for. */
  method ComputeOrder(packages: map<string, seq<string>>) returns (r: Result<seq<string>, seq<string>>)
    ensures r.Ok? <==> Acyclic(DependencyGraph(packages))
    ensures r.Ok? ==> Topological(DependencyGraph(packages), r.value)
    ensures r.Ok? ==> forall o :: Topological(DependencyGraph(packages), o) ==> LexLe(r.value, o)
    ensures r.Err? ==> Ascending(r.error)
    ensures r.Err? ==> forall x :: x in r.error <==> x in packages && ReachesCycle(DependencyGraph(packages), x)
  {
    ghost var g := DependencyGraph(packages);
    var incoming, outgoing := BuildEdges(packages);
    DependencyGraphClosed(packages);
    var order := EmitReady(g, incoming, outgoing);
    assert g.Keys == packages.Keys;
    CompleteOrAcyclic(g, order);
    if |order| != |packages| {
      var missing := SortedOf(packages.Keys - Elems(order));
      assert forall x :: x in missing <==> x in Elems(missing);
      return Err(missing);
    }
    return Ok(order);
  }

  lemma CompleteOrAcyclic(g: Graph, order: seq<string>)
    requires Distinct(order) && Elems(order) <= g.Keys
    requires forall x :: x in g ==> (x !in order <==> ReachesCycle(g, x))
    ensures |order| == |g| <==> Elems(order) == g.Keys
    ensures Elems(order) == g.Keys <==> Acyclic(g)
  {
    AcyclicMeansNoneReaches(g);
    DistinctCount(order);
    if |order| == |g| {
      SubsetSameCount(Elems(order), g.Keys);
    }
    assert forall x :: x in g ==> (x in Elems(order) <==> !ReachesCycle(g, x));
  }

  lemma {:induction false} DistinctCount(xs: seq<string>)
    requires Distinct(xs)
    ensures |Elems(xs)| == |xs|
  {
    if xs != [] {
      DistinctCount(xs[1..]);
      assert xs == [xs[0]] + xs[1..];
      assert Elems(xs) == {xs[0]} + Elems(xs[1..]);
    }
  }

  lemma SubsetSameCount(a: set<string>, b: set<string>)
    requires a <= b && |a| == |b|
    ensures a == b
  {
    assert |b - a| == |b| - |a|;
  }
}
