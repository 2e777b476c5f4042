/** Dependency ordering of in-process services: the dependency multigraph and the
    layered topological sort the service manager starts groups from. */
module StartOrder {
  import opened Names

  /** Every service of the process with the names its Dependencies() returns; a service that
      declares none is mapped to the empty list. Names may repeat, may be absent from the
      process and may be the service itself. */
  type Services = map<Name, seq<Name>>

  datatype Order = Groups(groups: seq<seq<Name>>) | CyclicDependency

  /** The dependencies of n that exist in this process; the others are skipped. */
  ghost function Live(services: Services, n: Name): set<Name>
    requires n in services
  {
    set d | d in services[n] && d in services
  }

  // ----- What the sort is for: chains, cycles, longest chains -----

  /** Each element of p depends on the next one. */
  ghost predicate IsChain(services: Services, p: seq<Name>) {
    && |p| > 0
    && (forall i | 0 <= i < |p| :: p[i] in services)
    && (forall i | 0 <= i < |p| - 1 :: p[i + 1] in services[p[i]])
  }

  ghost predicate IsCycle(services: Services, p: seq<Name>) {
    IsChain(services, p) && p[0] in services[p[|p| - 1]]
  }

  ghost predicate Acyclic(services: Services) {
    forall p :: !IsCycle(services, p)
  }

  /** k is the length of the longest chain that starts at n. */
  ghost predicate LongestChain(services: Services, n: Name, k: int) {
    && (exists p :: IsChain(services, p) && p[0] == n && |p| == k)
    && (forall p :: IsChain(services, p) && p[0] == n ==> |p| <= k)
  }

  /** groups lists every service exactly once, in the group numbered by the length of its
      longest dependency chain. Nothing here mentions iteration order or multiplicity. */
  ghost predicate IsStartOrder(services: Services, groups: seq<seq<Name>>) {
    && (forall g | 0 <= g < |groups| :: groups[g] != [] && NoDuplicates(groups[g]))
    && (forall g, n | 0 <= g < |groups| :: n in groups[g] <==> n in services && LongestChain(services, n, g + 1))
    && (forall n | n in services :: exists g | 0 <= g < |groups| :: n in groups[g])
  }

  /** The sort's contract: groups exactly when there is no cycle, the cyclic error exactly when
      there is one, and the groups are the start order. */
  ghost predicate Resolves(services: Services, order: Order) {
    match order
    case Groups(groups) => Acyclic(services) && IsStartOrder(services, groups)
    case CyclicDependency => exists p :: IsCycle(services, p)
  }

  // ----- Layers: the set the sort has processed after k rounds -----

  /** The services whose in-process dependencies are all in done. */
  ghost function Free(services: Services, done: set<Name>): set<Name> {
    set n | n in services && Live(services, n) <= done
  }

  ghost function Layer(services: Services, k: nat): set<Name> {
    if k == 0 then {} else Free(services, Layer(services, k - 1))
  }

  lemma {:induction false} LayerGrows(services: Services, k: nat)
    ensures Layer(services, k) <= Layer(services, k + 1)
  {
    if k > 0 {
      LayerGrows(services, k - 1);
    }
  }

  lemma {:induction false} LayerMonotone(services: Services, j: nat, k: nat)
    requires j <= k
    ensures Layer(services, j) <= Layer(services, k)
    decreases k - j
  {
    if j < k {
      LayerGrows(services, j);
      LayerMonotone(services, j + 1, k);
    }
  }

  lemma {:induction false} LayerFixpoint(services: Services, j: nat, k: nat)
    requires j <= k && Layer(services, j + 1) == Layer(services, j)
    ensures Layer(services, k) == Layer(services, j)
    decreases k - j
  {
    if j < k {
      LayerFixpoint(services, j + 1, k);
    }
  }

  /** A service is processed within k rounds exactly when no chain from it is longer than k. */
  lemma {:induction false} LayerBoundsChains(services: Services, k: nat, n: Name)
    requires n in services
    ensures n in Layer(services, k) <==> forall p :: IsChain(services, p) && p[0] == n ==> |p| <= k
  {
    assert IsChain(services, [n]);
    if k > 0 {
      if n in Layer(services, k) {
        forall p | IsChain(services, p) && p[0] == n ensures |p| <= k {
          if |p| > 1 {
            LayerBoundsChains(services, k - 1, p[1]);
            assert IsChain(services, p[1..]);
          }
        }
      }
      if forall p :: IsChain(services, p) && p[0] == n ==> |p| <= k {
        forall d | d in Live(services, n) ensures d in Layer(services, k - 1) {
          forall q | IsChain(services, q) && q[0] == d ensures |q| <= k - 1 {
            assert IsChain(services, [n] + q);
          }
          LayerBoundsChains(services, k - 1, d);
        }
      }
    }
  }

  lemma {:induction false} LayerGivesLongestChain(services: Services, k: nat, n: Name)
    requires n in services
    ensures n in Layer(services, k + 1) && n !in Layer(services, k) <==> LongestChain(services, n, k + 1)
  {
    LayerBoundsChains(services, k, n);
    LayerBoundsChains(services, k + 1, n);
    if n in Layer(services, k + 1) && n !in Layer(services, k) {
      var p :| IsChain(services, p) && p[0] == n && |p| > k;
      assert |p| == k + 1;
    }
  }

  // ----- Cycles -----

  /** No member of a cycle is ever processed. */
  lemma {:induction false} CycleStaysOut(services: Services, p: seq<Name>, i: nat, k: nat)
    requires IsCycle(services, p) && i < |p|
    ensures p[i] !in Layer(services, k)
    decreases k
  {
    if k > 0 {
      var next := if i + 1 < |p| then i + 1 else 0;
      CycleStaysOut(services, p, next, k - 1);
      assert p[next] in Live(services, p[i]);
    }
  }

  lemma {:induction false} DistinctFitsIn(p: seq<Name>, s: set<Name>)
    requires NoDuplicates(p) && forall i | 0 <= i < |p| :: p[i] in s
    ensures |p| <= |s|
  {
    if p != [] {
      var last := p[|p| - 1];
      DistinctFitsIn(p[..|p| - 1], s - {last});
    }
  }

  lemma RepeatIsCycle(services: Services, p: seq<Name>, i: nat, j: nat)
    requires IsChain(services, p) && i < j < |p| && p[i] == p[j]
    ensures IsCycle(services, p[i..j])
  {
    var loop := p[i..j];
    assert loop[|loop| - 1] == p[j - 1];
  }

  /** In an acyclic process no chain repeats a service, so no chain outgrows the process. */
  lemma ChainsAreShort(services: Services, p: seq<Name>)
    requires Acyclic(services) && IsChain(services, p)
    ensures |p| <= |services|
  {
    if !NoDuplicates(p) {
      var i, j :| 0 <= i < j < |p| && p[i] == p[j];
      RepeatIsCycle(services, p, i, j);
    }
    DistinctFitsIn(p, services.Keys);
  }

  /** Everything is processed eventually exactly when there is no cycle. */
  lemma AcyclicIffAllLayered(services: Services)
    ensures Acyclic(services) <==> Layer(services, |services|) == services.Keys
  {
    if Acyclic(services) {
      forall n | n in services ensures n in Layer(services, |services|) {
        LayerBoundsChains(services, |services|, n);
        forall p | IsChain(services, p) && p[0] == n ensures |p| <= |services| {
          ChainsAreShort(services, p);
        }
      }
    } else {
      var p :| IsCycle(services, p);
      CycleStaysOut(services, p, 0, |services|);
    }
  }

  /** A round that adds nothing decides acyclicity. */
  lemma StuckRoundDecides(services: Services, k: nat)
    requires Layer(services, k + 1) == Layer(services, k)
    ensures Acyclic(services) <==> Layer(services, k) == services.Keys
  {
    AcyclicIffAllLayered(services);
    if k <= |services| {
      LayerFixpoint(services, k, |services|);
    } else {
      LayerMonotone(services, |services|, k);
      if !Acyclic(services) {
        var p :| IsCycle(services, p);
        CycleStaysOut(services, p, 0, k);
      }
    }
  }

  // ----- Counting dependency occurrences -----

  /** How many entries of deps are still pending, with multiplicity. */
  function Pending(deps: seq<Name>, live: set<Name>): nat {
    if deps == [] then 0
    else Pending(deps[..|deps| - 1], live) + if deps[|deps| - 1] in live then 1 else 0
  }

  lemma {:induction false} PendingZero(deps: seq<Name>, live: set<Name>)
    ensures Pending(deps, live) == 0 <==> forall d | d in deps :: d !in live
  {
    if deps != [] {
      var front := deps[..|deps| - 1];
      PendingZero(front, live);
      assert deps == front + [deps[|deps| - 1]];
    }
  }

  /** Occurrences of x in s. */
  ghost function Count(s: seq<Name>, x: Name): nat {
    Pending(s, {x})
  }

  lemma CountMember(s: seq<Name>, x: Name)
    ensures x in s <==> Count(s, x) > 0
  {
    PendingZero(s, {x});
  }

  lemma CountAppend(s: seq<Name>, y: Name, x: Name)
    ensures Count(s + [y], x) == Count(s, x) + (if x == y then 1 else 0)
  {
    assert (s + [y])[..|s|] == s;
  }

  lemma {:induction false} PrefixBelow(s: seq<Name>, j: nat, live: set<Name>)
    requires j <= |s|
    ensures Pending(s[..j], live) <= Pending(s, live)
    decreases |s| - j
  {
    if j < |s| {
      PrefixPending(s, j, live);
      PrefixBelow(s, j + 1, live);
    } else {
      assert s[..j] == s;
    }
  }

  lemma PrefixPending(deps: seq<Name>, j: nat, live: set<Name>)
    requires j < |deps|
    ensures Pending(deps[..j + 1], live) == Pending(deps[..j], live) + (if deps[j] in live then 1 else 0)
  {
    assert deps[..j + 1][..j] == deps[..j];
  }

  lemma {:induction false} PendingWithout(deps: seq<Name>, live: set<Name>, d: Name)
    requires d in live
    ensures Pending(deps, live) == Pending(deps, live - {d}) + Count(deps, d)
  {
    if deps != [] {
      var front := deps[..|deps| - 1];
      PendingWithout(front, live, d);
      assert deps == front + [deps[|deps| - 1]];
    }
  }

  /** A Go map read: an absent key yields the empty list. */
  function Lookup(m: map<Name, seq<Name>>, n: Name): seq<Name> {
    if n in m then m[n] else []
  }

  /** How often the reverse edges of d name n. */
  ghost function Edges(dependents: map<Name, seq<Name>>, d: Name, n: Name): nat {
    Count(Lookup(dependents, d), n)
  }

  /** The reverse edges mirror the declared dependencies, with multiplicity, of the services in
      done, and hold nothing else. */
  ghost predicate Mirrors(services: Services, done: set<Name>, dependents: map<Name, seq<Name>>) {
    forall d, n | d in services ::
      Edges(dependents, d, n) == if n in done && n in services then Count(services[n], d) else 0
  }

  /** What buildDepGraphContext hands to topoSort. */
  ghost predicate IsDepGraph(services: Services, inDegree: map<Name, int>, dependents: map<Name, seq<Name>>) {
    && inDegree.Keys == services.Keys
    && (forall n | n in services :: inDegree[n] == Pending(services[n], services.Keys))
    && Mirrors(services, services.Keys, dependents)
  }

  method BuildDepGraph(services: Services) returns (inDegree: map<Name, int>, dependents: map<Name, seq<Name>>)
    ensures IsDepGraph(services, inDegree, dependents)
  {
    inDegree := map n | n in services :: 0;
    dependents := map[];
    var todo := services.Keys;
    while todo != {}
      invariant todo <= services.Keys && inDegree.Keys == services.Keys
      invariant forall n | n in services ::
        inDegree[n] == if n in todo then 0 else Pending(services[n], services.Keys)
      invariant Mirrors(services, services.Keys - todo, dependents)
      decreases |todo|
    {
      var name :| name in todo; // map iteration: any order
      var added;
      added, dependents := AddEdges(services, services.Keys - todo, name, dependents);
      inDegree := inDegree[name := inDegree[name] + added];
      todo := todo - {name};
    }
  }

  /** The inner loop of buildDepGraphContext: every in-process entry of one service's list adds
      one to its in-degree and one reverse edge. */
  method AddEdges(services: Services, ghost done: set<Name>, name: Name, dependents0: map<Name, seq<Name>>)
      returns (added: nat, dependents: map<Name, seq<Name>>)
    requires name in services && name !in done && Mirrors(services, done, dependents0)
    ensures added == Pending(services[name], services.Keys)
    ensures Mirrors(services, done + {name}, dependents)
  {
    var deps := services[name];
    added, dependents := 0, dependents0;
    for j := 0 to |deps|
      invariant added == Pending(deps[..j], services.Keys)
      invariant EdgesAdded(services, name, deps[..j], dependents0, dependents)
    {
      PrefixPending(deps, j, services.Keys);
      EdgeStep(services, name, deps, j, dependents0, dependents);
      if deps[j] !in services {
        continue;
      }
      added := added + 1;
      dependents := dependents[deps[j] := Lookup(dependents, deps[j]) + [name]];
    }
    assert deps[..|deps|] == deps;
  }

  /** after holds the edges of before and one edge to name for every in-process entry of deps. */
  ghost predicate EdgesAdded(services: Services, name: Name, deps: seq<Name>,
                             before: map<Name, seq<Name>>, after: map<Name, seq<Name>>) {
    forall d, n | d in services ::
      Edges(after, d, n) == Edges(before, d, n) + (if n == name then Count(deps, d) else 0)
  }

  lemma EdgeStep(services: Services, name: Name, deps: seq<Name>, j: nat,
                 before: map<Name, seq<Name>>, after: map<Name, seq<Name>>)
    requires j < |deps| && EdgesAdded(services, name, deps[..j], before, after)
    ensures EdgesAdded(services, name, deps[..j + 1], before,
                       if deps[j] !in services then after
                       else after[deps[j] := Lookup(after, deps[j]) + [name]])
  {
    forall d, n | d in services
      ensures Count(deps[..j + 1], d) == Count(deps[..j], d) + (if d == deps[j] then 1 else 0)
      ensures Edges(after[deps[j] := Lookup(after, deps[j]) + [name]], d, n) ==
              Edges(after, d, n) + (if d == deps[j] && n == name then 1 else 0)
    {
      PrefixPending(deps, j, {d});
      CountAppend(Lookup(after, deps[j]), name, n);
    }
  }

  // ----- The sort -----

  /** The in-degrees count what is still pending once the services in done are processed. */
  ghost predicate DegreesAfter(services: Services, done: set<Name>, inDegree: map<Name, int>) {
    && inDegree.Keys == services.Keys
    && forall n | n in services :: inDegree[n] == Pending(services[n], services.Keys - done)
  }

  lemma DistinctConcat(a: seq<Name>, b: seq<Name>)
    requires NoDuplicates(a) && NoDuplicates(b) && forall x | x in a :: x !in b
    ensures NoDuplicates(a + b)
  {
    forall i, j | 0 <= i < j < |a + b| ensures (a + b)[i] != (a + b)[j] {
      if i < |a| <= j {
        assert a[i] in a && b[j - |a|] in b;
      }
    }
  }

  /** names lists, once each, the services whose in-degree reached zero between the two maps. */
  ghost predicate Freed(services: Services, before: map<Name, int>, after: map<Name, int>, names: seq<Name>) {
    && before.Keys == services.Keys && after.Keys == services.Keys
    && NoDuplicates(names)
    && (forall x :: x in names <==> x in services && before[x] != 0 && after[x] == 0)
    && (forall x | x in services && before[x] == 0 :: after[x] == 0)
  }

  lemma FreedStep(services: Services, before: map<Name, int>, now: map<Name, int>, names: seq<Name>, dep: Name)
    requires Freed(services, before, now, names) && dep in services && 0 < now[dep] <= before[dep]
    ensures Freed(services, before, now[dep := now[dep] - 1],
                  if now[dep] - 1 != 0 then names else names + [dep])
  {
    assert dep !in names;
  }

  lemma FreedConcat(services: Services, a: map<Name, int>, b: map<Name, int>, c: map<Name, int>,
                    ab: seq<Name>, bc: seq<Name>)
    requires Freed(services, a, b, ab) && Freed(services, b, c, bc)
    ensures Freed(services, a, c, ab + bc)
  {
    DistinctConcat(ab, bc);
  }

  /** Each in-degree went down by its multiplicity in dropped. */
  ghost predicate Dropped(services: Services, before: map<Name, int>, dropped: seq<Name>, after: map<Name, int>) {
    && before.Keys == services.Keys && after.Keys == services.Keys
    && forall x | x in services :: after[x] == before[x] - Count(dropped, x)
  }

  /** Every entry of deps is a service that can still be decremented that often. */
  ghost predicate Owed(services: Services, deps: seq<Name>, inDegree: map<Name, int>) {
    && inDegree.Keys == services.Keys
    && (forall x | x in deps :: x in services)
    && (forall x | x in services :: inDegree[x] >= Count(deps, x))
  }

  lemma DropStep(services: Services, deps: seq<Name>, j: nat, before: map<Name, int>, now: map<Name, int>)
    requires j < |deps| && Owed(services, deps, before) && Dropped(services, before, deps[..j], now)
    ensures deps[j] in services && 0 < now[deps[j]] <= before[deps[j]]
    ensures Dropped(services, before, deps[..j + 1], now[deps[j] := now[deps[j]] - 1])
  {
    forall x ensures Count(deps[..j + 1], x) == Count(deps[..j], x) + (if x == deps[j] then 1 else 0) {
      PrefixPending(deps, j, {x});
    }
    PrefixBelow(deps, j + 1, {deps[j]});
  }

  /** Before name is processed every dependent is owed as many decrements as name lists it, and
      paying them leaves the in-degrees of the larger processed set. */
  lemma OwedDecrements(services: Services, done: set<Name>, name: Name,
                       dependents: map<Name, seq<Name>>, before: map<Name, int>)
    requires name in services && name !in done
    requires Mirrors(services, services.Keys, dependents) && DegreesAfter(services, done, before)
    ensures Owed(services, Lookup(dependents, name), before)
    ensures forall after :: Dropped(services, before, Lookup(dependents, name), after) ==>
              DegreesAfter(services, done + {name}, after)
  {
    forall x | x in Lookup(dependents, name) ensures x in services {
      CountMember(Lookup(dependents, name), x);
      assert Edges(dependents, name, x) > 0;
    }
    forall x | x in services
      ensures before[x] == Pending(services[x], services.Keys - (done + {name})) + Edges(dependents, name, x)
    {
      PendingWithout(services[x], services.Keys - done, name);
      assert services.Keys - done - {name} == services.Keys - (done + {name});
      assert Edges(dependents, name, x) == Count(services[x], name);
    }
  }

  /** Decrements the in-degree of every dependent of one processed service and lists those that
      reach zero. */
  method ReleaseDependents(services: Services, ghost done: set<Name>, name: Name,
                           dependents: map<Name, seq<Name>>, inDegree0: map<Name, int>)
      returns (inDegree: map<Name, int>, released: seq<Name>)
    requires name in services && name !in done
    requires Mirrors(services, services.Keys, dependents)
    requires DegreesAfter(services, done, inDegree0)
    ensures DegreesAfter(services, done + {name}, inDegree)
    ensures Freed(services, inDegree0, inDegree, released)
  {
    OwedDecrements(services, done, name, dependents, inDegree0);
    inDegree, released := DecrementAll(services, Lookup(dependents, name), inDegree0);
  }

  method DecrementAll(ghost services: Services, deps: seq<Name>, inDegree0: map<Name, int>)
      returns (inDegree: map<Name, int>, released: seq<Name>)
    requires inDegree0.Keys == services.Keys
    requires Owed(services, deps, inDegree0)
    ensures Dropped(services, inDegree0, deps, inDegree)
    ensures Freed(services, inDegree0, inDegree, released)
  {
    inDegree, released := inDegree0, [];
    assert Freed(services, inDegree0, inDegree, released) && Dropped(services, inDegree0, deps[..0], inDegree);
    hide Freed, Dropped;
    for j := 0 to |deps|
      invariant Dropped(services, inDegree0, deps[..j], inDegree)
      invariant Freed(services, inDegree0, inDegree, released)
    {
      var dep := deps[j];
      DropStep(services, deps, j, inDegree0, inDegree);
      FreedStep(services, inDegree0, inDegree, released, dep);
      inDegree := inDegree[dep := inDegree[dep] - 1];
      if inDegree[dep] != 0 {
        continue;
      }
      released := released + [dep];
    }
    assert deps[..|deps|] == deps;
  }

  /** One round of the sort: every service of the queue is processed and the next queue is what
      became free. */
  method ReleaseLayer(services: Services, ghost done: set<Name>, queue: seq<Name>,
                      dependents: map<Name, seq<Name>>, inDegree0: map<Name, int>)
      returns (inDegree: map<Name, int>, nextQueue: seq<Name>)
    requires Mirrors(services, services.Keys, dependents)
    requires DegreesAfter(services, done, inDegree0)
    requires NoDuplicates(queue) && forall x | x in queue :: x in services && x !in done
    ensures DegreesAfter(services, done + Elements(queue), inDegree)
    ensures Freed(services, inDegree0, inDegree, nextQueue)
  {
    inDegree, nextQueue := inDegree0, [];
    assert done + Elements(queue[..0]) == done;
    for i := 0 to |queue|
      invariant DegreesAfter(services, done + Elements(queue[..i]), inDegree)
      invariant Freed(services, inDegree0, inDegree, nextQueue)
    {
      var name := queue[i];
      assert queue[..i + 1] == queue[..i] + [name];
      assert done + Elements(queue[..i + 1]) == (done + Elements(queue[..i])) + {name};
      assert name in queue && name !in Elements(queue[..i]);
      ghost var before := inDegree;
      var released;
      inDegree, released := ReleaseDependents(services, done + Elements(queue[..i]), name, dependents, inDegree);
      FreedConcat(services, inDegree0, before, inDegree, nextQueue, released);
      nextQueue := nextQueue + released;
    }
    assert queue[..|queue|] == queue;
  }

  ghost function Elements(s: seq<Name>): set<Name> {
    set x | x in s
  }

  lemma CardinalityOfDistinct(s: seq<Name>)
    requires NoDuplicates(s)
    ensures |Elements(s)| == |s|
  {
    if s != [] {
      var front := s[..|s| - 1];
      CardinalityOfDistinct(front);
      assert Elements(s) == Elements(front) + {s[|s| - 1]};
    }
  }

  /** The queue holds, once each, exactly the free services that are not yet processed. */
  ghost predicate IsQueue(services: Services, done: set<Name>, queue: seq<Name>) {
    && NoDuplicates(queue)
    && forall x :: x in queue <==> x in Free(services, done) && x !in done
  }

  lemma ZeroDegree(services: Services, done: set<Name>, inDegree: map<Name, int>, x: Name)
    requires x in services && DegreesAfter(services, done, inDegree)
    ensures inDegree[x] == 0 <==> x in Free(services, done)
  {
    PendingZero(services[x], services.Keys - done);
  }

  /** What went from a positive in-degree to zero is the next queue. */
  lemma NextQueue(services: Services, done: set<Name>, queue: seq<Name>,
                  before: map<Name, int>, after: map<Name, int>, nextQueue: seq<Name>)
    requires IsQueue(services, done, queue) && done <= Free(services, done)
    requires DegreesAfter(services, done, before)
    requires DegreesAfter(services, done + Elements(queue), after)
    requires Freed(services, before, after, nextQueue)
    ensures done + Elements(queue) == Free(services, done)
    ensures IsQueue(services, done + Elements(queue), nextQueue)
  {
    var next := done + Elements(queue);
    assert next == Free(services, done);
    forall x ensures x in nextQueue <==> x in Free(services, next) && x !in next {
      if x in services {
        ZeroDegree(services, done, before, x);
        ZeroDegree(services, next, after, x);
      }
    }
  }

  /** Processing a whole queue moves the sort from one layer to the next. */
  method ProcessQueue(services: Services, ghost done: set<Name>, queue: seq<Name>,
                      dependents: map<Name, seq<Name>>, inDegree0: map<Name, int>)
      returns (inDegree: map<Name, int>, nextQueue: seq<Name>)
    requires Mirrors(services, services.Keys, dependents)
    requires DegreesAfter(services, done, inDegree0)
    requires IsQueue(services, done, queue) && done <= Free(services, done)
    ensures done + Elements(queue) == Free(services, done)
    ensures DegreesAfter(services, done + Elements(queue), inDegree)
    ensures IsQueue(services, done + Elements(queue), nextQueue)
  {
    inDegree, nextQueue := ReleaseLayer(services, done, queue, dependents, inDegree0);
    NextQueue(services, done, queue, inDegree0, inDegree, nextQueue);
  }

  /** Every group so far is the queue of its round and done is what they add up to. */
  ghost predicate AreLayers(services: Services, groups: seq<seq<Name>>, done: set<Name>) {
    && (forall g | 0 <= g < |groups| :: groups[g] != [] && IsQueue(services, Layer(services, g), groups[g]))
    && done == Layer(services, |groups|)
    && done <= Free(services, done)
  }

  /** The queue is what separates the processed services from the free ones. */
  lemma QueueFillsLayer(services: Services, done: set<Name>, queue: seq<Name>)
    requires IsQueue(services, done, queue) && done <= Free(services, done)
    ensures done + Elements(queue) == Free(services, done)
    ensures |done + Elements(queue)| == |done| + |queue|
    ensures |services.Keys - (done + Elements(queue))| + |queue| == |services.Keys - done|
  {
    CardinalityOfDistinct(queue);
    hide NoDuplicates;
    assert done + Elements(queue) == Free(services, done);
    assert services.Keys - done == (services.Keys - (done + Elements(queue))) + Elements(queue);
  }

  lemma AddLayer(services: Services, groups: seq<seq<Name>>, done: set<Name>, queue: seq<Name>)
    requires AreLayers(services, groups, done) && queue != [] && IsQueue(services, done, queue)
    ensures AreLayers(services, groups + [queue], done + Elements(queue))
    ensures |done + Elements(queue)| == |done| + |queue|
    ensures |services.Keys - (done + Elements(queue))| < |services.Keys - done|
  {
    hide Free, IsQueue;
    QueueFillsLayer(services, done, queue);
    LayerGrows(services, |groups| + 1);
    forall g | 0 <= g <= |groups|
      ensures (groups + [queue])[g] != [] && IsQueue(services, Layer(services, g), (groups + [queue])[g])
    {}
  }

  /** topoSort. */
  method TopoSort(services: Services, inDegree0: map<Name, int>, dependents: map<Name, seq<Name>>)
      returns (order: Order)
    requires IsDepGraph(services, inDegree0, dependents)
    ensures Resolves(services, order)
  {
    var groups: seq<seq<Name>> := [];
    var processed := 0;
    var inDegree := inDegree0;
    ghost var done: set<Name> := {};
    assert services.Keys - done == services.Keys && AreLayers(services, groups, done);
    hide AreLayers, IsQueue, Free, Resolves;
    var queue := InitialQueue(services, inDegree);
    while |queue| > 0
      invariant AreLayers(services, groups, done) && processed == |done|
      invariant IsQueue(services, done, queue)
      invariant DegreesAfter(services, done, inDegree)
      decreases |services.Keys - done|
    {
      AddLayer(services, groups, done, queue);
      groups := groups + [queue];
      processed := processed + |queue|;
      ghost var processedNow := done + Elements(queue);
      inDegree, queue := ProcessQueue(services, done, queue, dependents, inDegree);
      done := processedNow;
    }
    SortDecides(services, groups, done, queue);
    if processed != |services| {
      order := CyclicDependency;
    } else {
      order := Groups(groups);
    }
  }

  /** Once the queue is empty the processed count tells whether the groups are the start order
      or a cycle exists. */
  lemma SortDecides(services: Services, groups: seq<seq<Name>>, done: set<Name>, queue: seq<Name>)
    requires AreLayers(services, groups, done) && IsQueue(services, done, queue) && queue == []
    ensures Resolves(services, if |done| != |services| then CyclicDependency else Groups(groups))
  {
    var k := |groups|;
    assert Layer(services, k + 1) == Layer(services, k);
    StuckRoundDecides(services, k);
    SubsetOfSameSize(done, services.Keys);
    if |done| == |services| {
      LayersAreStartOrder(services, groups, done);
    }
  }

  method InitialQueue(services: Services, inDegree: map<Name, int>) returns (queue: seq<Name>)
    requires DegreesAfter(services, {}, inDegree)
    ensures IsQueue(services, {}, queue)
  {
    queue := [];
    var todo := inDegree.Keys;
    while todo != {}
      invariant todo <= inDegree.Keys
      invariant NoDuplicates(queue)
      invariant forall x :: x in queue <==> x in services && x !in todo && inDegree[x] == 0
      decreases |todo|
    {
      var name :| name in todo; // map iteration: any order
      todo := todo - {name};
      if inDegree[name] != 0 {
        continue;
      }
      queue := queue + [name];
    }
    forall x | x in services ensures inDegree[x] == 0 <==> x in Free(services, {}) {
      ZeroDegree(services, {}, inDegree, x);
    }
  }

  lemma {:induction false} InSomeGroup(services: Services, groups: seq<seq<Name>>, k: nat, n: Name)
    requires k <= |groups| && n in Layer(services, k)
    requires forall g | 0 <= g < |groups| :: IsQueue(services, Layer(services, g), groups[g])
    ensures exists g | 0 <= g < k :: n in groups[g]
  {
    if k > 0 && n in Layer(services, k - 1) {
      InSomeGroup(services, groups, k - 1, n);
    } else {
      assert n in groups[k - 1];
    }
  }

  lemma LayersAreStartOrder(services: Services, groups: seq<seq<Name>>, done: set<Name>)
    requires AreLayers(services, groups, done) && done == services.Keys
    ensures IsStartOrder(services, groups)
  {
    forall g, n | 0 <= g < |groups|
      ensures n in groups[g] <==> n in services && LongestChain(services, n, g + 1)
    {
      if n in services {
        LayerGivesLongestChain(services, g, n);
      }
    }
    forall n | n in services ensures exists g | 0 <= g < |groups| :: n in groups[g] {
      InSomeGroup(services, groups, |groups|, n);
    }
  }

  /** resolveOrder: an order exists exactly when the process has no dependency cycle, and then
      it is the layering by longest chain. */
  method ResolveOrder(services: Services) returns (order: Order)
    ensures Resolves(services, order)
  {
    var inDegree, dependents := BuildDepGraph(services);
    order := TopoSort(services, inDegree, dependents);
  }

  // ----- What a start order means -----

  /** Every in-process dependency sits in a strictly earlier group. */
  lemma DependenciesStartEarlier(services: Services, groups: seq<seq<Name>>, g: nat, h: nat, n: Name, d: Name)
    requires IsStartOrder(services, groups)
    requires g < |groups| && h < |groups| && n in groups[g] && d in groups[h] && d in services[n]
    ensures h < g
  {
    hide LongestChain;
    InGroup(services, groups, g, n);
    InGroup(services, groups, h, d);
    ChainExtends(services, n, d, h + 1, g + 1);
  }

  lemma ChainExtends(services: Services, n: Name, d: Name, h: nat, g: nat)
    requires n in services && d in services[n]
    requires LongestChain(services, d, h) && LongestChain(services, n, g)
    ensures h < g
  {
    var p :| IsChain(services, p) && p[0] == d && |p| == h;
    assert IsChain(services, [n] + p);
  }

  /** No service sits in two groups. */
  lemma GroupsAreDisjoint(services: Services, groups: seq<seq<Name>>, g: nat, h: nat, n: Name)
    requires IsStartOrder(services, groups)
    requires g < |groups| && h < |groups| && n in groups[g] && n in groups[h]
    ensures g == h
  {
    hide LongestChain;
    InGroup(services, groups, g, n);
    InGroup(services, groups, h, n);
    OneLongestChain(services, n, g + 1, h + 1);
  }

  lemma InGroup(services: Services, groups: seq<seq<Name>>, g: nat, n: Name)
    requires IsStartOrder(services, groups) && g < |groups|
    ensures n in groups[g] <==> n in services && LongestChain(services, n, g + 1)
  {
    hide LongestChain, NoDuplicates;
  }

  lemma OneLongestChain(services: Services, n: Name, j: int, k: int)
    requires LongestChain(services, n, j) && LongestChain(services, n, k)
    ensures j == k
  {
    var p :| IsChain(services, p) && p[0] == n && |p| == j;
    var q :| IsChain(services, q) && q[0] == n && |q| == k;
  }

  lemma SameChains(a: Services, b: Services, p: seq<Name>)
    requires a.Keys == b.Keys && forall n | n in a :: Live(a, n) == Live(b, n)
    ensures IsChain(a, p) ==> IsChain(b, p)
  {
    if IsChain(a, p) {
      forall i | 0 <= i < |p| - 1 ensures p[i + 1] in b[p[i]] {
        assert p[i + 1] in Live(a, p[i]);
      }
    }
  }

  /** The groups, as sets, depend only on which in-process dependencies each service has: not on
      map iteration order, not on repeated names, not on names outside the process. */
  lemma OrderIgnoresRepetition(a: Services, b: Services, ga: seq<seq<Name>>, gb: seq<seq<Name>>)
    requires a.Keys == b.Keys && forall n | n in a :: Live(a, n) == Live(b, n)
    requires IsStartOrder(a, ga) && IsStartOrder(b, gb)
    ensures |ga| == |gb|
    ensures forall g | 0 <= g < |ga| :: Elements(ga[g]) == Elements(gb[g])
  {
    SameLongestChains(a, b);
    SameLongestChains(b, a);
    NoMoreGroups(a, b, ga, gb);
    NoMoreGroups(b, a, gb, ga);
    forall g | 0 <= g < |ga| ensures Elements(ga[g]) == Elements(gb[g]) {
      forall n ensures n in ga[g] <==> n in gb[g] {
        assert n in ga[g] <==> n in a && LongestChain(a, n, g + 1);
        assert n in gb[g] <==> n in b && LongestChain(b, n, g + 1);
      }
    }
  }

  lemma SameLongestChains(a: Services, b: Services)
    requires a.Keys == b.Keys && forall n | n in a :: Live(a, n) == Live(b, n)
    ensures forall n, k :: LongestChain(a, n, k) ==> LongestChain(b, n, k)
  {
    forall p ensures IsChain(a, p) <==> IsChain(b, p) {
      SameChains(a, b, p);
      SameChains(b, a, p);
    }
  }

  lemma NoMoreGroups(a: Services, b: Services, ga: seq<seq<Name>>, gb: seq<seq<Name>>)
    requires a.Keys == b.Keys && forall n, k :: LongestChain(a, n, k) ==> LongestChain(b, n, k)
    requires IsStartOrder(a, ga) && IsStartOrder(b, gb)
    ensures |ga| <= |gb|
  {
    if |ga| > |gb| {
      var n := ga[|ga| - 1][0];
      assert n in ga[|ga| - 1];
      assert n in b;
      var g :| 0 <= g < |gb| && n in gb[g];
      OneLongestChain(b, n, |ga|, g + 1);
    }
  }
}
