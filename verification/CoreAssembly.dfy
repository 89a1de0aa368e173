/** The order in which raw provider modules are instantiated, and which of them are canonical
    libraries (crates/psrs-linker/src/core_assembly.rs).
 */
module CoreAssembly {

  /** `references`: some export or function import carries a reference type. */
  datatype Artifact = Artifact(name: string, imports: set<string>, references: bool)

  /** An instantiation with the earlier instance that provides each import. */
  datatype Instance = Instance(artifact: Artifact, arguments: map<string, nat>)

  datatype Error = UnresolvedOrCyclic | DuplicateOrReserved

  datatype Assembly = Prepared(instances: seq<Instance>) | Refused(error: Error)

  const MAIN := "__main_module__"

  // ----- The import graph -----

  ghost predicate Named(artifacts: seq<Artifact>, name: string) {
    exists i :: 0 <= i < |artifacts| && artifacts[i].name == name
  }

  ghost predicate UniqueNames(artifacts: seq<Artifact>) {
    && (forall i, j :: 0 <= i < j < |artifacts| ==> artifacts[i].name != artifacts[j].name)
    && forall i :: 0 <= i < |artifacts| ==> artifacts[i].name != MAIN
  }

  ghost predicate ClosedImports(artifacts: seq<Artifact>) {
    forall a, m :: a in artifacts && m in a.imports ==> Named(artifacts, m)
  }

  /** Every module of the walk imports the next one. */
  ghost predicate Walk(artifacts: seq<Artifact>, w: seq<Artifact>) {
    && |w| > 0 && (forall i :: 0 <= i < |w| ==> w[i] in artifacts)
    && forall i :: 0 <= i < |w| - 1 ==> w[i + 1].name in w[i].imports
  }

  ghost predicate AcyclicImports(artifacts: seq<Artifact>) {
    forall w: seq<Artifact> :: Walk(artifacts, w) && |w| > 1 ==> w[0].name != w[|w| - 1].name
  }

  // ----- Orders -----

  ghost predicate ProvidedBefore(instances: seq<Instance>, i: nat)
    requires i < |instances|
  {
    && instances[i].arguments.Keys == instances[i].artifact.imports
    && forall m <- instances[i].arguments.Keys ::
         instances[i].arguments[m] < i && instances[instances[i].arguments[m]].artifact.name == m
  }

  /** Every module is instantiated after everything it imports. */
  ghost predicate Topological(instances: seq<Instance>) {
    forall i :: 0 <= i < |instances| ==> ProvidedBefore(instances, i)
  }

  ghost function Artifacts(instances: seq<Instance>): (a: seq<Artifact>)
    ensures |a| == |instances| && forall i :: 0 <= i < |a| ==> a[i] == instances[i].artifact
  {
    seq(|instances|, i requires 0 <= i < |instances| => instances[i].artifact)
  }

  lemma ArtifactsAfter(instances: seq<Instance>, x: Instance)
    ensures Artifacts(instances + [x]) == Artifacts(instances) + [x.artifact]
  {
  }

  // ----- A module that is never ready leads to a cycle -----

  /** `next` picks, for every stuck module, a stuck module it imports. */
  ghost predicate Chases(artifacts: seq<Artifact>, next: map<Artifact, Artifact>) {
    forall a {:trigger next[a]} :: a in next ==> a in artifacts && next[a] in next && next[a].name in a.imports
  }

  /** Following imports among stuck modules never ends. */
  lemma {:induction false} LongWalk(artifacts: seq<Artifact>, next: map<Artifact, Artifact>, start: Artifact, n: nat)
      returns (w: seq<Artifact>)
    requires Chases(artifacts, next) && start in next && next[start] in next
    ensures Walk(artifacts, w) && |w| == n + 1 && forall i :: 0 <= i < |w| ==> w[i] in next
  {
    if n == 0 {
      w := [start];
    } else {
      var v := LongWalk(artifacts, next, start, n - 1);
      var last := v[|v| - 1];
      var b := next[last];
      assert next[b] == next[b];
      w := v + [b];
    }
  }

  lemma {:induction false} Pigeonhole<T>(w: seq<T>, pool: set<T>) returns (i: nat, j: nat)
    requires |w| > |pool| && forall k :: 0 <= k < |w| ==> w[k] in pool
    ensures i < j < |w| && w[i] == w[j]
    decreases |w|
  {
    var last := w[|w| - 1];
    if k :| 0 <= k < |w| - 1 && w[k] == last {
      i, j := k, |w| - 1;
    } else {
      assert last in pool;
      i, j := Pigeonhole(w[..|w| - 1], pool - {last});
    }
  }

  lemma {:induction false} StuckHasCycle(artifacts: seq<Artifact>, next: map<Artifact, Artifact>, start: Artifact)
    requires Chases(artifacts, next) && start in next && next[start] in next
    ensures !AcyclicImports(artifacts)
  {
    var w := LongWalk(artifacts, next, start, |next.Keys|);
    var i, j := Pigeonhole(w, next.Keys);
    RepeatedIsCycle(artifacts, w, i, j);
  }

  lemma {:induction false} RepeatedIsCycle(artifacts: seq<Artifact>, w: seq<Artifact>, i: nat, j: nat)
    requires Walk(artifacts, w) && i < j < |w| && w[i] == w[j]
    ensures !AcyclicImports(artifacts)
  {
    var cycle := w[i..j + 1];
    assert |cycle| > 1 && cycle[0] == w[i] && cycle[|cycle| - 1] == w[j];
    forall k | 0 <= k < |cycle| - 1 ensures cycle[k + 1].name in cycle[k].imports {
      assert cycle[k] == w[i + k] && cycle[k + 1] == w[i + k + 1];
    }
    assert Walk(artifacts, cycle);
  }

  ghost predicate Blocks(pending: seq<Artifact>, a: Artifact, b: Artifact) {
    b in pending && b.name in a.imports
  }

  lemma {:induction false} Blocked(artifacts: seq<Artifact>, pending: seq<Artifact>, providers: map<string, nat>,
                                   a: Artifact)
    requires ClosedImports(artifacts) && a in artifacts && !(a.imports <= providers.Keys)
    requires forall b <- artifacts :: b in pending || b.name in providers
    ensures exists b :: Blocks(pending, a, b)
  {
    var m :| m in a.imports && m !in providers;
    assert Named(artifacts, m);
    var i :| 0 <= i < |artifacts| && artifacts[i].name == m;
    assert artifacts[i] in artifacts;
    assert Blocks(pending, a, artifacts[i]);
  }

  ghost function Blocker(pending: seq<Artifact>, a: Artifact): (b: Artifact)
    requires exists b :: Blocks(pending, a, b)
    ensures Blocks(pending, a, b)
  {
    var b :| Blocks(pending, a, b);
    b
  }

  /** When nothing is ready, some import is missing or the imports are cyclic. */
  lemma {:induction false} NothingReady(artifacts: seq<Artifact>, pending: seq<Artifact>, providers: map<string, nat>)
    requires pending != [] && (forall a <- pending :: a in artifacts)
    requires forall a <- artifacts :: a in pending || a.name in providers
    requires forall a <- pending :: !(a.imports <= providers.Keys)
    ensures !(ClosedImports(artifacts) && AcyclicImports(artifacts))
  {
    if ClosedImports(artifacts) {
      forall a | a in pending ensures exists b :: Blocks(pending, a, b) { Blocked(artifacts, pending, providers, a); }
      BlockersCycle(artifacts, pending);
    }
  }

  lemma {:induction false} BlockersCycle(artifacts: seq<Artifact>, pending: seq<Artifact>)
    requires pending != [] && (forall a <- pending :: a in artifacts)
    requires forall a <- pending :: exists b :: Blocks(pending, a, b)
    ensures !AcyclicImports(artifacts)
  {
    var next := map a | a in pending :: Blocker(pending, a);
    forall a {:trigger next[a]} | a in next ensures a in artifacts && next[a] in next && next[a].name in a.imports {
      assert Blocks(pending, a, next[a]);
    }
    assert pending[0] in pending;
    StuckHasCycle(artifacts, next, pending[0]);
  }

  // ----- An instantiation order rules cycles out -----

  lemma {:induction false} PositionOf(instances: seq<Instance>, artifacts: seq<Artifact>, a: Artifact) returns (i: nat)
    requires multiset(Artifacts(instances)) == multiset(artifacts) && a in artifacts
    ensures i < |instances| && instances[i].artifact == a
  {
    assert a in multiset(artifacts);
    assert a in Artifacts(instances);
    i :| 0 <= i < |Artifacts(instances)| && Artifacts(instances)[i] == a;
  }

  lemma {:induction false} SameNames(xs: seq<Artifact>, ys: seq<Artifact>)
    requires multiset(xs) == multiset(ys) && UniqueNames(xs)
    ensures UniqueNames(ys)
  {
    forall i, j | 0 <= i < j < |ys| ensures ys[i].name != ys[j].name {
      if ys[i].name == ys[j].name {
        assert ys[i] in multiset(ys) && ys[j] in multiset(ys);
        var k :| 0 <= k < |xs| && xs[k] == ys[i];
        var l :| 0 <= l < |xs| && xs[l] == ys[j];
        assert ys[i] == ys[j];
        TwiceIn(ys, i, j);
        OnceIn(xs, k);
      }
    }
    forall i | 0 <= i < |ys| ensures ys[i].name != MAIN {
      assert ys[i] in multiset(ys);
      var k :| 0 <= k < |xs| && xs[k] == ys[i];
    }
  }

  lemma {:induction false} TwiceIn(ys: seq<Artifact>, i: nat, j: nat)
    requires i < j < |ys| && ys[i] == ys[j]
    ensures multiset(ys)[ys[i]] >= 2
  {
    assert ys == ys[..j] + [ys[j]] + ys[j + 1..];
    assert ys[..j] == ys[..i] + [ys[i]] + ys[i + 1..j];
  }

  lemma {:induction false} OnceIn(xs: seq<Artifact>, k: nat)
    requires UniqueNames(xs) && k < |xs|
    ensures multiset(xs)[xs[k]] == 1
  {
    assert xs == xs[..k] + [xs[k]] + xs[k + 1..];
    assert xs[k] !in xs[..k] && xs[k] !in xs[k + 1..];
  }

  lemma {:induction false} WalkGoesBack(instances: seq<Instance>, artifacts: seq<Artifact>, w: seq<Artifact>, i: nat)
    requires Topological(instances) && multiset(Artifacts(instances)) == multiset(artifacts) && UniqueNames(artifacts)
    requires Walk(artifacts, w) && i < |instances| && instances[i].artifact == w[0]
    ensures exists j :: 0 <= j <= i && (|w| > 1 ==> j < i) && instances[j].artifact == w[|w| - 1]
    decreases |w|
  {
    if |w| > 1 {
      var m := w[1].name;
      assert ProvidedBefore(instances, i) && m in instances[i].artifact.imports;
      var j := instances[i].arguments[m];
      var k := PositionOf(instances, artifacts, w[1]);
      SameNames(artifacts, Artifacts(instances));
      assert Artifacts(instances)[j].name == Artifacts(instances)[k].name;
      var v := w[1..];
      forall l | 0 <= l < |v| - 1 ensures v[l + 1].name in v[l].imports { assert v[l] == w[l + 1]
                                                                         && v[l + 1] == w[l + 1 + 1]; }
      WalkGoesBack(instances, artifacts, v, j);
    }
  }

  lemma {:induction false} OrderedIsAcyclic(instances: seq<Instance>, artifacts: seq<Artifact>)
    requires Topological(instances) && multiset(Artifacts(instances)) == multiset(artifacts) && UniqueNames(artifacts)
    ensures ClosedImports(artifacts) && AcyclicImports(artifacts)
  {
    forall a, m | a in artifacts && m in a.imports ensures Named(artifacts, m) {
      var i := PositionOf(instances, artifacts, a);
      assert ProvidedBefore(instances, i);
      var j := instances[i].arguments[m];
      assert Artifacts(instances)[j] in multiset(artifacts);
      var k :| 0 <= k < |artifacts| && artifacts[k] == Artifacts(instances)[j];
    }
    forall w: seq<Artifact> | Walk(artifacts, w) && |w| > 1 ensures w[0].name != w[|w| - 1].name {
      var i := PositionOf(instances, artifacts, w[0]);
      WalkGoesBack(instances, artifacts, w, i);
      var j :| 0 <= j < i && instances[j].artifact == w[|w| - 1];
      SameNames(artifacts, Artifacts(instances));
      assert Artifacts(instances)[j].name != Artifacts(instances)[i].name;
    }
  }

  // ----- Preparing the assembly -----

  /** The first pending module whose imports are all provided. */
  method Ready(pending: seq<Artifact>, providers: map<string, nat>) returns (found: bool, ready: nat)
    ensures found ==> ready < |pending| && pending[ready].imports <= providers.Keys
                      && forall i :: 0 <= i < ready ==> !(pending[i].imports <= providers.Keys)
    ensures !found ==> forall a <- pending :: !(a.imports <= providers.Keys)
  {
    for i := 0 to |pending|
      invariant forall j :: 0 <= j < i ==> !(pending[j].imports <= providers.Keys)
    {
      if pending[i].imports <= providers.Keys { return true, i; }
    }
    found, ready := false, 0;
  }

  /** Where each instantiated module is. */
  ghost predicate Provides(providers: map<string, nat>, instances: seq<Instance>) {
    && (forall m <- providers.Keys :: providers[m] < |instances| && instances[providers[m]].artifact.name == m)
    && (forall i :: 0 <= i < |instances| ==>
          instances[i].artifact.name in providers && providers[instances[i].artifact.name] == i)
    && MAIN !in providers
  }

  lemma {:induction false} Removed(pending: seq<Artifact>, i: nat)
    requires i < |pending|
    ensures multiset(pending) == multiset(pending[..i] + pending[i + 1..]) + multiset{pending[i]}
    ensures forall a :: a in pending <==> a == pending[i] || a in pending[..i] + pending[i + 1..]
  {
    assert pending == pending[..i] + [pending[i]] + pending[i + 1..];
  }

  /** `prepare_core` on the modules that are not canonical libraries: it succeeds exactly when names
      are unique and not reserved and the import graph is closed and acyclic. */
  method PrepareCore(artifacts: seq<Artifact>) returns (r: Assembly)
    ensures r.Prepared? <==> UniqueNames(artifacts) && ClosedImports(artifacts) && AcyclicImports(artifacts)
    ensures r.Prepared? ==> multiset(Artifacts(r.instances)) == multiset(artifacts) && Topological(r.instances)
    ensures r == Refused(DuplicateOrReserved) ==> !UniqueNames(artifacts)
    ensures r == Refused(UnresolvedOrCyclic) ==> !(ClosedImports(artifacts) && AcyclicImports(artifacts))
  {
    var pending := artifacts;
    var instances: seq<Instance> := [];
    var providers: map<string, nat> := map[];
    assert Artifacts(instances) == [];
    while pending != []
      invariant multiset(Artifacts(instances)) + multiset(pending) == multiset(artifacts)
      invariant forall a <- pending :: a in artifacts
      invariant forall a <- artifacts :: a in pending || a.name in providers
      invariant Provides(providers, instances) && Topological(instances)
      decreases |pending|
    {
      var found, ready := Ready(pending, providers);
      if !found {
        NothingReady(artifacts, pending, providers);
        return Refused(UnresolvedOrCyclic);
      }
      var a := pending[ready];
      Removed(pending, ready);
      pending := pending[..ready] + pending[ready + 1..];
      if a.name == MAIN || a.name in providers {
        NotUnique(artifacts, instances, pending, a, providers);
        return Refused(DuplicateOrReserved);
      }
      var instance := Instance(a, map m | m in a.imports :: providers[m]);
      Instantiated(instances, providers, instance);
      ArtifactsAfter(instances, instance);
      assert a in artifacts;
      providers := providers[a.name := |instances|];
      instances := instances + [instance];
    }
    ProvidesUnique(providers, instances);
    SameNames(Artifacts(instances), artifacts);
    OrderedIsAcyclic(instances, artifacts);
    r := Prepared(instances);
  }

  lemma {:induction false} Instantiated(instances: seq<Instance>, providers: map<string, nat>, x: Instance)
    requires Provides(providers, instances) && Topological(instances) && x.artifact.imports <= providers.Keys
    requires x.arguments == map m | m in x.artifact.imports :: providers[m]
    requires x.artifact.name != MAIN && x.artifact.name !in providers
    ensures Provides(providers[x.artifact.name := |instances|], instances + [x]) && Topological(instances + [x])
  {
    var longer := instances + [x];
    forall i | 0 <= i < |longer| ensures ProvidedBefore(longer, i) {
      if i < |instances| { assert ProvidedBefore(instances, i); }
    }
  }

  lemma {:induction false} ProvidesUnique(providers: map<string, nat>, instances: seq<Instance>)
    requires Provides(providers, instances)
    ensures UniqueNames(Artifacts(instances))
  {
  }

  lemma {:induction false} NotUnique(artifacts: seq<Artifact>, instances: seq<Instance>, rest: seq<Artifact>,
                                     a: Artifact, providers: map<string, nat>)
    requires multiset(Artifacts(instances)) + multiset(rest) + multiset{a} == multiset(artifacts)
    requires Provides(providers, instances) && (a.name == MAIN || a.name in providers)
    ensures !UniqueNames(artifacts)
  {
    var all := Artifacts(instances) + rest + [a];
    assert multiset(all) == multiset(artifacts);
    assert all[|all| - 1] == a;
    assert a.name in providers ==> all[providers[a.name]].name == a.name;
    if UniqueNames(artifacts) { SameNames(artifacts, all); }
  }

  /** The order of the artifacts makes no difference to whether they can be assembled. */
  lemma {:induction false} OrderIrrelevant(xs: seq<Artifact>, ys: seq<Artifact>)
    requires multiset(xs) == multiset(ys)
    ensures UniqueNames(xs) == UniqueNames(ys) && ClosedImports(xs) == ClosedImports(ys)
            && AcyclicImports(xs) == AcyclicImports(ys)
  {
    if UniqueNames(xs) { SameNames(xs, ys); }
    if UniqueNames(ys) { SameNames(ys, xs); }
    SameMembers(xs, ys);
    NamedSame(xs, ys);
    assert forall w: seq<Artifact> :: Walk(xs, w) == Walk(ys, w);
  }

  lemma {:induction false} SameMembers(xs: seq<Artifact>, ys: seq<Artifact>)
    requires multiset(xs) == multiset(ys)
    ensures forall a :: a in xs <==> a in ys
  {
    forall a ensures a in xs <==> a in ys {
      assert a in xs <==> a in multiset(xs);
      assert a in ys <==> a in multiset(ys);
    }
  }

  lemma {:induction false} NamedSame(xs: seq<Artifact>, ys: seq<Artifact>)
    requires forall a :: a in xs <==> a in ys
    ensures forall m :: Named(xs, m) == Named(ys, m)
  {
    forall m ensures Named(xs, m) == Named(ys, m) {
      if i :| 0 <= i < |xs| && xs[i].name == m {
        assert xs[i] in ys;
        var j :| 0 <= j < |ys| && ys[j] == xs[i];
      }
      if i :| 0 <= i < |ys| && ys[i].name == m {
        assert ys[i] in xs;
        var j :| 0 <= j < |xs| && xs[j] == ys[i];
      }
    }
  }

  // ----- Canonical libraries -----

  /** Imports lead from `name` to a module that carries references. */
  ghost predicate LeadsToReference(artifacts: seq<Artifact>, name: string) {
    exists w: seq<Artifact> :: Walk(artifacts, w) && w[0].name == name && w[|w| - 1].references
  }

  lemma {:induction false} ConsumerLeads(artifacts: seq<Artifact>, a: Artifact, m: string)
    requires a in artifacts && m in a.imports && LeadsToReference(artifacts, m)
    ensures LeadsToReference(artifacts, a.name)
  {
    var w: seq<Artifact> :| Walk(artifacts, w) && w[0].name == m && w[|w| - 1].references;
    var v := [a] + w;
    forall i | 0 <= i < |v| - 1 ensures v[i + 1].name in v[i].imports {
      if i > 0 { assert v[i] == w[i - 1] && v[i + 1] == w[i - 1 + 1]; }
    }
    assert Walk(artifacts, v) && v[0].name == a.name && v[|v| - 1] == w[|w| - 1];
  }

  lemma {:induction false} LeadsIntoRaw(artifacts: seq<Artifact>, raw: set<string>, w: seq<Artifact>)
    requires Walk(artifacts, w) && w[|w| - 1].references
    requires forall a <- artifacts :: a.references || a.imports * raw != {} ==> a.name in raw
    ensures w[0].name in raw
    decreases |w|
  {
    if |w| > 1 {
      var v := w[1..];
      forall l | 0 <= l < |v| - 1 ensures v[l + 1].name in v[l].imports { assert v[l] == w[l + 1]
                                                                         && v[l + 1] == w[l + 1 + 1]; }
      LeadsIntoRaw(artifacts, raw, v);
      assert w[1].name in w[0].imports * raw;
    }
  }

  /** `canonical_libraries`: the modules from which no reference-carrying module can be reached. */
  method CanonicalLibraries(artifacts: seq<Artifact>) returns (libraries: set<string>)
    ensures forall name :: name in libraries <==> Named(artifacts, name) && !LeadsToReference(artifacts, name)
  {
    ghost var names := set a <- artifacts :: a.name;
    var raw := set a | a in artifacts && a.references :: a.name;
    forall name | name in raw ensures LeadsToReference(artifacts, name) {
      var a :| a in artifacts && a.references && a.name == name;
      assert Walk(artifacts, [a]) && [a][0].name == name && [a][|[a]| - 1].references;
    }
    var before := |raw| + 1;
    while |raw| != before
      invariant raw <= names && (set a | a in artifacts && a.references :: a.name) <= raw
      invariant forall name <- raw :: LeadsToReference(artifacts, name)
      invariant |raw| == before ==> forall a <- artifacts :: a.imports * raw != {} ==> a.name in raw
      decreases |names| - |raw|, before != |raw|
    {
      var consumers := set a | a in artifacts && a.imports * raw != {} :: a.name;
      forall name | name in consumers ensures LeadsToReference(artifacts, name) {
        var a :| a in artifacts && a.imports * raw != {} && a.name == name;
        var m :| m in a.imports * raw;
        ConsumerLeads(artifacts, a, m);
      }
      before := |raw|;
      Extends(raw, consumers, names);
      raw := raw + consumers;
    }
    forall w: seq<Artifact> | Walk(artifacts, w)
        && w[|w| - 1].references ensures w[0].name in raw { LeadsIntoRaw(artifacts, raw, w); }
    libraries := set a | a in artifacts && a.name !in raw :: a.name;
    forall name | Named(artifacts, name) && name !in raw ensures name in libraries {
      var i :| 0 <= i < |artifacts| && artifacts[i].name == name;
      assert artifacts[i] in artifacts;
    }
  }

  lemma {:induction false} Extends(raw: set<string>, more: set<string>, bound: set<string>)
    requires raw <= bound && more <= bound
    ensures |raw + more| == |raw| ==> raw + more == raw
    ensures |raw + more| >= |raw| && |raw + more| <= |bound|
  {
    var added := more - raw;
    assert raw + more == raw + added && raw !! added;
    assert bound == (raw + more) + (bound - (raw + more));
    if added == {} { assert raw + more == raw; }
  }
}
