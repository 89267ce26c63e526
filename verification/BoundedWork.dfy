// How often a task is published, and why every run ends. A task that joins several
// branches may be published more than once, but never more often than there are chains
// of dependents leading from a root to it.

module BoundedWork {
  import opened Workflows
  import opened Protocol
  import opened Progress
  import Dag

  // ---------------------------------------------------------------------------
  // Sums

  ghost function Sum(xs: seq<TaskId>, f: TaskId -> nat): nat {
    if xs == [] then 0 else f(xs[0]) + Sum(xs[1..], f)
  }

  lemma {:induction false} SumLe(xs: seq<TaskId>, f: TaskId -> nat, g: TaskId -> nat)
    requires forall x | x in xs :: f(x) <= g(x)
    ensures Sum(xs, f) <= Sum(xs, g)
  {
    if xs != [] {
      SumLe(xs[1..], f, g);
    }
  }

  // Raising one summand by one raises the sum by one.
  lemma {:induction false} SumBump(xs: seq<TaskId>, f: TaskId -> nat, g: TaskId -> nat, x: TaskId)
    requires Distinct(xs) && forall y | y in xs :: g(y) == f(y) + (if y == x then 1 else 0)
    ensures Sum(xs, g) == Sum(xs, f) + (if x in xs then 1 else 0)
  {
    if xs != [] {
      assert xs[0] !in xs[1..];
      SumBump(xs[1..], f, g, x);
    }
  }

  // The different entries of a dependency list.
  ghost function Unique(s: seq<TaskId>): (r: seq<TaskId>)
    ensures Distinct(r) && forall x :: x in r <==> x in s
  {
    if s == [] then []
    else
      var r := Unique(s[..|s| - 1]);
      assert s == s[..|s| - 1] + [s[|s| - 1]];
      if s[|s| - 1] in r then r else r + [s[|s| - 1]]
  }

  // ---------------------------------------------------------------------------
  // Chains from the roots

  ghost function Grow(ps: seq<seq<TaskId>>, id: TaskId): (r: seq<seq<TaskId>>)
    ensures |r| == |ps| && forall i | 0 <= i < |ps| :: r[i] == ps[i] + [id]
  {
    if ps == [] then [] else [ps[0] + [id]] + Grow(ps[1..], id)
  }

  // All chains from a root to the k-th task of a topological order, and those of them
  // whose last but one element is in ds.
  ghost function Chains(deps: Dependencies, order: seq<TaskId>, k: nat): seq<seq<TaskId>>
    requires IsTopological(deps, order) && k < |order|
    decreases k, 1, 0
  {
    if DepsOf(deps, order[k]) == [] then [[order[k]]]
    else
      assert Settled(deps, order, k);
      ChainsVia(deps, order, k, Unique(DepsOf(deps, order[k])))
  }

  ghost function ChainsVia(deps: Dependencies, order: seq<TaskId>, k: nat, ds: seq<TaskId>): seq<seq<TaskId>>
    requires IsTopological(deps, order) && k < |order|
    requires forall d | d in ds :: d in order[..k]
    decreases k, 0, |ds|
  {
    if ds == [] then []
    else Grow(Chains(deps, order, Dag.IndexOf(order[..k], ds[0])), order[k]) + ChainsVia(deps, order, k, ds[1..])
  }

  ghost predicate IsChainTo(deps: Dependencies, p: seq<TaskId>, id: TaskId) {
    Dag.IsChain(deps, p) && DepsOf(deps, p[0]) == [] && p[|p| - 1] == id
  }

  lemma ChainEnds(deps: Dependencies, p: seq<TaskId>, id: TaskId)
    requires p != [] && |p| >= 2
    ensures IsChainTo(deps, p, id) <==>
            p[|p| - 1] == id && DependsOn(deps, id, p[|p| - 2]) && IsChainTo(deps, p[..|p| - 1], p[|p| - 2])
  {
    var q := p[..|p| - 1];
    if IsChainTo(deps, p, id) {
      assert p[|p| - 2] == q[|q| - 1];
    } else if p[|p| - 1] == id && DependsOn(deps, id, p[|p| - 2]) && IsChainTo(deps, q, p[|p| - 2]) {
      forall i, j | 0 <= i && j == i + 1 < |p| ensures DependsOn(deps, p[j], p[i]) {
        if j < |q| {
          assert DependsOn(deps, q[j], q[i]);
        }
      }
    }
  }

  lemma {:induction false} GrowContains(ps: seq<seq<TaskId>>, id: TaskId, p: seq<TaskId>)
    ensures p in Grow(ps, id) <==> p != [] && p[|p| - 1] == id && p[..|p| - 1] in ps
  {
    if p in Grow(ps, id) {
      var i :| 0 <= i < |ps| && Grow(ps, id)[i] == p;
      assert p[..|p| - 1] == ps[i];
    }
    if p != [] && p[|p| - 1] == id && p[..|p| - 1] in ps {
      var i :| 0 <= i < |ps| && ps[i] == p[..|p| - 1];
      assert Grow(ps, id)[i] == p;
    }
  }

  // Chains lists exactly the chains.
  lemma {:induction false} ChainsAreChains(deps: Dependencies, order: seq<TaskId>, k: nat, p: seq<TaskId>)
    requires IsTopological(deps, order) && k < |order|
    ensures p in Chains(deps, order, k) <==> IsChainTo(deps, p, order[k])
    decreases k, 1, 0
  {
    var id := order[k];
    if DepsOf(deps, id) == [] {
      if IsChainTo(deps, p, id) && |p| >= 2 {
        ChainEnds(deps, p, id);
        assert false;
      }
      assert IsChainTo(deps, [id], id);
      assert IsChainTo(deps, p, id) ==> p == [id];
    } else {
      assert Settled(deps, order, k);
      ViaAreChains(deps, order, k, Unique(DepsOf(deps, id)), p);
      if IsChainTo(deps, p, id) {
        assert |p| >= 2;
        ChainEnds(deps, p, id);
      }
    }
  }

  lemma {:induction false} ViaAreChains(deps: Dependencies, order: seq<TaskId>, k: nat, ds: seq<TaskId>, p: seq<TaskId>)
    requires IsTopological(deps, order) && k < |order|
    requires forall d | d in ds :: d in order[..k] && DependsOn(deps, order[k], d)
    ensures p in ChainsVia(deps, order, k, ds) <==>
            |p| >= 2 && IsChainTo(deps, p, order[k]) && p[|p| - 2] in ds
    decreases k, 0, |ds|
  {
    if ds != [] {
      var j := Dag.IndexOf(order[..k], ds[0]);
      assert order[j] == ds[0];
      GrowContains(Chains(deps, order, j), order[k], p);
      if p != [] {
        ChainsAreChains(deps, order, j, p[..|p| - 1]);
        if |p| >= 2 {
          ChainEnds(deps, p, order[k]);
        }
      }
      ViaAreChains(deps, order, k, ds[1..], p);
    }
  }

  // And lists each of them once.
  lemma {:induction false} ChainsAreDistinct(deps: Dependencies, order: seq<TaskId>, k: nat)
    requires IsTopological(deps, order) && k < |order|
    ensures Distinct(Chains(deps, order, k))
    decreases k, 1, 0
  {
    if DepsOf(deps, order[k]) != [] {
      assert Settled(deps, order, k);
      ViaAreDistinct(deps, order, k, Unique(DepsOf(deps, order[k])));
    }
  }

  lemma {:induction false} ViaAreDistinct(deps: Dependencies, order: seq<TaskId>, k: nat, ds: seq<TaskId>)
    requires IsTopological(deps, order) && k < |order| && Distinct(ds)
    requires forall d | d in ds :: d in order[..k] && DependsOn(deps, order[k], d)
    ensures Distinct(ChainsVia(deps, order, k, ds))
    decreases k, 0, |ds|
  {
    if ds != [] {
      var j := Dag.IndexOf(order[..k], ds[0]);
      var first := Chains(deps, order, j);
      var grown := Grow(first, order[k]);
      var rest := ChainsVia(deps, order, k, ds[1..]);
      ChainsAreDistinct(deps, order, j);
      ViaAreDistinct(deps, order, k, ds[1..]);
      GrownDistinct(first, order[k]);
      forall a, b | 0 <= a < |grown| && 0 <= b < |rest| ensures grown[a] != rest[b] {
        assert first[a] in first && rest[b] in rest;
        ViaDiffers(deps, order, k, ds, first[a], rest[b]);
      }
      DistinctJoin(grown, rest);
    }
  }

  // Chains by way of different tasks differ in their last but one.
  lemma ViaDiffers(deps: Dependencies, order: seq<TaskId>, k: nat, ds: seq<TaskId>, p: seq<TaskId>, q: seq<TaskId>)
    requires IsTopological(deps, order) && k < |order| && ds != [] && Distinct(ds)
    requires forall d | d in ds :: d in order[..k] && DependsOn(deps, order[k], d)
    requires p in Chains(deps, order, Dag.IndexOf(order[..k], ds[0])) && q in ChainsVia(deps, order, k, ds[1..])
    ensures p + [order[k]] != q
  {
    ChainsAreChains(deps, order, Dag.IndexOf(order[..k], ds[0]), p);
    ViaAreChains(deps, order, k, ds[1..], q);
    var grown := p + [order[k]];
    assert grown[|grown| - 2] == ds[0];
    assert ds[0] !in ds[1..];
  }

  lemma GrownDistinct(ps: seq<seq<TaskId>>, id: TaskId)
    requires Distinct(ps)
    ensures Distinct(Grow(ps, id))
  {
    var grown := Grow(ps, id);
    forall a, b | 0 <= a < b < |grown| ensures grown[a] != grown[b] {
      assert grown[a][..|grown[a]| - 1] == ps[a] && grown[b][..|grown[b]| - 1] == ps[b];
    }
  }

  lemma DistinctJoin<T>(a: seq<T>, b: seq<T>)
    requires Distinct(a) && Distinct(b)
    requires forall i, j | 0 <= i < |a| && 0 <= j < |b| :: a[i] != b[j]
    ensures Distinct(a + b)
  {
  }

  ghost function ChainCount(deps: Dependencies, order: seq<TaskId>, id: TaskId): nat
    requires IsTopological(deps, order)
  {
    if id in order then |Chains(deps, order, Dag.IndexOf(order, id))| else 0
  }

  lemma IndexInPrefix(order: seq<TaskId>, k: nat, d: TaskId)
    requires k <= |order| && d in order[..k] && Distinct(order)
    ensures d in order && Dag.IndexOf(order, d) == Dag.IndexOf(order[..k], d)
  {
  }

  lemma {:induction false} ViaCount(deps: Dependencies, order: seq<TaskId>, k: nat, ds: seq<TaskId>)
    requires IsTopological(deps, order) && k < |order|
    requires forall d | d in ds :: d in order[..k]
    ensures |ChainsVia(deps, order, k, ds)| == Sum(ds, d => ChainCount(deps, order, d))
    decreases |ds|
  {
    if ds != [] {
      IndexInPrefix(order, k, ds[0]);
      ViaCount(deps, order, k, ds[1..]);
    }
  }

  // ---------------------------------------------------------------------------
  // Publications

  ghost function Publications(s: Sys, id: TaskId): nat {
    multiset(s.log)[Published(id)]
  }

  ghost function Handlings(s: Sys, id: TaskId): nat {
    multiset(s.log)[Handled(id)]
  }

  // Each published message is still under way or its result has been handled.
  ghost predicate Conserved(s: Sys) {
    forall id :: Publications(s, id) == Work(s, id) + Handlings(s, id)
  }

  ghost function EngineOwes(engine: Engine, id: TaskId): nat {
    match engine
    case EngineIdle => 0
    case Initialising(_) => 1
    case Submitting(todo) => if id in todo then 1 else 0
    case RootSent(todo, _) => if id in todo then 1 else 0
  }

  ghost function HandlerOwes(wf: Workflow, h: Handler, id: TaskId): nat {
    if !h.Idle? && DependsOn(wf.dependencies, id, h.msg.task) && WillVisit(h, id) then 1 else 0
  }

  // A root is published once; any other task at most once per handled result of each dependency.
  ghost predicate Limited(wf: Workflow, s: Sys, id: TaskId) {
    if DepsOf(wf.dependencies, id) == [] then
      Publications(s, id) + EngineOwes(s.engine, id) <= 1
    else
      Publications(s, id) + HandlerOwes(wf, s.handler, id) <=
        Sum(Unique(DepsOf(wf.dependencies, id)), d => Handlings(s, d))
  }

  ghost predicate AllLimited(wf: Workflow, s: Sys) {
    forall id | id in wf.tasks :: Limited(wf, s, id)
  }

  lemma EngineCounts(wf: Workflow, s: Sys, e: EngineStep, id: TaskId)
    requires EngineCan(wf, s, e)
    ensures Publications(EngineDoes(wf, s, e), id) == Publications(s, id) + (if e == SendRoot(id) then 1 else 0)
    ensures Handlings(EngineDoes(wf, s, e), id) == Handlings(s, id)
  {
  }

  lemma RunnerCounts(s: Sys, r: RunnerStep, id: TaskId)
    requires RunnerCan(s, r)
    ensures Publications(RunnerDoes(s, r), id) == Publications(s, id)
    ensures Handlings(RunnerDoes(s, r), id) == Handlings(s, id)
  {
  }

  lemma HandlerCounts(wf: Workflow, s: Sys, h: HandlerStep, id: TaskId)
    requires HandlerCan(wf, s, h)
    ensures Publications(HandlerDoes(wf, s, h), id) ==
            Publications(s, id) + (if h == Send && s.handler.id == id then 1 else 0)
    ensures Handlings(HandlerDoes(wf, s, h), id) ==
            Handlings(s, id) + (if h.Take? && h.msg.task == id then 1 else 0)
  {
  }

  lemma StepConserves(wf: Workflow, s: Sys, l: Label)
    requires Conserved(s) && TrafficShape(wf, s) && Enabled(wf, s, l) && Calm(l)
    ensures Conserved(Apply(wf, s, l))
  {
    var next := Apply(wf, s, l);
    forall id ensures Publications(next, id) == Work(next, id) + Handlings(next, id) {
      match l
      case ByEngine(e) => EngineWork(wf, s, e, id); EngineCounts(wf, s, e, id);
      case ByRunner(r) => RunnerWork(s, r, id); RunnerCounts(s, r, id);
      case ByHandler(h) => HandlerWork(wf, s, h, id); HandlerCounts(wf, s, h, id);
    }
  }

  lemma EngineKeepsLimit(wf: Workflow, s: Sys, e: EngineStep, id: TaskId)
    requires Limited(wf, s, id) && EngineShape(wf, s) && EngineCan(wf, s, e) && !e.Submit? && id in wf.tasks
    ensures Limited(wf, EngineDoes(wf, s, e), id)
  {
    var next := EngineDoes(wf, s, e);
    EngineCounts(wf, s, e, id);
    if DepsOf(wf.dependencies, id) != [] {
      var ds := Unique(DepsOf(wf.dependencies, id));
      forall d { EngineCounts(wf, s, e, d); }
      SumLe(ds, d => Handlings(s, d), d => Handlings(next, d));
      assert id !in Roots(wf);
    }
  }

  lemma RunnerKeepsLimit(wf: Workflow, s: Sys, r: RunnerStep, id: TaskId)
    requires Limited(wf, s, id) && RunnerCan(s, r)
    ensures Limited(wf, RunnerDoes(s, r), id)
  {
    var next := RunnerDoes(s, r);
    RunnerCounts(s, r, id);
    var ds := Unique(DepsOf(wf.dependencies, id));
    forall d { RunnerCounts(s, r, d); }
    SumLe(ds, d => Handlings(s, d), d => Handlings(next, d));
  }

  // Publishing a dependent uses up the handler's one chance to do so for the result it holds.
  lemma HandlerSpends(wf: Workflow, s: Sys, h: HandlerStep, id: TaskId)
    requires HandlerShape(wf, s) && HandlerCan(wf, s, h) && !h.Take?
    ensures (if h == Send && s.handler.id == id then 1 else 0) + HandlerOwes(wf, HandlerDoes(wf, s, h).handler, id)
            <= HandlerOwes(wf, s.handler, id)
  {
  }

  lemma HandlerKeepsLimit(wf: Workflow, s: Sys, h: HandlerStep, id: TaskId)
    requires Limited(wf, s, id) && HandlerShape(wf, s) && HandlerCan(wf, s, h)
    ensures Limited(wf, HandlerDoes(wf, s, h), id)
  {
    var next := HandlerDoes(wf, s, h);
    HandlerCounts(wf, s, h, id);
    var ds := Unique(DepsOf(wf.dependencies, id));
    forall d { HandlerCounts(wf, s, h, d); }
    if h.Take? {
      SumBump(ds, d => Handlings(s, d), d => Handlings(next, d), h.msg.task);
    } else {
      HandlerSpends(wf, s, h, id);
      SumLe(ds, d => Handlings(s, d), d => Handlings(next, d));
    }
  }

  ghost predicate Metered(wf: Workflow, s: Sys) {
    Shape(wf, s) && Conserved(s) && AllLimited(wf, s)
  }

  lemma StepKeepsMetered(wf: Workflow, s: Sys, l: Label)
    requires Accepted(wf) && Metered(wf, s) && Enabled(wf, s, l) && Calm(l)
    ensures Metered(wf, Apply(wf, s, l))
  {
    StepKeepsShape(wf, s, l);
    StepConserves(wf, s, l);
    forall id | id in wf.tasks ensures Limited(wf, Apply(wf, s, l), id) {
      match l
      case ByEngine(e) => EngineKeepsLimit(wf, s, e, id);
      case ByRunner(r) => RunnerKeepsLimit(wf, s, r, id);
      case ByHandler(h) => HandlerKeepsLimit(wf, s, h, id);
    }
  }

  lemma FreshIsMetered(wf: Workflow)
    requires Accepted(wf)
    ensures Metered(wf, Fresh(wf))
  {
    FreshIsSound(wf);
  }

  lemma {:induction false} RunKeepsMetered(wf: Workflow, s: Sys, ls: seq<Label>)
    requires Accepted(wf) && Metered(wf, s) && Runs(wf, s, ls) && AllCalm(ls)
    ensures Metered(wf, After(wf, s, ls))
    decreases |ls|
  {
    if ls != [] {
      assert Calm(ls[0]) && AllCalm(ls[1..]);
      StepKeepsMetered(wf, s, ls[0]);
      RunKeepsMetered(wf, Apply(wf, s, ls[0]), ls[1..]);
    }
  }

  lemma {:induction false} WithinChains(wf: Workflow, s: Sys, order: seq<TaskId>, k: nat)
    requires Closed(wf) && IsTopological(wf.dependencies, order) && Enumerates(order, wf.tasks.Keys)
    requires Conserved(s) && AllLimited(wf, s) && k < |order|
    ensures Publications(s, order[k]) <= |Chains(wf.dependencies, order, k)|
  {
    var deps := wf.dependencies;
    var id := order[k];
    assert id in order && Limited(wf, s, id);
    if DepsOf(deps, id) != [] {
      assert Settled(deps, order, k);
      var ds := Unique(DepsOf(deps, id));
      forall d | d in ds ensures Handlings(s, d) <= ChainCount(deps, order, d) {
        assert d in order[..k];
        IndexInPrefix(order, k, d);
        var j := Dag.IndexOf(order[..k], d);
        WithinChains(wf, s, order, j);
        assert order[j] == d;
        assert Publications(s, d) == Work(s, d) + Handlings(s, d);
      }
      SumLe(ds, d => Handlings(s, d), d => ChainCount(deps, order, d));
      ViaCount(deps, order, k, ds);
    }
  }

  // In a run without faults a task is published at most once per chain of dependents
  // that leads from a root to it.
  lemma PublishedOncePerChain(wf: Workflow, order: seq<TaskId>, ls: seq<Label>, k: nat)
    requires Accepted(wf) && IsTopological(wf.dependencies, order) && Enumerates(order, wf.tasks.Keys)
    requires Runs(wf, Fresh(wf), ls) && AllCalm(ls) && k < |order|
    ensures Publications(After(wf, Fresh(wf), ls), order[k]) <= |Chains(wf.dependencies, order, k)|
  {
    FreshIsMetered(wf);
    RunKeepsMetered(wf, Fresh(wf), ls);
    WithinChains(wf, After(wf, Fresh(wf), ls), order, k);
  }

  // ---------------------------------------------------------------------------
  // Termination

  ghost function AllChains(deps: Dependencies, order: seq<TaskId>): nat
    requires IsTopological(deps, order)
  {
    Sum(order, id => ChainCount(deps, order, id))
  }

  ghost function AllPublications(s: Sys, order: seq<TaskId>): nat {
    Sum(order, id => Publications(s, id))
  }

  // No dependency list is longer than all of them together.
  ghost function Width(deps: Dependencies, order: seq<TaskId>): nat {
    Sum(order, id => |DepsOf(deps, id)|)
  }

  lemma {:induction false} SummandLe(xs: seq<TaskId>, f: TaskId -> nat, x: TaskId)
    requires x in xs
    ensures f(x) <= Sum(xs, f)
  {
    if x != xs[0] {
      SummandLe(xs[1..], f, x);
    }
  }

  // n times c, by repeated addition.
  ghost function Times(n: nat, c: nat): nat {
    if n == 0 then 0 else Times(n - 1, c) + c
  }

  lemma {:induction false} TimesGrows(n: nat, m: nat, c: nat)
    requires n <= m && c >= 1
    ensures Times(n, c) <= Times(m, c) && m <= Times(m, c)
    decreases m
  {
    if n < m {
      TimesGrows(n, m - 1, c);
    } else if n > 0 {
      TimesGrows(n - 1, m - 1, c);
    }
  }

  // Steps the handler may spend on one dependent, and on one result.
  ghost function PerDependent(wf: Workflow, order: seq<TaskId>): nat {
    Width(wf.dependencies, order) + 3
  }

  ghost function PerResult(wf: Workflow, order: seq<TaskId>): nat {
    |wf.tasks| + 2 + Times(|wf.tasks|, PerDependent(wf, order))
  }

  ghost function HandlerLeft(wf: Workflow, order: seq<TaskId>, h: Handler): nat {
    var w := PerDependent(wf, order);
    match h
    case Idle => 0
    case Checking(_, todo, _) => |todo| + 2 + Times(|wf.tasks|, w)
    case Aggregating(_, todo, _) => |todo| + 1
    case Scanning(_, todo) => Times(|todo|, w) + 1
    case Probing(_, todo, id, k) =>
      Times(|todo|, w) + 3 + (if k <= |DepsOf(wf.dependencies, id)| then |DepsOf(wf.dependencies, id)| - k else 0)
    case Sent(_, todo, _) => Times(|todo|, w) + 2
  }

  ghost function EngineLeft(wf: Workflow, engine: Engine): nat {
    match engine
    case EngineIdle => 0
    case Initialising(todo) => |todo| + 2 * |wf.tasks| + 2
    case Submitting(todo) => 2 * |todo| + 1
    case RootSent(todo, _) => 2 * |todo| + 2
  }

  // Publications that are still possible.
  ghost function PublicationsLeft(wf: Workflow, order: seq<TaskId>, s: Sys): nat
    requires IsTopological(wf.dependencies, order)
  {
    var all := AllChains(wf.dependencies, order);
    if AllPublications(s, order) <= all then all - AllPublications(s, order) else 0
  }

  ghost function TrafficLeft(s: Sys, c: nat): nat {
    Times(|s.queue|, c + 4) + Times(|s.running|, c + 3) + Times(|s.stored|, c + 2) + Times(|s.results|, c + 1)
  }

  // Publications still possible, messages under way and loop iterations ahead, each
  // weighted with the steps it can still cause.
  ghost function Left(wf: Workflow, order: seq<TaskId>, s: Sys): nat
    requires IsTopological(wf.dependencies, order)
  {
    var c := PerResult(wf, order);
    Times(PublicationsLeft(wf, order, s), c + 5) + TrafficLeft(s, c)
    + HandlerLeft(wf, order, s.handler) + EngineLeft(wf, s.engine)
  }
}
