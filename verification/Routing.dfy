// Which runners hear a task: the subjects that tasks are published on, and the filters that
// runners subscribe with.

module Routing {
  import opened Workflows
  import opened Basics

  // ---------------------------------------------------------------------------
  // Subjects and filters

  // The tokens of a subject, between its dots.
  function Tokens(s: string): (r: seq<string>)
    ensures r != []
  {
    if s == "" then [""]
    else
      var rest := Tokens(s[1..]);
      if s[0] == '.' then [""] + rest else [[s[0]] + rest[0]] + rest[1..]
  }

  lemma {:induction false} TokensJoin(a: string, b: string)
    ensures Tokens(a + "." + b) == Tokens(a) + Tokens(b)
  {
    var s := a + "." + b;
    if a == "" {
      assert s[1..] == b;
    } else {
      assert s[0] == a[0] && s[1..] == a[1..] + "." + b;
      TokensJoin(a[1..], b);
    }
  }

  lemma {:induction false} OneToken(s: string)
    requires '.' !in s
    ensures Tokens(s) == [s]
  {
    if s != "" {
      OneToken(s[1..]);
      assert s == [s[0]] + s[1..];
    }
  }

  // A star stands for one token, a final greater-than sign for one or more.
  predicate Matches(filter: seq<string>, subject: seq<string>) {
    if filter == [] then subject == []
    else if filter == [">"] then subject != []
    else subject != [] && (filter[0] == "*" || filter[0] == subject[0]) && Matches(filter[1..], subject[1..])
  }

  predicate Hears(filter: string, subject: string) {
    Matches(Tokens(filter), Tokens(subject))
  }

  predicate Plain(tokens: seq<string>) {
    forall i | 0 <= i < |tokens| :: tokens[i] != "*" && tokens[i] != ">"
  }

  // Plain tokens with a final sign match exactly what begins with them and goes on.
  lemma {:induction false} MatchesIsPrefix(front: seq<string>, subject: seq<string>)
    requires Plain(front)
    ensures Matches(front + [">"], subject) <==> front < subject
  {
    var filter := front + [">"];
    if front == [] {
      assert filter == [">"];
    } else {
      assert filter[1..] == front[1..] + [">"];
      if subject != [] && front[0] == subject[0] {
        MatchesIsPrefix(front[1..], subject[1..]);
        assert front[1..] < subject[1..] ==> front < subject;
        assert front < subject ==> front[1..] < subject[1..];
      }
    }
  }

  // ---------------------------------------------------------------------------
  // The dispatcher

  // Dots at both ends are dropped, and nothing becomes the default.
  function TrimLeft(s: string): string {
    if s != "" && s[0] == '.' then TrimLeft(s[1..]) else s
  }

  function TrimRight(s: string): string {
    if s != "" && s[|s| - 1] == '.' then TrimRight(s[..|s| - 1]) else s
  }

  function SubjectPrefix(prefix: string): string {
    var trimmed := TrimRight(TrimLeft(prefix));
    if trimmed == "" then "workflow" else trimmed
  }

  function RuntimeName(runtime: string): string {
    if runtime == "" then "wasm" else runtime
  }

  // The parts of subjects and filters that follow the prefix.
  function SandboxPart(runtime: string, last: string): string {
    "sandbox" + "." + (runtime + "." + last)
  }

  function NodePart(node: string, runtime: string, last: string): string {
    "node" + "." + (node + "." + SandboxPart(runtime, last))
  }

  function SubjectForRuntime(prefix: string, runtime: string, processorId: string): string {
    SubjectPrefix(prefix) + "." + SandboxPart(RuntimeName(runtime), processorId)
  }

  function SubjectForNode(prefix: string, node: string, runtime: string, processorId: string): string {
    SubjectPrefix(prefix) + "." + NodePart(node, RuntimeName(runtime), processorId)
  }

  // How the runtime of a task is found: not at all, by name, or together with a node that
  // suits it. Looking up may fail, and there may be no node to prefer.
  datatype Resolver =
    | NoResolver
    | ByRuntime(runtime: Option<string>)
    | ByPlacement(runtime: Option<string>, node: Option<string>)

  // The subject of a task; None is an error.
  function RouteTask(resolver: Resolver, prefix: string, t: Task): Option<string> {
    if resolver.NoResolver? || !t.sandboxed || t.processorId == "" then
      Some(if t.sandboxed && t.processorId != "" then "PROCESSOR.sandbox." + t.processorId else t.subject)
    else if resolver.runtime.None? then None
    else if resolver.ByPlacement? && resolver.node.None? then None
    else if resolver.ByPlacement? && resolver.node.value != "" then
      Some(SubjectForNode(prefix, resolver.node.value, resolver.runtime.value, t.processorId))
    else
      Some(SubjectForRuntime(prefix, resolver.runtime.value, t.processorId))
  }

  // ---------------------------------------------------------------------------
  // The runner

  const MAX_RUNTIMES: nat := 64

  function RuntimeFilter(prefix: string, runtime: string): string {
    prefix + "." + SandboxPart(runtime, ">")
  }

  function NodeFilter(prefix: string, node: string, runtime: string): string {
    prefix + "." + NodePart(node, runtime, ">")
  }

  // The runner takes its prefix as it is given, dots and all.
  function RunnerPrefix(prefix: string): string {
    if prefix == "" then "wlow.processor" else prefix
  }

  // The runtimes that are subscribed to: the first 64 of those listed.
  function Served(runtimes: seq<string>): seq<string> {
    runtimes[..if |runtimes| < MAX_RUNTIMES then |runtimes| else MAX_RUNTIMES]
  }

  function SandboxFilter(): string {
    "sandbox" + "." + ">"
  }

  // The filter wlow.processor.sandbox.>
  const DEFAULT_FILTER := "wlow" + "." + ("processor" + "." + SandboxFilter())

  // What a runner subscribes to that lists no runtimes.
  function SingleFilter(single: string): string {
    if single == "" then DEFAULT_FILTER else single
  }

  method ConsumerFilters(prefix: string, node: string, runtimes: seq<string>, single: string)
    returns (filters: seq<string>)
    ensures runtimes != [] ==>
              forall f ::
                f in filters <==>
                exists r :: r in Served(runtimes) &&
                            (f == RuntimeFilter(prefix, r) || (node != "" && f == NodeFilter(prefix, node, r)))
    ensures runtimes == [] ==> filters == [SingleFilter(single)]
    ensures |filters| <= 2 * MAX_RUNTIMES
  {
    if |runtimes| == 0 {
      return [SingleFilter(single)];
    }
    var count := if |runtimes| < MAX_RUNTIMES then |runtimes| else MAX_RUNTIMES;
    filters := [];
    for i := 0 to count
      invariant forall f :: f in filters <==>
                  exists r :: r in runtimes[..i] &&
                              (f == RuntimeFilter(prefix, r) || (node != "" && f == NodeFilter(prefix, node, r)))
      invariant |filters| <= 2 * i
    {
      assert runtimes[..i + 1] == runtimes[..i] + [runtimes[i]];
      filters := filters + [RuntimeFilter(prefix, runtimes[i])];
      if node != "" {
        filters := filters + [NodeFilter(prefix, node, runtimes[i])];
      }
    }
  }

  // Some filter of a runner that lists runtimes matches the subject.
  ghost predicate Reaches(subject: string, prefix: string, node: string, runtimes: seq<string>) {
    exists r :: r in Served(runtimes) && ReachesVia(subject, prefix, node, r)
  }

  predicate ReachesVia(subject: string, prefix: string, node: string, r: string) {
    Hears(RuntimeFilter(prefix, r), subject) || (node != "" && Hears(NodeFilter(prefix, node, r), subject))
  }

  // ---------------------------------------------------------------------------
  // Agreement

  // Names that are one token and no sign.
  predicate Name(s: string) {
    '.' !in s && s != "*" && s != ">"
  }

  lemma SandboxTokens(r: string, last: string)
    requires '.' !in r
    ensures Tokens(SandboxPart(r, last)) == ["sandbox", r] + Tokens(last)
  {
    TwoTokens("sandbox", r, last);
  }

  lemma TwoTokens(a: string, b: string, last: string)
    requires '.' !in a && '.' !in b
    ensures Tokens(a + "." + (b + "." + last)) == [a, b] + Tokens(last)
  {
    TokensJoin(a, b + "." + last);
    TokensJoin(b, last);
    OneToken(a);
    OneToken(b);
  }

  lemma NodeTokens(n: string, r: string, last: string)
    requires '.' !in n && '.' !in r
    ensures Tokens(NodePart(n, r, last)) == ["node", n, "sandbox", r] + Tokens(last)
  {
    TwoTokens("node", n, SandboxPart(r, last));
    SandboxTokens(r, last);
  }

  // A runtime filter hears exactly what begins with its prefix and its runtime.
  lemma RuntimeFilterHears(q: string, r: string, subject: string)
    requires Plain(Tokens(q)) && Name(r)
    ensures Hears(RuntimeFilter(q, r), subject) <==> Tokens(q) + ["sandbox", r] < Tokens(subject)
  {
    TokensJoin(q, SandboxPart(r, ">"));
    SandboxTokens(r, ">");
    OneToken(">");
    var front := Tokens(q) + ["sandbox", r];
    assert Tokens(RuntimeFilter(q, r)) == front + [">"];
    MatchesIsPrefix(front, Tokens(subject));
  }

  lemma NodeFilterHears(q: string, n: string, r: string, subject: string)
    requires Plain(Tokens(q)) && Name(n) && Name(r)
    ensures Hears(NodeFilter(q, n, r), subject) <==> Tokens(q) + ["node", n, "sandbox", r] < Tokens(subject)
  {
    TokensJoin(q, NodePart(n, r, ">"));
    NodeTokens(n, r, ">");
    OneToken(">");
    var front := Tokens(q) + ["node", n, "sandbox", r];
    assert Tokens(NodeFilter(q, n, r)) == front + [">"];
    MatchesIsPrefix(front, Tokens(subject));
  }

  // ---------------------------------------------------------------------------
  // Prefixes

  // The tokens of a prefix that the runner did not trim cannot begin a subject.
  ghost predicate Astray(q: seq<string>, p: seq<string>)
    requires q != [] && p != []
  {
    q[0] != p[0] || (|q| > |p| && p <= q && q[|p|] == "")
  }

  lemma AstrayMisses(q: seq<string>, p: seq<string>, front: seq<string>, tail: seq<string>)
    requires q != [] && p != [] && Astray(q, p) && tail != [] && tail[0] != ""
    ensures !(q + front < p + tail)
  {
    if q + front < p + tail {
      if q[0] != p[0] {
        SameAt(q + front, p + tail, 0);
      } else {
        SameAt(q + front, p + tail, |p|);
      }
    }
  }

  lemma SameAt(a: seq<string>, b: seq<string>, i: nat)
    requires a < b && i < |a|
    ensures a[i] == b[i]
  {
  }

  lemma {:induction false} FirstToken(s: string)
    ensures Tokens(s)[0] == "" <==> s == "" || s[0] == '.'
  {
  }

  lemma {:induction false} TrimLeftStarts(s: string)
    ensures TrimLeft(s) == "" || TrimLeft(s)[0] != '.'
    ensures TrimLeft(s) == s || s[0] == '.'
  {
    if s != "" && s[0] == '.' {
      TrimLeftStarts(s[1..]);
    }
  }

  lemma {:induction false} TrimRightTokens(s: string)
    ensures TrimRight(s) <= s
    ensures TrimRight(s) != s ==>
              var (p, q) := (Tokens(TrimRight(s)), Tokens(s)); |q| > |p| && p <= q && q[|p|] == ""
  {
    if s != "" && s[|s| - 1] == '.' {
      var front := s[..|s| - 1];
      TrimRightTokens(front);
      assert s == front + "." + "";
      TokensJoin(front, "");
      assert Tokens("") == [""];
    }
  }

  // The runner and the dispatcher agree on a prefix that needs no trimming, and on no other.
  lemma PrefixesAgreeOrStray(prefix: string)
    ensures RunnerPrefix(prefix) == SubjectPrefix(prefix) ||
            Astray(Tokens(RunnerPrefix(prefix)), Tokens(SubjectPrefix(prefix)))
  {
    TrimLeftStarts(prefix);
    TrimRightTokens(TrimLeft(prefix));
    if prefix == "" {
      DefaultsDisagree();
    } else if TrimLeft(prefix) != prefix {
      FirstToken(prefix);
      FirstToken(SubjectPrefix(prefix));
    } else if TrimRight(prefix) != prefix {
      assert Tokens("") == [""];
      FirstToken(prefix);
    }
  }

  // Without any prefix, the runner and the dispatcher fall back on different ones.
  lemma DefaultsDisagree()
    ensures Astray(Tokens(RunnerPrefix("")), Tokens(SubjectPrefix("")))
  {
    TokensJoin("wlow", "processor");
    assert "wlow" + "." + "processor" == "wlow.processor";
    OneToken("wlow");
    OneToken("workflow");
  }

  // ---------------------------------------------------------------------------
  // Who hears a task

  // A runtime subject reaches a runner with the same configured prefix exactly when that
  // prefix needs no trimming and the runtime is among the first 64 the runner lists.
  lemma RuntimeReachesIff(prefix: string, runtime: string, processorId: string, node: string, runtimes: seq<string>)
    requires Plain(Tokens(RunnerPrefix(prefix))) && Name(RuntimeName(runtime))
    requires (node != "" ==> Name(node)) && forall r | r in runtimes :: Name(r)
    ensures Reaches(SubjectForRuntime(prefix, runtime, processorId), RunnerPrefix(prefix), node, runtimes) <==>
            RunnerPrefix(prefix) == SubjectPrefix(prefix) && RuntimeName(runtime) in Served(runtimes)
  {
    var (q, p, name) := (RunnerPrefix(prefix), SubjectPrefix(prefix), RuntimeName(runtime));
    var subject := SubjectForRuntime(prefix, runtime, processorId);
    forall r | r in Served(runtimes) ensures ReachesVia(subject, q, node, r) <==> q == p && r == name {
      RuntimeReachesVia(prefix, name, processorId, node, r);
    }
  }

  lemma RuntimeReachesVia(prefix: string, name: string, processorId: string, node: string, r: string)
    requires Plain(Tokens(RunnerPrefix(prefix))) && Name(name) && (node != "" ==> Name(node)) && Name(r)
    ensures ReachesVia(SubjectPrefix(prefix) + "." + SandboxPart(name, processorId), RunnerPrefix(prefix), node, r) <==>
            RunnerPrefix(prefix) == SubjectPrefix(prefix) && r == name
  {
    var q, p := RunnerPrefix(prefix), SubjectPrefix(prefix);
    var subject, tail := p + "." + SandboxPart(name, processorId), ["sandbox", name] + Tokens(processorId);
    TokensJoin(p, SandboxPart(name, processorId));
    SandboxTokens(name, processorId);
    RuntimeFilterHears(q, r, subject);
    if node != "" {
      NodeFilterHears(q, node, r, subject);
    }
    assert Tokens(subject) == Tokens(p) + tail;
    if q == p {
      assert tail[0] == "sandbox" && tail[1] == name && |tail| > 2;
      assert ["sandbox", name] <= tail && (["sandbox", r] < tail ==> ["sandbox", r][1] == tail[1]);
      assert ["node", node, "sandbox", r][0] != tail[0];
      AfterPrefix(Tokens(p), ["sandbox", r], tail);
      AfterPrefix(Tokens(p), ["node", node, "sandbox", r], tail);
    } else {
      PrefixesAgreeOrStray(prefix);
      AstrayMisses(Tokens(q), Tokens(p), ["sandbox", r], tail);
      AstrayMisses(Tokens(q), Tokens(p), ["node", node, "sandbox", r], tail);
    }
  }

  lemma AfterPrefix(p: seq<string>, front: seq<string>, tail: seq<string>)
    ensures p + front < p + tail <==> front < tail
  {
    if front < tail {
      assert p + tail == p + front + tail[|front|..];
    }
    if p + front < p + tail {
      assert (p + tail)[..|p + front|] == p + front;
      assert tail[..|front|] == (p + tail)[|p|..|p| + |front|];
      assert front == (p + front)[|p|..];
    }
  }

  // A runner that lists no runtimes and keeps the default filter hears the task, of whatever
  // runtime, exactly when the dispatcher's prefix is the runner's default one, or continues
  // that with the next token of the filter.
  lemma DefaultFilterHearsIff(prefix: string, runtime: string, processorId: string)
    requires Name(RuntimeName(runtime))
    ensures Hears(SingleFilter(""), SubjectForRuntime(prefix, runtime, processorId)) <==>
            var p := Tokens(SubjectPrefix(prefix)); p == DefaultFront()[..2] || DefaultFront() <= p
  {
    DefaultFilterTokens();
    FrontHears(DefaultFront(), SingleFilter(""), SubjectPrefix(prefix), RuntimeName(runtime), processorId);
  }

  function DefaultFront(): seq<string> {
    ["wlow", "processor", "sandbox"]
  }

  lemma FrontHears(front: seq<string>, filter: string, prefix: string, name: string, processorId: string)
    requires Tokens(filter) == front + [">"] && Plain(front) && |front| == 3 && front[2] == "sandbox" && Name(name)
    requires front[1] != "sandbox"
    ensures Hears(filter, prefix + "." + SandboxPart(name, processorId)) <==>
            Tokens(prefix) == front[..2] || front <= Tokens(prefix)
  {
    var p, rest := Tokens(prefix), Tokens(processorId);
    TokensJoin(prefix, SandboxPart(name, processorId));
    SandboxTokens(name, processorId);
    MatchesIsPrefix(front, p + (["sandbox", name] + rest));
    FrontOrSandbox(p, "sandbox", name, rest, front);
  }

  lemma FrontOrSandbox(p: seq<string>, sandbox: string, name: string, rest: seq<string>, front: seq<string>)
    requires p != [] && rest != [] && |front| == 3 && front[2] == sandbox != front[1]
    ensures front < p + ([sandbox, name] + rest) <==> p == front[..2] || front <= p
  {
    var s := p + ([sandbox, name] + rest);
    assert s[|p|] == sandbox && |s| >= |p| + 3;
    assert forall i | 0 <= i < |p| :: s[i] == p[i];
    assert front < s <==> s[0] == front[0] && s[1] == front[1] && s[2] == front[2];
  }

  lemma DefaultFilterTokens()
    ensures Tokens(DEFAULT_FILTER) == DefaultFront() + [">"]
  {
    TwoTokens("wlow", "processor", SandboxFilter());
    TokensJoin("sandbox", ">");
    OneToken("sandbox");
    OneToken(">");
  }

  // A node subject reaches exactly that node, on the same terms.
  lemma NodeReachesIff(prefix: string, target: string, runtime: string, processorId: string, node: string,
                       runtimes: seq<string>)
    requires Plain(Tokens(RunnerPrefix(prefix))) && Name(RuntimeName(runtime)) && Name(target) && target != ""
    requires (node != "" ==> Name(node)) && forall r | r in runtimes :: Name(r)
    ensures Reaches(SubjectForNode(prefix, target, runtime, processorId), RunnerPrefix(prefix), node, runtimes) <==>
            && RunnerPrefix(prefix) == SubjectPrefix(prefix) && RuntimeName(runtime) in Served(runtimes)
            && node == target
  {
    var (q, p, name) := (RunnerPrefix(prefix), SubjectPrefix(prefix), RuntimeName(runtime));
    var subject := SubjectForNode(prefix, target, runtime, processorId);
    forall r | r in Served(runtimes)
      ensures ReachesVia(subject, q, node, r) <==> q == p && r == name && node == target
    {
      NodeReachesVia(prefix, target, name, processorId, node, r);
    }
  }

  lemma NodeReachesVia(prefix: string, target: string, name: string, processorId: string, node: string, r: string)
    requires Plain(Tokens(RunnerPrefix(prefix))) && Name(name) && Name(target) && target != ""
    requires (node != "" ==> Name(node)) && Name(r)
    ensures
      var subject := SubjectPrefix(prefix) + "." + NodePart(target, name, processorId);
      ReachesVia(subject, RunnerPrefix(prefix), node, r) <==>
      RunnerPrefix(prefix) == SubjectPrefix(prefix) && r == name && node == target
  {
    var q, p := RunnerPrefix(prefix), SubjectPrefix(prefix);
    var subject := p + "." + NodePart(target, name, processorId);
    var tail := ["node", target, "sandbox", name] + Tokens(processorId);
    TokensJoin(p, NodePart(target, name, processorId));
    NodeTokens(target, name, processorId);
    RuntimeFilterHears(q, r, subject);
    if node != "" {
      NodeFilterHears(q, node, r, subject);
    }
    assert Tokens(subject) == Tokens(p) + tail;
    if q == p {
      var front := ["node", node, "sandbox", r];
      assert tail[0] == "node" && tail[1] == target && tail[3] == name && |tail| > 4;
      assert ["node", target, "sandbox", name] <= tail && (front < tail ==> front[1] == tail[1] && front[3] == tail[3]);
      assert ["sandbox", r][0] != tail[0];
      AfterPrefix(Tokens(p), ["sandbox", r], tail);
      AfterPrefix(Tokens(p), ["node", node, "sandbox", r], tail);
    } else {
      PrefixesAgreeOrStray(prefix);
      AstrayMisses(Tokens(q), Tokens(p), ["sandbox", r], tail);
      AstrayMisses(Tokens(q), Tokens(p), ["node", node, "sandbox", r], tail);
    }
  }

  // The node a task is meant for, if any.
  function Target(resolver: Resolver): string
    requires !resolver.NoResolver?
  {
    if resolver.ByPlacement? && resolver.node.Some? then resolver.node.value else ""
  }

  // A sandboxed task that was routed reaches a runner exactly when that runner serves its
  // runtime and, where a node was chosen, is that node.
  lemma RoutedTaskReachesIff(resolver: Resolver, prefix: string, t: Task, node: string, runtimes: seq<string>)
    requires !resolver.NoResolver? && t.sandboxed && t.processorId != "" && RouteTask(resolver, prefix, t).Some?
    requires Plain(Tokens(RunnerPrefix(prefix))) && Name(RuntimeName(resolver.runtime.value)) && Name(Target(resolver))
    requires (node != "" ==> Name(node)) && forall r | r in runtimes :: Name(r)
    ensures Reaches(RouteTask(resolver, prefix, t).value, RunnerPrefix(prefix), node, runtimes) <==>
            && RunnerPrefix(prefix) == SubjectPrefix(prefix)
            && RuntimeName(resolver.runtime.value) in Served(runtimes)
            && (Target(resolver) != "" ==> node == Target(resolver))
  {
    if Target(resolver) != "" {
      NodeReachesIff(prefix, Target(resolver), resolver.runtime.value, t.processorId, node, runtimes);
    } else {
      RuntimeReachesIff(prefix, resolver.runtime.value, t.processorId, node, runtimes);
    }
  }
}
