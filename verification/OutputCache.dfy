// The output cache: what a runner answers with it, compared with a runner that always
// executes, and when two tasks share a key.

module OutputCache {
  import opened Strings
  import opened Basics

  // What a processor and a reference resolve to: the manifest's digest, and whether it says that
  // the program is deterministic.
  datatype Executable = Executable(digest: string, deterministic: bool)

  // One execution request; attempt stands for everything that may differ between two
  // executions of the same request.
  datatype Call = Call(tenant: string, processor: string, ref: string, input: string, attempt: nat)

  // What the runner consults: resolution of references, the programs, and the hash function.
  datatype World = World(
    resolve: (string, string, string) -> Option<Executable>,
    program: (Executable, string, nat) -> Option<string>,
    hash: string -> string)

  const NUL := 0 as char

  function CacheKey(hash: string -> string, processor: string, ref: string, input: string): string {
    "out." + hash(processor + [NUL] + ref + [NUL] + hash(input))
  }

  function KeyOf(w: World, c: Call): string {
    CacheKey(w.hash, c.processor, c.ref, c.input)
  }

  function ExecutableOf(w: World, c: Call): Option<Executable> {
    w.resolve(c.tenant, c.processor, c.ref)
  }

  predicate Cacheable(w: World, c: Call) {
    ExecutableOf(w, c).Some? && ExecutableOf(w, c).value.deterministic
  }

  // The output of executing the request; None is a failure.
  function Direct(w: World, c: Call): Option<string> {
    var m := ExecutableOf(w, c);
    if m.None? then None else w.program(m.value, c.input, c.attempt)
  }

  // The answer of a runner with a cache, and the cache afterwards.
  function Serve(w: World, cache: map<string, string>, c: Call): (map<string, string>, Option<string>) {
    var key := KeyOf(w, c);
    if Cacheable(w, c) && key in cache then
      (cache, Some(cache[key]))
    else
      var output := Direct(w, c);
      (if Cacheable(w, c) && output.Some? then cache[key := output.value] else cache, output)
  }

  function ServeAll(w: World, cache: map<string, string>, calls: seq<Call>): seq<Option<string>>
    decreases |calls|
  {
    if calls == [] then []
    else
      var (next, output) := Serve(w, cache, calls[0]);
      [output] + ServeAll(w, next, calls[1..])
  }

  function DirectAll(w: World, calls: seq<Call>): seq<Option<string>> {
    seq(|calls|, i requires 0 <= i < |calls| => Direct(w, calls[i]))
  }

  // Requests of the pool that share a key have one output.
  ghost predicate KeysAgree(w: World, pool: iset<Call>) {
    forall c, d | c in pool && d in pool && Shares(w, c, d) :: Direct(w, d) == Direct(w, c)
  }

  // The output of c may be given as the answer to d.
  ghost predicate Shares(w: World, c: Call, d: Call) {
    Cacheable(w, c) && Cacheable(w, d) && KeyOf(w, c) == KeyOf(w, d) && Direct(w, c).Some?
  }

  // Every entry is the output of some request with that key; failures are never kept.
  ghost predicate Sound(w: World, pool: iset<Call>, cache: map<string, string>) {
    forall key | key in cache :: exists c :: c in pool && Backs(w, c, key, cache[key])
  }

  ghost predicate Backs(w: World, c: Call, key: string, output: string) {
    Cacheable(w, c) && KeyOf(w, c) == key && Direct(w, c) == Some(output)
  }

  lemma ServeKeepsSound(w: World, pool: iset<Call>, cache: map<string, string>, c: Call)
    requires Sound(w, pool, cache) && c in pool
    ensures Sound(w, pool, Serve(w, cache, c).0)
  {
    var (next, output) := Serve(w, cache, c);
    forall key | key in next ensures exists d :: d in pool && Backs(w, d, key, next[key]) {
      if key in cache && next[key] == cache[key] {
      } else {
        assert Backs(w, c, key, next[key]);
      }
    }
  }

  lemma AgreedAnswer(w: World, pool: iset<Call>, cache: map<string, string>, c: Call)
    requires Sound(w, pool, cache) && KeysAgree(w, pool) && c in pool
    ensures Serve(w, cache, c).1 == Direct(w, c)
  {
    var key := KeyOf(w, c);
    if Cacheable(w, c) && key in cache {
      var d :| d in pool && Backs(w, d, key, cache[key]);
      assert Shares(w, d, c);
    }
  }

  lemma {:induction false} AgreedAnswers(w: World, pool: iset<Call>, cache: map<string, string>, calls: seq<Call>)
    requires Sound(w, pool, cache) && KeysAgree(w, pool) && forall c | c in calls :: c in pool
    ensures ServeAll(w, cache, calls) == DirectAll(w, calls)
    decreases |calls|
  {
    if calls != [] {
      AgreedAnswer(w, pool, cache, calls[0]);
      ServeKeepsSound(w, pool, cache, calls[0]);
      AgreedAnswers(w, pool, Serve(w, cache, calls[0]).0, calls[1..]);
      assert DirectAll(w, calls) == [Direct(w, calls[0])] + DirectAll(w, calls[1..]);
    }
  }

  // Starting from an empty cache, no sequence of requests of the pool can tell the cache
  // from always executing.
  ghost predicate Transparent(w: World, pool: iset<Call>) {
    forall calls: seq<Call> | forall c | c in calls :: c in pool :: ServeAll(w, map[], calls) == DirectAll(w, calls)
  }

  // That is so exactly when requests that share a key have one output.
  lemma TransparentIff(w: World, pool: iset<Call>)
    ensures Transparent(w, pool) <==> KeysAgree(w, pool)
  {
    if KeysAgree(w, pool) {
      forall calls: seq<Call> | forall c | c in calls :: c in pool
        ensures ServeAll(w, map[], calls) == DirectAll(w, calls)
      {
        AgreedAnswers(w, pool, map[], calls);
      }
    } else {
      var c, d :| c in pool && d in pool && Shares(w, c, d) && Direct(w, d) != Direct(w, c);
      SecondIsServed(w, c, d);
      assert forall x | x in [c, d] :: x in pool;
    }
  }

  lemma SecondIsServed(w: World, c: Call, d: Call)
    requires Shares(w, c, d) && Direct(w, d) != Direct(w, c)
    ensures ServeAll(w, map[], [c, d]) == [Direct(w, c), Direct(w, c)]
    ensures ServeAll(w, map[], [c, d]) != DirectAll(w, [c, d])
  {
    var cache := Serve(w, map[], c).0;
    assert [c, d][1..] == [d] && [d][1..] == [];
    assert ServeAll(w, cache, [d]) == [Direct(w, c)];
    assert ServeAll(w, map[], [c, d]) == [Direct(w, c)] + [Direct(w, c)];
    assert DirectAll(w, [c, d])[1] == Direct(w, d);
  }

  // ---------------------------------------------------------------------------
  // Keys

  // The hash does not confuse these two inputs.
  predicate Separates(hash: string -> string, a: string, b: string) {
    hash(a) == hash(b) ==> a == b
  }

  function Preimage(hash: string -> string, processor: string, ref: string, input: string): string {
    processor + [NUL] + ref + [NUL] + hash(input)
  }

  // For names without NUL, and unless the hash confuses the inputs at hand, two tasks have
  // one key exactly when processor, reference and encoded input agree.
  lemma KeysEqualIff(hash: string -> string, p: string, r: string, i: string, q: string, s: string, j: string)
    requires NUL !in p && NUL !in r && NUL !in q && NUL !in s
    requires Separates(hash, i, j) && Separates(hash, Preimage(hash, p, r, i), Preimage(hash, q, s, j))
    ensures CacheKey(hash, p, r, i) == CacheKey(hash, q, s, j) <==> p == q && r == s && i == j
  {
    if CacheKey(hash, p, r, i) == CacheKey(hash, q, s, j) {
      var a, b := Preimage(hash, p, r, i), Preimage(hash, q, s, j);
      assert CacheKey(hash, p, r, i)[4..] == hash(a) && CacheKey(hash, q, s, j)[4..] == hash(b);
      assert a == p + [NUL] + (r + [NUL] + hash(i));
      assert b == q + [NUL] + (s + [NUL] + hash(j));
      CutAtMark(NUL, p, q, r + [NUL] + hash(i), s + [NUL] + hash(j));
      CutAtMark(NUL, r, s, hash(i), hash(j));
    }
  }

  // With the separator inside a name, different tasks share a key whatever the hash.
  lemma SeparatorConfusesNames(hash: string -> string, p: string, x: string, r: string, input: string)
    ensures CacheKey(hash, p + [NUL] + x, r, input) == CacheKey(hash, p, x + [NUL] + r, input)
    ensures p + [NUL] + x != p
  {
    assert Preimage(hash, p + [NUL] + x, r, input) == Preimage(hash, p, x + [NUL] + r, input);
    assert |p + [NUL] + x| > |p|;
  }

  // ---------------------------------------------------------------------------
  // When requests that share a key agree

  // A manifest that says it is deterministic is.
  ghost predicate Honest(w: World) {
    forall m: Executable, input, a, b | m.deterministic :: w.program(m, input, a) == w.program(m, input, b)
  }

  // A processor and a reference name one manifest, whichever tenant of the pool asks.
  ghost predicate OneExecutable(w: World, pool: iset<Call>) {
    forall c, d | c in pool && d in pool && c.processor == d.processor && c.ref == d.ref ::
      Cacheable(w, c) && Cacheable(w, d) ==> ExecutableOf(w, c) == ExecutableOf(w, d)
  }

  ghost predicate PlainNames(pool: iset<Call>) {
    forall c | c in pool :: NUL !in c.processor && NUL !in c.ref
  }

  // The hash does not confuse two requests of the pool.
  ghost predicate Collisionless(w: World, pool: iset<Call>) {
    forall c, d | c in pool && d in pool ::
      && Separates(w.hash, c.input, d.input)
      && Separates(w.hash, Preimage(w.hash, c.processor, c.ref, c.input), Preimage(w.hash, d.processor, d.ref, d.input))
  }

  lemma CacheIsTransparent(w: World, pool: iset<Call>)
    requires Honest(w) && OneExecutable(w, pool) && PlainNames(pool) && Collisionless(w, pool)
    ensures Transparent(w, pool)
  {
    forall c, d | c in pool && d in pool && Shares(w, c, d) ensures Direct(w, d) == Direct(w, c) {
      KeysEqualIff(w.hash, c.processor, c.ref, c.input, d.processor, d.ref, d.input);
    }
    TransparentIff(w, pool);
  }

  // The key does not name the tenant: where two tenants resolve one name to different
  // deterministic programs, one is answered with the other's output.
  lemma TenantsCanBeConfused(w: World, c: Call, tenant: string)
    requires Cacheable(w, c) && Cacheable(w, c.(tenant := tenant))
    requires Direct(w, c).Some? && Direct(w, c) != Direct(w, c.(tenant := tenant))
    ensures ServeAll(w, map[], [c, c.(tenant := tenant)]) == [Direct(w, c), Direct(w, c)]
    ensures ServeAll(w, map[], [c, c.(tenant := tenant)]) != DirectAll(w, [c, c.(tenant := tenant)])
  {
    SecondIsServed(w, c, c.(tenant := tenant));
  }
}
