// Tenant keys: any number of callers make sure that a tenant has a key. Nothing is ever
// deleted from the bucket, and a create is refused once the key exists.

module TenantKeys {
  import opened Basics
  import opened ManifestKeys

  const KEY_SIZE: nat := 32

  type Bytes = seq<bv8>

  // What a caller is doing. What it has drawn is a random key.
  datatype Caller =
    | Resting
    | Asking(tenant: string)
    | Drawn(tenant: string, drawn: Bytes)
    | AskingAgain(tenant: string)
    | Got(tenant: string, key: Bytes)
    | Failed(tenant: string)

  datatype Sys = Sys(bucket: map<string, Bytes>, callers: map<nat, Caller>)

  // Asking draws random bytes when there is no key yet; errors other than a missing or an
  // existing key end the call.
  datatype Label =
    | Call(c: nat, tenant: string) | Ask(c: nat, random: Bytes) | Create(c: nat) | AskAgain(c: nat) | Error(c: nat)

  function CallerOf(s: Sys, c: nat): Caller {
    if c in s.callers then s.callers[c] else Resting
  }

  predicate Busy(caller: Caller) {
    caller.Asking? || caller.Drawn? || caller.AskingAgain?
  }

  predicate Enabled(s: Sys, l: Label) {
    match l
    case Call(c, _) => !Busy(CallerOf(s, c))
    case Ask(c, random) => CallerOf(s, c).Asking? && |random| == KEY_SIZE
    case Create(c) => CallerOf(s, c).Drawn?
    case AskAgain(c) => CallerOf(s, c).AskingAgain?
    case Error(c) => Busy(CallerOf(s, c))
  }

  // A stored key counts only if it has the right size.
  function Answer(tenant: string, key: Bytes): Caller {
    if |key| == KEY_SIZE then Got(tenant, key) else Failed(tenant)
  }

  function Next(s: Sys, l: Label): Caller
    requires Enabled(s, l)
  {
    var caller := CallerOf(s, l.c);
    match l
    case Call(_, tenant) => Asking(tenant)
    case Ask(_, random) =>
      var k := NormTenant(caller.tenant);
      if k in s.bucket then Answer(caller.tenant, s.bucket[k]) else Drawn(caller.tenant, random)
    case Create(_) =>
      if NormTenant(caller.tenant) in s.bucket then AskingAgain(caller.tenant) else Got(caller.tenant, caller.drawn)
    case AskAgain(_) =>
      var k := NormTenant(caller.tenant);
      if k in s.bucket then Answer(caller.tenant, s.bucket[k]) else Failed(caller.tenant)
    case Error(_) => Failed(caller.tenant)
  }

  function Apply(s: Sys, l: Label): Sys
    requires Enabled(s, l)
  {
    var caller := CallerOf(s, l.c);
    var creates := l.Create? && NormTenant(caller.tenant) !in s.bucket;
    Sys(if creates then s.bucket[NormTenant(caller.tenant) := caller.drawn] else s.bucket,
        s.callers[l.c := Next(s, l)])
  }

  predicate Runs(s: Sys, ls: seq<Label>)
    decreases |ls|
  {
    ls != [] ==> Enabled(s, ls[0]) && Runs(Apply(s, ls[0]), ls[1..])
  }

  function After(s: Sys, ls: seq<Label>): Sys
    requires Runs(s, ls)
    decreases |ls|
  {
    if ls == [] then s else After(Apply(s, ls[0]), ls[1..])
  }

  // Whoever has an answer has the stored key, and what is drawn has the right size.
  ghost predicate Informed(s: Sys) {
    forall c | c in s.callers :: Knows(s, s.callers[c])
  }

  ghost predicate Knows(s: Sys, caller: Caller) {
    && (caller.Drawn? ==> |caller.drawn| == KEY_SIZE)
    && (caller.Got? ==> |caller.key| == KEY_SIZE && NormTenant(caller.tenant) in s.bucket &&
                        s.bucket[NormTenant(caller.tenant)] == caller.key)
  }

  // Stored keys stay.
  ghost predicate Keeps(a: map<string, Bytes>, b: map<string, Bytes>) {
    forall k | k in a :: k in b && b[k] == a[k]
  }

  lemma StepKeeps(s: Sys, l: Label)
    requires Informed(s) && Enabled(s, l)
    ensures Informed(Apply(s, l)) && Keeps(s.bucket, Apply(s, l).bucket)
  {
    var next := Apply(s, l);
    forall c | c in next.callers ensures Knows(next, next.callers[c]) {
      assert c in s.callers ==> Knows(s, s.callers[c]);
      assert l.c in s.callers ==> Knows(s, s.callers[l.c]);
    }
  }

  lemma {:induction false} RunKeeps(s: Sys, ls: seq<Label>)
    requires Informed(s) && Runs(s, ls)
    ensures Informed(After(s, ls)) && Keeps(s.bucket, After(s, ls).bucket)
    decreases |ls|
  {
    if ls != [] {
      StepKeeps(s, ls[0]);
      RunKeeps(Apply(s, ls[0]), ls[1..]);
    }
  }

  lemma {:induction false} RunThen(s: Sys, ls: seq<Label>, more: seq<Label>)
    requires Runs(s, ls) && Runs(After(s, ls), more)
    ensures Runs(s, ls + more) && After(s, ls + more) == After(After(s, ls), more)
    decreases |ls|
  {
    if ls == [] {
      assert ls + more == more;
    } else {
      assert (ls + more)[1..] == ls[1..] + more;
      RunThen(Apply(s, ls[0]), ls[1..], more);
    }
  }

  // Two calls that succeed for one tenant, at any two moments of any run, have the same
  // key of 32 bytes.
  lemma CallersAgree(bucket: map<string, Bytes>, ls: seq<Label>, more: seq<Label>, c: nat, d: nat)
    requires Runs(Sys(bucket, map[]), ls) && Runs(After(Sys(bucket, map[]), ls), more)
    requires
      var (first, second) := (After(Sys(bucket, map[]), ls), After(After(Sys(bucket, map[]), ls), more));
      CallerOf(first, c).Got? && CallerOf(second, d).Got? &&
      NormTenant(CallerOf(first, c).tenant) == NormTenant(CallerOf(second, d).tenant)
    ensures
      var (first, second) := (After(Sys(bucket, map[]), ls), After(After(Sys(bucket, map[]), ls), more));
      CallerOf(first, c).key == CallerOf(second, d).key && |CallerOf(first, c).key| == 32
  {
    var first := After(Sys(bucket, map[]), ls);
    RunKeeps(Sys(bucket, map[]), ls);
    RunKeeps(first, more);
    assert Knows(first, CallerOf(first, c)) && Knows(After(first, more), CallerOf(After(first, more), d));
  }

  // A call that meets no error fails only because the stored key has a wrong size, and that
  // key was there before anybody called.
  ghost predicate Excused(bucket: map<string, Bytes>, caller: Caller) {
    caller.Failed? ==> NormTenant(caller.tenant) in bucket && |bucket[NormTenant(caller.tenant)]| != KEY_SIZE
  }

  ghost predicate Faultless(bucket: map<string, Bytes>, s: Sys) {
    && Keeps(bucket, s.bucket)
    && (forall k | k in s.bucket && k !in bucket :: |s.bucket[k]| == KEY_SIZE)
    && (forall c | c in s.callers :: Excused(bucket, s.callers[c]))
    && (forall c | c in s.callers && s.callers[c].AskingAgain? :: NormTenant(s.callers[c].tenant) in s.bucket)
  }

  lemma StepIsFaultless(bucket: map<string, Bytes>, s: Sys, l: Label)
    requires Informed(s) && Faultless(bucket, s) && Enabled(s, l) && !l.Error?
    ensures Faultless(bucket, Apply(s, l))
  {
    var next := Apply(s, l);
    assert l.c in s.callers ==> Knows(s, s.callers[l.c]);
    forall c | c in next.callers ensures Excused(bucket, next.callers[c]) {
      assert c in s.callers ==> Excused(bucket, s.callers[c]);
    }
  }

  lemma {:induction false} FailsOnlyOnBadKey(bucket: map<string, Bytes>, s: Sys, ls: seq<Label>)
    requires Informed(s) && Faultless(bucket, s) && Runs(s, ls) && forall l | l in ls :: !l.Error?
    ensures Faultless(bucket, After(s, ls))
    decreases |ls|
  {
    if ls != [] {
      StepKeeps(s, ls[0]);
      StepIsFaultless(bucket, s, ls[0]);
      FailsOnlyOnBadKey(bucket, Apply(s, ls[0]), ls[1..]);
    }
  }

  // The bucket as one caller sees it: before each access the others may have done anything.
  class Bucket {
    const reliable: bool
    var s: Sys
    ghost const start: map<string, Bytes>
    ghost var steps: seq<Label>

    constructor (bucket: map<string, Bytes>, reliable: bool)
      ensures Valid() && this.reliable == reliable && start == bucket && steps == [] && s == Sys(bucket, map[])
    {
      this.reliable := reliable;
      s, start, steps := Sys(bucket, map[]), bucket, [];
    }

    ghost predicate Valid()
      reads this
    {
      Runs(Sys(start, map[]), steps) && After(Sys(start, map[]), steps) == s
    }

    method Step(l: Label)
      requires Valid() && Enabled(s, l)
      modifies this
      ensures Valid() && s == Apply(old(s), l) && steps == old(steps) + [l]
    {
      assert [l][1..] == [];
      assert Runs(Apply(s, l), []);
      assert Runs(s, [l]);
      RunThen(Sys(start, map[]), steps, [l]);
      s, steps := Apply(s, l), steps + [l];
    }

    method Others(me: nat)
      requires Valid()
      modifies this
      ensures Valid() && old(steps) <= steps && CallerOf(s, me) == CallerOf(old(s), me)
      ensures Keeps(old(s).bucket, s.bucket)
    {
      var more: seq<Label> := *;
      if !(Runs(s, more) && forall l | l in more :: l.c != me) {
        more := [];
      }
      OthersLeaveCaller(s, more, me);
      RunKeeps(Sys(start, map[]), steps);
      RunKeeps(s, more);
      RunThen(Sys(start, map[]), steps, more);
      s, steps := After(s, more), steps + more;
    }

    method EnsureTenantKey(me: nat, tenant: string) returns (ok: bool, key: Bytes)
      requires Valid() && !Busy(CallerOf(s, me))
      modifies this
      ensures Valid() && old(steps) <= steps
      ensures CallerOf(s, me) == if ok then Got(tenant, key) else Failed(tenant)
      ensures ok ==> |key| == 32 && NormTenant(tenant) in s.bucket && s.bucket[NormTenant(tenant)] == key
      ensures ok && NormTenant(tenant) in old(s).bucket ==> key == old(s).bucket[NormTenant(tenant)]
      ensures reliable && !ok ==> NormTenant(tenant) in s.bucket && |s.bucket[NormTenant(tenant)]| != 32
    {
      var k := NormTenant(tenant);
      Step(Call(me, tenant));
      Others(me);
      var asked := Reach(reliable);
      var random := Random();
      if !asked {
        Step(Error(me));
        return false, [];
      }
      Step(Ask(me, random));
      if k in s.bucket {
        return |s.bucket[k]| == KEY_SIZE, s.bucket[k];
      }
      Others(me);
      var created := Reach(reliable);
      if !created {
        Step(Error(me));
        return false, [];
      }
      var taken := k in s.bucket;
      Step(Create(me));
      if !taken {
        return true, random;
      }
      Others(me);
      var read := Reach(reliable);
      if !read {
        Step(Error(me));
        return false, [];
      }
      Step(AskAgain(me));
      return |s.bucket[k]| == KEY_SIZE, s.bucket[k];
    }
  }

  method Random() returns (random: Bytes)
    ensures |random| == KEY_SIZE
  {
    random := *;
    if |random| != KEY_SIZE {
      random := seq(KEY_SIZE, _ => 0);
    }
  }

  lemma {:induction false} OthersLeaveCaller(s: Sys, ls: seq<Label>, me: nat)
    requires Runs(s, ls) && forall l | l in ls :: l.c != me
    ensures CallerOf(After(s, ls), me) == CallerOf(s, me)
    decreases |ls|
  {
    if ls != [] {
      OthersLeaveCaller(Apply(s, ls[0]), ls[1..], me);
    }
  }
}
