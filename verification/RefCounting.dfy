// One reference counter under any number of concurrent clients. A counter is a key of a
// revisioned store: reads give a value and its revision, a create needs the key to be
// absent, an update needs the revision to be the current one, and a delete needs nothing.

module RefCounting {
  import opened Basics

  const MAX_ATTEMPTS: nat := 8

  datatype Cell = Absent | Present(count: int, rev: nat)

  datatype Op = Inc | Dec

  // lost counts refused writes; since is the number of commits when the operation began.
  datatype Client =
    | Resting
    | Trying(op: Op, lost: nat, since: nat)
    | Holding(op: Op, lost: nat, since: nat, count: int, rev: nat)
    | Succeeded(op: Op)
    | GaveUp(op: Op, since: nat, until: nat)
    | Errored(op: Op)

  // A write that went through; found is the count a delete did away with.
  datatype Commit = Added(who: nat) | Removed(who: nat) | Deleted(who: nat, found: int)

  datatype Sys = Sys(
    cell: Cell,
    last: nat,                   // the latest revision given out
    clients: map<nat, Client>,
    log: seq<Commit>,
    ignored: nat)                // deletes that failed, which the client does not notice

  datatype Label = Begin(c: nat, op: Op) | Read(c: nat) | Write(c: nat) | Error(c: nat)

  function Value(cell: Cell): int {
    if cell.Absent? then 0 else cell.count
  }

  function ClientOf(s: Sys, c: nat): Client {
    if c in s.clients then s.clients[c] else Resting
  }

  predicate Active(client: Client) {
    client.Trying? || client.Holding?
  }

  // The client is about to remove what it takes to be the last reference.
  predicate RemovesLast(client: Client) {
    client.Holding? && client.op.Dec? && client.count <= 1
  }

  // A write against this revision would be accepted; revision 0 stands for no key.
  predicate Current(cell: Cell, rev: nat) {
    if rev == 0 then cell.Absent? else cell.Present? && cell.rev == rev
  }

  predicate Enabled(s: Sys, l: Label) {
    match l
    case Begin(c, _) => !Active(ClientOf(s, c))
    case Read(c) => ClientOf(s, c).Trying?
    case Write(c) => ClientOf(s, c).Holding?
    case Error(c) => Active(ClientOf(s, c))
  }

  function With(s: Sys, c: nat, client: Client): Sys {
    s.(clients := s.clients[c := client])
  }

  function Apply(s: Sys, l: Label): Sys
    requires Enabled(s, l)
  {
    var client := ClientOf(s, l.c);
    match l
    case Begin(c, op) => With(s, c, Trying(op, 0, |s.log|))
    case Read(c) =>
      With(s, c, Holding(client.op, client.lost, client.since, Value(s.cell),
                         if s.cell.Absent? then 0 else s.cell.rev))
    case Write(c) =>
      if RemovesLast(client) then
        With(s, c, Succeeded(Dec)).(cell := Absent, last := s.last + 1, log := s.log + [Deleted(c, Value(s.cell))])
      else if Current(s.cell, client.rev) then
        With(s, c, Succeeded(client.op)).(
          cell := Present(if client.op.Inc? then client.count + 1 else client.count - 1, s.last + 1),
          last := s.last + 1,
          log := s.log + [if client.op.Inc? then Added(c) else Removed(c)])
      else if client.lost + 1 < MAX_ATTEMPTS then
        With(s, c, Trying(client.op, client.lost + 1, client.since))
      else
        With(s, c, GaveUp(client.op, client.since, |s.log|))
    case Error(c) =>
      if RemovesLast(client) then With(s, c, Succeeded(Dec)).(ignored := s.ignored + 1)
      else With(s, c, Errored(client.op))
  }

  predicate Runs(s: Sys, ls: seq<Label>)
    decreases |ls|
  {
    ls != [] ==> Enabled(s, ls[0]) && Runs(Apply(s, ls[0]), ls[1..])
  }

  function After(s: Sys, ls: seq<Label>): Sys
    requires Runs(s, ls)
    decreases |ls|
  {
    if ls == [] then s else After(Apply(s, ls[0]), ls[1..])
  }

  // Clients may already be at work when a history begins, as long as nobody holds a value
  // that its revision contradicts.
  ghost predicate Consistent(s: Sys) {
    && (s.cell.Present? ==> 0 < s.cell.rev <= s.last)
    && (forall c | c in s.clients :: Informed(s, s.clients[c]))
  }

  ghost predicate Informed(s: Sys, client: Client) {
    client.Holding? ==>
      && client.rev <= s.last && (client.rev == 0 ==> client.count == 0)
      && (Current(s.cell, client.rev) ==> client.count == Value(s.cell))
  }

  lemma StepKeepsConsistent(s: Sys, l: Label)
    requires Consistent(s) && Enabled(s, l)
    ensures Consistent(Apply(s, l))
  {
    var next := Apply(s, l);
    forall c | c in next.clients ensures Informed(next, next.clients[c]) {
      assert c in s.clients && c != l.c ==> Informed(s, s.clients[c]);
    }
  }

  // ---------------------------------------------------------------------------
  // Accounting

  function Incs(log: seq<Commit>): nat {
    if log == [] then 0 else Incs(log[..|log| - 1]) + (if log[|log| - 1].Added? then 1 else 0)
  }

  // Deletes count as decrements.
  function Decs(log: seq<Commit>): nat {
    if log == [] then 0 else Decs(log[..|log| - 1]) + (if log[|log| - 1].Added? then 0 else 1)
  }

  // What unconditional deletes did beyond taking one reference away.
  function Drift(log: seq<Commit>): int {
    if log == [] then 0
    else Drift(log[..|log| - 1]) + (if log[|log| - 1].Deleted? then 1 - log[|log| - 1].found else 0)
  }

  function Balance(s: Sys): int {
    Incs(s.log) - (Decs(s.log) + s.ignored) + (Drift(s.log) + s.ignored)
  }

  lemma StepBalances(s: Sys, l: Label)
    requires Consistent(s) && Enabled(s, l)
    ensures Value(Apply(s, l).cell) - Value(s.cell) == Balance(Apply(s, l)) - Balance(s)
  {
    var next := Apply(s, l);
    if next.log != s.log {
      assert next.log[..|next.log| - 1] == s.log;
      assert l.c in s.clients && Informed(s, s.clients[l.c]);
    }
  }

  // Whatever the interleaving, the count is the initial count plus the successful
  // increments, minus the decrements reported as successful, plus the drift.
  lemma {:induction false} CountIsAccountedFor(s: Sys, ls: seq<Label>)
    requires Consistent(s) && Runs(s, ls)
    ensures Consistent(After(s, ls))
    ensures Value(After(s, ls).cell) - Value(s.cell) == Balance(After(s, ls)) - Balance(s)
    decreases |ls|
  {
    if ls != [] {
      StepKeepsConsistent(s, ls[0]);
      StepBalances(s, ls[0]);
      CountIsAccountedFor(Apply(s, ls[0]), ls[1..]);
    }
  }

  // No decrement has read a count of 1 or less.
  ghost predicate Clear(s: Sys) {
    forall c | c in s.clients :: !RemovesLast(s.clients[c])
  }

  ghost predicate StaysClear(s: Sys, ls: seq<Label>)
    requires Runs(s, ls)
    decreases |ls|
  {
    Clear(s) && (ls != [] ==> StaysClear(Apply(s, ls[0]), ls[1..]))
  }

  lemma {:induction false} ClearDoesNotDrift(s: Sys, ls: seq<Label>)
    requires Runs(s, ls) && StaysClear(s, ls)
    ensures Drift(After(s, ls).log) == Drift(s.log) && After(s, ls).ignored == s.ignored
    decreases |ls|
  {
    if ls != [] {
      var next := Apply(s, ls[0]);
      if next.log != s.log {
        assert next.log[..|next.log| - 1] == s.log;
      }
      ClearDoesNotDrift(next, ls[1..]);
    }
  }

  // Then the count is exact.
  lemma CountIsExact(s: Sys, ls: seq<Label>)
    requires Consistent(s) && Runs(s, ls) && StaysClear(s, ls)
    ensures
      var end := After(s, ls);
      Value(end.cell) == Value(s.cell) + (Incs(end.log) - Incs(s.log)) - (Decs(end.log) - Decs(s.log))
  {
    CountIsAccountedFor(s, ls);
    ClearDoesNotDrift(s, ls);
  }

  // Since the start, the count has moved by the increments and decrements reported as
  // successful.
  ghost predicate ExactSince(start: Sys, s: Sys) {
    Value(s.cell) - Value(start.cell) ==
    (Incs(s.log) - Incs(start.log)) - (Decs(s.log) + s.ignored - Decs(start.log) - start.ignored)
  }

  // That is so now and after every further step.
  ghost predicate StaysExact(start: Sys, s: Sys, ls: seq<Label>)
    requires Runs(s, ls)
    decreases |ls|
  {
    ExactSince(start, s) && (ls != [] ==> StaysExact(start, Apply(s, ls[0]), ls[1..]))
  }

  // Every delete of the run took away one reference, and none failed.
  ghost predicate DeletesOne(s: Sys, end: Sys)
    requires s.log <= end.log
  {
    end.ignored == s.ignored && forall i | |s.log| <= i < |end.log| && end.log[i].Deleted? :: end.log[i].found == 1
  }

  lemma {:induction false} LogGrows(s: Sys, ls: seq<Label>)
    requires Runs(s, ls)
    ensures s.log <= After(s, ls).log && s.ignored <= After(s, ls).ignored
    decreases |ls|
  {
    if ls != [] {
      LogGrows(Apply(s, ls[0]), ls[1..]);
    }
  }

  // One step keeps the count exact if and only if it is not a delete that finds anything but
  // one reference, and not one that fails.
  lemma StepStaysExactIff(start: Sys, s: Sys, l: Label)
    requires Consistent(s) && ExactSince(start, s) && Enabled(s, l)
    ensures s.log <= Apply(s, l).log
    ensures ExactSince(start, Apply(s, l)) <==> DeletesOne(s, Apply(s, l))
  {
    StepBalances(s, l);
    StepDrifts(s, l);
  }

  lemma StepDrifts(s: Sys, l: Label)
    requires Enabled(s, l)
    ensures s.log <= Apply(s, l).log
    ensures Drift(Apply(s, l).log) + Apply(s, l).ignored == Drift(s.log) + s.ignored <==> DeletesOne(s, Apply(s, l))
  {
    var next := Apply(s, l);
    if |next.log| > |s.log| {
      assert next.log[..|next.log| - 1] == s.log;
      assert next.ignored == s.ignored;
      assert next.log[|s.log|].Deleted? && next.log[|s.log|].found != 1 ==> !DeletesOne(s, next);
    }
  }

  lemma DeletesOneJoins(a: Sys, b: Sys, c: Sys)
    requires a.log <= b.log <= c.log && a.ignored <= b.ignored <= c.ignored
    ensures DeletesOne(a, c) <==> DeletesOne(a, b) && DeletesOne(b, c)
  {
  }

  // The exact condition: the count is what the reported operations make it, throughout a run,
  // if and only if every delete of the run took away exactly one reference and none failed.
  lemma StaysExactIff(s: Sys, ls: seq<Label>)
    requires Consistent(s) && Runs(s, ls)
    ensures s.log <= After(s, ls).log
    ensures StaysExact(s, s, ls) <==> DeletesOne(s, After(s, ls))
  {
    LogGrows(s, ls);
    StaysExactFromIff(s, s, ls);
  }

  lemma {:induction false} StaysExactFromIff(start: Sys, s: Sys, ls: seq<Label>)
    requires Consistent(s) && Runs(s, ls) && ExactSince(start, s)
    ensures s.log <= After(s, ls).log
    ensures StaysExact(start, s, ls) <==> DeletesOne(s, After(s, ls))
    decreases |ls|
  {
    LogGrows(s, ls);
    if ls != [] {
      var next := Apply(s, ls[0]);
      StepStaysExactIff(start, s, ls[0]);
      StepKeepsConsistent(s, ls[0]);
      LogGrows(next, ls[1..]);
      DeletesOneJoins(s, next, After(next, ls[1..]));
      if ExactSince(start, next) {
        StaysExactFromIff(start, next, ls[1..]);
      }
    }
  }

  // Client 0 reads 1 and means to delete; client 1 adds a reference; the delete loses it.
  lemma LastReferenceCanBeLost() returns (s: Sys, ls: seq<Label>)
    ensures Consistent(s) && s.cell == Present(1, 1) && s.log == [] && Runs(s, ls)
    ensures
      var end := After(s, ls);
      && ClientOf(end, 0) == Succeeded(Dec) && ClientOf(end, 1) == Succeeded(Inc)
      && end.log == [Added(1), Deleted(0, 2)] && end.cell == Absent
  {
    s := Sys(Present(1, 1), 1, map[], [], 0);
    ls := [Begin(0, Dec), Read(0), Begin(1, Inc), Read(1), Write(1), Write(0)];
    var s1 := Apply(s, Begin(0, Dec));
    var s2 := Apply(s1, Read(0));
    var s3 := Apply(s2, Begin(1, Inc));
    var s4 := Apply(s3, Read(1));
    var s5 := Apply(s4, Write(1));
    var s6 := Apply(s5, Write(0));
    assert ls[1..] == [Read(0), Begin(1, Inc), Read(1), Write(1), Write(0)];
    assert ls[1..][1..] == [Begin(1, Inc), Read(1), Write(1), Write(0)];
    assert ls[1..][1..][1..] == [Read(1), Write(1), Write(0)];
    assert ls[1..][1..][1..][1..] == [Write(1), Write(0)];
    assert [Write(1), Write(0)][1..] == [Write(0)];
    assert [Write(0)][1..] == [];
    assert Runs(s6, []);
    assert Runs(s5, [Write(0)]);
    assert Runs(s4, [Write(1), Write(0)]);
    assert Runs(s3, [Read(1), Write(1), Write(0)]);
    assert Runs(s2, [Begin(1, Inc), Read(1), Write(1), Write(0)]);
  }

  // ---------------------------------------------------------------------------
  // Contention

  // Commits of others between two points of the history.
  ghost predicate NotBy(log: seq<Commit>, from: nat, to: nat, c: nat) {
    from <= to <= |log| && forall i | from <= i < to :: log[i].who != c
  }

  // Each refused write of a client is matched by a commit of somebody else.
  ghost predicate Matched(s: Sys, c: nat, client: Client) {
    match client
    case Trying(_, lost, since) =>
      lost < MAX_ATTEMPTS && NotBy(s.log, since, |s.log|, c) && |s.log| - since >= lost
    case Holding(_, lost, since, count, rev) =>
      && lost < MAX_ATTEMPTS && NotBy(s.log, since, |s.log|, c) && |s.log| - since >= lost
      && (!Current(s.cell, rev) ==> |s.log| - since > lost)
    case GaveUp(_, since, until) => NotBy(s.log, since, until, c) && until - since >= MAX_ATTEMPTS
    case _ => true
  }

  ghost predicate AllMatched(s: Sys) {
    forall c | c in s.clients :: Matched(s, c, s.clients[c])
  }

  lemma OthersStayMatched(s: Sys, l: Label, c: nat)
    requires Enabled(s, l) && c in s.clients && c != l.c && Matched(s, c, s.clients[c])
    ensures Matched(Apply(s, l), c, s.clients[c])
  {
  }

  lemma StepKeepsMatched(s: Sys, l: Label)
    requires Consistent(s) && AllMatched(s) && Enabled(s, l)
    ensures AllMatched(Apply(s, l))
  {
    var next := Apply(s, l);
    forall c | c in next.clients ensures Matched(next, c, next.clients[c]) {
      if c != l.c {
        OthersStayMatched(s, l, c);
      } else if c in s.clients {
        assert Matched(s, c, s.clients[c]);
      }
    }
  }

  lemma {:induction false} RunKeepsMatched(s: Sys, ls: seq<Label>)
    requires Consistent(s) && AllMatched(s) && Runs(s, ls)
    ensures AllMatched(After(s, ls))
    decreases |ls|
  {
    if ls != [] {
      StepKeepsConsistent(s, ls[0]);
      StepKeepsMatched(s, ls[0]);
      RunKeepsMatched(Apply(s, ls[0]), ls[1..]);
    }
  }

  ghost predicate NoneErrored(s: Sys) {
    forall c | c in s.clients :: !s.clients[c].Errored?
  }

  lemma {:induction false} ConflictsAreTheOnlyErrors(s: Sys, ls: seq<Label>)
    requires NoneErrored(s) && Runs(s, ls) && forall l | l in ls :: !l.Error?
    ensures NoneErrored(After(s, ls))
    decreases |ls|
  {
    if ls != [] {
      assert NoneErrored(Apply(s, ls[0]));
      ConflictsAreTheOnlyErrors(Apply(s, ls[0]), ls[1..]);
    }
  }

  // The client has given up, and from its first attempt to its last there were eight
  // commits, all of them by others.
  ghost predicate Crowded(s: Sys, c: nat) {
    var client := ClientOf(s, c);
    && client.GaveUp? && client.since <= client.until <= |s.log| && client.until - client.since >= 8
    && forall i | client.since <= i < client.until :: s.log[i].who != c
  }

  // Where conflicts are the only errors, an operation that has ended has succeeded, unless
  // eight commits of others came between.
  lemma FailsOnlyUnderContention(s: Sys, ls: seq<Label>, c: nat)
    requires Consistent(s) && s.clients == map[] && Runs(s, ls) && forall l | l in ls :: !l.Error?
    requires c in After(s, ls).clients && !Active(ClientOf(After(s, ls), c))
    ensures ClientOf(After(s, ls), c) != Resting ==> ClientOf(After(s, ls), c).Succeeded? || Crowded(After(s, ls), c)
  {
    RunKeepsMatched(s, ls);
    ConflictsAreTheOnlyErrors(s, ls);
  }

  // ---------------------------------------------------------------------------
  // The retry loops

  lemma {:induction false} RunThen(s: Sys, ls: seq<Label>, more: seq<Label>)
    requires Runs(s, ls) && Runs(After(s, ls), more)
    ensures Runs(s, ls + more) && After(s, ls + more) == After(After(s, ls), more)
    decreases |ls|
  {
    if ls == [] {
      assert ls + more == more;
    } else {
      assert (ls + more)[1..] == ls[1..] + more;
      RunThen(Apply(s, ls[0]), ls[1..], more);
    }
  }

  lemma {:induction false} OthersLeaveClient(s: Sys, ls: seq<Label>, me: nat)
    requires Runs(s, ls) && forall l | l in ls :: l.c != me
    ensures ClientOf(After(s, ls), me) == ClientOf(s, me)
    decreases |ls|
  {
    if ls != [] {
      OthersLeaveClient(Apply(s, ls[0]), ls[1..], me);
    }
  }

  datatype Outcome = Ok | Conflict | Failure

  // The key as one client sees it: before each access the others may have done anything.
  // steps is everything that has happened to the key, whoever did it.
  class Key {
    const reliable: bool
    var s: Sys
    ghost const start: Sys
    ghost var steps: seq<Label>

    constructor (cell: Cell, reliable: bool)
      requires cell.Present? ==> cell.rev > 0
      ensures Valid() && this.reliable == reliable && s.cell == cell && steps == [] && s.clients == map[]
    {
      this.reliable := reliable;
      s := Sys(cell, if cell.Absent? then 0 else cell.rev, map[], [], 0);
      start := Sys(cell, if cell.Absent? then 0 else cell.rev, map[], [], 0);
      steps := [];
    }

    // The state is the end of a run.
    ghost predicate Valid()
      reads this
    {
      Consistent(start) && start.clients == map[] && Runs(start, steps) && After(start, steps) == s
    }

    method Step(l: Label)
      requires Valid() && Enabled(s, l)
      modifies this
      ensures Valid() && s == Apply(old(s), l) && steps == old(steps) + [l]
    {
      assert [l][1..] == [];
      assert Runs(Apply(s, l), []);
      assert Runs(s, [l]);
      RunThen(start, steps, [l]);
      s, steps := Apply(s, l), steps + [l];
    }

    method Others(me: nat) returns (ghost theirs: seq<Label>)
      requires Valid()
      modifies this
      ensures Valid() && ClientOf(s, me) == ClientOf(old(s), me)
      ensures steps == old(steps) + theirs && forall l | l in theirs :: l.c != me
    {
      var more: seq<Label> := *;
      if !(Runs(s, more) && forall l | l in more :: l.c != me) {
        more := [];
      }
      OthersLeaveClient(s, more, me);
      RunThen(start, steps, more);
      s, steps := After(s, more), steps + more;
      theirs := more;
    }

    // Count and revision; 0 and 0 when the key is absent.
    method RefCount(me: nat) returns (ok: bool, count: int, rev: nat)
      requires Valid() && ClientOf(s, me).Trying?
      modifies this
      ensures Valid() && old(steps) <= steps && (reliable ==> ok)
      ensures
        var client := ClientOf(old(s), me);
        ClientOf(s, me) == if ok then Holding(client.op, client.lost, client.since, count, rev) else Errored(client.op)
      ensures ok ==> count == Value(s.cell) && rev == if s.cell.Absent? then 0 else s.cell.rev
    {
      ghost var theirs := Others(me);
      ok := Reach(reliable);
      if !ok {
        Step(Error(me));
        return false, 0, 0;
      }
      Step(Read(me));
      count, rev := ClientOf(s, me).count, ClientOf(s, me).rev;
    }

    // Create (rev 0) or conditional update.
    method Put(me: nat, count: int, rev: nat) returns (outcome: Outcome)
      requires Valid() && ClientOf(s, me).Holding? && !RemovesLast(ClientOf(s, me)) && rev == ClientOf(s, me).rev
      requires count == ClientOf(s, me).count + (if ClientOf(s, me).op.Inc? then 1 else -1)
      modifies this
      ensures Valid() && old(steps) <= steps && (reliable ==> !outcome.Failure?)
      ensures
        var client := ClientOf(old(s), me);
        match outcome
        case Ok => ClientOf(s, me) == Succeeded(client.op) && s.cell == Present(count, s.last)
        case Failure => ClientOf(s, me) == Errored(client.op)
        case Conflict =>
          if client.lost + 1 < MAX_ATTEMPTS then ClientOf(s, me) == Trying(client.op, client.lost + 1, client.since)
          else ClientOf(s, me) == GaveUp(client.op, client.since, |s.log|)
    {
      ghost var theirs := Others(me);
      var failed := *;
      if failed && !reliable {
        Step(Error(me));
        return Failure;
      }
      var accepted := Current(s.cell, rev);
      Step(Write(me));
      return if accepted then Ok else Conflict;
    }

    // Whether the delete went through is not looked at.
    method Delete(me: nat)
      requires Valid() && RemovesLast(ClientOf(s, me))
      modifies this
      ensures Valid() && old(steps) <= steps && ClientOf(s, me) == Succeeded(Dec)
    {
      ghost var theirs := Others(me);
      var failed := *;
      if failed && !reliable {
        Step(Error(me));
        return;
      }
      Step(Write(me));
    }

    method IncrementRef(me: nat) returns (outcome: Outcome)
      requires Valid() && !Active(ClientOf(s, me))
      modifies this
      ensures Valid() && old(steps) <= steps
      ensures Ends(me, Inc, |old(s.log)|, outcome)
    {
      Step(Begin(me, Inc));
      for attempt := 0 to MAX_ATTEMPTS
        invariant Valid() && old(steps) <= steps
        invariant attempt < MAX_ATTEMPTS ==> ClientOf(s, me) == Trying(Inc, attempt, |old(s.log)|)
        invariant attempt == MAX_ATTEMPTS ==> ClientOf(s, me) == GaveUp(Inc, |old(s.log)|, |s.log|)
      {
        var ok, count, rev := RefCount(me);
        if !ok {
          return Failure;
        }
        outcome := Put(me, count + 1, rev);
        if outcome.Ok? || outcome.Failure? {
          return;
        }
      }
      RunKeepsMatched(start, steps);
      return Conflict;
    }

    method DecrementRef(me: nat) returns (outcome: Outcome)
      requires Valid() && !Active(ClientOf(s, me))
      modifies this
      ensures Valid() && old(steps) <= steps
      ensures Ends(me, Dec, |old(s.log)|, outcome)
    {
      Step(Begin(me, Dec));
      for attempt := 0 to MAX_ATTEMPTS
        invariant Valid() && old(steps) <= steps
        invariant attempt < MAX_ATTEMPTS ==> ClientOf(s, me) == Trying(Dec, attempt, |old(s.log)|)
        invariant attempt == MAX_ATTEMPTS ==> ClientOf(s, me) == GaveUp(Dec, |old(s.log)|, |s.log|)
      {
        var ok, count, rev := RefCount(me);
        if !ok {
          return Failure;
        }
        if count <= 1 {
          Delete(me);
          return Ok;
        }
        outcome := Put(me, count - 1, rev);
        if outcome.Ok? || outcome.Failure? {
          return;
        }
      }
      RunKeepsMatched(start, steps);
      return Conflict;
    }

    // The answer to the caller says how the operation of this client ended.
    ghost predicate Ends(me: nat, op: Op, since: nat, outcome: Outcome)
      reads this
    {
      match outcome
      case Ok => ClientOf(s, me) == Succeeded(op)
      case Conflict => ClientOf(s, me) == GaveUp(op, since, |s.log|) && Crowded(s, me)
      case Failure => ClientOf(s, me) == Errored(op) && !reliable
    }
  }
}
