// The references a manifest holds: its distinct chunks, its linked artifacts and its image
// descriptors, collected in whatever order the map of artifacts is walked.

module References {
  import opened Basics
  import opened ManifestKeys
  import opened Strings

  const MAX_REFS: nat := 0x10_0000

  datatype ChunkRef = ChunkRef(hash: string, size: nat)

  datatype Artifact = Artifact(
    kind: string,
    blob: Option<seq<ChunkRef>>,
    tree: Option<seq<seq<ChunkRef>>>,   // the chunks of each file
    linked: seq<string>,                // hashes of linked artifacts
    oci: Option<string>,                // digest of an image descriptor
    hasObject: bool,
    hasRemote: bool)

  datatype Manifest = Manifest(
    kind: string,
    tenant: string,
    processorId: string,
    version: string,
    hashAlgorithm: string,
    runtime: string,
    ioProtocol: string,
    directCommand: bool,
    chunks: seq<ChunkRef>,
    artifacts: map<string, Artifact>)

  // ---------------------------------------------------------------------------
  // Sums over sets

  ghost function SumOver(s: set<string>, f: string -> multiset<string>): multiset<string> {
    if s == {} then multiset{}
    else
      var x :| x in s;
      f(x) + SumOver(s - {x}, f)
  }

  // It does not matter which element goes first.
  lemma {:induction false} SumRemove(s: set<string>, f: string -> multiset<string>, x: string)
    requires x in s
    ensures SumOver(s, f) == f(x) + SumOver(s - {x}, f)
  {
    var y :| y in s && SumOver(s, f) == f(y) + SumOver(s - {y}, f);
    if y != x {
      SumRemove(s - {y}, f, x);
      SumRemove(s - {x}, f, y);
      assert s - {y} - {x} == s - {x} - {y};
    }
  }

  lemma {:induction false} SumAgree(s: set<string>, f: string -> multiset<string>, g: string -> multiset<string>)
    requires forall x | x in s :: f(x) == g(x)
    ensures SumOver(s, f) == SumOver(s, g)
  {
    if s != {} {
      var x :| x in s;
      SumRemove(s, f, x);
      SumRemove(s, g, x);
      SumAgree(s - {x}, f, g);
    }
  }

  // A part of the set accounts for a part of the sum.
  lemma {:induction false} SumPart(s: set<string>, t: set<string>, f: string -> multiset<string>)
    requires s <= t
    ensures SumOver(s, f) <= SumOver(t, f)
    decreases t
  {
    if s != t {
      var x :| x in t && x !in s;
      SumRemove(t, f, x);
      SumPart(s, t - {x}, f);
    }
  }

  // ---------------------------------------------------------------------------
  // Keys of the counters

  // The colon of a digest is not allowed in a key.
  function Dotted(s: string): string {
    if s == "" then "" else [if s[0] == ':' then '.' else s[0]] + Dotted(s[1..])
  }

  function ChunkKeyIn(tenant: string): string -> string {
    hash => RefKey(tenant, hash)
  }

  function LinkedKeyIn(tenant: string): string -> string {
    hash => RefKey(tenant, "artifact." + hash)
  }

  function DescriptorKeyIn(tenant: string): string -> string {
    digest => RefKey(tenant, "oci." + Dotted(digest))
  }

  function KeysOf(names: seq<string>, key: string -> string): (r: seq<string>)
    ensures |r| == |names|
  {
    seq(|names|, i requires 0 <= i < |names| => key(names[i]))
  }

  lemma KeysOfBoth(a: seq<string>, b: seq<string>, key: string -> string)
    ensures KeysOf(a + b, key) == KeysOf(a, key) + KeysOf(b, key)
  {
  }

  // ---------------------------------------------------------------------------
  // What a manifest refers to

  function Hashes(chunks: seq<ChunkRef>): (r: seq<string>)
    ensures |r| == |chunks| && forall i | 0 <= i < |r| :: r[i] == chunks[i].hash
  {
    seq(|chunks|, i requires 0 <= i < |chunks| => chunks[i].hash)
  }

  lemma HashesOfBoth(a: seq<ChunkRef>, b: seq<ChunkRef>)
    ensures Hashes(a + b) == Hashes(a) + Hashes(b)
  {
  }

  function Flatten(files: seq<seq<ChunkRef>>): seq<ChunkRef> {
    if files == [] then [] else Flatten(files[..|files| - 1]) + files[|files| - 1]
  }

  function ArtifactChunks(a: Artifact): seq<ChunkRef> {
    (if a.blob.Some? then a.blob.value else []) + (if a.tree.Some? then Flatten(a.tree.value) else [])
  }

  ghost function ChunksAt(m: Manifest): string -> multiset<string> {
    role => if role in m.artifacts then multiset(Hashes(ArtifactChunks(m.artifacts[role]))) else multiset{}
  }

  // The names at a role, under some key function.
  ghost function LinkedAt(m: Manifest, key: string -> string): string -> multiset<string> {
    role => if role in m.artifacts then multiset(KeysOf(m.artifacts[role].linked, key)) else multiset{}
  }

  ghost function DescriptorAt(m: Manifest, key: string -> string): string -> multiset<string> {
    role => if role in m.artifacts then multiset(KeysOf(DescriptorOf(m.artifacts[role]), key)) else multiset{}
  }

  function DescriptorOf(a: Artifact): seq<string> {
    if a.oci.Some? then [a.oci.value] else []
  }

  // All chunk hashes with their multiplicity, before duplicates are removed.
  ghost function ChunkHashes(m: Manifest): multiset<string> {
    multiset(Hashes(m.chunks)) + SumOver(m.artifacts.Keys, ChunksAt(m))
  }

  ghost function LinkedKeys(m: Manifest, key: string -> string): multiset<string> {
    SumOver(m.artifacts.Keys, LinkedAt(m, key))
  }

  ghost function DescriptorKeys(m: Manifest, key: string -> string): multiset<string> {
    SumOver(m.artifacts.Keys, DescriptorAt(m, key))
  }

  // No list of references is cut off.
  ghost predicate WithinCap(m: Manifest) {
    && |ChunkHashes(m)| <= MAX_REFS && |LinkedKeys(m, LinkedKeyIn(m.tenant))| <= MAX_REFS
    && |DescriptorKeys(m, DescriptorKeyIn(m.tenant))| <= MAX_REFS
  }

  // Distinct hashes, none of them empty, and exactly those of the multiset.
  ghost predicate Distinctly(out: seq<ChunkRef>, hashes: multiset<string>) {
    && (forall i, j | 0 <= i < j < |out| :: out[i].hash != out[j].hash)
    && (forall h :: h in Hashes(out) <==> h in hashes && h != "")
  }

  method DedupeChunks(chunks: seq<ChunkRef>) returns (out: seq<ChunkRef>)
    ensures Distinctly(out, multiset(Hashes(chunks)))
    ensures forall c | c in out :: c in chunks
  {
    var seen: set<string> := {};
    out := [];
    for i := 0 to |chunks|
      invariant forall h :: h in seen <==> h in Hashes(out)
      invariant Distinctly(out, multiset(Hashes(chunks)[..i]))
      invariant forall c | c in out :: c in chunks
    {
      assert Hashes(chunks)[..i + 1] == Hashes(chunks)[..i] + [chunks[i].hash];
      if chunks[i].hash == "" || chunks[i].hash in seen {
        continue;
      }
      seen := seen + {chunks[i].hash};
      HashesOfBoth(out, [chunks[i]]);
      assert Hashes([chunks[i]]) == [chunks[i].hash];
      out := out + [chunks[i]];
    }
    assert Hashes(chunks)[..|chunks|] == Hashes(chunks);
  }

  method AppendArtifactChunks(chunks: seq<ChunkRef>, a: Artifact) returns (out: seq<ChunkRef>)
    ensures out == chunks + ArtifactChunks(a)
  {
    out := chunks;
    if a.blob.Some? {
      out := out + a.blob.value;
    }
    if a.tree.None? {
      return;
    }
    var files := a.tree.value;
    ghost var before := out;
    for i := 0 to |files|
      invariant out == before + Flatten(files[..i])
    {
      assert files[..i + 1][..i] == files[..i];
      out := out + files[i];
    }
    assert files[..|files|] == files;
  }

  // The list holds the manifest's own chunks and those of some of its artifacts.
  ghost predicate Gathered(m: Manifest, done: set<string>, out: seq<ChunkRef>) {
    multiset(Hashes(out)) == multiset(Hashes(m.chunks)) + SumOver(done, ChunksAt(m))
  }

  lemma GatherOne(m: Manifest, done: set<string>, out: seq<ChunkRef>, role: string)
    requires Gathered(m, done, out) && done <= m.artifacts.Keys && role in m.artifacts && role !in done
    ensures Gathered(m, done + {role}, out + ArtifactChunks(m.artifacts[role]))
    ensures
      var all := out + ArtifactChunks(m.artifacts[role]);
      |all| <= |ChunkHashes(m)| && multiset(Hashes(all)) <= ChunkHashes(m)
  {
    var all := out + ArtifactChunks(m.artifacts[role]);
    SumOneMore(m.artifacts.Keys, done, role, ChunksAt(m));
    HashesOfBoth(out, ArtifactChunks(m.artifacts[role]));
    assert |multiset(Hashes(all))| == |all|;
  }

  lemma GatherAll(m: Manifest, out: seq<ChunkRef>)
    requires Gathered(m, m.artifacts.Keys, out)
    ensures multiset(Hashes(out)) == ChunkHashes(m) && |out| == |ChunkHashes(m)|
  {
    assert |multiset(Hashes(out))| == |out|;
  }

  // All chunks of a manifest in some order, or the first of them when there are too many.
  method GatherChunks(m: Manifest) returns (out: seq<ChunkRef>, cut: bool)
    ensures !cut ==> Gathered(m, m.artifacts.Keys, out) && (m.artifacts != map[] ==> |out| <= MAX_REFS)
    ensures cut ==> |out| == MAX_REFS < |ChunkHashes(m)| && multiset(Hashes(out)) <= ChunkHashes(m)
    ensures m.artifacts == map[] ==> !cut
  {
    out := m.chunks;
    var todo := m.artifacts.Keys;
    ghost var done := {};
    while todo != {}
      invariant todo == m.artifacts.Keys - done && done <= m.artifacts.Keys && Gathered(m, done, out)
      invariant done != {} ==> |out| <= MAX_REFS
    {
      var role :| role in todo;
      GatherOne(m, done, out, role);
      out := AppendArtifactChunks(out, m.artifacts[role]);
      SplitOff(m.artifacts.Keys, done, todo, role);
      todo, done := todo - {role}, done + {role};
      if |out| > MAX_REFS {
        FirstHashes(out, MAX_REFS);
        out := out[..MAX_REFS];
        return out, true;
      }
    }
    assert done == m.artifacts.Keys;
    cut := false;
  }

  // The distinct chunks; a manifest over the cap gets the first chunks of some order of its
  // artifacts, duplicates included.
  method ManifestChunks(m: Manifest) returns (out: seq<ChunkRef>)
    ensures |ChunkHashes(m)| <= MAX_REFS || m.artifacts == map[] ==> Distinctly(out, ChunkHashes(m))
    ensures |ChunkHashes(m)| > MAX_REFS && m.artifacts != map[] ==>
              |out| == MAX_REFS && multiset(Hashes(out)) <= ChunkHashes(m)
  {
    var all, cut := GatherChunks(m);
    if cut {
      return all;
    }
    GatherAll(m, all);
    out := DedupeChunks(all);
  }

  lemma SplitOff(all: set<string>, done: set<string>, todo: set<string>, x: string)
    requires todo == all - done && done <= all && x in todo
    ensures todo - {x} == all - (done + {x}) && done + {x} <= all
  {
  }

  lemma FirstOnes(s: seq<string>, n: nat)
    requires n <= |s|
    ensures multiset(s[..n]) <= multiset(s)
  {
    assert s == s[..n] + s[n..];
  }

  lemma FirstHashes(chunks: seq<ChunkRef>, n: nat)
    requires n <= |chunks|
    ensures multiset(Hashes(chunks[..n])) <= multiset(Hashes(chunks))
  {
    FirstOnes(Hashes(chunks), n);
    assert Hashes(chunks[..n]) == Hashes(chunks)[..n];
  }

  lemma FirstKeys(names: seq<string>, n: nat, key: string -> string)
    requires n <= |names|
    ensures multiset(KeysOf(names[..n], key)) <= multiset(KeysOf(names, key))
  {
    FirstOnes(KeysOf(names, key), n);
    assert KeysOf(names[..n], key) == KeysOf(names, key)[..n];
  }

  lemma PartIsSmaller(a: multiset<string>, b: multiset<string>)
    requires a <= b
    ensures |a| <= |b|
  {
    assert b == a + (b - a);
  }

  lemma SumOneMore(all: set<string>, done: set<string>, role: string, f: string -> multiset<string>)
    requires done <= all && role in all && role !in done
    ensures SumOver(done + {role}, f) == SumOver(done, f) + f(role)
    ensures |SumOver(done + {role}, f)| <= |SumOver(all, f)| && SumOver(done + {role}, f) <= SumOver(all, f)
  {
    SumRemove(done + {role}, f, role);
    assert done + {role} - {role} == done;
    SumPart(done + {role}, all, f);
    PartIsSmaller(SumOver(done + {role}, f), SumOver(all, f));
  }

  // The list holds what some of the artifacts link to, or describe.
  ghost predicate Listed(names: seq<string>, done: set<string>, f: string -> multiset<string>, key: string -> string) {
    multiset(KeysOf(names, key)) == SumOver(done, f)
  }

  lemma ListMore(all: set<string>, done: set<string>, role: string, f: string -> multiset<string>,
                 key: string -> string, names: seq<string>, more: seq<string>)
    requires done <= all && role in all && role !in done
    requires Listed(names, done, f, key) && f(role) == multiset(KeysOf(more, key))
    ensures Listed(names + more, done + {role}, f, key) && |names + more| <= |SumOver(all, f)|
    ensures multiset(KeysOf(names + more, key)) <= SumOver(all, f)
  {
    KeysOfBoth(names, more, key);
    SumOneMore(all, done, role, f);
    LengthOfKeys(names + more, key);
  }

  lemma LengthOfKeys(names: seq<string>, key: string -> string)
    ensures |multiset(KeysOf(names, key))| == |names|
  {
  }

  // All links, whatever their keys are made of.
  method ManifestCompositeRefs(m: Manifest, ghost key: string -> string) returns (out: seq<string>)
    ensures |LinkedKeys(m, key)| <= MAX_REFS ==> multiset(KeysOf(out, key)) == LinkedKeys(m, key)
    ensures |LinkedKeys(m, key)| > MAX_REFS ==> |out| == MAX_REFS && multiset(KeysOf(out, key)) <= LinkedKeys(m, key)
  {
    out := [];
    var todo := m.artifacts.Keys;
    ghost var done := {};
    while todo != {}
      invariant todo == m.artifacts.Keys - done && done <= m.artifacts.Keys
      invariant |out| <= MAX_REFS && Listed(out, done, LinkedAt(m, key), key)
    {
      var role :| role in todo;
      ListMore(m.artifacts.Keys, done, role, LinkedAt(m, key), key, out, m.artifacts[role].linked);
      out := out + m.artifacts[role].linked;
      SplitOff(m.artifacts.Keys, done, todo, role);
      todo, done := todo - {role}, done + {role};
      if |out| > MAX_REFS {
        FirstKeys(out, MAX_REFS, key);
        return out[..MAX_REFS];
      }
    }
    assert done == m.artifacts.Keys;
    LengthOfKeys(out, key);
  }

  lemma ListDescriptor(m: Manifest, done: set<string>, role: string, key: string -> string, names: seq<string>)
    requires done <= m.artifacts.Keys && role in m.artifacts && role !in done
    requires Listed(names, done, DescriptorAt(m, key), key)
    ensures
      var next := if m.artifacts[role].oci.Some? then names + [m.artifacts[role].oci.value] else names;
      && Listed(next, done + {role}, DescriptorAt(m, key), key) && |next| <= |DescriptorKeys(m, key)|
      && multiset(KeysOf(next, key)) <= DescriptorKeys(m, key)
  {
    var more := DescriptorOf(m.artifacts[role]);
    ListMore(m.artifacts.Keys, done, role, DescriptorAt(m, key), key, names, more);
    assert more == [] ==> names + more == names;
  }

  method ManifestOCIDescriptors(m: Manifest, ghost key: string -> string) returns (out: seq<string>)
    ensures |DescriptorKeys(m, key)| <= MAX_REFS ==> multiset(KeysOf(out, key)) == DescriptorKeys(m, key)
    ensures |DescriptorKeys(m, key)| > MAX_REFS ==>
              |out| == MAX_REFS && multiset(KeysOf(out, key)) <= DescriptorKeys(m, key)
  {
    out := [];
    var todo := m.artifacts.Keys;
    ghost var done := {};
    while todo != {}
      invariant todo == m.artifacts.Keys - done && done <= m.artifacts.Keys
      invariant |out| <= MAX_REFS && Listed(out, done, DescriptorAt(m, key), key)
    {
      var role :| role in todo;
      ListDescriptor(m, done, role, key, out);
      SplitOff(m.artifacts.Keys, done, todo, role);
      todo, done := todo - {role}, done + {role};
      if m.artifacts[role].oci.Some? {
        out := out + [m.artifacts[role].oci.value];
        if |out| > MAX_REFS {
          FirstKeys(out, MAX_REFS, key);
          return out[..MAX_REFS];
        }
      }
    }
    assert done == m.artifacts.Keys;
    LengthOfKeys(out, key);
  }

  // ---------------------------------------------------------------------------
  // Everything a manifest holds

  ghost function ChunkKeys(m: Manifest): set<string> {
    set h | h in ChunkHashes(m) && h != "" :: ChunkKeyIn(m.tenant)(h)
  }

  // The counters a manifest holds, with multiplicity: one per distinct chunk, one per link
  // and one per descriptor. Hashes of different kinds may share a counter.
  ghost function Held(m: Manifest): multiset<string> {
    multiset(ChunkKeys(m)) + LinkedKeys(m, LinkedKeyIn(m.tenant)) + DescriptorKeys(m, DescriptorKeyIn(m.tenant))
  }

  // A list of distinct chunks has each key once.
  lemma DistinctKeys(m: Manifest, out: seq<ChunkRef>)
    requires Distinctly(out, ChunkHashes(m))
    ensures multiset(KeysOf(Hashes(out), ChunkKeyIn(m.tenant))) == multiset(ChunkKeys(m))
  {
    var keys := KeysOf(Hashes(out), ChunkKeyIn(m.tenant));
    forall i, j | 0 <= i < j < |keys| ensures keys[i] != keys[j] {
      assert out[i].hash != out[j].hash;
      if keys[i] == keys[j] {
        SamePrefix(NormTenant(m.tenant) + ".ref.", out[i].hash, out[j].hash);
      }
    }
    forall k ensures multiset(keys)[k] == multiset(ChunkKeys(m))[k] {
      OnceAtMost(keys, k);
      KeyIsListedIff(m, out, k);
    }
  }

  lemma KeyIsListedIff(m: Manifest, out: seq<ChunkRef>, k: string)
    requires Distinctly(out, ChunkHashes(m))
    ensures k in KeysOf(Hashes(out), ChunkKeyIn(m.tenant)) <==> k in ChunkKeys(m)
  {
    var keys := KeysOf(Hashes(out), ChunkKeyIn(m.tenant));
    if k in keys {
      var i :| 0 <= i < |keys| && keys[i] == k;
      assert Hashes(out)[i] in Hashes(out);
    }
    if k in ChunkKeys(m) {
      var h :| h in ChunkHashes(m) && h != "" && ChunkKeyIn(m.tenant)(h) == k;
      assert h in Hashes(out);
      var i :| 0 <= i < |out| && Hashes(out)[i] == h;
      assert keys[i] == k;
    }
  }

  lemma {:induction false} OnceAtMost(s: seq<string>, h: string)
    requires forall i, j | 0 <= i < j < |s| :: s[i] != s[j]
    ensures multiset(s)[h] == if h in s then 1 else 0
  {
    if s != [] {
      var front, last := s[..|s| - 1], s[|s| - 1];
      assert s == front + [last];
      OnceAtMost(front, h);
    }
  }
}
