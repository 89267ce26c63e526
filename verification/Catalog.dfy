// The artifact catalogue: manifests and tags under string keys, and one counter per thing
// that manifests refer to. What concurrent clients do to one counter is in RefCounting;
// here one client works on its own, and any access may fail unless the store is reliable.

module Catalog {
  import opened Basics
  import opened ManifestKeys
  import opened References

  // What a key of the manifest bucket holds.
  datatype Entry = OfManifest(m: Manifest) | OfTag(version: string)

  type Entries = map<string, Entry>
  type Positive = n: nat | n > 0 witness 1
  type Refs = map<string, Positive>

  const MANIFEST_KIND := "wlow.processor.manifest.v1"

  // ---------------------------------------------------------------------------
  // Accepting a manifest

  predicate Alphanumeric(c: char) {
    'A' <= c <= 'Z' || 'a' <= c <= 'z' || '0' <= c <= '9'
  }

  predicate NameChar(c: char) {
    Alphanumeric(c) || c == '.' || c == '_' || c == '=' || c == '-'
  }

  predicate SafeName(s: string) {
    s != "" && Alphanumeric(s[0]) && forall i | 0 < i < |s| :: NameChar(s[i])
  }

  predicate AllSafe(tags: seq<string>) {
    forall i | 0 <= i < |tags| :: SafeName(tags[i])
  }

  function Defaulted(m: Manifest): Manifest {
    m.(kind := if m.kind == "" then MANIFEST_KIND else m.kind,
       tenant := NormTenant(m.tenant),
       hashAlgorithm := if m.hashAlgorithm == "" then "blake3-keyed" else m.hashAlgorithm,
       runtime := if m.runtime == "" then "wasm" else m.runtime,
       ioProtocol := if m.ioProtocol == "" then "externref-json-v0" else m.ioProtocol)
  }

  // An artifact carries what its kind promises.
  predicate WellMade(role: string, a: Artifact) {
    && role != "" && a.kind != ""
    && (a.kind == "blob" ==> a.blob.Some?) && (a.kind == "object" ==> a.hasObject)
    && (a.kind == "file-tree" ==> a.tree.Some?) && (a.kind == "oci-descriptor" ==> a.oci.Some?)
    && (a.kind == "remote-object" ==> a.hasRemote)
  }

  // What the catalogue requires of a manifest once defaults are filled in.
  predicate Acceptable(m: Manifest) {
    && m.kind == MANIFEST_KIND && SafeName(m.tenant) && SafeName(m.processorId) && SafeName(m.version)
    && (m.chunks != [] || m.artifacts != map[] || (m.runtime == "process" && m.directCommand))
    && (forall role | role in m.artifacts :: WellMade(role, m.artifacts[role]))
    && m.hashAlgorithm in {"blake3-keyed", "oci-sha256"}
  }

  method ValidateArtifacts(artifacts: map<string, Artifact>) returns (ok: bool)
    ensures ok <==> forall role | role in artifacts :: WellMade(role, artifacts[role])
  {
    var todo := artifacts.Keys;
    while todo != {}
      invariant todo <= artifacts.Keys
      invariant forall role | role in artifacts && role !in todo :: WellMade(role, artifacts[role])
    {
      var role :| role in todo;
      var a := artifacts[role];
      if role == "" || a.kind == "" || (a.kind == "blob" && a.blob.None?) || (a.kind == "object" && !a.hasObject)
         || (a.kind == "file-tree" && a.tree.None?) || (a.kind == "oci-descriptor" && a.oci.None?)
         || (a.kind == "remote-object" && !a.hasRemote) {
        return false;
      }
      todo := todo - {role};
    }
    return true;
  }

  // None, or the manifest with its defaults.
  method Validate(m: Manifest) returns (r: Option<Manifest>)
    ensures r == if Acceptable(Defaulted(m)) then Some(Defaulted(m)) else None
  {
    var d := Defaulted(m);
    if d.kind != MANIFEST_KIND || !SafeName(d.tenant) || !SafeName(d.processorId) || !SafeName(d.version) {
      return None;
    }
    if |d.chunks| == 0 && |d.artifacts| == 0 {
      if d.runtime != "process" || !d.directCommand {
        return None;
      }
    }
    var made := ValidateArtifacts(d.artifacts);
    if !made || (d.hashAlgorithm != "blake3-keyed" && d.hashAlgorithm != "oci-sha256") {
      return None;
    }
    return Some(d);
  }

  // ---------------------------------------------------------------------------
  // Counting

  function Count(refs: Refs, key: string): nat {
    if key in refs then refs[key] else 0
  }

  // Counts are raised, or lowered as far as they go; a count of zero is no entry.
  ghost function Bump(refs: Refs, held: multiset<string>): Refs {
    map k | k in refs.Keys + (set x | x in held) :: Count(refs, k) + held[k]
  }

  ghost function Sink(refs: Refs, held: multiset<string>): Refs {
    map k | k in refs && refs[k] > held[k] :: refs[k] - held[k]
  }

  // The same as relations, for use step by step.
  ghost predicate Raised(before: Refs, after: Refs, held: multiset<string>) {
    forall k :: RaisedAt(before, after, k, held[k])
  }

  ghost predicate Lowered(before: Refs, after: Refs, held: multiset<string>) {
    forall k :: LoweredAt(before, after, k, held[k])
  }

  predicate RaisedAt(before: Refs, after: Refs, k: string, n: nat) {
    Count(after, k) == Count(before, k) + n
  }

  predicate LoweredAt(before: Refs, after: Refs, k: string, n: nat) {
    Count(after, k) == if Count(before, k) > n then Count(before, k) - n else 0
  }

  lemma RaiseThen(a: Refs, b: Refs, c: Refs, x: multiset<string>, y: multiset<string>)
    requires Raised(a, b, x) && Raised(b, c, y)
    ensures Raised(a, c, x + y)
  {
    forall k ensures RaisedAt(a, c, k, (x + y)[k]) {
      assert RaisedAt(a, b, k, x[k]) && RaisedAt(b, c, k, y[k]);
    }
  }

  lemma LowerThen(a: Refs, b: Refs, c: Refs, x: multiset<string>, y: multiset<string>)
    requires Lowered(a, b, x) && Lowered(b, c, y)
    ensures Lowered(a, c, x + y)
  {
    forall k ensures LoweredAt(a, c, k, (x + y)[k]) {
      assert LoweredAt(a, b, k, x[k]) && LoweredAt(b, c, k, y[k]);
    }
  }

  lemma RaisedIsBump(before: Refs, after: Refs, held: multiset<string>)
    ensures Raised(before, after, held) <==> after == Bump(before, held)
  {
    if Raised(before, after, held) {
      forall k ensures k in after <==> k in Bump(before, held) {
        assert RaisedAt(before, after, k, held[k]);
      }
      forall k | k in after ensures after[k] == Bump(before, held)[k] {
        assert RaisedAt(before, after, k, held[k]);
      }
    }
  }

  lemma LoweredIsSink(before: Refs, after: Refs, held: multiset<string>)
    ensures Lowered(before, after, held) <==> after == Sink(before, held)
  {
    if Lowered(before, after, held) {
      forall k ensures k in after <==> k in Sink(before, held) {
        assert LoweredAt(before, after, k, held[k]);
      }
      forall k | k in after ensures after[k] == Sink(before, held)[k] {
        assert LoweredAt(before, after, k, held[k]);
      }
    }
  }

  lemma Cancel(a: multiset<string>, b: multiset<string>, x: multiset<string>, y: multiset<string>)
    requires a + x == b + y && x == y
    ensures a == b
  {
    forall k ensures a[k] == b[k] {
      assert (a + x)[k] == (b + y)[k];
    }
  }

  // ---------------------------------------------------------------------------
  // Live manifests and what they hold

  // The counters a manifest holds, as a function. What follows is true whatever manifests
  // hold; the store uses HeldBy().
  type Holding = Manifest -> multiset<string>

  ghost function HeldBy(): Holding {
    m => Held(m)
  }

  ghost function HeldAt(h: Holding, entries: Entries): string -> multiset<string> {
    k => if k in entries && entries[k].OfManifest? then h(entries[k].m) else multiset{}
  }

  ghost function Total(h: Holding, entries: Entries): multiset<string> {
    SumOver(entries.Keys, HeldAt(h, entries))
  }

  // What the entries hold, with one key set aside.
  lemma TotalWithout(h: Holding, entries: Entries, k: string)
    ensures Total(h, entries) == SumOver(entries.Keys - {k}, HeldAt(h, entries)) + HeldAt(h, entries)(k)
  {
    if k in entries {
      SumRemove(entries.Keys, HeldAt(h, entries), k);
    } else {
      assert entries.Keys - {k} == entries.Keys;
    }
  }

  lemma TotalOfUpdate(h: Holding, entries: Entries, k: string, e: Entry)
    ensures Total(h, entries[k := e]) + HeldAt(h, entries)(k) == Total(h, entries) + HeldAt(h, entries[k := e])(k)
  {
    var next := entries[k := e];
    assert next.Keys - {k} == entries.Keys - {k};
    TotalWithout(h, next, k);
    TotalWithout(h, entries, k);
    SumAgree(next.Keys - {k}, HeldAt(h, next), HeldAt(h, entries));
  }

  lemma TotalOfRemoval(h: Holding, entries: Entries, k: string)
    requires k in entries
    ensures Total(h, entries - {k}) + HeldAt(h, entries)(k) == Total(h, entries)
  {
    SumRemove(entries.Keys, HeldAt(h, entries), k);
    SumAgree(entries.Keys - {k}, HeldAt(h, entries), HeldAt(h, entries - {k}));
    assert (entries - {k}).Keys == entries.Keys - {k};
  }

  // Each counter is the number of times live manifests hold it, and there is no counter
  // for what nothing holds.
  ghost predicate Tracks(h: Holding, entries: Entries, refs: Refs) {
    Counts(refs, Total(h, entries))
  }

  ghost predicate Counts(refs: Refs, total: multiset<string>) {
    forall k :: CountIs(refs, k, total[k])
  }

  predicate CountIs(refs: Refs, k: string, n: nat) {
    Count(refs, k) == n && (k in refs <==> n > 0)
  }

  lemma BumpCounts(refs: Refs, total: multiset<string>, held: multiset<string>)
    requires Counts(refs, total)
    ensures Counts(Bump(refs, held), total + held)
  {
    forall k ensures CountIs(Bump(refs, held), k, (total + held)[k]) {
      assert CountIs(refs, k, total[k]);
    }
  }

  lemma SinkCounts(refs: Refs, total: multiset<string>, held: multiset<string>)
    requires Counts(refs, total + held)
    ensures Counts(Sink(refs, held), total)
  {
    forall k ensures CountIs(Sink(refs, held), k, total[k]) {
      assert CountIs(refs, k, (total + held)[k]);
    }
  }

  // A table counts one multiset only.
  lemma CountsOne(refs: Refs, a: multiset<string>, b: multiset<string>)
    requires Counts(refs, a) && Counts(refs, b)
    ensures a == b
  {
    forall k ensures a[k] == b[k] {
      assert CountIs(refs, k, a[k]) && CountIs(refs, k, b[k]);
    }
  }

  function KeyOf(m: Manifest): string {
    ManifestKey(m.tenant, m.processorId, m.version)
  }

  // Tags are written one after the other.
  function Tagged(entries: Entries, m: Manifest, tags: seq<string>): Entries {
    if tags == [] then entries
    else
      var front := Tagged(entries, m, tags[..|tags| - 1]);
      front[TagKey(m.tenant, m.processorId, tags[|tags| - 1]) := OfTag(m.version)]
  }

  function LiveAt(entries: Entries, k: string): Option<Manifest> {
    if k in entries && entries[k].OfManifest? then Some(entries[k].m) else None
  }

  // One of the tags is written under this key.
  ghost predicate TagsAt(m: Manifest, tags: seq<string>, key: string) {
    exists i :: 0 <= i < |tags| && TagKey(m.tenant, m.processorId, tags[i]) == key
  }

  // Under such a key there is then no manifest, and under all others what was there.
  lemma {:induction false} TaggedAt(entries: Entries, m: Manifest, tags: seq<string>, key: string)
    ensures
      var after := Tagged(entries, m, tags);
      if TagsAt(m, tags, key) then key in after && after[key] == OfTag(m.version)
      else (key in after <==> key in entries) && (key in entries ==> after[key] == entries[key])
  {
    if tags != [] {
      var front, last := tags[..|tags| - 1], TagKey(m.tenant, m.processorId, tags[|tags| - 1]);
      TaggedAt(entries, m, front, key);
      TagsAtMore(m, tags, key);
    }
  }

  lemma TagsAtMore(m: Manifest, tags: seq<string>, key: string)
    requires tags != []
    ensures
      var k := |tags| - 1;
      TagsAt(m, tags, key) <==> TagsAt(m, tags[..k], key) || TagKey(m.tenant, m.processorId, tags[k]) == key
  {
    var k := |tags| - 1;
    if TagsAt(m, tags[..k], key) {
      var i :| 0 <= i < k && TagKey(m.tenant, m.processorId, tags[..k][i]) == key;
      assert tags[i] == tags[..k][i];
    }
    if TagsAt(m, tags, key) {
      var i :| 0 <= i < |tags| && TagKey(m.tenant, m.processorId, tags[i]) == key;
      assert i < k ==> tags[..k][i] == tags[i];
    }
  }

  // No live manifest that holds anything is under one of the tags' keys.
  ghost predicate Spares(h: Holding, entries: Entries, m: Manifest, tags: seq<string>) {
    forall key | TagsAt(m, tags, key) :: HeldAt(h, entries)(key) == multiset{}
  }

  // Tags take away what is held under their keys, and nothing else.
  lemma {:induction false} TagsTakeIff(h: Holding, entries: Entries, m: Manifest, tags: seq<string>)
    ensures Total(h, Tagged(entries, m, tags)) <= Total(h, entries)
    ensures Total(h, Tagged(entries, m, tags)) == Total(h, entries) <==> Spares(h, entries, m, tags)
  {
    if tags != [] {
      var k := |tags| - 1;
      var front, key := Tagged(entries, m, tags[..k]), TagKey(m.tenant, m.processorId, tags[k]);
      TagsTakeIff(h, entries, m, tags[..k]);
      TotalOfUpdate(h, front, key, OfTag(m.version));
      TaggedAt(entries, m, tags[..k], key);
      SparesMore(h, entries, m, tags);
      LessBy(Total(h, Tagged(entries, m, tags)), HeldAt(h, front)(key), Total(h, front));
    }
  }

  lemma SparesMore(h: Holding, entries: Entries, m: Manifest, tags: seq<string>)
    requires tags != []
    ensures
      var (k, key) := (|tags| - 1, TagKey(m.tenant, m.processorId, tags[|tags| - 1]));
      Spares(h, entries, m, tags) <==> Spares(h, entries, m, tags[..k]) && HeldAt(h, entries)(key) == multiset{}
  {
    forall key {
      TagsAtMore(m, tags, key);
    }
    assert TagsAt(m, tags, TagKey(m.tenant, m.processorId, tags[|tags| - 1]));
  }

  lemma LessBy(a: multiset<string>, d: multiset<string>, b: multiset<string>)
    requires a + d == b
    ensures a <= b && (a == b <==> d == multiset{})
  {
    assert forall k :: (a + d)[k] == b[k];
    if a == b {
      assert forall k :: d[k] == 0;
    }
  }

  // ---------------------------------------------------------------------------
  // Histories

  // The catalogue after a manifest was put.
  function Placed(entries: Entries, m: Manifest, tags: seq<string>): Entries {
    Tagged(entries[KeyOf(m) := OfManifest(m)], m, tags)
  }

  // A put adds what the manifest holds exactly when it takes nothing away.
  lemma PlacedTotalIff(h: Holding, entries: Entries, m: Manifest, tags: seq<string>)
    ensures Total(h, Placed(entries, m, tags)) == Total(h, entries) + h(m) <==>
            HeldAt(h, entries)(KeyOf(m)) == multiset{} && Spares(h, entries, m, tags)
  {
    var mid := entries[KeyOf(m) := OfManifest(m)];
    TotalOfUpdate(h, entries, KeyOf(m), OfManifest(m));
    LessBy(Total(h, mid), HeldAt(h, entries)(KeyOf(m)), Total(h, entries) + h(m));
    TagsTakeIff(h, mid, m, tags);
    forall key | TagsAt(m, tags, key) ensures HeldAt(h, mid)(key) == HeldAt(h, entries)(key) {
      var i :| 0 <= i < |tags| && TagKey(m.tenant, m.processorId, tags[i]) == key;
      OwnTagIsNoManifest(m.tenant, m.processorId, tags[i], m.processorId, m.version);
    }
    NoMoreThan(Total(h, Placed(entries, m, tags)), Total(h, mid), Total(h, entries) + h(m));
  }

  lemma NoMoreThan(a: multiset<string>, b: multiset<string>, c: multiset<string>)
    requires a <= b <= c
    ensures a == c <==> a == b && b == c
  {
    if a == c {
      forall k ensures a[k] == b[k] {
      }
    }
  }

  // Putting a manifest keeps the counters right exactly when it replaces no live manifest that
  // holds anything, neither by itself nor by one of its tags.
  lemma PutKeepsTracksIff(h: Holding, entries: Entries, refs: Refs, m: Manifest, tags: seq<string>)
    requires Tracks(h, entries, refs)
    ensures Tracks(h, Placed(entries, m, tags), Bump(refs, h(m))) <==>
            HeldAt(h, entries)(KeyOf(m)) == multiset{} && Spares(h, entries, m, tags)
  {
    PlacedTotalIff(h, entries, m, tags);
    var next := Total(h, Placed(entries, m, tags));
    BumpCounts(refs, Total(h, entries), h(m));
    if Counts(Bump(refs, h(m)), next) {
      CountsOne(Bump(refs, h(m)), next, Total(h, entries) + h(m));
    }
  }

  // Deleting a live manifest always does.
  lemma RemoveKeepsTracks(h: Holding, entries: Entries, refs: Refs, k: string)
    requires Tracks(h, entries, refs) && k in entries && entries[k].OfManifest?
    ensures Tracks(h, entries - {k}, Sink(refs, h(entries[k].m)))
  {
    TotalOfRemoval(h, entries, k);
    SinkCounts(refs, Total(h, entries - {k}), h(entries[k].m));
  }

  datatype Call = Put(m: Manifest, tags: seq<string>) | Delete(tenant: string, processorId: string, version: string)

  // The tags before the first one that is not safe.
  function SafePart(tags: seq<string>): seq<string> {
    if tags == [] || !SafeName(tags[0]) then [] else [tags[0]] + SafePart(tags[1..])
  }

  lemma {:induction false} SafePartEnds(tags: seq<string>, n: nat)
    requires n <= |tags| && AllSafe(tags[..n]) && (n < |tags| ==> !SafeName(tags[n]))
    ensures SafePart(tags) == tags[..n]
  {
    if n > 0 {
      assert SafeName(tags[..n][0]);
      var rest := tags[1..][..n - 1];
      assert tags[..n] == [tags[0]] + rest;
      forall i | 0 <= i < |rest| ensures SafeName(rest[i]) {
        assert rest[i] == tags[..n][i + 1];
      }
      SafePartEnds(tags[1..], n - 1);
    }
  }

  // What a call does when every access succeeds.
  ghost function Applied(h: Holding, entries: Entries, refs: Refs, c: Call): (Entries, Refs) {
    match c
    case Put(m, tags) =>
      var d := Defaulted(m);
      if Acceptable(d) then (Placed(entries, d, SafePart(tags)), Bump(refs, h(d))) else (entries, refs)
    case Delete(tenant, processorId, version) =>
      var key := ManifestKey(tenant, processorId, version);
      match LiveAt(entries, key)
      case Some(m) => (entries - {key}, Sink(refs, h(m)))
      case None => (entries, refs)
  }

  ghost function After(h: Holding, entries: Entries, refs: Refs, calls: seq<Call>): (Entries, Refs) {
    if calls == [] then (entries, refs)
    else
      var (front, counts) := After(h, entries, refs, calls[..|calls| - 1]);
      Applied(h, front, counts, calls[|calls| - 1])
  }

  // A put that replaces a live manifest which holds something, by itself or by one of the tags
  // that it writes.
  ghost predicate Replaces(h: Holding, entries: Entries, c: Call) {
    c.Put? && Acceptable(Defaulted(c.m)) &&
    !(HeldAt(h, entries)(KeyOf(Defaulted(c.m))) == multiset{} && Spares(h, entries, Defaulted(c.m), SafePart(c.tags)))
  }

  lemma CallKeepsTracksIff(h: Holding, entries: Entries, refs: Refs, c: Call)
    requires Tracks(h, entries, refs)
    ensures
      var (after, counts) := Applied(h, entries, refs, c);
      Tracks(h, after, counts) <==> !Replaces(h, entries, c)
  {
    match c {
      case Put(m, tags) =>
        PutKeepsTracksIff(h, entries, refs, Defaulted(m), SafePart(tags));
      case Delete(tenant, processorId, version) =>
        var key := ManifestKey(tenant, processorId, version);
        if LiveAt(entries, key).Some? {
          RemoveKeepsTracks(h, entries, refs, key);
        }
    }
  }

  ghost predicate TracksAfter(h: Holding, entries: Entries, refs: Refs, calls: seq<Call>) {
    Tracks(h, After(h, entries, refs, calls).0, After(h, entries, refs, calls).1)
  }

  ghost predicate ReplacesAfter(h: Holding, entries: Entries, refs: Refs, calls: seq<Call>, c: Call) {
    Replaces(h, After(h, entries, refs, calls).0, c)
  }

  lemma NextCallIff(h: Holding, entries: Entries, refs: Refs, calls: seq<Call>, i: nat)
    requires i < |calls| && TracksAfter(h, entries, refs, calls[..i])
    ensures TracksAfter(h, entries, refs, calls[..i + 1]) <==> !ReplacesAfter(h, entries, refs, calls[..i], calls[i])
  {
    var (front, counts) := After(h, entries, refs, calls[..i]);
    CallKeepsTracksIff(h, front, counts, calls[i]);
    AfterNext(h, entries, refs, calls, i);
  }

  lemma AfterNext(h: Holding, entries: Entries, refs: Refs, calls: seq<Call>, i: nat)
    requires i < |calls|
    ensures
      var (front, counts) := After(h, entries, refs, calls[..i]);
      After(h, entries, refs, calls[..i + 1]) == Applied(h, front, counts, calls[i])
  {
    assert calls[..i + 1][..i] == calls[..i];
  }

  lemma {:induction false} TracksUpTo(h: Holding, entries: Entries, refs: Refs, calls: seq<Call>, n: nat)
    requires Tracks(h, entries, refs) && n <= |calls|
    requires forall i | 0 <= i < |calls| :: !ReplacesAfter(h, entries, refs, calls[..i], calls[i])
    ensures TracksAfter(h, entries, refs, calls[..n])
  {
    if n > 0 {
      TracksUpTo(h, entries, refs, calls, n - 1);
      NextCallIff(h, entries, refs, calls, n - 1);
    }
  }

  // Whatever is called from a catalogue in order, the counters are right all the time exactly
  // when no put replaces a live manifest which holds something, by itself or by a tag.
  lemma TracksThroughoutIff(h: Holding, entries: Entries, refs: Refs, calls: seq<Call>)
    requires Tracks(h, entries, refs)
    ensures (forall n | 0 <= n <= |calls| :: TracksAfter(h, entries, refs, calls[..n])) <==>
            (forall i | 0 <= i < |calls| :: !ReplacesAfter(h, entries, refs, calls[..i], calls[i]))
  {
    if forall n | 0 <= n <= |calls| :: TracksAfter(h, entries, refs, calls[..n]) {
      forall i | 0 <= i < |calls| ensures !ReplacesAfter(h, entries, refs, calls[..i], calls[i]) {
        NextCallIff(h, entries, refs, calls, i);
      }
    } else if forall i | 0 <= i < |calls| :: !ReplacesAfter(h, entries, refs, calls[..i], calls[i]) {
      forall n | 0 <= n <= |calls| ensures TracksAfter(h, entries, refs, calls[..n]) {
        TracksUpTo(h, entries, refs, calls, n);
      }
    }
  }

  lemma EmptyTracks(h: Holding)
    ensures Tracks(h, map[], map[])
  {
  }

  // ---------------------------------------------------------------------------
  // Resolving references

  // A reference is a version, or else a tag that names one.
  function Resolved(entries: Entries, tenant: string, processorId: string, ref: string): Option<Manifest> {
    var r := if ref == "" then "latest" else ref;
    var direct := LiveAt(entries, ManifestKey(tenant, processorId, r));
    var key := TagKey(tenant, processorId, r);
    if direct.Some? then direct
    else if key in entries && entries[key].OfTag? then
      LiveAt(entries, ManifestKey(tenant, processorId, entries[key].version))
    else None
  }

  // Putting a manifest changes what is live under its own key and under those of its tags.
  lemma PlacedLive(entries: Entries, m: Manifest, tags: seq<string>, key: string)
    ensures LiveAt(Placed(entries, m, tags), key) ==
            if TagsAt(m, tags, key) then None else if key == KeyOf(m) then Some(m) else LiveAt(entries, key)
  {
    TaggedAt(entries[KeyOf(m) := OfManifest(m)], m, tags, key);
  }

  lemma OwnVersionIsNoTag(m: Manifest, tags: seq<string>, p: string, version: string)
    ensures !TagsAt(m, tags, ManifestKey(m.tenant, p, version))
  {
    if TagsAt(m, tags, ManifestKey(m.tenant, p, version)) {
      var i :| 0 <= i < |tags| && TagKey(m.tenant, m.processorId, tags[i]) == ManifestKey(m.tenant, p, version);
      OwnTagIsNoManifest(m.tenant, m.processorId, tags[i], p, version);
    }
  }

  lemma TagLeads(entries: Entries, t: string, p: string, tag: string, version: string)
    requires tag != "" && TagKey(t, p, tag) in entries && entries[TagKey(t, p, tag)] == OfTag(version)
    ensures
      var direct := LiveAt(entries, ManifestKey(t, p, tag));
      Resolved(entries, t, p, tag) == if direct.Some? then direct else LiveAt(entries, ManifestKey(t, p, version))
  {
  }

  // A tag given with a manifest resolves to it exactly when no other live version of the
  // processor has that name.
  lemma TagResolvesIff(entries: Entries, m: Manifest, tags: seq<string>, tag: string)
    requires tag in tags && tag != ""
    ensures
      var live := LiveAt(entries, ManifestKey(m.tenant, m.processorId, tag));
      Resolved(Placed(entries, m, tags), m.tenant, m.processorId, tag) == Some(m) <==>
      tag == m.version || live.None? || live == Some(m)
  {
    var i :| 0 <= i < |tags| && tags[i] == tag;
    assert TagKey(m.tenant, m.processorId, tags[i]) == TagKey(m.tenant, m.processorId, tag);
    TaggedAt(entries[KeyOf(m) := OfManifest(m)], m, tags, TagKey(m.tenant, m.processorId, tag));
    OwnVersionIsNoTag(m, tags, m.processorId, tag);
    OwnVersionIsNoTag(m, tags, m.processorId, m.version);
    TagLeads(Placed(entries, m, tags), m.tenant, m.processorId, tag, m.version);
    PlacedLive(entries, m, tags, ManifestKey(m.tenant, m.processorId, tag));
    PlacedLive(entries, m, tags, KeyOf(m));
    VersionsEqualIff(m.tenant, m.processorId, tag, m.version);
  }

  // No put under one name changes what references under the other resolve to.
  ghost predicate LeavesAlone(t: string, p: string, u: string, q: string) {
    forall entries: Entries, m: Manifest, tags, ref | m.tenant == t && m.processorId == p ::
      Resolved(Placed(entries, m, tags), u, q, ref) == Resolved(entries, u, q, ref)
  }

  lemma ApartEntry(entries: Entries, m: Manifest, tags: seq<string>, key: string)
    requires key != KeyOf(m) && !TagsAt(m, tags, key)
    ensures
      var after := Placed(entries, m, tags);
      (key in after <==> key in entries) && (key in entries ==> after[key] == entries[key])
  {
    TaggedAt(entries[KeyOf(m) := OfManifest(m)], m, tags, key);
  }

  lemma ApartKeys(entries: Entries, m: Manifest, tags: seq<string>, u: string, q: string, r: string)
    requires KeysApart(m.tenant, m.processorId, u, q)
    ensures
      var (after, v, k) := (Placed(entries, m, tags), ManifestKey(u, q, r), TagKey(u, q, r));
      && LiveAt(after, v) == LiveAt(entries, v)
      && (k in after <==> k in entries) && (k in entries ==> after[k] == entries[k])
  {
    KeysNeverMeet(m.tenant, m.processorId, u, q);
    ApartEntry(entries, m, tags, ManifestKey(u, q, r));
    ApartEntry(entries, m, tags, TagKey(u, q, r));
  }

  // Puts under one name leave references under another alone exactly when their keys never
  // meet.
  lemma OthersResolveAsBeforeIff(t: string, p: string, u: string, q: string)
    ensures LeavesAlone(t, p, u, q) <==> KeysApart(t, p, u, q)
  {
    if KeysApart(t, p, u, q) {
      forall entries: Entries, m: Manifest, tags, ref | m.tenant == t && m.processorId == p
        ensures Resolved(Placed(entries, m, tags), u, q, ref) == Resolved(entries, u, q, ref)
      {
        var r := if ref == "" then "latest" else ref;
        ApartKeys(entries, m, tags, u, q, r);
        if TagKey(u, q, r) in entries && entries[TagKey(u, q, r)].OfTag? {
          ApartKeys(entries, m, tags, u, q, entries[TagKey(u, q, r)].version);
        }
      }
    } else {
      var entries, m, tags, ref := MeetingPut(t, p, u, q);
    }
  }

  function SampleOf(t: string, p: string, version: string): Manifest {
    Manifest(MANIFEST_KIND, t, p, version, "blake3-keyed", "process", "externref-json-v0", true, [], map[])
  }

  // Where keys meet, some put changes some reference.
  lemma MeetingPut(t: string, p: string, u: string, q: string)
    returns (entries: Entries, m: Manifest, tags: seq<string>, ref: string)
    requires !KeysApart(t, p, u, q)
    ensures m.tenant == t && m.processorId == p
    ensures Resolved(Placed(entries, m, tags), u, q, ref) != Resolved(entries, u, q, ref)
  {
    var v, w, kind := KeysMeet(t, p, u, q);
    ref := w;
    var other := w + "x";
    VersionsEqualIff(u, q, w, other);
    OwnTagIsNoManifest(u, q, w, q, w);
    OwnTagIsNoManifest(u, q, w, q, other);
    m := SampleOf(t, p, if kind.VersionAtVersion? || kind.VersionAtTag? then v else other);
    tags := if kind.TagAtVersion? || kind.TagAtTag? then [v] else [];
    match kind {
      case VersionAtVersion =>
        entries := map[];
      case VersionAtTag =>
        entries := map[TagKey(u, q, w) := OfTag(other), ManifestKey(u, q, other) := OfManifest(m)];
      case TagAtVersion =>
        entries := map[ManifestKey(u, q, w) := OfManifest(m)];
      case TagAtTag =>
        entries := map[ManifestKey(u, q, other) := OfManifest(m)];
    }
    OneTagged(entries, m, tags);
  }

  lemma OneTagged(entries: Entries, m: Manifest, tags: seq<string>)
    requires |tags| <= 1
    ensures
      var mid := entries[KeyOf(m) := OfManifest(m)];
      Placed(entries, m, tags) ==
      if tags == [] then mid else mid[TagKey(m.tenant, m.processorId, tags[0]) := OfTag(m.version)]
  {
    if tags != [] {
      var mid := entries[KeyOf(m) := OfManifest(m)];
      assert tags[..0] == [] && Tagged(mid, m, tags[..0]) == mid;
    }
  }

  // ---------------------------------------------------------------------------
  // What is stored

  ghost predicate AllStored(entries: Entries) {
    forall k | k in entries && entries[k].OfManifest? :: Stored(k, entries[k].m)
  }

  ghost predicate Stored(k: string, m: Manifest) {
    k == KeyOf(m) && Acceptable(m) && Defaulted(m) == m
  }

  lemma {:induction false} PlacedKeepsStored(entries: Entries, m: Manifest, tags: seq<string>)
    requires AllStored(entries) && Acceptable(m) && Defaulted(m) == m
    ensures AllStored(Placed(entries, m, tags))
  {
    if tags == [] {
      assert Stored(KeyOf(m), m);
    } else {
      PlacedKeepsStored(entries, m, tags[..|tags| - 1]);
    }
  }

  // ---------------------------------------------------------------------------
  // The store

  class ArtifactStore {
    const reliable: bool
    var manifests: Entries
    var refs: Refs

    constructor (reliable: bool)
      ensures Valid() && this.reliable == reliable && manifests == map[] && refs == map[]
    {
      this.reliable := reliable;
      manifests, refs := map[], map[];
    }

    // Only accepted manifests are stored, each under its own key.
    ghost predicate Valid()
      reads this`manifests
    {
      AllStored(manifests)
    }

    method IncrementRef(key: string) returns (ok: bool)
      modifies this`refs
      ensures Raised(old(refs), refs, if ok then multiset{key} else multiset{})
      ensures reliable ==> ok
    {
      ok := Reach(reliable);
      if ok {
        refs := refs[key := Count(refs, key) + 1];
      }
    }

    // The last reference is removed by a delete whose failure goes unnoticed.
    method DecrementRef(key: string) returns (ok: bool, ghost done: bool)
      modifies this`refs
      ensures done ==> ok && Lowered(old(refs), refs, multiset{key})
      ensures !done ==> refs == old(refs)
      ensures reliable ==> ok && done
    {
      var read := Reach(reliable);
      if !read {
        return false, false;
      }
      if Count(refs, key) <= 1 {
        var deleted := Reach(reliable);
        if deleted {
          refs := refs - {key};
        }
        return true, deleted;
      }
      var updated := Reach(reliable);
      if updated {
        refs := refs[key := refs[key] - 1];
      }
      return updated, updated;
    }

    // Part of the keys are counted when it gives up.
    method IncrementRefs(keys: seq<string>) returns (ok: bool, ghost part: multiset<string>)
      modifies this`refs
      ensures Raised(old(refs), refs, part)
      ensures ok ==> part == multiset(keys)
      ensures reliable ==> ok
    {
      part := multiset{};
      for i := 0 to |keys|
        invariant part == multiset(keys[..i]) && Raised(old(refs), refs, part)
      {
        assert keys[..i + 1] == keys[..i] + [keys[i]];
        ghost var before := refs;
        ok := IncrementRef(keys[i]);
        if !ok {
          return;
        }
        RaiseThen(old(refs), before, refs, part, multiset{keys[i]});
        part := part + multiset{keys[i]};
      }
      assert keys[..|keys|] == keys;
      ok := true;
    }

    method DecrementRefs(keys: seq<string>) returns (ok: bool, ghost part: multiset<string>)
      modifies this`refs
      ensures Lowered(old(refs), refs, part)
      ensures reliable ==> ok && part == multiset(keys)
    {
      part := multiset{};
      for i := 0 to |keys|
        invariant Lowered(old(refs), refs, part)
        invariant reliable ==> part == multiset(keys[..i])
      {
        assert keys[..i + 1] == keys[..i] + [keys[i]];
        ghost var before := refs;
        ghost var done;
        ok, done := DecrementRef(keys[i]);
        if done {
          LowerThen(old(refs), before, refs, part, multiset{keys[i]});
          part := part + multiset{keys[i]};
        }
        if !ok {
          return;
        }
      }
      assert keys[..|keys|] == keys;
      ok := true;
    }

    // Counts everything a manifest holds, kind by kind.
    method IncrementAll(m: Manifest) returns (ok: bool, ghost part: multiset<string>)
      modifies this`refs
      ensures Raised(old(refs), refs, part)
      ensures ok && WithinCap(m) ==> part == Held(m)
      ensures reliable ==> ok
    {
      var chunks := ManifestChunks(m);
      var keys := KeysOf(Hashes(chunks), ChunkKeyIn(m.tenant));
      ok, part := IncrementRefs(keys);
      if !ok {
        return;
      }
      ghost var more, before := multiset{}, refs;
      var linked := ManifestCompositeRefs(m, LinkedKeyIn(m.tenant));
      ok, more := IncrementRefs(KeysOf(linked, LinkedKeyIn(m.tenant)));
      RaiseThen(old(refs), before, refs, part, more);
      part := part + more;
      if !ok {
        return;
      }
      before := refs;
      var digests := ManifestOCIDescriptors(m, DescriptorKeyIn(m.tenant));
      ok, more := IncrementRefs(KeysOf(digests, DescriptorKeyIn(m.tenant)));
      RaiseThen(old(refs), before, refs, part, more);
      part := part + more;
      if ok && WithinCap(m) {
        ListsAreHeld(m, chunks, linked, digests);
      }
    }

    method DecrementAll(m: Manifest) returns (ok: bool, ghost part: multiset<string>)
      modifies this`refs
      ensures Lowered(old(refs), refs, part)
      ensures reliable ==> ok && (WithinCap(m) ==> part == Held(m))
    {
      var chunks := ManifestChunks(m);
      ok, part := DecrementRefs(KeysOf(Hashes(chunks), ChunkKeyIn(m.tenant)));
      if !ok {
        return;
      }
      ghost var more, before := multiset{}, refs;
      var linked := ManifestCompositeRefs(m, LinkedKeyIn(m.tenant));
      ok, more := DecrementRefs(KeysOf(linked, LinkedKeyIn(m.tenant)));
      LowerThen(old(refs), before, refs, part, more);
      part := part + more;
      if !ok {
        return;
      }
      before := refs;
      var digests := ManifestOCIDescriptors(m, DescriptorKeyIn(m.tenant));
      ok, more := DecrementRefs(KeysOf(digests, DescriptorKeyIn(m.tenant)));
      LowerThen(old(refs), before, refs, part, more);
      part := part + more;
      if WithinCap(m) {
        ListsAreHeld(m, chunks, linked, digests);
      }
    }

    // Tags before the first invalid one are written.
    method PutTags(m: Manifest, tags: seq<string>) returns (ok: bool, ghost n: nat)
      modifies this`manifests
      ensures n <= |tags| && manifests == Tagged(old(manifests), m, tags[..n])
      ensures ok ==> n == |tags| && AllSafe(tags) && manifests == Tagged(old(manifests), m, tags)
      ensures reliable ==> tags[..n] == SafePart(tags)
      ensures reliable && AllSafe(tags) ==> ok
    {
      for i := 0 to |tags|
        invariant manifests == Tagged(old(manifests), m, tags[..i]) && AllSafe(tags[..i])
      {
        assert tags[..i + 1][..i] == tags[..i];
        if !SafeName(tags[i]) {
          SafePartEnds(tags, i);
          return false, i;
        }
        var written := Reach(reliable);
        if !written {
          return false, i;
        }
        manifests := manifests[TagKey(m.tenant, m.processorId, tags[i]) := OfTag(m.version)];
      }
      assert tags[..|tags|] == tags;
      SafePartEnds(tags, |tags|);
      return true, |tags|;
    }

    // Stores a manifest, counts what it holds and tags it, as far as it gets.
    method Enter(key: string, m: Manifest, tags: seq<string>)
      returns (ok: bool, ghost part: multiset<string>, ghost stored: bool, ghost n: nat)
      modifies this`manifests, this`refs
      ensures Raised(old(refs), refs, part)
      ensures n <= |tags|
      ensures manifests == if stored then Tagged(old(manifests)[key := OfManifest(m)], m, tags[..n]) else old(manifests)
      ensures ok ==> AllSafe(tags) && manifests == Tagged(old(manifests)[key := OfManifest(m)], m, tags)
      ensures ok && WithinCap(m) ==> part == Held(m)
      ensures reliable ==> stored && tags[..n] == SafePart(tags) && (WithinCap(m) ==> part == Held(m))
      ensures reliable && AllSafe(tags) ==> ok
    {
      part, n := multiset{}, 0;
      ok := Reach(reliable);
      stored := ok;
      if !ok {
        return;
      }
      manifests := manifests[key := OfManifest(m)];
      ok, part := IncrementAll(m);
      if ok {
        ok, n := PutTags(m, tags);
      }
    }

    // Defaults are filled in first; a manifest that is then not acceptable changes nothing.
    method PutArtifact(m: Manifest, tags: seq<string>) returns (ok: bool, ghost part: multiset<string>)
      requires Valid()
      modifies this`manifests, this`refs
      ensures Valid()
      ensures Raised(old(refs), refs, part)
      ensures ok ==> Acceptable(Defaulted(m)) && AllSafe(tags)
      ensures ok ==> manifests == Placed(old(manifests), Defaulted(m), tags)
      ensures ok && WithinCap(Defaulted(m)) ==> part == Held(Defaulted(m))
      ensures reliable && Acceptable(Defaulted(m)) && AllSafe(tags) ==> ok
      ensures !Acceptable(Defaulted(m)) ==> manifests == old(manifests) && refs == old(refs)
      ensures reliable && Acceptable(Defaulted(m)) ==>
                && manifests == Placed(old(manifests), Defaulted(m), SafePart(tags))
                && (WithinCap(Defaulted(m)) ==> part == Held(Defaulted(m)))
    {
      part := multiset{};
      var valid := Validate(m);
      if valid.None? {
        return false, part;
      }
      var d := valid.value;
      ghost var stored, n;
      ok, part, stored, n := Enter(KeyOf(d), d, tags);
      if stored {
        PlacedKeepsStored(old(manifests), d, tags[..n]);
        assert manifests == Placed(old(manifests), d, tags[..n]);
      }
    }

    // An entry that is not a manifest does not decode.
    method GetManifest(tenant: string, processorId: string, version: string) returns (m: Option<Manifest>)
      ensures m.Some? ==> m == LiveAt(manifests, ManifestKey(tenant, processorId, version))
      ensures reliable ==> m == LiveAt(manifests, ManifestKey(tenant, processorId, version))
    {
      var read := Reach(reliable);
      return if read then LiveAt(manifests, ManifestKey(tenant, processorId, version)) else None;
    }

    method Resolve(tenant: string, processorId: string, ref: string) returns (m: Option<Manifest>)
      ensures reliable ==> m == Resolved(manifests, tenant, processorId, ref)
      ensures m.Some? ==> exists version :: LiveAt(manifests, ManifestKey(tenant, processorId, version)) == m
    {
      var r := if ref == "" then "latest" else ref;
      m := GetManifest(tenant, processorId, r);
      if m.Some? {
        return;
      }
      var read := Reach(reliable);
      var key := TagKey(tenant, processorId, r);
      if !read || key !in manifests || !manifests[key].OfTag? {
        return None;
      }
      m := GetManifest(tenant, processorId, manifests[key].version);
    }

    // Gives up what the manifest holds and then deletes it.
    method DeleteVersion(tenant: string, processorId: string, version: string)
      returns (ok: bool, ghost part: multiset<string>)
      requires Valid()
      modifies this`manifests, this`refs
      ensures Valid()
      ensures Lowered(old(refs), refs, part)
      ensures
        var key := ManifestKey(tenant, processorId, version);
        var live := LiveAt(old(manifests), key);
        && (live.None? ==> !ok && manifests == old(manifests) && refs == old(refs))
        && manifests == (if ok then old(manifests) - {key} else old(manifests))
        && (reliable && live.Some? ==> ok && (WithinCap(live.value) ==> part == Held(live.value)))
    {
      part := multiset{};
      var m := GetManifest(tenant, processorId, version);
      if m.None? {
        return false, part;
      }
      ok, part := DecrementAll(m.value);
      if !ok {
        return;
      }
      ok := Reach(reliable);
      if ok {
        manifests := manifests - {ManifestKey(tenant, processorId, version)};
      }
    }

    method Perform(c: Call)
      requires Valid()
      modifies this`manifests, this`refs
      ensures Valid()
      ensures reliable && AllLive(old(manifests), Uncut()) && (c.Put? ==> WithinCap(Defaulted(c.m))) ==>
                (manifests, refs) == Applied(HeldBy(), old(manifests), old(refs), c)
    {
      match c {
        case Put(m, tags) => PerformPut(m, tags);
        case Delete(tenant, processorId, version) => PerformDelete(tenant, processorId, version);
      }
    }

    method PerformPut(m: Manifest, tags: seq<string>)
      requires Valid()
      modifies this`manifests, this`refs
      ensures Valid()
      ensures reliable && WithinCap(Defaulted(m)) ==>
                (manifests, refs) == Applied(HeldBy(), old(manifests), old(refs), Put(m, tags))
    {
      var _, part := PutArtifact(m, tags);
      PutApplied(old(manifests), old(refs), m, tags, refs, part);
    }

    method PerformDelete(tenant: string, processorId: string, version: string)
      requires Valid()
      modifies this`manifests, this`refs
      ensures Valid()
      ensures reliable && AllLive(old(manifests), Uncut()) ==>
                (manifests, refs) == Applied(HeldBy(), old(manifests), old(refs), Delete(tenant, processorId, version))
    {
      ghost var within := AllLive(manifests, Uncut());
      var _, part := DeleteVersion(tenant, processorId, version);
      if reliable && within {
        DeleteApplied(old(manifests), old(refs), tenant, processorId, version, manifests, refs, part);
      }
    }
  }

  lemma PutApplied(entries: Entries, refs: Refs, m: Manifest, tags: seq<string>, counts: Refs, part: multiset<string>)
    requires Raised(refs, counts, part)
    ensures Acceptable(Defaulted(m)) && part == Held(Defaulted(m)) ==>
              (Placed(entries, Defaulted(m), SafePart(tags)), counts) == Applied(HeldBy(), entries, refs, Put(m, tags))
    ensures !Acceptable(Defaulted(m)) ==> (entries, refs) == Applied(HeldBy(), entries, refs, Put(m, tags))
  {
    RaisedIsBump(refs, counts, part);
  }

  lemma DeleteApplied(entries: Entries, refs: Refs, tenant: string, processorId: string, version: string,
                      after: Entries, counts: Refs, part: multiset<string>)
    requires AllLive(entries, Uncut()) && Lowered(refs, counts, part)
    requires
      var key := ManifestKey(tenant, processorId, version);
      match LiveAt(entries, key)
      case Some(m) => after == entries - {key} && (WithinCap(m) ==> part == Held(m))
      case None => after == entries && counts == refs
    ensures (after, counts) == Applied(HeldBy(), entries, refs, Delete(tenant, processorId, version))
  {
    ghost var live := LiveAt(entries, ManifestKey(tenant, processorId, version));
    if live.Some? {
      assert Uncut()(live.value);
      LoweredIsSink(refs, counts, part);
    }
  }

  // Any sequence of calls on a new store. If no list of references is cut off, the counters
  // are right all the time exactly when no put replaces a live manifest which holds something,
  // by itself or by a tag. What is live was put.
  method Replay(calls: seq<Call>) returns (s: ArtifactStore)
    requires forall i | 0 <= i < |calls| && calls[i].Put? :: WithinCap(Defaulted(calls[i].m))
    ensures fresh(s) && s.Valid() && (s.manifests, s.refs) == After(HeldBy(), map[], map[], calls)
    ensures AllLive(s.manifests, WasPut(calls))
    ensures (forall i | 0 <= i < |calls| :: !ReplacesAfter(HeldBy(), map[], map[], calls[..i], calls[i])) ==>
              Tracks(HeldBy(), s.manifests, s.refs)
  {
    s := new ArtifactStore(true);
    EmptyTracks(HeldBy());
    for i := 0 to |calls|
      invariant fresh(s) && s.Valid() && s.reliable
      invariant (s.manifests, s.refs) == After(HeldBy(), map[], map[], calls[..i])
      invariant AllLive(s.manifests, Uncut())
    {
      assert calls[..i + 1][..i] == calls[..i];
      ghost var entries, refs := s.manifests, s.refs;
      s.Perform(calls[i]);
      CallKeepsLive(HeldBy(), entries, refs, calls[i], Uncut());
    }
    assert calls[..|calls|] == calls;
    LiveWasPut(HeldBy(), calls, |calls|);
    if forall i | 0 <= i < |calls| :: !ReplacesAfter(HeldBy(), map[], map[], calls[..i], calls[i]) {
      TracksUpTo(HeldBy(), map[], map[], calls, |calls|);
    }
  }

  ghost function Uncut(): Manifest -> bool {
    m => WithinCap(m)
  }

  ghost function WasPut(calls: seq<Call>): Manifest -> bool {
    m => exists i :: 0 <= i < |calls| && calls[i].Put? && m == Defaulted(calls[i].m)
  }

  lemma {:induction false} LiveWasPut(h: Holding, calls: seq<Call>, n: nat)
    requires n <= |calls|
    ensures AllLive(After(h, map[], map[], calls[..n]).0, WasPut(calls))
  {
    if n > 0 {
      assert calls[..n][..n - 1] == calls[..n - 1];
      LiveWasPut(h, calls, n - 1);
      var (entries, refs) := After(h, map[], map[], calls[..n - 1]);
      CallKeepsLive(h, entries, refs, calls[n - 1], WasPut(calls));
    }
  }

  ghost predicate AllLive(entries: Entries, p: Manifest -> bool) {
    forall k | LiveAt(entries, k).Some? :: p(LiveAt(entries, k).value)
  }

  lemma CallKeepsLive(h: Holding, entries: Entries, refs: Refs, c: Call, p: Manifest -> bool)
    requires AllLive(entries, p) && (c.Put? ==> p(Defaulted(c.m)))
    ensures AllLive(Applied(h, entries, refs, c).0, p)
  {
    var after := Applied(h, entries, refs, c).0;
    forall k | LiveAt(after, k).Some? ensures p(LiveAt(after, k).value) {
      if c.Put? && Acceptable(Defaulted(c.m)) {
        PlacedLive(entries, Defaulted(c.m), SafePart(c.tags), k);
      }
      assert LiveAt(after, k) == LiveAt(entries, k) || (c.Put? && LiveAt(after, k) == Some(Defaulted(c.m)));
    }
  }

  lemma ListsAreHeld(m: Manifest, chunks: seq<ChunkRef>, linked: seq<string>, digests: seq<string>)
    requires Distinctly(chunks, ChunkHashes(m))
    requires multiset(KeysOf(linked, LinkedKeyIn(m.tenant))) == LinkedKeys(m, LinkedKeyIn(m.tenant))
    requires multiset(KeysOf(digests, DescriptorKeyIn(m.tenant))) == DescriptorKeys(m, DescriptorKeyIn(m.tenant))
    ensures multiset(KeysOf(Hashes(chunks), ChunkKeyIn(m.tenant))) + multiset(KeysOf(linked, LinkedKeyIn(m.tenant))) +
            multiset(KeysOf(digests, DescriptorKeyIn(m.tenant))) == Held(m)
  {
    DistinctKeys(m, chunks);
  }

}
