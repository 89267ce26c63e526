// The keys under which manifests, tags and reference counters are stored, and the parser
// that recovers processors from them.

module ManifestKeys {
  import opened Basics
  import opened Strings

  const DEFAULT_TENANT := "default"

  function NormTenant(tenant: string): string {
    if tenant == "" then DEFAULT_TENANT else tenant
  }

  // The part of a key that follows the tenant.
  function Path(kind: string, processorId: string, name: string): string {
    kind + "." + processorId + "." + name
  }

  function ManifestKey(tenant: string, processorId: string, version: string): string {
    NormTenant(tenant) + "." + Path("processor", processorId, version)
  }

  function TagKey(tenant: string, processorId: string, tag: string): string {
    NormTenant(tenant) + "." + Path("tag", processorId, tag)
  }

  function RefKey(tenant: string, part: string): string {
    NormTenant(tenant) + ".ref." + part
  }

  predicate DotFree(s: string) {
    '.' !in s
  }

  lemma PathsEqualIff(kind: string, p: string, v: string, q: string, w: string)
    requires DotFree(kind) && DotFree(p) && DotFree(q)
    ensures Path(kind, p, v) == Path(kind, q, w) <==> p == q && v == w
  {
    if Path(kind, p, v) == Path(kind, q, w) {
      assert Path(kind, p, v) == kind + ['.'] + (p + ['.'] + v);
      assert Path(kind, q, w) == kind + ['.'] + (q + ['.'] + w);
      CutAtMark('.', kind, kind, p + ['.'] + v, q + ['.'] + w);
      CutAtMark('.', p, q, v, w);
    }
  }

  // Names without dots are told apart; the version may contain dots.
  lemma ManifestKeysEqualIff(t: string, p: string, v: string, u: string, q: string, w: string)
    requires DotFree(t) && DotFree(u) && DotFree(p) && DotFree(q)
    ensures ManifestKey(t, p, v) == ManifestKey(u, q, w) <==> NormTenant(t) == NormTenant(u) && p == q && v == w
  {
    if ManifestKey(t, p, v) == ManifestKey(u, q, w) {
      CutAtMark('.', NormTenant(t), NormTenant(u), Path("processor", p, v), Path("processor", q, w));
      PathsEqualIff("processor", p, v, q, w);
    }
  }

  // Versions of one processor are always told apart.
  lemma VersionsEqualIff(t: string, p: string, v: string, w: string)
    ensures ManifestKey(t, p, v) == ManifestKey(t, p, w) <==> v == w
  {
    if ManifestKey(t, p, v) == ManifestKey(t, p, w) {
      var prefix := NormTenant(t) + "." + ("processor" + "." + p + ".");
      assert ManifestKey(t, p, v) == prefix + v && ManifestKey(t, p, w) == prefix + w;
      SamePrefix(prefix, v, w);
    }
  }

  // So it is with tags.
  lemma TagKeysEqualIff(t: string, p: string, v: string, u: string, q: string, w: string)
    requires DotFree(t) && DotFree(u) && DotFree(p) && DotFree(q)
    ensures TagKey(t, p, v) == TagKey(u, q, w) <==> NormTenant(t) == NormTenant(u) && p == q && v == w
  {
    if TagKey(t, p, v) == TagKey(u, q, w) {
      CutAtMark('.', NormTenant(t), NormTenant(u), Path("tag", p, v), Path("tag", q, w));
      PathsEqualIff("tag", p, v, q, w);
    }
  }

  // A tag never takes the key of a manifest, whatever the processors, versions and tags.
  lemma TagIsNoManifest(t: string, p: string, tag: string, u: string, q: string, v: string)
    requires DotFree(t) && DotFree(u)
    ensures TagKey(t, p, tag) != ManifestKey(u, q, v)
  {
    assert Path("tag", p, tag)[0] == 't' && Path("processor", q, v)[0] == 'p';
    if TagKey(t, p, tag) == ManifestKey(u, q, v) {
      CutAtMark('.', NormTenant(t), NormTenant(u), Path("tag", p, tag), Path("processor", q, v));
    }
  }

  // Nor does it, with dots or without, take that of a manifest of its own tenant.
  lemma OwnTagIsNoManifest(t: string, p: string, tag: string, q: string, v: string)
    ensures TagKey(t, p, tag) != ManifestKey(t, q, v)
  {
    var k := |NormTenant(t)| + 1;
    assert TagKey(t, p, tag)[k] == 't' && ManifestKey(t, q, v)[k] == 'p';
  }

  // With dots, both fail: a version can be moved into the processor's name, and the tag of
  // one tenant can be a manifest of another.
  lemma DotsConfuseKeys(t: string, p: string, x: string, v: string)
    ensures ManifestKey(t, p + "." + x, v) == ManifestKey(t, p, x + "." + v)
    ensures t != "" ==> TagKey(t + ".processor", p, v) == ManifestKey(t, "tag." + p, v)
  {
    assert Path("processor", p + "." + x, v) == Path("processor", p, x + "." + v);
    if t != "" {
      assert t + ".processor" + "." + Path("tag", p, v) == t + "." + Path("processor", "tag." + p, v);
    }
  }

  // No processor is another one followed by a dot.
  predicate Unnested(ids: set<string>) {
    forall p, q | p in ids && q in ids :: !StartsWith(p, q + ".")
  }

  // Two keys are equal only if tenant, processor and version are.
  ghost predicate ToldApart(ids: set<string>) {
    forall t, p, v, u, q, w | DotFree(t) && DotFree(u) && p in ids && q in ids ::
      ManifestKey(t, p, v) == ManifestKey(u, q, w) ==> NormTenant(t) == NormTenant(u) && p == q && v == w
  }

  // The processors of tenants without dots are told apart, whatever the versions, exactly
  // when none is another one followed by a dot.
  lemma ProcessorsToldApartIff(ids: set<string>)
    ensures ToldApart(ids) <==> Unnested(ids)
  {
    if !Unnested(ids) {
      var p, q :| p in ids && q in ids && StartsWith(p, q + ".");
      var x := p[|q + "."|..];
      assert p == q + "." + x;
      DotsConfuseKeys("", q, x, "");
      assert DotFree("");
    } else {
      forall t, p, v, u, q, w
        | DotFree(t) && DotFree(u) && p in ids && q in ids && ManifestKey(t, p, v) == ManifestKey(u, q, w)
        ensures NormTenant(t) == NormTenant(u) && p == q && v == w
      {
        CutAtMark('.', NormTenant(t), NormTenant(u), Path("processor", p, v), Path("processor", q, w));
        PathsMeet(p, v, q, w);
        PathsMeet(q, w, p, v);
        VersionsEqualIff(t, p, v, w);
      }
    }
  }

  // Of two processors with a common path, the longer one continues the other with a dot.
  lemma PathsMeet(p: string, v: string, q: string, w: string)
    requires Path("processor", p, v) == Path("processor", q, w)
    ensures |p| == |q| ==> p == q
    ensures |p| > |q| ==> StartsWith(p, q + ".")
  {
    assert Path("processor", p, v) == "processor." + (p + "." + v);
    assert Path("processor", q, w) == "processor." + (q + "." + w);
    SamePrefix("processor.", p + "." + v, q + "." + w);
    assert p == (p + "." + v)[..|p|];
    assert q + "." == (q + "." + w)[..|q| + 1] && q == (q + "." + w)[..|q|];
  }

  // The tenant's name continues another one's with a kind of key.
  predicate Under(t: string, u: string, kind: string) {
    StartsWith(t + ".", u + "." + kind + ".")
  }

  // Two tenants can have a common key, each of a given kind, exactly when one continues the
  // other with the other's kind, or when the tenant and the kind are the same.
  lemma KeysMeetIff(t: string, kind: string, u: string, sort: string)
    requires DotFree(kind) && DotFree(sort)
    ensures (exists p, v, q, w :: t + "." + Path(kind, p, v) == u + "." + Path(sort, q, w)) <==>
            (t == u && kind == sort) || Under(t, u, sort) || Under(u, t, kind)
  {
    if exists p, v, q, w :: t + "." + Path(kind, p, v) == u + "." + Path(sort, q, w) {
      var p, v, q, w :| t + "." + Path(kind, p, v) == u + "." + Path(sort, q, w);
      assert Path(kind, p, v) == kind + "." + (p + "." + v) && Path(sort, q, w) == sort + "." + (q + "." + w);
      LongerTenant(t, kind, p + "." + v, u, sort, q + "." + w);
      LongerTenant(u, sort, q + "." + w, t, kind, p + "." + v);
    } else {
      assert t + "." + Path(kind, "", "") == t + "." + Path(kind, "", "");
      if Under(t, u, sort) {
        MeetUnder(t, kind, u, sort);
      }
      if Under(u, t, kind) {
        MeetUnder(u, sort, t, kind);
      }
    }
  }

  lemma LongerTenant(t: string, kind: string, x: string, u: string, sort: string, y: string)
    requires DotFree(kind) && DotFree(sort) && t + "." + (kind + "." + x) == u + "." + (sort + "." + y)
    ensures |t| == |u| ==> t == u && kind == sort
    ensures |t| > |u| ==> Under(t, u, sort)
  {
    var s := t + "." + (kind + "." + x);
    assert s[..|t| + 1] == t + "." && s[..|u|] == u && s[..|t|] == t;
    var k := u + "." + sort + ".";
    assert s == k + y;
    if |t| == |u| {
      SamePrefix(t + ".", kind + "." + x, sort + "." + y);
      CutAtMark('.', kind, sort, x, y);
    } else if |t| > |u| {
      assert s[|t|] == '.';
      NoDotInKind(u, sort);
    }
  }

  lemma NoDotInKind(u: string, sort: string)
    requires DotFree(sort)
    ensures forall i | |u| < i <= |u| + |sort| :: (u + "." + sort + ".")[i] != '.'
  {
    assert forall i | |u| < i <= |u| + |sort| :: (u + "." + sort + ".")[i] == sort[i - |u| - 1];
  }

  lemma MeetUnder(t: string, kind: string, u: string, sort: string)
    requires Under(t, u, sort)
    ensures exists p, v, q, w :: t + "." + Path(kind, p, v) == u + "." + Path(sort, q, w)
  {
    var k := u + "." + sort + ".";
    var y := (t + ".")[|k|..];
    assert t + "." == k + y;
    assert t + "." + Path(kind, "", "") == u + "." + Path(sort, y + kind, ".");
  }

  // So manifests of two tenants can share a key exactly when one tenant's name is the other's
  // continued with ".processor", and perhaps further after a dot.
  lemma TenantsMeetIff(t: string, u: string)
    ensures (exists p, v, q, w :: ManifestKey(t, p, v) == ManifestKey(u, q, w)) <==>
            var (n, o) := (NormTenant(t), NormTenant(u));
            n == o || Under(n, o, "processor") || Under(o, n, "processor")
  {
    var n, o := NormTenant(t), NormTenant(u);
    KeysMeetIff(n, "processor", o, "processor");
    if p, v, q, w :| n + "." + Path("processor", p, v) == o + "." + Path("processor", q, w) {
      assert ManifestKey(t, p, v) == ManifestKey(u, q, w);
    }
  }

  // And a tag can take the key of a manifest.
  lemma TagMeetsManifestIff(t: string, u: string)
    ensures (exists p, tag, q, v :: TagKey(t, p, tag) == ManifestKey(u, q, v)) <==>
            Under(NormTenant(t), NormTenant(u), "processor") || Under(NormTenant(u), NormTenant(t), "tag")
  {
    var n, o := NormTenant(t), NormTenant(u);
    KeysMeetIff(n, "tag", o, "processor");
    if p, tag, q, v :| n + "." + Path("tag", p, tag) == o + "." + Path("processor", q, v) {
      assert TagKey(t, p, tag) == ManifestKey(u, q, v);
    }
  }

  predicate FrontsApart(a: string, b: string) {
    !StartsWith(a, b) && !StartsWith(b, a)
  }

  lemma FrontsApartIff(a: string, b: string)
    ensures FrontsApart(a, b) <==> forall x, y :: a + x != b + y
  {
    if StartsWith(a, b) {
      assert a + "" == b + a[|b|..];
    }
    if StartsWith(b, a) {
      assert a + b[|a|..] == b + "";
    }
    forall x, y | a + x == b + y ensures !FrontsApart(a, b) {
      assert (a + x)[..|a|] == a && (b + y)[..|b|] == b;
    }
  }

  // Two processors whose keys never meet, whatever the versions and tags.
  predicate KeysApart(t: string, p: string, u: string, q: string) {
    && FrontsApart(ManifestKey(t, p, ""), ManifestKey(u, q, "")) && FrontsApart(ManifestKey(t, p, ""), TagKey(u, q, ""))
    && FrontsApart(TagKey(t, p, ""), ManifestKey(u, q, "")) && FrontsApart(TagKey(t, p, ""), TagKey(u, q, ""))
  }

  lemma KeysContinue(t: string, p: string, v: string)
    ensures ManifestKey(t, p, v) == ManifestKey(t, p, "") + v && TagKey(t, p, v) == TagKey(t, p, "") + v
  {
  }

  lemma KeysNeverMeet(t: string, p: string, u: string, q: string)
    requires KeysApart(t, p, u, q)
    ensures forall v, w :: ManifestKey(t, p, v) != ManifestKey(u, q, w) && ManifestKey(t, p, v) != TagKey(u, q, w)
    ensures forall v, w :: TagKey(t, p, v) != ManifestKey(u, q, w) && TagKey(t, p, v) != TagKey(u, q, w)
  {
    forall v, w
      ensures ManifestKey(t, p, v) != ManifestKey(u, q, w) && ManifestKey(t, p, v) != TagKey(u, q, w)
      ensures TagKey(t, p, v) != ManifestKey(u, q, w) && TagKey(t, p, v) != TagKey(u, q, w)
    {
      KeysContinue(t, p, v);
      KeysContinue(u, q, w);
      FrontsApartIff(ManifestKey(t, p, ""), ManifestKey(u, q, ""));
      FrontsApartIff(ManifestKey(t, p, ""), TagKey(u, q, ""));
      FrontsApartIff(TagKey(t, p, ""), ManifestKey(u, q, ""));
      FrontsApartIff(TagKey(t, p, ""), TagKey(u, q, ""));
    }
  }

  // How keys of two processors can meet.
  datatype Meeting = VersionAtVersion | VersionAtTag | TagAtVersion | TagAtTag

  function KeyAt(kind: Meeting, t: string, p: string, v: string): string {
    if kind.VersionAtVersion? || kind.VersionAtTag? then ManifestKey(t, p, v) else TagKey(t, p, v)
  }

  function KeyMet(kind: Meeting, u: string, q: string, w: string): string {
    if kind.VersionAtVersion? || kind.TagAtVersion? then ManifestKey(u, q, w) else TagKey(u, q, w)
  }

  lemma KeysMeet(t: string, p: string, u: string, q: string) returns (v: string, w: string, kind: Meeting)
    requires !KeysApart(t, p, u, q)
    ensures v != "" && w != "" && KeyAt(kind, t, p, v) == KeyMet(kind, u, q, w)
  {
    kind := if !FrontsApart(ManifestKey(t, p, ""), ManifestKey(u, q, "")) then VersionAtVersion
            else if !FrontsApart(ManifestKey(t, p, ""), TagKey(u, q, "")) then VersionAtTag
            else if !FrontsApart(TagKey(t, p, ""), ManifestKey(u, q, "")) then TagAtVersion
            else TagAtTag;
    v, w := FrontsMeet(KeyAt(kind, t, p, ""), KeyMet(kind, u, q, ""));
    KeysContinue(t, p, v);
    KeysContinue(u, q, w);
  }

  lemma FrontsMeet(a: string, b: string) returns (x: string, y: string)
    requires !FrontsApart(a, b)
    ensures x != "" && y != "" && a + x == b + y
  {
    if StartsWith(a, b) {
      x, y := "v", a[|b|..] + "v";
      assert a == b + a[|b|..];
    } else {
      x, y := b[|a|..] + "v", "v";
      assert b == a + b[|a|..];
    }
  }

  // Names without dots that differ are apart.
  lemma NamesApart(t: string, p: string, u: string, q: string)
    requires DotFree(t) && DotFree(p) && DotFree(u) && DotFree(q)
    ensures KeysApart(t, p, u, q) <==> NormTenant(t) != NormTenant(u) || p != q
  {
    if !KeysApart(t, p, u, q) {
      var v, w, kind := KeysMeet(t, p, u, q);
      match kind
      case VersionAtVersion => ManifestKeysEqualIff(t, p, v, u, q, w);
      case VersionAtTag => TagIsNoManifest(u, q, w, t, p, v);
      case TagAtVersion => TagIsNoManifest(t, p, v, u, q, w);
      case TagAtTag => TagKeysEqualIff(t, p, v, u, q, w);
    } else if NormTenant(t) == NormTenant(u) && p == q {
      assert ManifestKey(t, p, "") == ManifestKey(u, q, "");
      KeysNeverMeet(t, p, u, q);
    }
  }

  // ---------------------------------------------------------------------------
  // Recovering processors from keys

  datatype Found = Nothing | Processor(id: string)

  function ParseKey(key: string, tenant: string): Found {
    var parts := CutAt(key, ".processor.");
    if parts.Whole? || parts.before != tenant then Nothing
    else
      var idVersion := CutAt(parts.after, ".");
      if idVersion.Whole? then Nothing else Processor(idVersion.before)
  }

  lemma KeyJoins(t: string, p: string, v: string)
    ensures ManifestKey(t, p, v) == NormTenant(t) + ".processor." + (p + "." + v)
  {
  }

  // A manifest key gives its processor to its own tenant and nothing to anybody else.
  lemma ParserRecoversProcessor(t: string, p: string, v: string, tenant: string)
    requires DotFree(t) && DotFree(p)
    ensures ParseKey(ManifestKey(t, p, v), tenant) == if NormTenant(t) == tenant then Processor(p) else Nothing
  {
    var n := NormTenant(t);
    KeyJoins(t, p, v);
    CutFinds(n, ".processor.", p + "." + v);
    CutFinds(p, ".", v);
  }

  // A tag key gives nothing to a tenant without dots, wherever ".processor." occurs in it.
  lemma ParserRejectsTags(t: string, p: string, tag: string, tenant: string)
    requires DotFree(t) && DotFree(tenant)
    ensures ParseKey(TagKey(t, p, tag), tenant) == Nothing
  {
    var key := TagKey(t, p, tag);
    var parts := CutAt(key, ".processor.");
    CutJoins(key, ".processor.");
    if parts.Cut? && parts.before == tenant {
      ProcessorIsNoTag(tenant, parts.after, NormTenant(t), Path("tag", p, tag));
    }
  }

  lemma ProcessorIsNoTag(t: string, x: string, u: string, y: string)
    requires DotFree(t) && DotFree(u) && t + ".processor." + x == u + "." + y && y != ""
    ensures y[0] == 'p'
  {
    assert t + ".processor." + x == t + ['.'] + ("processor." + x);
    CutAtMark('.', t, u, "processor." + x, y);
  }

  // A tenant without dots gets a processor out of exactly its own keys of that processor, if
  // its name has no dots.
  lemma ParserFindsIff(key: string, tenant: string, id: string)
    requires DotFree(tenant) && tenant != ""
    ensures ParseKey(key, tenant) == Processor(id) <==> DotFree(id) && exists v :: key == ManifestKey(tenant, id, v)
  {
    if ParseKey(key, tenant) == Processor(id) {
      var parts := CutAt(key, ".processor.");
      CutJoins(key, ".processor.");
      CutJoins(parts.after, ".");
      CutIsFirst(parts.after, '.');
      KeyJoins(tenant, id, CutAt(parts.after, ".").after);
    } else if DotFree(id) && exists v :: key == ManifestKey(tenant, id, v) {
      var v :| key == ManifestKey(tenant, id, v);
      ParserRecoversProcessor(tenant, id, v, tenant);
    }
  }

  // ---------------------------------------------------------------------------
  // Listing processors

  datatype Summary = Summary(id: string, version: string, runtime: string)

  // An entry of the bucket, and what its value says of itself if it is a valid manifest.
  datatype Update = Update(key: string, value: Option<Summary>)

  const MAX_PROCESSORS: nat := 512

  function ParserFor(tenant: string): string -> Found {
    key => ParseKey(key, NormTenant(tenant))
  }

  // The i-th entry names a processor that no earlier one names.
  ghost predicate Leads(updates: seq<Update>, parse: string -> Found, i: nat)
    requires i < |updates|
  {
    && parse(updates[i].key).Processor?
    && forall j | 0 <= j < i :: parse(updates[j].key) != parse(updates[i].key)
  }

  ghost predicate ListedEntry(updates: seq<Update>, parse: string -> Found, i: nat) {
    i < |updates| && i < MAX_PROCESSORS && Leads(updates, parse, i) && updates[i].value.Some?
  }

  // The entries at these places are listed, in their order.
  ghost predicate Lists(updates: seq<Update>, parse: string -> Found, at: seq<nat>, listed: seq<Summary>) {
    && |at| == |listed| && (forall j, k | 0 <= j < k < |at| :: at[j] < at[k])
    && (forall i: nat :: i in at <==> ListedEntry(updates, parse, i))
    && (forall k | 0 <= k < |at| :: at[k] < |updates| && Some(listed[k]) == updates[at[k]].value)
  }

  // What is listed are, in their order, those of the first 512 entries which are the first
  // ones to name their processor and hold valid manifests.
  method ListProcessors(updates: seq<Update>, tenant: string) returns (processors: seq<Summary>)
    ensures exists at :: Lists(updates, ParserFor(tenant), at, processors)
  {
    processors := ListNamed(updates, ParserFor(tenant));
  }

  method ListNamed(updates: seq<Update>, parse: string -> Found) returns (processors: seq<Summary>)
    ensures exists at :: Lists(updates, parse, at, processors)
  {
    ghost var at: seq<nat> := [];
    var seen: set<string> := {};
    processors := [];
    var n := if |updates| < MAX_PROCESSORS then |updates| else MAX_PROCESSORS;
    for i := 0 to n
      invariant forall id :: id in seen <==> exists j :: 0 <= j < i && parse(updates[j].key) == Processor(id)
      invariant |at| == |processors| && (forall j, k | 0 <= j < k < |at| :: at[j] < at[k])
      invariant forall k | 0 <= k < |at| :: at[k] < i && Some(processors[k]) == updates[at[k]].value
      invariant forall j: nat :: j in at <==> j < i && ListedEntry(updates, parse, j)
    {
      var found := parse(updates[i].key);
      if found.Nothing? || found.id in seen {
        continue;
      }
      seen := seen + {found.id};
      if updates[i].value.None? {
        continue;
      }
      processors, at := processors + [updates[i].value.value], at + [i];
    }
    assert Lists(updates, parse, at, processors);
  }

  // Values say of themselves what their keys say, as it is in a bucket that the catalogue fills
  // for names without dots.
  ghost predicate AllFiled(updates: seq<Update>) {
    forall i | 0 <= i < |updates| && updates[i].value.Some? :: FiledEntry(updates[i].key, updates[i].value.value)
  }

  ghost predicate FiledEntry(key: string, s: Summary) {
    exists t :: DotFree(t) && DotFree(s.id) && key == ManifestKey(t, s.id, s.version)
  }

  lemma FiledId(updates: seq<Update>, tenant: string, i: nat)
    requires AllFiled(updates) && ListedEntry(updates, ParserFor(tenant), i)
    ensures ParserFor(tenant)(updates[i].key) == Processor(updates[i].value.value.id)
  {
    var s := updates[i].value.value;
    assert FiledEntry(updates[i].key, s);
    var t :| DotFree(t) && DotFree(s.id) && updates[i].key == ManifestKey(t, s.id, s.version);
    ParserRecoversProcessor(t, s.id, s.version, NormTenant(tenant));
  }

  // What is listed then has every processor once.
  lemma ListedOnce(updates: seq<Update>, tenant: string, at: seq<nat>, listed: seq<Summary>)
    requires AllFiled(updates) && Lists(updates, ParserFor(tenant), at, listed)
    ensures forall j, k | 0 <= j < k < |at| :: listed[j].id != listed[k].id
  {
    forall j, k | 0 <= j < k < |at| ensures listed[j].id != listed[k].id {
      assert at[j] in at && at[k] in at;
      FiledId(updates, tenant, at[j]);
      FiledId(updates, tenant, at[k]);
    }
  }
}
