/** Node executions, their canonical encoding, and the content-addressed artifact store. */
module Store {
  import opened Results
  import opened Ledger

  datatype Execution = Execution(route: string, updates: map<string, string>)

  /** Object content by tenant and hexadecimal content digest. */
  type Objects = map<(string, string), string>

  const IDENTITY_FIELDS := {"case_id", "thread_id", "tenant_id", "entrypoint", "lane"}

  /** What the runtime is composed with: the digest, the codec, the registry, the bucket. */
  datatype Platform = Platform(
    bucket: string,
    hex: string -> string,
    encode: Execution -> string,
    decode: string -> Outcome<Execution>,
    allowedRoutes: map<string, set<string>>,
    stateFields: set<string>)
  {
    /** `_validate_execution`: a declared route, known fields, no identity field. */
    predicate Accepts(node: string, x: Execution) {
      && node in allowedRoutes && x.route in allowedRoutes[node]
      && x.updates.Keys <= stateFields
      && x.updates.Keys !! IDENTITY_FIELDS
    }

    /** No digest collision, and replaying an encoded execution yields it back. */
    ghost predicate Sound() {
      && (forall c, c' {:trigger hex(c), hex(c')} :: hex(c) == hex(c') ==> c == c')
      && (forall x :: decode(encode(x)) == Ok(x))
    }

    function RefTo(tenant: string, content: string): OutputRef {
      OutputRef("JsonArtifact", "1.0", tenant + "/" + hex(content), "sha256:" + hex(content),
                Uri(bucket, tenant, hex(content)))
    }
  }

  predicate Blank(s: string) {
    forall i | 0 <= i < |s| :: s[i] in {' ', '\t', '\n', '\r'}
  }

  /** Put-if-absent under the content's own digest. */
  function Put(p: Platform, objects: Objects, tenant: string, content: string): Outcome<Objects> {
    if Blank(tenant) then Raised
    else if (tenant, p.hex(content)) in objects then Ok(objects)
    else Ok(objects[(tenant, p.hex(content)) := content])
  }

  function Read(p: Platform, objects: Objects, tenant: string, ref: OutputRef): Outcome<string> {
    if ref.uri.bucket != p.bucket then Raised
    else if !(tenant + "/" <= ref.uri.tenant + "/" + ref.uri.hex) then Raised
    else if (ref.uri.tenant, ref.uri.hex) !in objects then Raised
    else Ok(objects[(ref.uri.tenant, ref.uri.hex)])
  }

  function Load(p: Platform, objects: Objects, tenant: string, ref: OutputRef): Outcome<Execution> {
    match Read(p, objects, tenant, ref)
    case Raised => Raised
    case Ok(content) => p.decode(content)
  }

  /** Every object sits under the digest of its own content. */
  ghost predicate ContentAddressed(p: Platform, objects: Objects) {
    forall k | k in objects :: k.1 == p.hex(objects[k])
  }

  /** A written object reads back as itself, now and after any later write. */
  lemma PutThenRead(p: Platform, objects: Objects, tenant: string, content: string)
    requires p.Sound() && ContentAddressed(p, objects) && !Blank(tenant)
    ensures Put(p, objects, tenant, content).Ok?
    ensures var after := Put(p, objects, tenant, content).value;
            && ContentAddressed(p, after)
            && Read(p, after, tenant, p.RefTo(tenant, content)) == Ok(content)
            && (forall k | k in objects :: k in after && after[k] == objects[k])
  {
    var after := Put(p, objects, tenant, content).value;
    var k := (tenant, p.hex(content));
    assert p.hex(after[k]) == p.hex(content);
    var key := tenant + "/" + p.hex(content);
    assert key[..|tenant| + 1] == tenant + "/";
  }

  /** The `verify` of the store: the content read back has the digest the reference claims. */
  predicate Verify(p: Platform, objects: Objects, tenant: string, ref: OutputRef) {
    var content := Read(p, objects, tenant, ref);
    content.Ok? && "sha256:" + p.hex(content.value) == ref.digest
  }

  /**
   * A successful read returns the content its URI's digest was taken from; the digest the reference
   * itself claims plays no part in reading, and `verify` adds exactly that it is the URI's.
   */
  lemma ReadReturns(p: Platform, objects: Objects, tenant: string, ref: OutputRef)
    requires ContentAddressed(p, objects)
    ensures var r := Read(p, objects, tenant, ref);
            && (r.Ok? ==> p.hex(r.value) == ref.uri.hex)
            && (r.Ok? ==> forall digest :: Read(p, objects, tenant, ref.(digest := digest)) == r)
            && (Verify(p, objects, tenant, ref) <==> r.Ok? && ref.digest == "sha256:" + ref.uri.hex)
  {
  }

  /** Digests in hexadecimal hold no path separator. */
  ghost predicate PlainDigests(objects: Objects) {
    forall k | k in objects :: '/' !in k.1
  }

  /** Every successful read of the tenant is of an object stored for it. */
  ghost predicate ReadsOwn(p: Platform, objects: Objects, tenant: string) {
    forall ref: OutputRef :: Read(p, objects, tenant, ref).Ok? ==> ref.uri.tenant == tenant
  }

  /** No other tenant with objects in the store has an id that continues this one's with a slash. */
  ghost predicate NoTenantBelow(objects: Objects, tenant: string) {
    forall k | k in objects :: !(tenant + "/" <= k.0)
  }

  lemma PrefixOfKey(tenant: string, owner: string, hex: string)
    requires '/' !in hex && tenant + "/" <= owner + "/" + hex
    ensures tenant == owner || tenant + "/" <= owner
  {
    var key := owner + "/" + hex;
    assert key[|tenant|] == '/';
    assert forall i | |owner| < i < |key| :: key[i] == hex[i - |owner| - 1];
    assert forall i | 0 <= i < |tenant| :: tenant[i] == key[i];
  }

  /** The tenant check is a prefix test on keys, so reads stay within a tenant exactly on this condition. */
  lemma ReadsOwnWhen(p: Platform, objects: Objects, tenant: string)
    requires PlainDigests(objects)
    ensures ReadsOwn(p, objects, tenant) <==> NoTenantBelow(objects, tenant)
  {
    if NoTenantBelow(objects, tenant) {
      forall ref: OutputRef | Read(p, objects, tenant, ref).Ok? ensures ref.uri.tenant == tenant {
        PrefixOfKey(tenant, ref.uri.tenant, ref.uri.hex);
      }
    } else {
      var k :| k in objects && tenant + "/" <= k.0;
      var ref := OutputRef("", "", "", "", Uri(p.bucket, k.0, k.1));
      assert tenant + "/" <= k.0 + "/" + k.1;
      assert Read(p, objects, tenant, ref).Ok?;
    }
  }

  lemma ReadsOwnHere(p: Platform, objects: Objects, tenant: string, ref: OutputRef)
    requires Read(p, objects, tenant, ref).Ok?
    ensures PlainDigests(objects) && NoTenantBelow(objects, tenant) ==> ref.uri.tenant == tenant
  {
    if PlainDigests(objects) && NoTenantBelow(objects, tenant) {
      ReadsOwnWhen(p, objects, tenant);
    }
  }

  /** Concretely: a tenant `a` reads an object put for a tenant `a/b`. */
  lemma PrefixTenantReads(p: Platform, content: string)
    requires p.Sound()
    ensures Put(p, map[], "a/b", content).Ok?
    ensures Read(p, Put(p, map[], "a/b", content).value, "a", p.RefTo("a/b", content)) == Ok(content)
  {
    assert "a/b"[0] == 'a';
    assert "a" + "/" <= "a/b" + "/" + p.hex(content);
  }

  class S3ArtifactStore {
    const platform: Platform
    var objects: Objects

    constructor (p: Platform)
      ensures platform == p && objects == map[]
    {
      platform := p;
      objects := map[];
    }

    method PutJson(tenant: string, content: string) returns (r: Outcome<OutputRef>)
      modifies this
      ensures r.Raised? <==> Put(platform, old(objects), tenant, content).Raised?
      ensures objects == if r.Raised? then old(objects) else Put(platform, old(objects), tenant, content).value
      ensures r.Ok? ==> r.value == platform.RefTo(tenant, content)
    {
      if Blank(tenant) {
        return Raised;
      }
      var key := (tenant, platform.hex(content));
      if key !in objects {
        objects := objects[key := content];
      }
      r := Ok(platform.RefTo(tenant, content));
    }

    method ReadJson(tenant: string, ref: OutputRef) returns (r: Outcome<string>)
      ensures r == Read(platform, objects, tenant, ref)
      ensures ContentAddressed(platform, objects) && r.Ok? ==> platform.hex(r.value) == ref.uri.hex
      ensures PlainDigests(objects) && NoTenantBelow(objects, tenant) && r.Ok? ==> ref.uri.tenant == tenant
    {
      if ref.uri.bucket != platform.bucket {
        return Raised;
      }
      if !(tenant + "/" <= ref.uri.tenant + "/" + ref.uri.hex) {
        return Raised;
      }
      var key := (ref.uri.tenant, ref.uri.hex);
      if key !in objects {
        return Raised;
      }
      r := Ok(objects[key]);
      ReadsOwnHere(platform, objects, tenant, ref);
    }
  }
}
