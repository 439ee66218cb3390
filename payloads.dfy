/**
 * What a published notification's payload holds, read off `Synthesize`:
 * which keys are there, where each value comes from, which sections can
 * overwrite which, and when synthesis fails instead.
 */
module Payloads {
  import opened Base
  import opened Text
  import opened Wsgi
  import opened Values
  import opened Filters
  import opened Events
  import opened Context

  const ScopeKeys: set<string> := {"account", "container", "object"}
  const CopyKeys: set<string> := {"copy_from_container", "copy_from_object", "copy-fresh-metadata"}
  const StampKeys: set<string> := {"updated_at", "content_length"}
  const ObjectExtraKeys: set<string> := {FormattedMtimeKey, "hash"}

  /** A key the middleware writes under a fixed name rather than copying it from a header. */
  predicate IsFixedKey(k: string)
  {
    k in IdentityKeys || k in ScopeKeys || k in CopyKeys || k in StampKeys || k in ObjectExtraKeys
  }

  /** The three metadata families, named by their lowercased scope. */
  predicate IsFamily(fam: string)
  {
    fam == "account" || fam == "container" || fam == "object"
  }

  /** No metadata header lowercases to a fixed key, so metadata never overwrites one. */
  lemma FixedKeyNotMetadata(k: string, fam: string)
    requires IsFixedKey(k) && IsFamily(fam)
    ensures !InFamily(k, fam)
  {
    if InFamily(k, fam) {
      FamilyInitial(k, fam);
    }
  }

  /** The three metadata families are disjoint. */
  lemma FamiliesDisjoint(k: string, fam1: string, fam2: string)
    requires IsFamily(fam1) && IsFamily(fam2) && InFamily(k, fam1) && InFamily(k, fam2)
    ensures fam1 == fam2
  {
    FamilyInitial(k, fam1);
    FamilyInitial(k, fam2);
  }

  /** The fixed keys of different sections are different strings. */
  lemma FixedKeysDistinct()
    ensures IdentityKeys !! ScopeKeys && IdentityKeys !! CopyKeys && IdentityKeys !! StampKeys
    ensures IdentityKeys !! ObjectExtraKeys && ScopeKeys !! CopyKeys && ScopeKeys !! StampKeys
    ensures ScopeKeys !! ObjectExtraKeys && CopyKeys !! StampKeys && CopyKeys !! ObjectExtraKeys
    ensures StampKeys !! ObjectExtraKeys && "updated_at" != "content_length"
  {
  }

  /** The scope keys go as deep as the path's non-empty segments, each holding its segment. */
  lemma ScopeFieldsExactly(s: Scope)
    ensures var f := ScopeFields(s);
            && f.Keys <= ScopeKeys
            && "account" in f && f["account"] == Str(s.account)
            && ("container" in f <==> s.container != "")
            && ("container" in f ==> f["container"] == Str(s.container))
            && ("object" in f <==> ObjectScope(s))
            && ("object" in f ==> f["object"] == Str(s.obj))
  {
  }

  /** The copy section: both halves of the source, and the fresh-metadata flag when asked for. */
  lemma CopySourceFieldsExactly(source: (string, string), freshMetadata: bool)
    ensures var f := CopySourceFields(source, freshMetadata);
            && "copy_from_container" in f && f["copy_from_container"] == Str(source.0)
            && "copy_from_object" in f && f["copy_from_object"] == Str(source.1)
            && ("copy-fresh-metadata" in f <==> freshMetadata)
            && ("copy-fresh-metadata" in f ==> f["copy-fresh-metadata"] == Flag(true))
  {
  }

  // ------------------------------------------------- where each key comes from

  /** The keys each section can hold: fixed names, or metadata of its own family. */
  ghost predicate WellKeyed(x: Sections)
  {
    && x.base.Keys <= IdentityKeys + ScopeKeys
    && x.copy.Keys <= CopyKeys
    && (forall k :: k in x.accountMeta ==> InFamily(k, "account"))
    && (forall k :: k in x.containerMeta ==> InFamily(k, "container"))
    && (forall k :: k in x.objectMeta ==> InFamily(k, "object") || k in ObjectExtraKeys)
    && x.time.Keys <= {"updated_at"}
    && x.length.Keys <= {"content_length"}
  }

  /** An identity or scope key can come only from the base section, so no later section overwrites it. */
  lemma BaseKeyOrigin(x: Sections, k: string)
    requires WellKeyed(x) && (k in IdentityKeys || k in ScopeKeys)
    ensures k in Assemble(x) <==> k in x.base
    ensures k in x.base ==> Assemble(x)[k] == x.base[k]
  {
    FixedKeysDistinct();
    FixedKeyNotMetadata(k, "account");
    FixedKeyNotMetadata(k, "container");
    FixedKeyNotMetadata(k, "object");
  }

  lemma CopyKeyOrigin(x: Sections, k: string)
    requires WellKeyed(x) && k in CopyKeys
    ensures k in Assemble(x) <==> k in x.copy
    ensures k in x.copy ==> Assemble(x)[k] == x.copy[k]
    ensures k !in x.base
  {
    FixedKeysDistinct();
    FixedKeyNotMetadata(k, "account");
    FixedKeyNotMetadata(k, "container");
    FixedKeyNotMetadata(k, "object");
  }

  lemma AccountKeyOrigin(x: Sections, k: string)
    requires WellKeyed(x) && InFamily(k, "account")
    ensures k in Assemble(x) <==> k in x.accountMeta
    ensures k in x.accountMeta ==> Assemble(x)[k] == x.accountMeta[k]
    ensures k !in x.base
  {
    if IsFixedKey(k) {
      FixedKeyNotMetadata(k, "account");
    }
    if InFamily(k, "container") {
      FamiliesDisjoint(k, "account", "container");
    }
    if InFamily(k, "object") {
      FamiliesDisjoint(k, "account", "object");
    }
  }

  lemma ContainerKeyOrigin(x: Sections, k: string)
    requires WellKeyed(x) && InFamily(k, "container")
    ensures k in Assemble(x) <==> k in x.containerMeta
    ensures k in x.containerMeta ==> Assemble(x)[k] == x.containerMeta[k]
    ensures k !in x.base
  {
    if IsFixedKey(k) {
      FixedKeyNotMetadata(k, "container");
    }
    if InFamily(k, "account") {
      FamiliesDisjoint(k, "container", "account");
    }
    if InFamily(k, "object") {
      FamiliesDisjoint(k, "container", "object");
    }
  }

  lemma ObjectKeyOrigin(x: Sections, k: string)
    requires WellKeyed(x) && (InFamily(k, "object") || k in ObjectExtraKeys)
    ensures k in Assemble(x) <==> k in x.objectMeta
    ensures k in x.objectMeta ==> Assemble(x)[k] == x.objectMeta[k]
    ensures k !in x.base
  {
    FixedKeysDistinct();
    if InFamily(k, "object") {
      if IsFixedKey(k) {
        FixedKeyNotMetadata(k, "object");
      }
      if InFamily(k, "account") {
        FamiliesDisjoint(k, "object", "account");
      }
      if InFamily(k, "container") {
        FamiliesDisjoint(k, "object", "container");
      }
    } else {
      FixedKeyNotMetadata(k, "account");
      FixedKeyNotMetadata(k, "container");
    }
  }

  lemma StampKeyOrigin(x: Sections, k: string)
    requires WellKeyed(x) && k in StampKeys
    ensures k == "updated_at" ==> (k in Assemble(x) <==> k in x.time)
    ensures k == "updated_at" && k in x.time ==> Assemble(x)[k] == x.time[k]
    ensures k == "content_length" ==> (k in Assemble(x) <==> k in x.length)
    ensures k == "content_length" && k in x.length ==> Assemble(x)[k] == x.length[k]
    ensures k !in x.base
  {
    FixedKeysDistinct();
    FixedKeyNotMetadata(k, "account");
    FixedKeyNotMetadata(k, "container");
    FixedKeyNotMetadata(k, "object");
  }

  /** Every key of merged sections is a fixed key or metadata. */
  lemma AssembledKeys(x: Sections)
    requires WellKeyed(x)
    ensures forall k :: k in Assemble(x) ==> IsFixedKey(k) || InFamily(k, "account") || InFamily(k, "container") || InFamily(k, "object")
  {
  }

  // ------------------------------------------------- the keys of each section

  lemma BaseSectionKeys(h: Headers, s: Scope)
    ensures (AuthInfo(h) + ScopeFields(s)).Keys <= IdentityKeys + ScopeKeys
  {
    AuthInfoExactly(h);
    ScopeFieldsExactly(s);
  }

  lemma CopySectionKeys(req: Request)
    ensures CopySection(req).Keys <= CopyKeys
  {
  }

  lemma MetadataSectionKeys(h: Headers, s: Scope, rh: Headers, fmt: Formatter)
    ensures forall k :: k in AccountSection(h) ==> InFamily(k, "account")
    ensures forall k :: k in ContainerSection(h, s) ==> InFamily(k, "container")
    ensures forall k :: k in ObjectSection(h, s, rh, fmt) ==> InFamily(k, "object") || k in ObjectExtraKeys
  {
    if ObjectMetadata(h, rh, fmt).Ok? {
      ObjectMetadataExactly(h, rh, fmt);
    }
  }

  lemma SectionsWellKeyed(req: Request, s: Scope, rh: Headers, fmt: Formatter)
    ensures WellKeyed(PayloadSections(req, s, rh, fmt))
  {
    BaseSectionKeys(req.headers, s);
    CopySectionKeys(req);
    MetadataSectionKeys(req.headers, s, rh, fmt);
  }

  /** A synthesized payload is the base section alone for a DELETE, otherwise all the sections merged. */
  lemma Synthesized(req: Request, s: Scope, rh: Headers, fmt: Formatter)
    requires Synthesize(req, s, rh, fmt).Ok?
    ensures var x := PayloadSections(req, s, rh, fmt);
            Synthesize(req, s, rh, fmt).value == if req.verb == "DELETE" then x.base else Assemble(x)
  {
  }

  // ------------------------------------------------- what a payload holds

  /** The five identity keys are always there, each holding its request header or None. */
  lemma IdentityRecorded(req: Request, s: Scope, rh: Headers, fmt: Formatter)
    requires Synthesize(req, s, rh, fmt).Ok?
    ensures var p := Synthesize(req, s, rh, fmt).value;
            forall k :: k in IdentityKeys ==> k in p && p[k] == HeaderValue(Lookup(req.headers, IdentityHeader(k)))
  {
    Synthesized(req, s, rh, fmt);
    SectionsWellKeyed(req, s, rh, fmt);
    var x := PayloadSections(req, s, rh, fmt);
    ScopeFieldsExactly(s);
    FixedKeysDistinct();
    AuthInfoExactly(req.headers);
    forall k | k in IdentityKeys
      ensures k in x.base && x.base[k] == AuthInfo(req.headers)[k]
      ensures k in Assemble(x) && Assemble(x)[k] == x.base[k]
    {
      BaseKeyOrigin(x, k);
    }
  }

  /** `account` always, `container` and `object` exactly as deep as the path goes, each its segment. */
  lemma ScopeRecorded(req: Request, s: Scope, rh: Headers, fmt: Formatter)
    requires Synthesize(req, s, rh, fmt).Ok?
    ensures var p := Synthesize(req, s, rh, fmt).value;
            && "account" in p && p["account"] == Str(s.account)
            && ("container" in p <==> s.container != "")
            && ("container" in p ==> p["container"] == Str(s.container))
            && ("object" in p <==> ObjectScope(s))
            && ("object" in p ==> p["object"] == Str(s.obj))
  {
    Synthesized(req, s, rh, fmt);
    SectionsWellKeyed(req, s, rh, fmt);
    var x := PayloadSections(req, s, rh, fmt);
    ScopeFieldsExactly(s);
    FixedKeysDistinct();
    forall k | k in ScopeKeys
      ensures (k in x.base <==> k in ScopeFields(s)) && (k in x.base ==> x.base[k] == ScopeFields(s)[k])
      ensures (k in Assemble(x) <==> k in x.base) && (k in x.base ==> Assemble(x)[k] == x.base[k])
    {
      BaseKeyOrigin(x, k);
    }
  }

  /**
   * A copy records where it copies from: the header split at its first
   * slash once a leading slash is dropped, and `copy-fresh-metadata` when asked for.
   */
  lemma CopyRecorded(req: Request, s: Scope, rh: Headers, fmt: Formatter)
    requires Synthesize(req, s, rh, fmt).Ok?
    ensures var p := Synthesize(req, s, rh, fmt).value;
            && ("copy_from_container" in p <==> CopyRequested(req))
            && ("copy_from_object" in p <==> CopyRequested(req))
            && ("copy-fresh-metadata" in p <==> CopyRequested(req) && FreshRequested(req))
            && ("copy-fresh-metadata" in p ==> p["copy-fresh-metadata"] == Flag(true))
    ensures var p := Synthesize(req, s, rh, fmt).value;
            CopyRequested(req) ==>
              && p["copy_from_container"].Str? && p["copy_from_object"].Str?
              && '/' !in p["copy_from_container"].s
              && StripSlash(Lookup(req.headers, "X-Copy-From").value)
                 == p["copy_from_container"].s + "/" + p["copy_from_object"].s
  {
    Synthesized(req, s, rh, fmt);
    SectionsWellKeyed(req, s, rh, fmt);
    var x := PayloadSections(req, s, rh, fmt);
    ScopeFieldsExactly(s);
    FixedKeysDistinct();
    forall k | k in CopyKeys
      ensures k !in x.base
      ensures (k in Assemble(x) <==> k in x.copy) && (k in x.copy ==> Assemble(x)[k] == x.copy[k])
    {
      CopyKeyOrigin(x, k);
    }
    var copyFrom := Lookup(req.headers, "X-Copy-From");
    if CopyRequested(req) {
      var source := ParseCopySource(copyFrom.value);
      assert source.Ok?;
      CopySourceFieldsExactly(source.value, FreshRequested(req));
    }
  }

  /**
   * Outside DELETE, every account metadata header is in the payload with
   * its value, and the payload has no other account metadata.
   */
  lemma AccountMetadataRecorded(req: Request, s: Scope, rh: Headers, fmt: Formatter)
    requires Synthesize(req, s, rh, fmt).Ok?
    ensures var p := Synthesize(req, s, rh, fmt).value;
            var am := AccountMetadata(req.headers);
            && (req.verb != "DELETE" ==> forall k :: k in am ==> k in p && p[k] == Str(am[k]))
            && (forall k :: k in p && InFamily(k, "account") ==> req.verb != "DELETE" && k in am)
  {
    Synthesized(req, s, rh, fmt);
    SectionsWellKeyed(req, s, rh, fmt);
    var x := PayloadSections(req, s, rh, fmt);
    forall k | InFamily(k, "account")
      ensures k !in x.base
      ensures (k in Assemble(x) <==> k in x.accountMeta) && (k in x.accountMeta ==> Assemble(x)[k] == x.accountMeta[k])
    {
      AccountKeyOrigin(x, k);
    }
  }

  /**
   * When the path names a container, every container metadata header is in
   * the payload with its value; otherwise there is no container metadata.
   */
  lemma ContainerMetadataRecorded(req: Request, s: Scope, rh: Headers, fmt: Formatter)
    requires Synthesize(req, s, rh, fmt).Ok?
    ensures var p := Synthesize(req, s, rh, fmt).value;
            var cm := ContainerMetadata(req.headers);
            && (req.verb != "DELETE" && s.container != "" ==> forall k :: k in cm ==> k in p && p[k] == Str(cm[k]))
            && (forall k :: k in p && InFamily(k, "container") ==> req.verb != "DELETE" && s.container != "" && k in cm)
  {
    Synthesized(req, s, rh, fmt);
    SectionsWellKeyed(req, s, rh, fmt);
    var x := PayloadSections(req, s, rh, fmt);
    forall k | InFamily(k, "container")
      ensures k !in x.base
      ensures (k in Assemble(x) <==> k in x.containerMeta) && (k in x.containerMeta ==> Assemble(x)[k] == x.containerMeta[k])
    {
      ContainerKeyOrigin(x, k);
    }
  }

  /**
   * When the path names an object, every key `_get_object_metadata`
   * returns is in the payload with its value.
   */
  lemma ObjectMetadataRecorded(req: Request, s: Scope, rh: Headers, fmt: Formatter)
    requires Synthesize(req, s, rh, fmt).Ok?
    ensures var p := Synthesize(req, s, rh, fmt).value;
            var om := ObjectMetadata(req.headers, rh, fmt);
            req.verb != "DELETE" && ObjectScope(s) ==>
              om.Ok? && forall k :: k in om.value ==> k in p && p[k] == Str(om.value[k])
  {
    if req.verb != "DELETE" && ObjectScope(s) {
      Synthesized(req, s, rh, fmt);
      SectionsWellKeyed(req, s, rh, fmt);
      var x := PayloadSections(req, s, rh, fmt);
      var om := ObjectMetadata(req.headers, rh, fmt);
      assert FirstFailure(req, s, rh, fmt).None?;
      assert x.objectMeta == Lift(om.value);
      forall k | k in om.value
        ensures k in Assemble(x) && Assemble(x)[k] == Str(om.value[k])
      {
        ObjectKeyOrigin(x, k);
      }
    }
  }

  /**
   * Object metadata, the formatted mtime and the hash appear only when the
   * path names an object, and only as `_get_object_metadata` returned them.
   */
  lemma ObjectMetadataOnly(req: Request, s: Scope, rh: Headers, fmt: Formatter)
    requires Synthesize(req, s, rh, fmt).Ok?
    ensures var p := Synthesize(req, s, rh, fmt).value;
            var om := ObjectMetadata(req.headers, rh, fmt);
            forall k :: k in p && (InFamily(k, "object") || k in ObjectExtraKeys) ==>
              req.verb != "DELETE" && ObjectScope(s) && om.Ok? && k in om.value
  {
    Synthesized(req, s, rh, fmt);
    SectionsWellKeyed(req, s, rh, fmt);
    var x := PayloadSections(req, s, rh, fmt);
    forall k | InFamily(k, "object") || k in ObjectExtraKeys
      ensures k !in x.base && (k in Assemble(x) <==> k in x.objectMeta)
    {
      ObjectKeyOrigin(x, k);
    }
  }

  /** `updated_at` is there exactly when a non-DELETE request has an `X-Timestamp`, holding it formatted. */
  lemma TimestampRecorded(req: Request, s: Scope, rh: Headers, fmt: Formatter)
    requires Synthesize(req, s, rh, fmt).Ok?
    ensures var p := Synthesize(req, s, rh, fmt).value;
            var modified := Lookup(req.headers, "X-Timestamp");
            && ("updated_at" in p <==> req.verb != "DELETE" && Truthy(modified))
            && ("updated_at" in p ==> fmt(modified.value).Some? && p["updated_at"] == Str(fmt(modified.value).value))
  {
    Synthesized(req, s, rh, fmt);
    SectionsWellKeyed(req, s, rh, fmt);
    var x := PayloadSections(req, s, rh, fmt);
    StampKeyOrigin(x, "updated_at");
    if req.verb != "DELETE" {
      assert FirstFailure(req, s, rh, fmt).None?;
      assert x.time == TimeSection(req.headers, fmt);
    }
  }

  /** `content_length` is there exactly for PUT and COPY, holding `CONTENT_LENGTH`. */
  lemma LengthRecorded(req: Request, s: Scope, rh: Headers, fmt: Formatter)
    requires Synthesize(req, s, rh, fmt).Ok?
    ensures var p := Synthesize(req, s, rh, fmt).value;
            && ("content_length" in p <==> SetsLength(req))
            && ("content_length" in p ==> req.contentLength.Some? && p["content_length"] == Str(req.contentLength.value))
  {
    Synthesized(req, s, rh, fmt);
    SectionsWellKeyed(req, s, rh, fmt);
    var x := PayloadSections(req, s, rh, fmt);
    var p := Synthesize(req, s, rh, fmt).value;
    StampKeyOrigin(x, "content_length");
    if req.verb != "DELETE" {
      assert FirstFailure(req, s, rh, fmt).None?;
      assert !LengthMissing(req);
      assert x.length == LengthSection(req);
      assert "content_length" in p <==> "content_length" in LengthSection(req);
    } else {
      assert !SetsLength(req);
      assert "content_length" !in p;
    }
  }

  /** Every key of a payload is a fixed key or lowercased account, container or object metadata. */
  lemma PayloadKeys(req: Request, s: Scope, rh: Headers, fmt: Formatter)
    requires Synthesize(req, s, rh, fmt).Ok?
    ensures var p := Synthesize(req, s, rh, fmt).value;
            var om := ObjectMetadata(req.headers, rh, fmt);
            forall k :: k in p ==>
              || IsFixedKey(k)
              || k in AccountMetadata(req.headers)
              || k in ContainerMetadata(req.headers)
              || (om.Ok? && k in om.value)
  {
    Synthesized(req, s, rh, fmt);
    SectionsWellKeyed(req, s, rh, fmt);
    AssembledKeys(PayloadSections(req, s, rh, fmt));
    AccountMetadataRecorded(req, s, rh, fmt);
    ContainerMetadataRecorded(req, s, rh, fmt);
    ObjectMetadataOnly(req, s, rh, fmt);
  }

  /** A DELETE never fails, and its payload holds the identity and scope keys and nothing else. */
  lemma DeletePayload(req: Request, s: Scope, rh: Headers, fmt: Formatter)
    requires req.verb == "DELETE"
    ensures Synthesize(req, s, rh, fmt).Ok?
    ensures var p := Synthesize(req, s, rh, fmt).value;
            forall k :: k in p <==>
              || k in IdentityKeys
              || k == "account"
              || (k == "container" && s.container != "")
              || (k == "object" && ObjectScope(s))
  {
    ScopeFieldsExactly(s);
  }

  /** A copy source with no slash once a leading slash is dropped. */
  predicate CopyFails(req: Request)
  {
    CopyRequested(req) && '/' !in StripSlash(Lookup(req.headers, "X-Copy-From").value)
  }

  /** An object request whose `x-object-meta-mtime` the formatter rejects. */
  predicate MtimeFails(req: Request, s: Scope, fmt: Formatter)
  {
    var mtime := Mtime(req.headers);
    ObjectScope(s) && Truthy(mtime) && fmt(mtime.value).None?
  }

  /** An `X-Timestamp` the formatter rejects. */
  predicate TimestampFails(req: Request, fmt: Formatter)
  {
    var modified := Lookup(req.headers, "X-Timestamp");
    Truthy(modified) && fmt(modified.value).None?
  }

  /** A PUT or COPY without `CONTENT_LENGTH` in its environment. */
  predicate LengthMissing(req: Request)
  {
    SetsLength(req) && req.contentLength.None?
  }

  /**
   * Synthesis fails exactly on the four conditions, never for a DELETE,
   * and the exception raised is the first one met in the code's order.
   */
  lemma FailureCases(req: Request, s: Scope, rh: Headers, fmt: Formatter)
    ensures Synthesize(req, s, rh, fmt).Err? <==>
              req.verb != "DELETE"
              && (CopyFails(req) || MtimeFails(req, s, fmt) || TimestampFails(req, fmt) || LengthMissing(req))
    ensures CopyFails(req) ==>
              Synthesize(req, s, rh, fmt) == Err(BadCopySource(Lookup(req.headers, "X-Copy-From").value))
    ensures req.verb != "DELETE" && !CopyFails(req) && MtimeFails(req, s, fmt) ==>
              Synthesize(req, s, rh, fmt) == Err(BadTimestamp(Mtime(req.headers).value))
    ensures req.verb != "DELETE" && !CopyFails(req) && !MtimeFails(req, s, fmt) && TimestampFails(req, fmt) ==>
              Synthesize(req, s, rh, fmt) == Err(BadTimestamp(Lookup(req.headers, "X-Timestamp").value))
    ensures && !CopyFails(req) && !MtimeFails(req, s, fmt) && !TimestampFails(req, fmt)
            && LengthMissing(req) ==>
              Synthesize(req, s, rh, fmt) == Err(NoContentLength)
  {
  }

  /**
   * The published event type is the bare `copy` exactly when a copy source
   * is given; otherwise it names the target and the method's event verb.
   */
  lemma PublishedTypeCases(req: Request, s: Scope)
    requires IsNotifiedMethod(req.verb)
    ensures PublishedType(req, s) == "copy" <==> CopyRequested(req)
    ensures !CopyRequested(req) ==> SplitOnce(PublishedType(req, s), '.') == [EventTarget(s), EventVerb(req.verb)]
  {
    EventTypeSplits(req.verb, s);
    if !CopyRequested(req) {
      assert '.' !in "copy";
    }
  }
}
