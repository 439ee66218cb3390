/**
 * The header filters of `OsloMessagingContext`: `_get_metadata` and the
 * account, container and object wrappers around it, and
 * `_get_request_auth_info`.
 */
module Filters {
  import opened Base
  import opened Text
  import opened Wsgi
  import opened Values

  /** Whether header `k` carries metadata for `prefix` (`X-<prefix>-Meta-...`, or its `X-Remove-` form). */
  predicate IsMetaKey(k: string, prefix: string, includeRemove: bool)
  {
    StartsWith(k, "X-" + prefix + "-Meta-") || (includeRemove && StartsWith(k, "X-Remove-" + prefix + "-Meta-"))
  }

  /** Entry `i` is a metadata header, and no later metadata header lowercases to the same key. */
  ghost predicate Supplies(h: Headers, prefix: string, includeRemove: bool, i: int)
    requires 0 <= i < |h|
  {
    && IsMetaKey(h[i].0, prefix, includeRemove)
    && forall j :: i < j < |h| && IsMetaKey(h[j].0, prefix, includeRemove) ==> Lower(h[j].0) != Lower(h[i].0)
  }

  /**
   * `_get_metadata`: the metadata headers for `prefix`, keyed by their
   * lowercased names. As in the dict comprehension a later header replaces
   * an earlier one whose name lowercases alike. `MetadataKeys` and
   * `MetadataSupplied` state what it contains.
   */
  function Metadata(h: Headers, prefix: string, includeRemove: bool): map<string, string>
    decreases |h|
  {
    if h == [] then map[]
    else
      var (name, value) := h[|h| - 1];
      var rest := Metadata(h[..|h| - 1], prefix, includeRemove);
      if IsMetaKey(name, prefix, includeRemove) then rest[Lower(name) := value] else rest
  }

  /** The keys of `Metadata` are exactly the lowercased names of the metadata headers. */
  lemma {:induction false} MetadataKeys(h: Headers, prefix: string, includeRemove: bool)
    ensures forall k :: k in Metadata(h, prefix, includeRemove) <==>
              exists i :: 0 <= i < |h| && IsMetaKey(h[i].0, prefix, includeRemove) && Lower(h[i].0) == k
    decreases |h|
  {
    if h != [] {
      var n := |h| - 1;
      var init := h[..n];
      MetadataKeys(init, prefix, includeRemove);
      var rest := Metadata(init, prefix, includeRemove);
      var m := Metadata(h, prefix, includeRemove);
      forall k | k in rest
        ensures exists i :: 0 <= i < |h| && IsMetaKey(h[i].0, prefix, includeRemove) && Lower(h[i].0) == k
      {
        var i :| 0 <= i < n && IsMetaKey(init[i].0, prefix, includeRemove) && Lower(init[i].0) == k;
        assert init[i] == h[i];
      }
      forall k | exists i :: 0 <= i < |h| && IsMetaKey(h[i].0, prefix, includeRemove) && Lower(h[i].0) == k
        ensures k in m
      {
        var i :| 0 <= i < |h| && IsMetaKey(h[i].0, prefix, includeRemove) && Lower(h[i].0) == k;
        if i < n {
          assert init[i] == h[i];
        }
      }
    }
  }

  /** Each key of `Metadata` holds the value of the last header that lowercases to it. */
  lemma {:induction false} MetadataSupplied(h: Headers, prefix: string, includeRemove: bool)
    ensures forall i :: 0 <= i < |h| && Supplies(h, prefix, includeRemove, i) ==>
              Lower(h[i].0) in Metadata(h, prefix, includeRemove)
              && Metadata(h, prefix, includeRemove)[Lower(h[i].0)] == h[i].1
    decreases |h|
  {
    if h != [] {
      var n := |h| - 1;
      var init := h[..n];
      MetadataSupplied(init, prefix, includeRemove);
      forall i | 0 <= i < |h| && Supplies(h, prefix, includeRemove, i)
        ensures Lower(h[i].0) in Metadata(h, prefix, includeRemove)
        ensures Metadata(h, prefix, includeRemove)[Lower(h[i].0)] == h[i].1
      {
        if i < n {
          assert init[i] == h[i];
          assert forall j :: i < j < n ==> init[j] == h[j];
          assert Supplies(init, prefix, includeRemove, i);
        }
      }
    }
  }

  /** No two header names lowercase to the same string, as when they come from a WSGI environment. */
  ghost predicate CaseDistinct(h: Headers)
  {
    forall i, j :: 0 <= i < j < |h| ==> Lower(h[i].0) != Lower(h[j].0)
  }

  /** With case-distinct names every metadata header keeps its value unchanged under its lowercased name. */
  lemma MetadataValues(h: Headers, prefix: string, includeRemove: bool)
    requires CaseDistinct(h)
    ensures forall i :: 0 <= i < |h| && IsMetaKey(h[i].0, prefix, includeRemove) ==>
              Lower(h[i].0) in Metadata(h, prefix, includeRemove) && Metadata(h, prefix, includeRemove)[Lower(h[i].0)] == h[i].1
  {
    MetadataSupplied(h, prefix, includeRemove);
    forall i | 0 <= i < |h| && IsMetaKey(h[i].0, prefix, includeRemove)
      ensures Supplies(h, prefix, includeRemove, i)
    {
    }
  }

  /**
   * The lowercased metadata keys of the scope called `fam` (in lower case):
   * `x-<fam>-meta-...` for added metadata, `x-remove-<fam>-meta-...` for removed.
   */
  ghost predicate InFamily(k: string, fam: string)
  {
    StartsWith(k, "x-" + fam + "-meta-") || StartsWith(k, "x-remove-" + fam + "-meta-")
  }

  /** Lowercasing a prefix of a string gives the prefix of its lowercased form. */
  lemma LowerPrefix(s: string, n: nat)
    requires n <= |s|
    ensures Lower(s)[..n] == Lower(s[..n])
  {
  }

  /** Lowercasing a concatenation lowercases each part. */
  lemma LowerConcat(a: string, b: string)
    ensures Lower(a + b) == Lower(a) + Lower(b)
  {
    forall i | 0 <= i < |a + b|
      ensures Lower(a + b)[i] == (Lower(a) + Lower(b))[i]
    {
      if i < |a| {
        assert (a + b)[i] == a[i];
      } else {
        assert (a + b)[i] == b[i - |a|];
      }
    }
  }

  /** The fixed parts of the metadata prefixes, lowercased. */
  lemma LowerMetaParts()
    ensures Lower("X-") == "x-"
    ensures Lower("X-Remove-") == "x-remove-"
    ensures Lower("-Meta-") == "-meta-"
  {
  }

  /** Lowercasing a metadata prefix lowercases the scope name inside it. */
  lemma LowerMetaPrefix(lead: string, lowLead: string, prefix: string)
    requires lead == "X-" || lead == "X-Remove-"
    requires lowLead == if lead == "X-" then "x-" else "x-remove-"
    ensures Lower(lead + prefix + "-Meta-") == lowLead + Lower(prefix) + "-meta-"
  {
    LowerConcat(lead, prefix);
    LowerConcat(lead + prefix, "-Meta-");
    LowerMetaParts();
  }

  /** A metadata header name for `prefix` lowercases into that prefix's family. */
  lemma MetaKeyInFamily(name: string, prefix: string, includeRemove: bool)
    requires IsMetaKey(name, prefix, includeRemove)
    ensures InFamily(Lower(name), Lower(prefix))
  {
    var added := "X-" + prefix + "-Meta-";
    if StartsWith(name, added) {
      LowerPrefix(name, |added|);
      LowerMetaPrefix("X-", "x-", prefix);
    } else {
      var removed := "X-Remove-" + prefix + "-Meta-";
      LowerPrefix(name, |removed|);
      LowerMetaPrefix("X-Remove-", "x-remove-", prefix);
    }
  }

  /** Every key `_get_metadata` produces for `prefix` lies in that prefix's family. */
  lemma MetadataInFamily(h: Headers, prefix: string, includeRemove: bool)
    ensures forall k :: k in Metadata(h, prefix, includeRemove) ==> InFamily(k, Lower(prefix))
  {
    MetadataKeys(h, prefix, includeRemove);
    forall k | k in Metadata(h, prefix, includeRemove)
      ensures InFamily(k, Lower(prefix))
    {
      var i :| 0 <= i < |h| && IsMetaKey(h[i].0, prefix, includeRemove) && Lower(h[i].0) == k;
      MetaKeyInFamily(h[i].0, prefix, includeRemove);
    }
  }

  /** The characters that tell the families apart: the scope's initial at index 2, or `r` there and the initial at index 9. */
  lemma FamilyInitial(k: string, fam: string)
    requires fam != "" && InFamily(k, fam)
    ensures |k| > 2 && k[0] == 'x' && k[1] == '-'
    ensures k[2] == fam[0] || (|k| > 9 && k[2] == 'r' && k[9] == fam[0])
  {
    var added := "x-" + fam + "-meta-";
    if StartsWith(k, added) {
      assert k[..|added|][2] == added[2] == fam[0];
      assert k[..|added|][0] == 'x' && k[..|added|][1] == '-';
    } else {
      var removed := "x-remove-" + fam + "-meta-";
      assert k[..|removed|][2] == removed[2] == 'r';
      assert k[..|removed|][9] == removed[9] == fam[0];
      assert k[..|removed|][0] == 'x' && k[..|removed|][1] == '-';
    }
  }

  /** `_get_account_metadata`: the account metadata headers; the response headers it is given are unused. */
  function AccountMetadata(h: Headers): (m: map<string, string>)
    ensures forall k :: k in m ==> InFamily(k, "account")
  {
    MetadataInFamily(h, "Account", true);
    assert Lower("Account") == "account";
    Metadata(h, "Account", true)
  }

  /** `_get_container_metadata`: the container metadata headers; the response headers it is given are unused. */
  function ContainerMetadata(h: Headers): (m: map<string, string>)
    ensures forall k :: k in m ==> InFamily(k, "container")
  {
    MetadataInFamily(h, "Container", true);
    assert Lower("Container") == "container";
    Metadata(h, "Container", true)
  }

  /** The object metadata filter that `_get_object_metadata` starts from. */
  function ObjectMetadataHeaders(h: Headers): (m: map<string, string>)
    ensures forall k :: k in m ==> InFamily(k, "object")
  {
    MetadataInFamily(h, "Object", true);
    assert Lower("Object") == "object";
    Metadata(h, "Object", true)
  }

  const MtimeKey := "x-object-meta-mtime"
  const FormattedMtimeKey := "X-Object-Meta-Mtime"

  /** `object_metadata.get('x-object-meta-mtime')`. */
  function Mtime(h: Headers): Option<string>
  {
    var om := ObjectMetadataHeaders(h);
    if MtimeKey in om then Some(om[MtimeKey]) else None
  }

  /** Whether `k` is a key `_get_object_metadata` returns. */
  ghost predicate IsObjectMetadataKey(h: Headers, rh: Headers, k: string)
  {
    || k in ObjectMetadataHeaders(h)
    || (k == FormattedMtimeKey && Truthy(Mtime(h)))
    || (k == "hash" && Lookup(rh, "Etag").Some?)
  }

  /**
   * What `_get_object_metadata` returns: the object metadata headers, plus
   * the formatted mtime under its own key and the value of the first
   * response header named exactly `Etag` under `hash`; the formatter's
   * exception when the mtime cannot be formatted.
   */
  function ObjectMetadata(h: Headers, rh: Headers, fmt: Formatter): (r: Result<map<string, string>>)
    ensures r.Err? <==> Truthy(Mtime(h)) && fmt(Mtime(h).value).None?
    ensures r.Err? ==> r.error == BadTimestamp(Mtime(h).value)
  {
    var mtime := Mtime(h);
    var etag := Lookup(rh, "Etag");
    if Truthy(mtime) && fmt(mtime.value).None? then Err(BadTimestamp(mtime.value))
    else
      Ok(ObjectMetadataHeaders(h)
         + (if Truthy(mtime) then map[FormattedMtimeKey := fmt(mtime.value).value] else map[])
         + (if etag.Some? then map["hash" := etag.value] else map[]))
  }

  /**
   * What `_get_object_metadata` returns when it does not raise: the object
   * metadata headers unchanged, the formatted mtime under its own key when
   * an mtime is given, the first `Etag` response header as `hash`, and no
   * other key.
   */
  lemma ObjectMetadataExactly(h: Headers, rh: Headers, fmt: Formatter)
    requires ObjectMetadata(h, rh, fmt).Ok?
    ensures var m := ObjectMetadata(h, rh, fmt).value;
            && (forall k :: k in m <==> IsObjectMetadataKey(h, rh, k))
            && (forall k :: k in ObjectMetadataHeaders(h) ==> m[k] == ObjectMetadataHeaders(h)[k])
            && (Truthy(Mtime(h)) ==> m[FormattedMtimeKey] == fmt(Mtime(h).value).value)
            && (Lookup(rh, "Etag").Some? ==> m["hash"] == Lookup(rh, "Etag").value)
  {
    var om := ObjectMetadataHeaders(h);
    if FormattedMtimeKey in om {
      FamilyInitial(FormattedMtimeKey, "object");
    }
    if "hash" in om {
      FamilyInitial("hash", "object");
    }
  }

  /**
   * `_get_object_metadata`, updating its dictionary in place as the code
   * does: add the formatted mtime, then the hash.
   */
  method GetObjectMetadata(h: Headers, rh: Headers, fmt: Formatter) returns (r: Result<map<string, string>>)
    ensures r == ObjectMetadata(h, rh, fmt)
  {
    var objectMetadata := ObjectMetadataHeaders(h);
    var mtime := if MtimeKey in objectMetadata then Some(objectMetadata[MtimeKey]) else None;
    if Truthy(mtime) {
      var formatted := fmt(mtime.value);
      if formatted.None? {
        return Err(BadTimestamp(mtime.value));
      }
      objectMetadata := objectMetadata[FormattedMtimeKey := formatted.value];
    }
    assert objectMetadata == ObjectMetadataHeaders(h) + (if Truthy(mtime) then map[FormattedMtimeKey := fmt(mtime.value).value] else map[]);
    ghost var beforeHash := objectMetadata;
    var etag := Lookup(rh, "Etag");
    if etag.Some? {
      objectMetadata := objectMetadata["hash" := etag.value];
    }
    assert objectMetadata == beforeHash + (if etag.Some? then map["hash" := etag.value] else map[]);
    r := Ok(objectMetadata);
  }

  // ---------------------------------------------------------------- identity

  const IdentityKeys: set<string> := {"project_id", "project_name", "project_domain_id", "project_domain_name", "x-trans-id"}

  /** The request header each identity key of the payload is read from. */
  function IdentityHeader(key: string): string
  {
    if key == "project_id" then "X-Project-Id"
    else if key == "project_name" then "X-Project-Name"
    else if key == "project_domain_id" then "X-Project-Domain-Id"
    else if key == "project_domain_name" then "X-Project-Domain-Name"
    else "X-Trans-Id"
  }

  /** `_get_request_auth_info`: exactly the five identity keys, each the value of its header or None. */
  function AuthInfo(h: Headers): Payload
  {
    map[
      "project_id" := HeaderValue(Lookup(h, "X-Project-Id")),
      "project_name" := HeaderValue(Lookup(h, "X-Project-Name")),
      "project_domain_id" := HeaderValue(Lookup(h, "X-Project-Domain-Id")),
      "project_domain_name" := HeaderValue(Lookup(h, "X-Project-Domain-Name")),
      "x-trans-id" := HeaderValue(Lookup(h, "X-Trans-Id"))
    ]
  }

  /**
   * `_get_request_auth_info` has exactly the five identity keys, each
   * holding its own request header, or None when the header is absent.
   */
  lemma AuthInfoExactly(h: Headers)
    ensures AuthInfo(h).Keys == IdentityKeys
    ensures forall k :: k in IdentityKeys ==> AuthInfo(h)[k] == HeaderValue(Lookup(h, IdentityHeader(k)))
  {
  }
}
