/** One request worked through: a PUT that copies an object. */
module Scenarios {
  import opened Base
  import opened Wsgi
  import opened Values
  import opened Filters
  import opened Events
  import opened Context
  import opened Payloads

  function CopyRequest(): Request
  {
    Request("PUT", Some(Scope("acct", "cont", "obj2")), [("X-Copy-From", "/cont/obj1")], Some("0"))
  }

  lemma CopyHeaderFound()
    ensures Lookup(CopyRequest().headers, "X-Copy-From") == Some(CopySourcePath("cont", "obj1"))
  {
    assert CopySourcePath("cont", "obj1") == "/cont/obj1";
  }

  lemma OtherHeadersAbsent()
    ensures Lookup(CopyRequest().headers, "X-Fresh-Metadata") == None
    ensures Lookup(CopyRequest().headers, "X-Timestamp") == None
  {
    assert CopyRequest().headers[1..] == [];
  }

  lemma CopySourceParsed()
    ensures ParseCopySource(Lookup(CopyRequest().headers, "X-Copy-From").value) == Ok(("cont", "obj1"))
  {
    CopyHeaderFound();
    CopySourceRoundTrip("cont", "obj1");
  }

  lemma CopySourceNamed()
    ensures CopyRequested(CopyRequest())
    ensures CopySection(CopyRequest()) == CopySourceFields(("cont", "obj1"), false)
  {
    var req := CopyRequest();
    CopyHeaderFound();
    OtherHeadersAbsent();
    CopySourceParsed();
    var copyFrom := Lookup(req.headers, "X-Copy-From");
    assert Truthy(copyFrom);
    assert !FreshRequested(req);
  }

  lemma NoObjectMtime()
    ensures Mtime(CopyRequest().headers) == None
  {
    var h := CopyRequest().headers;
    MetadataKeys(h, "Object", true);
    assert !IsMetaKey(h[0].0, "Object", true) by {
      assert h[0].0[2] == 'C';
    }
  }

  lemma CopyRequestSucceeds(fmt: Formatter)
    ensures FirstFailure(CopyRequest(), CopyRequest().path.value, [], fmt) == None
  {
    CopySourceNamed();
    OtherHeadersAbsent();
    NoObjectMtime();
  }

  /**
   * `PUT /v1/acct/cont/obj2` with `X-Copy-From: /cont/obj1`, answered 201:
   * one notification of type `copy`, naming the source container and object.
   */
  lemma CopyAsPut(fmt: Formatter)
    ensures Synthesize(CopyRequest(), CopyRequest().path.value, [], fmt).Ok?
    ensures PublishedType(CopyRequest(), CopyRequest().path.value) == "copy"
    ensures var p := Synthesize(CopyRequest(), CopyRequest().path.value, [], fmt).value;
            && p["copy_from_container"] == Str("cont")
            && p["copy_from_object"] == Str("obj1")
            && p["object"] == Str("obj2")
            && p["content_length"] == Str("0")
  {
    var req := CopyRequest();
    var s := req.path.value;
    CopySourceNamed();
    CopyRequestSucceeds(fmt);
    Synthesized(req, s, [], fmt);
    SectionsWellKeyed(req, s, [], fmt);
    var x := PayloadSections(req, s, [], fmt);
    CopySourceFieldsExactly(("cont", "obj1"), false);
    FixedKeysDistinct();
    CopyKeyOrigin(x, "copy_from_container");
    CopyKeyOrigin(x, "copy_from_object");
    ScopeRecorded(req, s, [], fmt);
    LengthRecorded(req, s, [], fmt);
    PublishedTypeCases(req, s);
  }
}
