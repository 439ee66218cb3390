/**
 * `OsloMessagingContext.handle_request` after the downstream application
 * has answered: decide whether a notification is due, build its payload,
 * publish it once, and hand the application's response back untouched.
 */
module Context {
  import opened Base
  import opened Wsgi
  import opened Values
  import opened Filters
  import opened Events

  /** What one call of `handle_request` amounts to. */
  datatype Outcome =
    | PassedThrough(response: Response)                                  // returned unchanged, nothing published
    | Published(response: Response, eventType: string, payload: Payload) // one `info` call, then returned unchanged
    | Raised(error: Failure)                                             // an exception escapes, nothing published

  predicate IsSuccess(status: int)
  {
    status == 200 || status == 201 || status == 202 || status == 204
  }

  /** A notification is due: an observed method, a path `split_path` accepts and a success status. */
  predicate Notifies(req: Request, resp: Response)
  {
    IsNotifiedMethod(req.verb) && req.path.Some? && IsSuccess(resp.status)
  }

  /** A non-DELETE request with a non-empty `X-Copy-From`. */
  predicate CopyRequested(req: Request)
  {
    req.verb != "DELETE" && Truthy(Lookup(req.headers, "X-Copy-From"))
  }

  predicate FreshRequested(req: Request)
  {
    Truthy(Lookup(req.headers, "X-Fresh-Metadata"))
  }

  /** Both the container and the object segment are non-empty. */
  predicate ObjectScope(s: Scope)
  {
    s.container != "" && s.obj != ""
  }

  /** PUT and COPY record the request's content length. */
  predicate SetsLength(req: Request)
  {
    req.verb == "PUT" || req.verb == "COPY"
  }

  /** The event type published: `<target>.<verb>`, replaced by the bare `copy` when a copy source is given. */
  function PublishedType(req: Request, s: Scope): string
    requires IsNotifiedMethod(req.verb)
  {
    if CopyRequested(req) then EventVerb("COPY") else EventType(req.verb, s)
  }

  /** The scope keys: `account`, then `container` and `object` as deep as the path's non-empty segments go. */
  function ScopeFields(s: Scope): Payload
  {
    map["account" := Str(s.account)]
    + (if s.container != "" then map["container" := Str(s.container)] else map[])
    + (if ObjectScope(s) then map["object" := Str(s.obj)] else map[])
  }

  /** The keys a copy adds: its source, and `copy-fresh-metadata` when asked for. */
  function CopySourceFields(source: (string, string), freshMetadata: bool): Payload
  {
    map["copy_from_container" := Str(source.0), "copy_from_object" := Str(source.1)]
    + (if freshMetadata then map["copy-fresh-metadata" := Flag(true)] else map[])
  }

  /** The scope assignments of `handle_request`, one key after another, add `ScopeFields`. */
  lemma ScopeAssignments(m: Payload, s: Scope)
    ensures m + ScopeFields(s)
            == var p := m["account" := Str(s.account)];
               if s.container == "" then p
               else
                 var q := p["container" := Str(s.container)];
                 if s.obj == "" then q else q["object" := Str(s.obj)]
  {
  }

  /** The copy-source assignments of `handle_request`, one key after another, add `CopySourceFields`. */
  lemma CopyAssignments(m: Payload, source: (string, string), freshMetadata: bool)
    ensures m + CopySourceFields(source, freshMetadata)
            == var p := m["copy_from_container" := Str(source.0)]["copy_from_object" := Str(source.1)];
               if freshMetadata then p["copy-fresh-metadata" := Flag(true)] else p
  {
  }

  /**
   * The dictionaries `handle_request` merges into the payload, in the order
   * it merges them: a key of a later section overwrites the same key of an
   * earlier one.
   */
  datatype Sections = Sections(
    base: Payload,       // the identity keys and the scope keys
    copy: Payload,       // the copy source
    accountMeta: Payload,    // account metadata
    containerMeta: Payload,  // container metadata
    objectMeta: Payload,     // object metadata, its formatted mtime and its hash
    time: Payload,       // `updated_at`
    length: Payload)     // `content_length`

  function Assemble(x: Sections): Payload
  {
    x.base + x.copy + x.accountMeta + x.containerMeta + x.objectMeta + x.time + x.length
  }

  /** The copy source, when one is given and splits. */
  function CopySection(req: Request): Payload
  {
    var copyFrom := Lookup(req.headers, "X-Copy-From");
    if Truthy(copyFrom) && ParseCopySource(copyFrom.value).Ok?
    then CopySourceFields(ParseCopySource(copyFrom.value).value, FreshRequested(req))
    else map[]
  }

  function AccountSection(h: Headers): Payload
  {
    Lift(AccountMetadata(h))
  }

  /** Container metadata, when the path names a container. */
  function ContainerSection(h: Headers, s: Scope): Payload
  {
    if s.container != "" then Lift(ContainerMetadata(h)) else map[]
  }

  /** Object metadata, when the path names an object and its mtime formats. */
  function ObjectSection(h: Headers, s: Scope, rh: Headers, fmt: Formatter): Payload
  {
    var objectMetadata := ObjectMetadata(h, rh, fmt);
    if ObjectScope(s) && objectMetadata.Ok? then Lift(objectMetadata.value) else map[]
  }

  /** `updated_at`, when `X-Timestamp` is given and formats. */
  function TimeSection(h: Headers, fmt: Formatter): Payload
  {
    var modified := Lookup(h, "X-Timestamp");
    if Truthy(modified) && fmt(modified.value).Some?
    then map["updated_at" := Str(fmt(modified.value).value)]
    else map[]
  }

  /** `content_length`, for PUT and COPY when the environment has it. */
  function LengthSection(req: Request): Payload
  {
    if SetsLength(req) && req.contentLength.Some?
    then map["content_length" := Str(req.contentLength.value)]
    else map[]
  }

  /** The sections a non-DELETE request contributes; a section whose step would raise is empty. */
  function PayloadSections(req: Request, s: Scope, rh: Headers, fmt: Formatter): Sections
  {
    var h := req.headers;
    Sections(AuthInfo(h) + ScopeFields(s), CopySection(req), AccountSection(h), ContainerSection(h, s),
             ObjectSection(h, s, rh, fmt), TimeSection(h, fmt), LengthSection(req))
  }

  /** The first exception a non-DELETE request raises, in the order `handle_request` meets them. */
  ghost function FirstFailure(req: Request, s: Scope, rh: Headers, fmt: Formatter): Option<Failure>
  {
    var h := req.headers;
    var copyFrom := Lookup(h, "X-Copy-From");
    var objectMetadata := ObjectMetadata(h, rh, fmt);
    var modified := Lookup(h, "X-Timestamp");
    if Truthy(copyFrom) && ParseCopySource(copyFrom.value).Err? then Some(BadCopySource(copyFrom.value))
    else if ObjectScope(s) && objectMetadata.Err? then Some(objectMetadata.error)
    else if Truthy(modified) && fmt(modified.value).None? then Some(BadTimestamp(modified.value))
    else if SetsLength(req) && req.contentLength.None? then Some(NoContentLength)
    else None
  }

  /**
   * The notification `handle_request` synthesizes for a notified request
   * with scope `s` and response headers `rh`: identity and scope alone for
   * a DELETE, otherwise the first failure or all the sections merged.
   */
  ghost function Synthesize(req: Request, s: Scope, rh: Headers, fmt: Formatter): Result<Payload>
  {
    if req.verb == "DELETE" then Ok(AuthInfo(req.headers) + ScopeFields(s))
    else
      match FirstFailure(req, s, rh, fmt)
      case Some(e) => Err(e)
      case None => Ok(Assemble(PayloadSections(req, s, rh, fmt)))
  }

  /**
   * `handle_request` once the downstream application has answered with
   * `resp`: forward it, or build the payload in place and publish it, or raise.
   */
  method HandleRequest(req: Request, resp: Response, fmt: Formatter) returns (r: Outcome)
    ensures !Notifies(req, resp) <==> r.PassedThrough?
    ensures r.PassedThrough? ==> r.response == resp
    ensures Notifies(req, resp) ==>
              var s := req.path.value;
              var synthesized := Synthesize(req, s, resp.headers, fmt);
              r == if synthesized.Err? then Raised(synthesized.error)
                   else Published(resp, PublishedType(req, s), synthesized.value)
  {
    if !IsNotifiedMethod(req.verb) {
      return PassedThrough(resp);
    }
    var statusCode := resp.status;
    if req.path.None? {
      return PassedThrough(resp);
    }
    var s := req.path.value;
    var eventType := EventType(req.verb, s);
    if !IsSuccess(statusCode) {
      return PassedThrough(resp);
    }
    var h := req.headers;
    var payload := AuthInfo(h);
    ghost var auth := payload;
    payload := payload["account" := Str(s.account)];
    if s.container != "" {
      payload := payload["container" := Str(s.container)];
      if s.obj != "" {
        payload := payload["object" := Str(s.obj)];
      }
    }
    ScopeAssignments(auth, s);
    assert payload == auth + ScopeFields(s);
    if req.verb != "DELETE" {
      ghost var base := payload;
      var copyFrom := Lookup(h, "X-Copy-From");
      ghost var copySection: Payload := map[];
      if Truthy(copyFrom) {
        eventType := EventVerb("COPY");
        var source := ParseCopySource(copyFrom.value);
        if source.Err? {
          return Raised(source.error);
        }
        payload := payload["copy_from_container" := Str(source.value.0)];
        payload := payload["copy_from_object" := Str(source.value.1)];
        if Truthy(Lookup(h, "X-Fresh-Metadata")) {
          payload := payload["copy-fresh-metadata" := Flag(true)];
        }
        copySection := CopySourceFields(source.value, FreshRequested(req));
        CopyAssignments(base, source.value, FreshRequested(req));
      } else {
        UnionEmpty(base);
      }
      assert payload == base + copySection;
      ghost var copied := payload;
      payload := payload + Lift(AccountMetadata(h));
      ghost var withAccount := payload;
      ghost var containerSection: Payload := map[];
      ghost var objectSection: Payload := map[];
      if s.container != "" {
        payload := payload + Lift(ContainerMetadata(h));
        containerSection := Lift(ContainerMetadata(h));
        if s.obj != "" {
          var objectMetadata := GetObjectMetadata(h, resp.headers, fmt);
          if objectMetadata.Err? {
            return Raised(objectMetadata.error);
          }
          payload := payload + Lift(objectMetadata.value);
          objectSection := Lift(objectMetadata.value);
        } else {
          UnionEmpty(payload);
        }
      } else {
        UnionEmpty(withAccount);
      }
      assert payload == withAccount + containerSection + objectSection;
      ghost var withObject := payload;
      var modified := Lookup(h, "X-Timestamp");
      ghost var timeSection: Payload := map[];
      if Truthy(modified) {
        var formatted := fmt(modified.value);
        if formatted.None? {
          return Raised(BadTimestamp(modified.value));
        }
        payload := payload["updated_at" := Str(formatted.value)];
        timeSection := map["updated_at" := Str(formatted.value)];
        UpdateIsUnion(withObject, "updated_at", Str(formatted.value));
      } else {
        UnionEmpty(withObject);
      }
      assert payload == withObject + timeSection;
      ghost var withTime := payload;
      ghost var lengthSection: Payload := map[];
      if SetsLength(req) {
        if req.contentLength.None? {
          return Raised(NoContentLength);
        }
        payload := payload["content_length" := Str(req.contentLength.value)];
        lengthSection := map["content_length" := Str(req.contentLength.value)];
        UpdateIsUnion(withTime, "content_length", Str(req.contentLength.value));
      } else {
        UnionEmpty(withTime);
      }
      assert payload == withTime + lengthSection;
    }
    return Published(resp, eventType, payload);
  }
}
