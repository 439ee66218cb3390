/**
 * How `handle_request` names an event: the `<target>.<verb>` classification
 * and the parsing of the `X-Copy-From` header.
 */
module Events {
  import opened Text
  import opened Wsgi
  import opened Values

  /** The methods `handle_request` observes; everything else is forwarded untouched. */
  predicate IsNotifiedMethod(verb: string)
  {
    verb == "POST" || verb == "PUT" || verb == "COPY" || verb == "DELETE"
  }

  /** The `event_methods` table. */
  function EventVerb(verb: string): string
    requires IsNotifiedMethod(verb)
  {
    if verb == "DELETE" then "delete"
    else if verb == "COPY" then "copy"
    else if verb == "PUT" then "create"
    else "metadata"
  }

  /** `event_object`: the deepest scope whose path segment is non-empty. */
  function EventTarget(s: Scope): string
  {
    if s.obj != "" then "object"
    else if s.container != "" then "container"
    else "account"
  }

  /** `'%s.%s' % (event_object, event_methods[method])`. */
  function EventType(verb: string, s: Scope): string
    requires IsNotifiedMethod(verb)
  {
    EventTarget(s) + "." + EventVerb(verb)
  }

  /** An event type splits at its first `.` back into its target and its verb. */
  lemma EventTypeSplits(verb: string, s: Scope)
    requires IsNotifiedMethod(verb)
    ensures SplitOnce(EventType(verb, s), '.') == [EventTarget(s), EventVerb(verb)]
  {
    var t := EventTarget(s);
    assert '.' !in t by {
      if s.obj != "" {
        assert t == ['o', 'b', 'j', 'e', 'c', 't'];
      } else if s.container != "" {
        assert t == ['c', 'o', 'n', 't', 'a', 'i', 'n', 'e', 'r'];
      } else {
        assert t == ['a', 'c', 'c', 'o', 'u', 'n', 't'];
      }
    }
    SplitOnceJoin(t, '.', EventVerb(verb));
  }

  /** The event type identifies the method of the request and the target of the event. */
  lemma EventTypeDetermines(verb1: string, s1: Scope, verb2: string, s2: Scope)
    requires IsNotifiedMethod(verb1) && IsNotifiedMethod(verb2)
    requires EventType(verb1, s1) == EventType(verb2, s2)
    ensures verb1 == verb2 && EventTarget(s1) == EventTarget(s2)
  {
    EventTypeSplits(verb1, s1);
    EventTypeSplits(verb2, s2);
    var v1, v2 := EventVerb(verb1), EventVerb(verb2);
    assert v1 == v2;
    assert v1[0] == v2[0] && |v1| == |v2|;
  }

  /** The `X-Copy-From` value with at most one leading `/` removed. */
  function StripSlash(header: string): (p: string)
    requires header != ""
    ensures header[0] == '/' ==> header == "/" + p
    ensures header[0] != '/' ==> p == header
  {
    if header[0] == '/' then header[1..] else header
  }

  /**
   * `copy_from_container, copy_from_object = copy_from.split('/', 1)` after
   * stripping one leading `/`: the container is the part before the first
   * remaining `/`, the object everything after it; no `/` left raises.
   */
  function ParseCopySource(header: string): (r: Result<(string, string)>)
    requires header != ""
    ensures r.Ok? <==> '/' in StripSlash(header)
    ensures r.Ok? ==> '/' !in r.value.0 && StripSlash(header) == r.value.0 + "/" + r.value.1
    ensures r.Err? ==> r.error == BadCopySource(header)
  {
    var parts := SplitOnce(StripSlash(header), '/');
    if |parts| == 2 then Ok((parts[0], parts[1])) else Err(BadCopySource(header))
  }

  /** The usual form of a copy source: `/<container>/<object>`. */
  function CopySourcePath(container: string, obj: string): string
  {
    "/" + container + "/" + obj
  }

  /** Parsing a copy source path gives back its container and object, whatever `/` the object holds. */
  lemma CopySourceRoundTrip(container: string, obj: string)
    requires '/' !in container
    ensures ParseCopySource(CopySourcePath(container, obj)) == Ok((container, obj))
  {
    var path := CopySourcePath(container, obj);
    assert StripSlash(path) == container + ['/'] + obj;
    SplitOnceJoin(container, '/', obj);
  }

  /** Without its leading `/` the path parses alike, unless the container is empty. */
  lemma CopySourceRoundTripUnrooted(container: string, obj: string)
    requires '/' !in container && container != ""
    ensures ParseCopySource(container + "/" + obj) == Ok((container, obj))
  {
    var path := container + "/" + obj;
    assert path[0] == container[0] != '/';
    assert StripSlash(path) == container + ['/'] + obj;
    SplitOnceJoin(container, '/', obj);
  }

  /** A parsed copy source is the header value, with or without its leading `/`. */
  lemma CopySourceRecovers(header: string)
    requires header != "" && ParseCopySource(header).Ok?
    ensures var (container, obj) := ParseCopySource(header).value;
            header == CopySourcePath(container, obj) || "/" + header == CopySourcePath(container, obj)
  {
  }
}
