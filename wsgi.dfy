/**
 * What the middleware sees of a WSGI request and of the downstream
 * application's response, after the framework has done its part.
 */
module Wsgi {
  import opened Base

  /** Header (name, value) pairs in the order the framework yields them. */
  type Headers = seq<(string, string)>

  /**
   * The value of the first header called exactly `name`. This is both
   * `request.headers.get(name)` and the first element of
   * `filter(lambda h: h[0] == name, response_headers)`.
   */
  function Lookup(h: Headers, name: string): Option<string>
  {
    if h == [] then None
    else if h[0].0 == name then Some(h[0].1)
    else Lookup(h[1..], name)
  }

  /** `Lookup` finds nothing exactly when no header has the name, and otherwise the first one that has. */
  lemma {:induction false} LookupFinds(h: Headers, name: string)
    ensures Lookup(h, name).None? <==> forall i :: 0 <= i < |h| ==> h[i].0 != name
    ensures Lookup(h, name).Some? ==>
              exists i :: 0 <= i < |h| && h[i] == (name, Lookup(h, name).value) && FirstNamed(h, name, i)
  {
    if h == [] {
    } else if h[0].0 == name {
      assert FirstNamed(h, name, 0);
    } else {
      LookupFinds(h[1..], name);
      assert forall i :: 0 <= i < |h[1..]| ==> h[1..][i] == h[i + 1];
      if Lookup(h, name).Some? {
        var i :| 0 <= i < |h[1..]| && h[1..][i] == (name, Lookup(h, name).value) && FirstNamed(h[1..], name, i);
        assert FirstNamed(h, name, i + 1);
      }
    }
  }

  /** No header before index `i` is called `name`. */
  ghost predicate FirstNamed(h: Headers, name: string, i: int)
  {
    forall j :: 0 <= j < i && j < |h| ==> h[j].0 != name
  }

  /**
   * The path as `request.split_path(2, 4, rest_with_last=True)` decomposed it.
   * `container` and `obj` are "" when the path stops short of them (split_path
   * gives None) or when their segment is empty; the code only tests their truth.
   */
  datatype Scope = Scope(account: string, container: string, obj: string)

  /**
   * One incoming request: its method (`verb`), its path (None when `split_path` raised
   * ValueError), its headers and `env['CONTENT_LENGTH']` (None when absent).
   */
  datatype Request = Request(verb: string, path: Option<Scope>, headers: Headers, contentLength: Option<string>)

  /** What the downstream application answered: status code, headers and body. */
  datatype Response = Response(status: int, headers: Headers, body: seq<string>)
}
