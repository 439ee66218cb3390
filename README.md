# Swift messaging middleware: event synthesis

A model of the event-synthesis core of the Swift proxy middleware
`swift_messaging_middleware`: `OsloMessagingContext.handle_request` and the helpers
it uses to turn a completed storage request into one notification for the
message bus, while handing the downstream application's response back unchanged.

The downstream application has already answered when the model starts.
`Context.HandleRequest` takes the request and the response. It then does one of three things:
- passes the response through untouched;
- publishes one notification (an event type and a flat payload) and returns the response;
- raises the exception the source would raise while building the payload.

It builds the payload the way the source does, one assignment and one
`update` after another. `Context.Synthesize` describes the same result
declaratively. It is made of:

- the identity keys and the scope keys;
- the copy source;
- account, container and object metadata;
- `updated_at` and `content_length`.

These are merged in the source's order, so a later section overwrites an earlier one.
The `Payloads` module proves what a published payload holds:
- which keys are there;
- where each value comes from;
- why no section overwrites another's keys;
- when synthesis fails, and with which exception.

Modules:

- `Base`: `Option`.
- `Text`: `lower()`, case-sensitive `startswith`, and `split(sep, 1)`.
- `Wsgi`: headers as an ordered list of `(name, value)` pairs; the request, its parsed path and the response.
- `Values`: payload values (a string, `None`, a boolean), the payload, the timestamp formatter and the failures.
- `Filters`: `_get_metadata` and its account, container and object wrappers, and `_get_request_auth_info`.
- `Events`: the event-method table, the event type, and parsing of `X-Copy-From`.
- `Context`: `handle_request` and the payload sections it merges.
- `Payloads`: properties of the synthesized payload.
- `Scenarios`: a copy issued as a PUT, worked through.

Modelling choices:

- Request headers are a sequence in iteration order, not a map. The dict comprehension in
  `_get_metadata` lowercases names, so a later header whose lowercased name repeats an earlier
  one wins. `Filters.MetadataSupplied` states this.
- `dict.get` and the `filter(... == 'Etag')[0]` of the response headers both take the first
  header with exactly that name (`Wsgi.Lookup`).
- `_timestamp_to_str` and the inline formatting for `X-Timestamp` are one formatter parameter,
  `fmt: string -> Option<string>`. `None` stands for `float()` or `fromtimestamp` raising.
- `split_path(2, 4, rest_with_last=True)` is given as its outcome: `None` where it raises
  `ValueError`, and otherwise the account, container and object segments. `""` stands for a
  missing or empty segment, because the source uses only their truth.
- `env['CONTENT_LENGTH']` is an optional string. `None` stands for the `KeyError`.

Behaviour of the code worth noting:

- No secondary lookup request is made. Everything comes from the request headers and the primary response.
- POST maps to the event verb `metadata`, not `metadata_update`.
- `updated_at` is the request's `X-Timestamp`, formatted.
- `content_length` is the environment's `CONTENT_LENGTH`, for PUT and COPY, at any scope depth.
- There is no `last_modified` key.
- With `X-Copy-From`, the event type becomes the bare `copy`, not `<target>.copy`.
- A copy source without a `/`, a formatter failure and a missing `CONTENT_LENGTH` each raise out
  of `handle_request` (`Context.Outcome.Raised`). They are not swallowed.

## Model

| member | source | states |
|---|---|---|
| Text.LowerChar | swift_messaging_middleware/middleware.py:42 | the result is never an ASCII capital; a capital moves to its small letter; every other character is unchanged |
| Text.Lower | swift_messaging_middleware/middleware.py:42 | `k.lower()` keeps the length and lowercases each character on its own |
| Text.Find | swift_messaging_middleware/middleware.py:127 | `None` exactly when the character does not occur; otherwise the index of its first occurrence |
| Text.SplitOnce | swift_messaging_middleware/middleware.py:127 | `split(sep, 1)` gives one part exactly when `sep` does not occur, and that part is the whole string; otherwise it gives a separator-free head and a tail that join back to the input |
| Text.SplitOnceJoin | swift_messaging_middleware/middleware.py:127 | splitting `head + sep + tail` with a separator-free head gives back exactly `[head, tail]` |
| Wsgi.Lookup | swift_messaging_middleware/middleware.py:65-69 | `request_headers.get(name)`: characterised by `Wsgi.LookupFinds` (nothing exactly when no header has the name, otherwise the first such header's value) |
| Wsgi.LookupFinds | swift_messaging_middleware/middleware.py:52-54 | a header lookup finds nothing exactly when no header has the name; otherwise it gives the value of the first header with that name |
| Filters.Metadata | swift_messaging_middleware/middleware.py:38-45 | `_get_metadata`: characterised by `Filters.MetadataKeys` (its keys), `Filters.MetadataSupplied` (its values, later headers winning) and `Filters.MetadataInFamily` (the form of its keys) |
| Filters.MetadataKeys | swift_messaging_middleware/middleware.py:38-45 | the keys of `_get_metadata` are exactly the lowercased names of the headers starting `X-<prefix>-Meta-`, or `X-Remove-<prefix>-Meta-` when removals are included |
| Filters.MetadataSupplied | swift_messaging_middleware/middleware.py:42-45 | the value under a metadata header's lowercased name is that header's value when no later metadata header lowercases to the same name (later entries win) |
| Filters.MetadataValues | swift_messaging_middleware/middleware.py:42-45 | when no two header names lowercase alike, every metadata header's value is kept under its lowercased name |
| Filters.MetaKeyInFamily | swift_messaging_middleware/middleware.py:39-45 | a header name passing the `X-<prefix>-Meta-` or `X-Remove-<prefix>-Meta-` test lowercases to a key starting `x-<prefix>-meta-` or `x-remove-<prefix>-meta-`, with `<prefix>` lowercased |
| Filters.MetadataInFamily | swift_messaging_middleware/middleware.py:38-45 | every key `_get_metadata` produces starts with the lowercased added or removed metadata prefix |
| Filters.AccountMetadata | swift_messaging_middleware/middleware.py:60-61 | every key of the account metadata starts with `x-account-meta-` or `x-remove-account-meta-` |
| Filters.ContainerMetadata | swift_messaging_middleware/middleware.py:57-58 | every key of the container metadata starts with `x-container-meta-` or `x-remove-container-meta-` |
| Filters.ObjectMetadataHeaders | swift_messaging_middleware/middleware.py:48 | every key of the filtered object metadata starts with `x-object-meta-` or `x-remove-object-meta-` |
| Filters.ObjectMetadata | swift_messaging_middleware/middleware.py:47-55 | `_get_object_metadata` raises exactly when `x-object-meta-mtime` is non-empty and the formatter rejects it, and the failure carries that raw value |
| Filters.ObjectMetadataExactly | swift_messaging_middleware/middleware.py:47-55 | the keys are exactly the object metadata, `X-Object-Meta-Mtime` when the mtime is non-empty, and `hash` when the response has an `Etag`; the metadata values are kept, the mtime is stored formatted, and `hash` holds the first `Etag` |
| Filters.GetObjectMetadata | swift_messaging_middleware/middleware.py:47-55 | the step-by-step construction (filter, add the formatted mtime, add the hash) returns `ObjectMetadata` |
| Filters.AuthInfo | swift_messaging_middleware/middleware.py:63-70 | `_get_request_auth_info`: characterised by `Filters.AuthInfoExactly` (exactly the five identity keys, each its header or `None`) |
| Filters.AuthInfoExactly | swift_messaging_middleware/middleware.py:63-70 | the identity dictionary has exactly the five keys, each holding its header's value or `None` |
| Events.EventVerb | swift_messaging_middleware/middleware.py:90-95 | the `event_methods` table; `Events.EventTypeDetermines` shows that different methods give different event types |
| Events.EventTarget | swift_messaging_middleware/middleware.py:96-98 | `object` when the object segment is non-empty, else `container` when the container segment is, else `account`; `Events.EventTypeSplits` recovers it from the event type |
| Events.EventType | swift_messaging_middleware/middleware.py:100 | `<target>.<verb>`: characterised by `Events.EventTypeSplits` (it splits back into target and verb) and `Events.EventTypeDetermines` (it determines both) |
| Events.EventTypeSplits | swift_messaging_middleware/middleware.py:90-100 | an event type splits at its first `.` into the event target and the method's event verb |
| Events.EventTypeDetermines | swift_messaging_middleware/middleware.py:90-100 | two equal event types come from the same method and the same target |
| Events.StripSlash | swift_messaging_middleware/middleware.py:125-126 | a header starting with `/` loses exactly that one `/`; any other header is kept as it is |
| Events.ParseCopySource | swift_messaging_middleware/middleware.py:125-127 | parsing succeeds exactly when the stripped value holds a `/`; then the container holds no `/` and container, `/` and object rebuild the stripped value; otherwise it fails with the header value |
| Events.CopySourceRoundTrip | swift_messaging_middleware/middleware.py:125-127 | `/<container>/<object>` parses back to that container and object, whatever `/` the object holds |
| Events.CopySourceRoundTripUnrooted | swift_messaging_middleware/middleware.py:125-127 | `<container>/<object>` with a non-empty container parses back alike |
| Events.CopySourceRecovers | swift_messaging_middleware/middleware.py:125-127 | a parsed copy source rebuilds the header value, with or without its leading `/` |
| Context.PublishedType | swift_messaging_middleware/middleware.py:100-124 | the event type handed to the notifier: characterised by `Payloads.PublishedTypeCases` (the bare `copy` exactly when a copy source is given, otherwise `<target>.<verb>`) |
| Context.Synthesize | swift_messaging_middleware/middleware.py:111-148 | the payload, or the exception, for a notified request: characterised by the `Payloads` lemmas `IdentityRecorded` through `FailureCases` below, and tied to the in-place construction by `Context.HandleRequest` |
| Context.ScopeAssignments | swift_messaging_middleware/middleware.py:112-116 | assigning `account`, then `container` and `object` as deep as the path goes, equals merging the scope fields |
| Context.CopyAssignments | swift_messaging_middleware/middleware.py:129-133 | assigning the two copy-source keys and, when asked for, `copy-fresh-metadata` equals merging the copy fields |
| Context.HandleRequest | swift_messaging_middleware/middleware.py:72-156 | the response passes through unchanged exactly when the method is not observed, the path does not split or the status is not 200/201/202/204; otherwise the in-place construction either raises the synthesis failure or publishes the synthesized payload under the published event type, and returns the response unchanged |
| Payloads.FixedKeyNotMetadata | swift_messaging_middleware/middleware.py:111-148 | no identity, scope, copy, timestamp, length, mtime or hash key is account, container or object metadata, so no metadata update overwrites one |
| Payloads.FamiliesDisjoint | swift_messaging_middleware/middleware.py:135-140 | no key starts with the metadata prefixes of two different scopes among account, container and object |
| Payloads.ScopeFieldsExactly | swift_messaging_middleware/middleware.py:112-116 | the scope fields always hold `account`; `container` is there exactly when the container segment is non-empty; `object` exactly when both are; each holds its segment |
| Payloads.CopySourceFieldsExactly | swift_messaging_middleware/middleware.py:129-133 | the copy fields hold both halves of the source, and `copy-fresh-metadata` = true exactly when asked for |
| Payloads.IdentityRecorded | swift_messaging_middleware/middleware.py:63-70 | every payload holds the five identity keys with their header values or `None`; nothing merged later overwrites them |
| Payloads.ScopeRecorded | swift_messaging_middleware/middleware.py:112-116 | every payload holds `account`, `container` exactly when the path names a container, and `object` exactly when it names an object, each with its segment |
| Payloads.CopyRecorded | swift_messaging_middleware/middleware.py:120-133 | the copy keys are there exactly for a non-DELETE request with a non-empty `X-Copy-From`; `copy-fresh-metadata` appears with that and a non-empty `X-Fresh-Metadata`; the container half holds no `/` and the halves rebuild the stripped header |
| Payloads.AccountMetadataRecorded | swift_messaging_middleware/middleware.py:135 | outside DELETE every account metadata entry is in the payload with its value; conversely every account-family key of a payload is account metadata of a non-DELETE request |
| Payloads.ContainerMetadataRecorded | swift_messaging_middleware/middleware.py:136-137 | with a container in the path, outside DELETE, every container metadata entry is in the payload with its value; conversely every container-family key comes from there |
| Payloads.ObjectMetadataRecorded | swift_messaging_middleware/middleware.py:139-140 | with an object in the path, outside DELETE, every key `_get_object_metadata` returns is in the payload with its value |
| Payloads.ObjectMetadataOnly | swift_messaging_middleware/middleware.py:139-140 | object metadata, the formatted mtime and `hash` appear only for a non-DELETE object request, and only as `_get_object_metadata` returned them |
| Payloads.TimestampRecorded | swift_messaging_middleware/middleware.py:142-145 | `updated_at` is there exactly when a non-DELETE request has a non-empty `X-Timestamp`, and it holds that timestamp formatted |
| Payloads.LengthRecorded | swift_messaging_middleware/middleware.py:147-148 | `content_length` is there exactly for PUT and COPY, and it holds `CONTENT_LENGTH` |
| Payloads.PayloadKeys | swift_messaging_middleware/middleware.py:111-148 | every payload key is a fixed key, a key of the account or container metadata, or a key `_get_object_metadata` returned |
| Payloads.DeletePayload | swift_messaging_middleware/middleware.py:111-119 | a DELETE never fails, and its payload is exactly the identity keys and the scope keys |
| Payloads.FailureCases | swift_messaging_middleware/middleware.py:119-148 | synthesis fails exactly for a non-DELETE request with an unsplittable copy source, a rejected object mtime, a rejected `X-Timestamp` or a PUT/COPY without `CONTENT_LENGTH`; the exception is the first one met in that order |
| Payloads.PublishedTypeCases | swift_messaging_middleware/middleware.py:96-124 | the published type is `copy` exactly when a copy source is given; otherwise it is `<target>.<verb>` |
| Scenarios.CopyAsPut | swift_messaging_middleware/middleware.py:119-133 | `PUT /v1/acct/cont/obj2` with `X-Copy-From: /cont/obj1` publishes type `copy` with `copy_from_container` = `cont`, `copy_from_object` = `obj1`, `object` = `obj2` and `content_length` |

## Left out

- Header names are looked up exactly. swob's `request.headers` is case-insensitive, so case variants of a name are not treated as the same header.
- `split_path` is not modelled. The path is given already split, or as a failure. Its rules (segment counts, `rest_with_last`, quoting) belong to Swift.
- Timestamp formatting (`float`, `datetime.fromtimestamp`, `strftime`) depends on the clock's time zone and on floating point. It is a parameter, and its failure is modelled as `None`.
- The WSGI plumbing is out of scope: `Request(env)`, `_app_call`, `_get_status_int` and `start_response`. The model starts from the downstream response, so forwarding an unobserved method without calling the application is not distinguished from forwarding after the call.
- `self._notifier.info` is modelled as the `Published` outcome. Exceptions raised by the notifier and the message transport are not modelled.
- `OsloMessagingMiddleware`, its transport and notifier configuration, and `filter_factory` (lines 159-181) are configuration rather than synthesis.
- The `print` of the copy source (line 123) is output only.
- `Text.LowerChar`: lowercases ASCII capitals only, as Python 2 `str.lower()` does in the default C locale; a process running under another locale may also lowercase bytes above 127, and the model does not capture that locale dependence.
- Path segments carry no constraint that an object implies a container. The source tests the container before the object, and the model does the same.
- `content_length` and the other header values are opaque strings. No numeric or format validation is modelled, and the source performs none.
