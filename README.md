# Bing Webmaster Tools MCP server: the API client core, in Dafny

The server exposes about sixty Bing Webmaster Tools API operations as MCP tools.
Each tool makes one call through the shared `BingWebmasterAPI` client. This
project models the part of `mcp_server_bwt/main.py` that does more than forward
arguments:

- **The lazily created HTTP client** (`_ensure_client`). `BingClient.BingWebmasterApi` has a
  client slot that starts empty and a ghost count of the clients it has created.
  `EnsureClient` reuses an open client. It creates a new one only when the slot
  is empty or holds a closed client.
- **Request construction** (`_make_request`). `RequestParams` copies the caller's
  parameter dict and then writes `apikey` last. The caller cannot replace the
  credential, and the caller's own dict is never modified. The URL is the base
  URL, a slash and the endpoint. A GET sends no JSON body.
- **Response handling**. Any status other than 200 becomes an `ApiError` carrying
  the status and the response text. A 200 body is unwrapped from the OData `"d"`
  envelope. The `"d" in data` test uses Python's meaning for each kind of decoded
  body. On an object it tests for the key. On a list it looks for an element equal
  to `"d"`. On a string it looks for the substring `d`. On null, booleans and
  numbers, `in` raises a TypeError. When a list or a string contains `"d"`, the
  subscript `data["d"]` raises a TypeError too. The model states all of these
  cases (`BodyTypeError`).
- **`__type` tagging** (`_ensure_type_field`). The decoded dicts are mutable
  objects (`JsonDict`). A list is an array of items that refer to them, and the
  same dict may occur more than once. `EnsureTypeField` updates them in place.
  It is proved equal, through a ghost `Snapshot` of the heap, to the pure
  function `TypeTagged`. Idempotence is proved about `TypeTagged`.
- **Tool-level parameter shaping**:
  - `get_keyword_stats` sends `country` and `language` only when they are non-empty.
  - `submit_content` defaults `contentLength` to the UTF-8 length of the content.
    The `Utf8` module follows section 3 of RFC 3629. It defines an encoder and a
    decoder that rejects ill-formed input: bad continuation octets, overlong
    forms and surrogates. It proves the decoder inverts the encoder, and that any
    octets the decoder accepts have the length the RFC's 1-to-4-octet width table
    gives. The tools keep Python's default arguments: `contentType` "text/html",
    `contentLength` -1, and empty `country` and `language`.
  - `enable_disable_query_parameter` chooses its status word from the flag.

The transport's response is an input to each request. Each tool takes the
client object and that response, and returns the request it sends together with
its result. A raised exception becomes a `Failure`.

Modules: `Wrappers` (Option, Result), `Utf8`, `BingClient` (the client class,
request and response handling, tagging) and `Tools` (the three tools).

The code raises one bare `Exception` for a status other than 200
(main.py:73-75). It has no validation step, it does not look for error fields in
a 200 body, and it takes no lock in `_ensure_client` (main.py:40-44). Nothing
suspends between the slot test and the assignment there, so a sequential model
is exact.

## Model

| member | source | states |
|---|---|---|
| `BingClient.BingWebmasterApi.constructor` | mcp_server_bwt/main.py:33-36 | the client stores the key and the fixed base URL, and starts with an empty slot and no clients created |
| `BingClient.BingWebmasterApi.EnsureClient` | mcp_server_bwt/main.py:38-45 | afterwards the slot holds an open client, which is returned; an open client already in the slot is reused and the creation count stays; otherwise a fresh client is created and counted once |
| `BingClient.BingWebmasterApi.RequestParams` | mcp_server_bwt/main.py:62-63 | the outgoing parameters are exactly the caller's keys plus `apikey`; `apikey` maps to the stored key even when the caller passed another value; every other caller key keeps its value; without a caller dict the map is exactly `{"apikey": key}` |
| `BingClient.MergedParamsUnique` | mcp_server_bwt/main.py:62-63 | the merge contract determines the outgoing parameter map completely |
| `BingClient.BingWebmasterApi.MakeRequest` | mcp_server_bwt/main.py:47-82 | with the verb defaulting to GET and the body and parameters to none, the request goes to base URL + "/" + endpoint with the merged parameters; a JSON body is sent only when the verb is not GET; the caller's dict is unchanged; the client slot is left filled and open: an open client is reused with the creation count unchanged, otherwise a fresh client is created and counted once; the result is the handled response |
| `BingClient.HandleResponse` | mcp_server_bwt/main.py:73-82 | a status other than 200 gives `ApiError(status, text)` and no payload; a 200 gives the unwrapped body; success implies status 200 |
| `BingClient.Unwrap` | mcp_server_bwt/main.py:79-82 | an object with `"d"` gives the value under `"d"`; an object without it is returned unchanged; a list or string is returned unchanged unless it contains `"d"`, and then a TypeError results; null, booleans and numbers give a TypeError; success exactly in the cases listed |
| `BingClient.UnwrapEnvelope` | mcp_server_bwt/main.py:73-81 | a 200 response whose body is the envelope `{"d": p}` yields exactly `p` |
| `BingClient.WithTypeField` | mcp_server_bwt/main.py:92-93 | a tagged dict has `__type`; an existing `__type` keeps its value; a missing one becomes `<type_name>:#Microsoft.Bing.Webmaster.Api`; every other key is kept and no other key is added |
| `BingClient.TypeTagged` | mcp_server_bwt/main.py:88-96 | a list keeps its length, its non-dict items are unchanged and each dict item is tagged; a lone dict is tagged; any other value is returned unchanged |
| `BingClient.TypeTaggedIdempotent` | mcp_server_bwt/main.py:88-96 | tagging twice with the same type name gives the same value as tagging once |
| `BingClient.EnsureTypeField` | mcp_server_bwt/main.py:88-96 | the argument itself is returned; every dict the argument refers to now has the entries `WithTypeField` gives for its old entries, even when the list holds the same dict twice; nothing else changes; the denoted JSON value is `TypeTagged` of the old one |
| `Utf8.EncodeChar` | mcp_server_bwt/main.py:594 | one code point takes 1, 2, 3 or 4 octets as section 3 of RFC 3629 assigns by range; the lead octet has the form that announces that length and the other octets are continuation octets |
| `Utf8.Encode` | mcp_server_bwt/main.py:594 | `content.encode("utf-8")`: the octet sequences of the code points in order, at least one and at most four octets per code point |
| `Utf8.EncodeLengthIsTableLength` | mcp_server_bwt/main.py:594 | the length of `content.encode("utf-8")` is the sum of the per-code-point widths |
| `Utf8.ScalarOfEncodeChar` | mcp_server_bwt/main.py:594 | the octets of one code point carry that code point |
| `Utf8.DecodeEncode` | mcp_server_bwt/main.py:594 | the decoder, which accepts only well-formed UTF-8, recovers every string from its encoding |
| `Utf8.DecodeLength` | mcp_server_bwt/main.py:594 | any octet string the decoder accepts has the length RFC 3629's width table gives the decoded string; with the round trip, the octet count is that of the RFC 3629 encoding |
| `Utf8.OverlongRejected` | mcp_server_bwt/main.py:594 | the overlong two-octet form of "A" is rejected by the decoder |
| `Tools.EffectiveContentLength` | mcp_server_bwt/main.py:593-594 | when the argument is -1 the length sent is the octet count of the UTF-8 encoding of the content, which lies between 1 and 4 octets per code point; otherwise the supplied value is sent |
| `Tools.DefaultContentLength` | mcp_server_bwt/main.py:593-594 | the defaulted length equals the total from RFC 3629's width table |
| `Tools.SubmitContent` | mcp_server_bwt/main.py:573-607 | with the defaults `contentType` "text/html" and `contentLength` -1, a POST to SubmitContent whose parameters are only the credential and whose JSON body holds the site, URL, content, content type and effective content length; an error response gives that error; success gives the confirmation message for the URL; the client slot ends filled and open, reusing an open client with the creation count unchanged, or creating and counting exactly one new client |
| `Tools.KeywordStatsParams` | mcp_server_bwt/main.py:633-637 | with `country` and `language` defaulting to empty, `siteUrl` and `query` are always present with their values; `country` and `language` are present exactly when their arguments are non-empty, with those values; no other key appears |
| `Tools.GetKeywordStats` | mcp_server_bwt/main.py:615-640 | with `country` and `language` defaulting to empty, a GET of GetKeywordStats with no body; its parameters carry the credential, the site and the query, and carry country and language, with their values, exactly when non-empty; an error response gives that error; a success is tagged with the type name `KeywordStats`; the client slot ends filled and open, reusing an open client with the creation count unchanged, or creating and counting exactly one new client |
| `Tools.StatusWord` | mcp_server_bwt/main.py:1111 | the word is "enabled" exactly when the flag is set and "disabled" exactly when it is not |
| `Tools.EnableDisableQueryParameter` | mcp_server_bwt/main.py:1090-1112 | a POST of EnableDisableQueryParameter with the flag as a JSON boolean and only the credential as a parameter; an error response gives that error; success gives the message naming the parameter and its status word; the client slot ends filled and open, reusing an open client with the creation count unchanged, or creating and counting exactly one new client |

## Left out

- The httpx transport is not modelled. This covers `client.get` and `client.request`, the timeout and pool-limit values, headers, and the re-raise of `TimeoutException` (main.py:42-43, 57, 65-71, 84-86). They are network I/O in a foreign library. The response is an input value instead.
- JSON decoding of the response text (`response.json()`, main.py:77) is not modelled. The body arrives already decoded, so a 200 response whose text is not JSON is not represented.
- JSON values have no floating-point numbers. Dicts are maps, so key order is not modelled.
- Dicts nested below the top-level list or dict are modelled as values. `_ensure_type_field` does not touch them. Aliasing between a nested dict and a top-level one is not represented.
- Lone surrogate code points are not modelled. Python's strict UTF-8 encoder raises `UnicodeEncodeError` on them in `submit_content`, but a Dafny `char` cannot hold one, so that error path is absent.
- FastMCP is not modelled. This covers the server object, tool registration, `mcp.run`, the `app()` entrypoint and logging. They are framework glue and I/O.
- The environment read of the API key and the module-level `api` instance (main.py:27, 100) are not modelled. They are process configuration; a tool takes the client object as a parameter instead.
- `async`/`await` is dropped. Nothing suspends between the client-slot test and its assignment.
- The other tools are left out. They only build a literal parameter or body map, call `_make_request` and format a message or tag the result. Examples are `submit_url`, `remove_site` and `add_site_roles`. Their shared behaviour is `MakeRequest` and `TypeTagged`.
- `Tools.GetKeywordStats` tags its result with the pure `TypeTagged` rather than running `EnsureTypeField` on fresh heap objects. The two are proved equal by `EnsureTypeField`'s contract.
