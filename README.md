# Forwarding core of a local debugging proxy, in Dafny

This project models the per-request forwarding core of a local HTTP proxy
used by browser-automation clients (`newfolder/src/server.js`). The proxy
intercepts each client request and relays it. It goes either directly to
the target host, or through a configured upstream proxy. When relaying
fails, it answers with an error body that a Selenium client library can
parse.

The model has four parts:

- `request_options.dfy` (module `RequestOptionsBuilder`) holds the
  request-options template built once at start-up and the two builders.
  In proxy mode the request goes to the proxy's host and port. The path is
  the client's absolute URL (the absolute-form request target of section
  5.3.2 of RFC 7230). A `Proxy-Authorization` Basic header (section 4.4 of
  RFC 7235) is merged over the client's headers. In direct mode the host,
  port (80 by default) and path-with-query come from the client's URL. An
  `authorization` header is added when the URL carries credentials.
  The builder bound at start-up is the tagged variant `Direct | ViaProxy(proxy)`.
- `error_framing.dfy` (module `ErrorFraming`) models the search that the
  regular expression `\/wd\/hub\/session\/([a-z0-9]+)\/*` performs. It is
  written as recursive functions and proved equal to a declarative
  statement: the leftmost match, and the maximal run of `[a-z0-9]` as the
  captured session id. The module also holds the error framer. It returns
  the JSON Wire Protocol body (`status: 13`, `state: 'error'`) or the
  generic `{message, error}` body, always with status 500.
- `server.dfy` (module `ProxyServer`) models the handler object as a class.
  Its fields are the request counter, the template and the bound mode, and
  the server. Its methods generate the template, build options, handle a
  request, and start or stop the proxy. Pure functions state what each
  method writes and returns. The client request and the client response are
  classes too. The direct-mode builder writes into the request's headers
  object. The response records its `writeHead`/`end` calls.
- `wrappers.dfy` holds `Option` and JavaScript truthiness of an optional string.

The collaborators the core calls but does not define are given to the model:

- The URL parser (`url.parse`) is the handler's `parseUrl` field.
- The Basic-credential encoder (`Utils.proxyAuthToBase64`) is its
  `encodeAuth` field.
- The request-failed text (`constants.REQ_FAILED_MSG`) is its
  `reqFailedMsg` field.
- The proxy configuration is an argument of `StartProxy`.
- The transport's result is an `Outcome` argument of `HandleRequest`:
  `Success(status, headers, data)` or `Failure(topic, message)`.
- The result of `listen` is a `ListenOutcome` argument of `StartProxy`.
- An exception from `close` is an optional argument of `StopProxy`.
- `JSON.stringify` of an error body is kept symbolic as the payload
  `JsonOf(body)`.

Three points of the code are easy to misread. The session pattern does not
need a `/` after the id, since `\/*` also matches nothing. It accepts only
lower-case letters and digits, not every alphanumeric character. A failed
`listen` leaves the server assigned.

The request counter is a JavaScript number. Its `++` is exact up to 2^53;
from there on it stays at 2^53, and the model computes it that way.

## Model

| member | source | states |
|---|---|---|
| RequestOptionsBuilder.ModeFor | newfolder/src/server.js:32-49 | the proxy-mode builder is bound exactly when a proxy configuration is present, with that configuration; the direct-mode builder otherwise |
| RequestOptionsBuilder.TemplateFor | newfolder/src/server.js:23-38 | the template has no method or path; in direct mode it is empty; in proxy mode it targets the proxy's host and port and carries only `Proxy-Authorization`, present exactly when both username and password are truthy, with the encoded proxy credentials |
| RequestOptionsBuilder.ProxyOptions | newfolder/src/server.js:40-48 | host and port are the template's, path is the client URL's href, method is the client's; headers are the union of client and template headers with the template's value winning on a shared key |
| RequestOptionsBuilder.DirectOptions | newfolder/src/server.js:50-62 | host is the URL's hostname, port the URL's port or 80, path the URL's path-with-query, method the client's; headers are the client's plus `authorization` = encoded URL credentials exactly when the URL's auth is truthy, otherwise unchanged |
| RequestOptionsBuilder.DirectHeaders | newfolder/src/server.js:57-60 | the client's header keys plus `authorization` exactly when the URL's auth is truthy; `authorization` then holds the encoded URL credentials, every other header keeps its value; unchanged when the auth is falsy |
| RequestOptionsBuilder.BuildOptions | newfolder/src/server.js:40-62 | the bound builder always sets the client's method; via the proxy: path is the full URL, host and port the template's, headers the client's overlaid with the template's; direct: path-with-query, the URL's host, its port or 80, and the direct-mode headers |
| RequestOptionsBuilder.HeadersAfterBuild | newfolder/src/server.js:57-60 | the client's headers after a build (the direct builder writes into the client's own object): no key removed, only `authorization` may be added or changed, and only in direct mode with truthy URL auth, where it holds the encoded credentials; otherwise unchanged |
| RequestOptionsBuilder.ProxyModeTargetsProxy | newfolder/src/server.js:32-47 | with the proxy-mode template, the outbound request targets the proxy with the client's full URL as path; headers are the client's with `Proxy-Authorization` overwritten when the proxy has credentials and exactly the client's otherwise |
| RequestOptionsBuilder.BuildTwiceSameOptions | newfolder/src/server.js:40-62 | building again from the same request, after the first build has written into the client's headers in direct mode, gives the same options; the template is an input and is never changed |
| ErrorFraming.IdRunLength | newfolder/src/server.js:75 | the greedy `[a-z0-9]+` run: every character in it is an id character and the one after it (if any) is not |
| ErrorFraming.FindMatchFrom | newfolder/src/server.js:75 | the result is a match position with no match between the start and it; no result means no match at or after the start |
| ErrorFraming.MatchSessionPath | newfolder/src/server.js:75-77 | a result is the leftmost match with the maximal id run as capture; no result exactly when the pattern matches nowhere |
| ErrorFraming.MaximalRunUnique | newfolder/src/server.js:75 | two maximal id runs from the same position are equal |
| ErrorFraming.MatchSessionPathExact | newfolder/src/server.js:75-77 | the search returns (i, id) if and only if i is the leftmost match and id its maximal capture |
| ErrorFraming.FrameErrorResponse | newfolder/src/server.js:73-99 | status is always 500; message is the failure message + ". " + the request-failed text; error is that text; the body is session-scoped exactly when the path matches, then with status 13, state "error" and the leftmost maximal capture as session id |
| ErrorFraming.FramesSessionId | newfolder/src/server.js:75-89 | a path whose leftmost capture is id is framed with exactly id and the wire-protocol fields |
| ErrorFraming.SessionCommandPathFramed | newfolder/src/server.js:75-89 | a path `/wd/hub/session/<id><rest>` with a non-empty `[a-z0-9]` id that `<rest>` does not continue is framed with exactly that id, status 13 and state "error" |
| ErrorFraming.ExampleUpperCaseIdIsGeneric | newfolder/src/server.js:90-97 | `/wd/hub/session/AB12` does not match and gets the generic body |
| ProxyServer.ResponseFor | newfolder/src/server.js:129-156 | exactly one head then one body; on success the upstream status, headers and data verbatim; on failure status 500 with no headers and a body that is exactly `FrameErrorResponse` of the attempted path and failure message (with its message, error and session-scoping facts restated) |
| ProxyServer.CounterIncrement | newfolder/src/server.js:107 | `++` on a double counter: never decreases and never passes 2^53; it adds exactly one below 2^53 and leaves 2^53 unchanged |
| ProxyServer.IdAt | newfolder/src/server.js:107 | the id of the request at position k from a fresh counter is between 1 and 2^53, and is k + 1 exactly when k is below 2^53 |
| ProxyServer.StartCallback | newfolder/src/server.js:164-178 | the callback carries the port when listening and the error otherwise, never both |
| ProxyServer.StopResult | newfolder/src/server.js:184-194 | stopping reports (null, true) and leaves no server unless closing a present server throws, which reports the error and keeps the server |
| ProxyServer.StopIsIdempotent | newfolder/src/server.js:184-193 | after a successful stop, stopping again changes nothing and succeeds; stopping with no server succeeds |
| ProxyServer.ClientResponse.WriteHead | newfolder/src/server.js:138 | records one `writeHead` call with its status and optional headers |
| ProxyServer.ClientResponse.End | newfolder/src/server.js:139 | records one `end` call with its body |
| ProxyServer.NwtHandler.constructor | newfolder/src/server.js:15-17 | the counter starts at 0, no id issued, no builder bound, no server |
| ProxyServer.NwtHandler.GenerateRequestOptionsTemplate | newfolder/src/server.js:23-64 | binds the mode chosen by the presence of a proxy configuration and stores its template |
| ProxyServer.NwtHandler.GenerateRequestOptions | newfolder/src/server.js:40-62 | returns the bound builder's options for the request; leaves the template unchanged; the client's headers become HeadersAfterBuild, and in direct mode they are the returned headers (aliasing) |
| ProxyServer.NwtHandler.HandleRequest | newfolder/src/server.js:106-157 | the counter becomes CounterIncrement of the old counter and the request gets it as id, no smaller than any earlier id and greater than every earlier one while the counter is below 2^53; ids stay IdAt of their position; the response gets exactly the writes of ResponseFor for the options built; the client's headers become HeadersAfterBuild |
| ProxyServer.NwtHandler.StartProxy | newfolder/src/server.js:164-178 | generates the template, assigns the server even if listening fails, and reports StartCallback |
| ProxyServer.NwtHandler.StopProxy | newfolder/src/server.js:184-194 | the new server and the callback are StopResult of the old server |

## Left out

- The connectivity checker (`src/connectivity.js`) is a separate component and is not modelled.
- Logger calls (`ReqLogger.info`/`error`) are left out. They have no effect on results.
- The HTTP server, its `listening`/`error` events and socket closing are left out. Only the server's presence and the callback's `(error, value)` pair are modelled.
- The transport (`ReqLib.call`) and its promise chain are left out. Its result is an input, and it settles once.
- Concurrency is left out. Requests are handled one at a time, each to completion. Interleaving of concurrent requests around the shared counter is not modelled.
- `url.parse` returns the port as a string. The model uses a number, with `None` for a missing port. The model's path is never null (a request target is never empty).
- Header values are strings. Node's array-valued headers are not modelled.
- An exception thrown by the template generator inside `startProxy` (from the credential encoder) is not modelled.
- `JSON.stringify` is not modelled as text. The failure body is kept as the structured error body it serializes.
- ProxyServer.NwtHandler.HandleRequest: requires that the template has been generated. The code would throw when the builder is still unbound, and the model does not represent that crash.
- ProxyServer.NwtHandler.HandleRequest: ids strictly increase only while the counter is below 2^53. From 2^53 on, every request gets the id 2^53, so ids are no longer unique.
- ProxyServer.ResponseFor: requires a non-null attempted path. A null path would make the code throw inside the failure handler, and the builders never produce one.
- ProxyServer.ResponseFor: "exactly one head then one body" assumes `writeHead` and `end` do not throw. In the code, the `.catch` at server.js:141 also catches a throw from the success branch's `writeHead`/`end` (server.js:138-139) and then writes the framed error as well, after a partial write.
