# lambda-site-template request core, in Dafny

This project models the request path of `lambda-site-template`, a web site
that runs both as an AWS Lambda function behind a load balancer and as a
local development server. It proves properties of the model.

Each transport adapter turns its request into a `Request`, then runs
`processRequest`:
- `lambdaHandler` is the adapter for the load balancer.
- `requestListener` is the adapter for the local server.

`processRequest` works through a fixed sequence of steps:
1. It answers a CORS preflight.
2. It stamps a global header.
3. It copies a `theme` cookie into the process-wide `ApplicationCache`.
4. It gives an optional hook a chance to handle the request. In
   development that hook is `localhostHandler`, which bundles scripts with
   `generateBundle` and reads source files.
5. It tries the production routes in order: static files from S3, the page
   rendered from its template, `/api/test`, and a 404 fallback.

A structured logger records every S3 failure.

State lives where the source keeps it. Each of these is a class whose
methods update fields in place:
- the three maps of `ApplicationCache`;
- the fields of `Response`;
- the logger's static fields and its console output;
- the disk;
- the Node server response.

Each handler is a method. Its postcondition equates the new state with a
specification function of the old state: `LocalhostOf`, `BundleOf`,
`RenderOf`, `S3Of`, `ProcessOf`, `LambdaOf`, `ListenerOf` and `LogOf`.
Lemmas about those functions state what the code promises.

The following are parameters of the model, not parts of it:
- the build tool;
- the S3 call;
- `mime.getType`;
- `decodeURI` and `decodeURIComponent`;
- `JSON.stringify`, base64 and UTF-8 conversion;
- `new URL`;
- the clock;
- `isLocalHost`.

`path.extname`, `String.prototype.replace` with its `$` patterns, and the
cookie split and match are modelled concretely.

Two behaviours of the code a reader may not expect:
- `generateBundle` never looks in the cache, so it rebuilds on every call
  (`Bundler.BundleIgnoresCache`).
- A failing write to `./temp` makes `generateBundle` throw. The chunks
  written before it stay cached (`Bundler.BundleWriteFailure`).

## Model

| member | source | states |
|---|---|---|
| Constants.LocalExtensionsShape | helpers/constants.js:1 | the allow-list has eight entries, each a dot followed by a name without dots or slashes |
| Constants.NotLocalExtensions | helpers/constants.js:1 | membership is exact: `''`, `.JS` and `.jpeg` are not static extensions |
| Constants.ExtName | backend/process_request.js:66 | `path.extname` gives `''` or a dot followed by a name without dots or slashes |
| Constants.RootIsNotStatic | backend/process_request.js:66-71 | `/` and `''` have no extension, so `/` never takes the static route |
| Constants.ExtNameOfStaticFile | backend/process_request.js:66-68 | a file named `stem` plus a listed extension, in any directory, has exactly that extension |
| Constants.BasePath | helpers/constants.js:2-4 | on a server it is `BASE_FOLDER` when set (even to `''`), else `''`; in a browser it is `/lore` exactly when the path starts with `/lore` |
| Cache.ApplicationCache.constructor | helpers/cache.js:1-10 | `cache` and `publicContext` start empty; `context` starts as the page's `ApplicationContext` when defined, else empty |
| Http.CookieSegments | helpers/http.js:49 | splitting gives at least one segment, and no segment contains `;` |
| Http.CookieSegmentsOfJoin | helpers/http.js:49 | segments joined with `; ` split back into the same segments |
| Http.JarSegments | helpers/http.js:34 | after `\|` becomes `; `, a multicookiejar value splits into its `\|`-separated entries |
| Http.FindSegment | helpers/http.js:50 | the index found is the first segment that matches the key ignoring ASCII case; none is found only when no segment matches |
| Http.SearchCookie | helpers/http.js:47-52 | a value exists iff the first matching segment holds `=`, and it is the text between the first and second `=` |
| Http.CookieHeader | helpers/http.js:25-28 | `Cookie` is used unless it is missing or empty; then `cookie` is used |
| Http.GetCookie | helpers/http.js:24-39 | a truthy direct match is returned; otherwise the key is looked up in the decoded jar; no jar gives nothing; a jar that does not decode throws |
| Http.CookieAttributes | helpers/http.js:82-84 | the attribute list always ends with `Secure`, `HttpOnly` |
| Http.CookieStringIsSetCookie | helpers/http.js:80-86 | the appended string is `key=value` with each present attribute after `; `, which is the set-cookie-string form of section 4.1 of RFC 6265 |
| Http.CookieStringWithoutOptions | helpers/http.js:82-84 | without options, or with only falsy ones (`maxAge: 0`, empty strings), the string is `key=value; Secure; HttpOnly` |
| Http.Response.constructor | helpers/http.js:63-72 | missing headers, cookies and status default to `{}`, `[]` and 200; a given status, even 0, is kept |
| Http.Response.SetCookie | helpers/http.js:80-86 | exactly one cookie string is appended, and nothing else changes |
| Http.BaseUrl | backend/lambda.js:31 | the base URL is `http://` plus the host, or `http://undefined` when there is no host header |
| FileSystem.ReadOf | backend/handlers/localhost_handler.js:46-49 | a read succeeds iff the path is a file and not a directory, and it gives the file's bytes |
| FileSystem.Disk.ExistsSync | helpers/bundler.js:12 | the answer is true iff a file or a directory is at the path |
| FileSystem.Disk.MkdirSync | helpers/bundler.js:21-23 | the directory is added |
| FileSystem.Disk.ReadFileSync | backend/handlers/render_handler.js:17 | the read equals `ReadOf` on the current disk |
| FileSystem.Disk.WriteFileSync | helpers/bundler.js:31 | a write to a non-directory whose parent exists stores the bytes; otherwise it reports the error and changes nothing |
| Logger.SinkOf | helpers/logger.js:104-117 | DEBUG goes to debug, WARN to warn, ERROR/FATAL/NOTIFY to error, and each other category to log (each as an iff) |
| Logger.EscapeRoundTrip | helpers/logger.js:97 | unescaping the escaped message gives back the message |
| Logger.EscapeIsWellFormed | helpers/logger.js:97 | the escaped message has no unescaped quote, and its length is the input length plus the number of `\` and `"` characters |
| Logger.EscapeIsPerCharacter | helpers/logger.js:97 | doubling backslashes and then escaping quotes is the same as escaping each character on its own |
| Logger.EntryTextIsObject | helpers/logger.js:98-120 | the line is exactly the `{ … }` text of the member list, each member written as `"name": value` and separated by `, ` |
| Logger.EntryMemberPresence | helpers/logger.js:98-103 | application, category and message come first, and timestamp is always there; event iff truthy; milliseconds and count iff given (0 included); dimensions iff given and non-empty |
| Logger.InitOf | helpers/logger.js:44-58 | in tests the name becomes `TEST`; a set name is kept; it fails iff not in tests and no name is set or found; failure changes nothing |
| Logger.LogOf | helpers/logger.js:72-82 | exactly one line is appended with the earlier lines kept, on the sink of the normalised category; an initialised logger only appends |
| Logger.LogLineOf | helpers/logger.js:76-81 | the appended line is the `log_entry` text of the normalised arguments, under the name the line shows |
| Logger.MissingCategoryIsInfo | helpers/logger.js:76-81 | a bare string, or a record without a category, is logged as INFO on console.log |
| Logger.LogInitialises | helpers/logger.js:72-75 | after a call the logger is initialised iff it already was, or it is in tests, or a name is set or found; a deferred initialisation's first line shows the old name |
| Logger.Logger.constructor | helpers/logger.js:33-38 | the logger starts with no application, not initialised, with no lines |
| Logger.Logger.Initialize | helpers/logger.js:44-58 | the result and the new state equal `InitOf` of the old state |
| Logger.Logger.LogEntry | helpers/logger.js:94-123 | exactly one line is appended, on the category's sink, with the entry text |
| Logger.Logger.Log | helpers/logger.js:72-82 | the new state equals `LogOf` of the old state |
| Bundler.Chunks | helpers/bundler.js:25 | the result is no longer than the output, holds a chunk iff the output has it as an item, and starts with the output's first item when that is a chunk |
| Bundler.ChunksAppend | helpers/bundler.js:25 | filtering distributes over concatenation, so the chunks keep their order and their multiplicity |
| Bundler.ChunksOfItem | helpers/bundler.js:25 | a single chunk item is kept, and a single asset item is dropped |
| Bundler.ChunksSkipAssets | helpers/bundler.js:25-35 | leading assets are skipped, so the code returned is that of the first chunk item of the output |
| Bundler.BundleOf | helpers/bundler.js:11-36 | a missing entry, a failed build and an output without chunks each throw their own error; success returns the first chunk's code |
| Bundler.BundleStoresEveryChunk | helpers/bundler.js:30-35 | after success every chunk's code is cached under its name (the last of a name wins), and every other key keeps its value |
| Bundler.BundleCachesOnlyWrittenChunks | helpers/bundler.js:30-33 | a key that names no chunk keeps its value; a key cached anew was first written to `./temp` with the same code |
| Bundler.BundleWriteFailure | helpers/bundler.js:30-33 | a failing write ends the call with its error; chunks before it are cached, and it and the later ones are not |
| Bundler.BundleIgnoresCache | helpers/bundler.js:11-20 | the result and the disk do not depend on the cache's contents |
| Bundler.WriteAndStore | helpers/bundler.js:30-33 | the writable prefix of chunks is written and cached in order; the error is the first failing write's |
| Bundler.GenerateBundle | helpers/bundler.js:11-36 | the result, the cache and the disk equal `BundleOf` of the old state |
| Localhost.RewritePath | backend/handlers/localhost_handler.js:20-28 | `/node_modules/…` drops its slash; other `/node_modules…` paths gain `frontend`; `@…` goes under `node_modules/`; the rest gain `frontend` |
| Localhost.RewritePageScript | backend/handlers/localhost_handler.js:20-28 | `/main.js` maps to `frontend/main.js` |
| Localhost.RewritePackageFile | backend/handlers/localhost_handler.js:20-28 | `/node_modules/lit/index.js` maps to `node_modules/lit/index.js` |
| Localhost.RewriteScopedImport | backend/handlers/localhost_handler.js:20-28 | `@lit/core` maps to `node_modules/@lit/core` |
| Localhost.RewriteLookalike | backend/handlers/localhost_handler.js:20-28 | `/node_modulesx.js` maps to `frontendnode_modulesx.js` |
| Localhost.DotSlice | backend/handlers/localhost_handler.js:43 | with a dot, the result is the suffix from the last dot; without one, the result is the last character |
| Localhost.ReadModeOf | backend/handlers/localhost_handler.js:42-50 | binary extensions are read raw; otherwise image mime types are read as base64; everything else is read as UTF-8 (each as an iff) |
| Localhost.MimeOf | backend/handlers/localhost_handler.js:15 | the mime type is never empty, and a known type is kept |
| Localhost.CacheHitIsServed | backend/handlers/localhost_handler.js:30-31 | a truthy cached value is served with 200 and the mime type, and nothing else changes |
| Localhost.ScriptMissIsBundled | backend/handlers/localhost_handler.js:32-33 | a script miss is bundled: success serves and caches the code under the source path, and failure gives false with status 500 |
| Localhost.MissingFileIsNotFound | backend/handlers/localhost_handler.js:35-39 | a missing file gives 404 `Not Found`, and the cache and the disk are unchanged |
| Localhost.ExistingFileIsRead | backend/handlers/localhost_handler.js:41-50 | a file is read in its mode, served with 200 and cached; a directory gives false with status 500 |
| Localhost.FailureIsStatus500 | backend/handlers/localhost_handler.js:56-64 | false iff status 500, with the rest of the response unchanged; true means status 200 or 404 |
| Localhost.MalformedPathFails | backend/handlers/localhost_handler.js:16 | a path `decodeURI` rejects gives false with status 500 |
| Localhost.LocalhostKeepsOtherHeaders | backend/handlers/localhost_handler.js:56-58 | only `Content-Type` among the headers can change, and the cookies stay |
| Localhost.LocalhostHandler | backend/handlers/localhost_handler.js:13-65 | the result, the response, the cache and the disk equal `LocalhostOf`, and both contexts are unchanged |
| Render.TemplatePath | backend/handlers/render_handler.js:16 | the development template is used iff the host header contains `localhost` |
| Render.ExpandLiteral | backend/handlers/render_handler.js:22 | a replacement without `$` is inserted as written |
| Render.ExpandPatterns | backend/handlers/render_handler.js:22 | `$&`, `$'` and `$$` insert the match, the rest of the text and a dollar; `$1` stays as written |
| Render.ReplaceFirst | backend/handlers/render_handler.js:22 | only the first occurrence is replaced; without one, the text is unchanged |
| Render.ReplaceFirstOnlyFirst | backend/handlers/render_handler.js:22 | the text before the first placeholder has none; every later placeholder survives, shifted by the length difference |
| Render.RenderOf | backend/handlers/render_handler.js:15-25 | it succeeds iff the template can be read; then the status is 200, `content-type` is `text/html` and the cookies are kept |
| Render.RenderBody | backend/handlers/render_handler.js:20-22 | the page is the template with its first placeholder replaced by the context script, or the template unchanged when it has no placeholder |
| Render.RenderHandler | backend/handlers/render_handler.js:15-25 | the response equals `RenderOf`; an unreadable template throws and leaves the response untouched |
| S3.ObjectKey | backend/handlers/s3_handler.js:15-19 | `/` becomes `/<version>/index.html`; any other path becomes `/<version>/` plus the path without its first character |
| S3.ObjectKeyInjective | backend/handlers/s3_handler.js:16-19 | two paths map to the same key iff they are equal, or are `/` and `/index.html` |
| S3.StatusOr200 | backend/handlers/s3_handler.js:30 | the status is never 0, and a given non-zero status is kept |
| S3.ContentTypeOr | backend/handlers/s3_handler.js:31 | the content type is never empty, and a given type is kept |
| S3.FetchOf | backend/handlers/s3_handler.js:15-28 | a successful fetch is always an object reply |
| S3.S3Of | backend/handlers/s3_handler.js:12-44 | the cookies are kept, and a failure is reported exactly when decoding or the fetch failed |
| S3.S3ServesObject | backend/handlers/s3_handler.js:30-32 | an object is served with its status (200 when missing or 0), its type (`text/html` when missing) and its bytes as a stream, and nothing is logged |
| S3.S3FailureIs500 | backend/handlers/s3_handler.js:33-42 | a failure gives status 500 with the JSON error body, and the headers are kept |
| S3.S3KeepsOtherHeaders | backend/handlers/s3_handler.js:31 | only `content-type` among the headers can change |
| S3.FailureLogsOneError | backend/handlers/s3_handler.js:35-39 | a failure logs exactly one line, on the error console |
| S3.S3Handler | backend/handlers/s3_handler.js:12-44 | the response equals `S3Of`; the log grows by the failure entry exactly when the handler failed |
| Override.HostName | backend/local.js:33 | the host name has no `:` and is a prefix of the header |
| Override.OverrideOf | backend/local.js:32-36 | it throws iff there is no host header; otherwise the hook applies iff the host is local and the extension is static |
| Override.PortIsIgnored | backend/local.js:33 | `name:port` decides exactly like `name` |
| Override.HookOf | backend/local.js:31-37 | with no hook nothing is handled; only a missing host throws; a handled request has a local host and a static extension; when the override applies the result is `LocalhostOf`, and when it does not, nothing is handled and nothing changes |
| Override.RunHook | backend/local.js:31-37 | the result, the response, the cache and the disk equal `HookOf`, and nothing changes when it throws |
| ProcessRequest.WithTheme | backend/process_request.js:41-45 | a truthy theme is written into both contexts; otherwise nothing changes |
| ProcessRequest.RouteOf | backend/process_request.js:66-79 | the static route is taken iff the extension is listed; the page route iff the path is `/`; the API route iff it is `/api/test` |
| ProcessRequest.PreflightShortCircuits | backend/process_request.js:25-31 | OPTIONS gets the three `*` CORS headers and 200; no global header is set and nothing else changes |
| ProcessRequest.GlobalHeaderIsStamped | backend/process_request.js:36 | every response object of a non-preflight request carries `kora-application: hal.handle.me` and no cookie |
| ProcessRequest.ThemeIsPublished | backend/process_request.js:41-45 | the public context gains a truthy theme and is otherwise unchanged, whatever route follows |
| ProcessRequest.BadCookieRejects | backend/process_request.js:41 | a cookie jar that does not decode rejects the request before anything changes |
| ProcessRequest.HandledHookWins | backend/process_request.js:58-60 | a handled request returns the hook's response; nothing is logged and the context is not reset |
| ProcessRequest.StaticPathGoesToS3 | backend/process_request.js:66-68 | a static extension goes to S3 before `/` and `/api/test` are tried |
| ProcessRequest.ApiTestIsBare | backend/process_request.js:74-79 | `/api/test` gives the bare 200 record, and nothing more changes |
| ProcessRequest.UnknownPathIsNotFound | backend/process_request.js:81-88 | the fallback gives 404 `Not Found` as `text/plain` from `process_request`; the context is emptied and the public context and cache are kept |
| ProcessRequest.ContextResetOnlyOnNotFound | backend/process_request.js:58-88 | the context is emptied on the 404 path, and on every other outcome it is exactly what the middleware left |
| ProcessRequest.NoHookLeavesArtifacts | backend/process_request.js:58 | without a hook the artifact cache and the disk never change |
| ProcessRequest.OnlyS3FailureLogs | backend/process_request.js:66-88 | only the static route can write to the log |
| ProcessRequest.ProcessRequest | backend/process_request.js:21-89 | the reply, the cache maps, the disk and the log equal `ProcessOf` of the old state |
| Lambda.HeaderValue | backend/lambda.js:17 | a missing header value becomes `''`, and a present one is kept |
| Lambda.NormalizedHeaders | backend/lambda.js:13-19 | the header names are kept, each value is normalised, and no headers give an empty record |
| Lambda.NormalizeHeaders | backend/lambda.js:15-19 | the loop's record equals `NormalizedHeaders` |
| Lambda.QueryStringIsJoin | backend/lambda.js:20-25 | the query string is `?` followed by the `key=value` pairs, joined with `&` |
| Lambda.QueryStringSplits | backend/lambda.js:20-25 | when keys and values contain no `&`, splitting on `&` gives the `?` entry and every pair, in order |
| Lambda.BuildQueryString | backend/lambda.js:20-25 | the loop's string equals `QueryString` of the parameters, and it is `?` without any |
| Lambda.LambdaRequest | backend/lambda.js:26-32 | it succeeds iff the URL parses; the headers are normalised; the body is base64-decoded iff flagged; a missing body becomes `''` |
| Lambda.ResultOf | backend/lambda.js:35-40 | the result is never base64, status, headers and body are copied from the response, the bare record has no headers, and a rejection propagates |
| Lambda.LambdaIsProduction | backend/lambda.js:26-40 | the Lambda entry never changes the artifact cache or the disk, and it returns the production routing's result |
| Lambda.LambdaHandler | backend/lambda.js:10-41 | the result and the new state equal `LambdaOf` |
| Local.FlattenSplits | backend/local.js:20 | repeated values without commas split back out of the joined header |
| Local.FlattenedHeaders | backend/local.js:17-23 | the header names are kept and each value is flattened; no headers give an empty record |
| Local.FlattenHeaders | backend/local.js:18-23 | the loop's record equals `FlattenedHeaders` |
| Local.MethodOf | backend/local.js:27 | a missing or empty method becomes `GET` |
| Local.ListenerRequest | backend/local.js:25-29 | it succeeds iff the URL parses; the headers are flattened, the method defaults, and there is no body |
| Local.EncodingOf | backend/local.js:45-47 | base64 iff there are headers with a `Content-Type` that starts with `image` |
| Local.WrittenBody | backend/local.js:49 | a falsy body is written as `''` |
| Local.LocalImagesAreBase64 | backend/local.js:45-47 | a file the development handler reads as base64 is written with the base64 encoding |
| Local.Utf8WithoutContentType | backend/local.js:45-47 | the bare record, or a response without `Content-Type`, is written as UTF-8 |
| Local.MissingHostRejects | backend/local.js:32-33 | without a host header, a non-preflight request is rejected by the hook and nothing is written |
| Local.OneWritePerRequest | backend/local.js:38-50 | a resolved request writes one defined chunk and ends the response; a rejected one leaves the response alone |
| Local.CopyHeaders | backend/local.js:38-43 | every response header is set, replacing one of the same name |
| Local.Deliver | backend/local.js:38-50 | the Node response equals `DeliverOf` of the old response |
| Local.RequestListener | backend/local.js:14-51 | the error, the Node response and the new state equal `ListenerOf` |

## Left out

- Asynchrony and concurrency are not modelled. Each request runs to completion before the next one starts. The model of `Logger.log` completes a deferred `initialize` right after the line is written.
- `Environment` probing and the metadata fetches in helpers/logger.js are network I/O. The name they would find is a parameter of the logger.
- The `Error.prototype.toJSON` patch in helpers/logger.js is runtime reflection, and is not modelled.
- `new Date()` is not modelled: the timestamp is a parameter.
- The `globalThis.window.location` sync in backend/process_request.js:52-55 is a DOM shim side effect, and is not modelled.
- The `console.log` traces in backend/local.js and the `ERR` trace in localhost_handler.js are not modelled.
- `createServer`, `listen` and `startApp` in backend/local.js are not modelled. Neither are the socket bytes behind `setHeader`, `write` and `end`, which are only recorded as calls.
- `isLocalHost` is imported by backend/local.js but is not defined in helpers/constants.js. The model takes it as a parameter.
- The real rollup call, the S3 client, `mime.getType`, `decodeURI`/`decodeURIComponent`, `JSON.stringify`, base64/UTF-8 conversion and URL parsing are foreign code. They are parameters. A failure in any of them is a message, not a JavaScript error object.
- The file system is a map of files plus a set of directories. Reads and writes follow the ENOENT and EISDIR rules only; permissions, symbolic links and relative-path resolution are not modelled.
- Header and parameter records are maps without an order, except the query parameters, which keep their order. The order in which headers are enumerated is not modelled. Header names are compared case-sensitively, while Node's `setHeader` ignores case. No route leaves both `content-type` and `Content-Type` on one response, so this changes no outcome of the model.
- Strings are sequences of Unicode code points, not UTF-16 code units. Indexing differs from JavaScript for characters outside the Basic Multilingual Plane.
- Numbers (`milliseconds`, `count`, `maxAge`, the S3 status) are integers. Fractions, `NaN` and the JavaScript number printer are not modelled.
- Logger.EntryTextIsObject: the line is the member-list text, but it is not always one line of valid JSON. helpers/logger.js:97 escapes only `\` and `"` in the message, and it writes `event`, `category` and `application` unescaped. So a message holding a newline spans two lines, and an event holding `"` breaks the JSON. The model writes the line exactly as the code builds it.
- Http.SearchCookie: `toLowerCase` is modelled for ASCII letters only, so keys that differ only in non-ASCII case do not match in the model.
- S3.S3Of: the web stream of the object body is modelled as its bytes. Node's behaviour when `res.write` is given a stream is not modelled.
- backend/handlers/server_side_render_handler.js is not part of this model. It is a stub that no route calls. Also left out: helpers/shim.js, frontend/main.js and the two rollup configuration files.
