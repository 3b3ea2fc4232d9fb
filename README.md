# cordova-plugin-advanced-http: the public interface

This project models the JavaScript object that `init(exec, cookieHandler,
urlUtil, helpers, globalConfigs)` returns in `www/public-interface.js`. That
object is the API of the Cordova HTTP plugin. It does two jobs:

- it keeps the shared configuration: a header table from host key to header
  bucket, plus the data serializer and the request timeout;
- it turns every call into one native command for the `CordovaHttpPlugin`
  service.

The collaborators are the `helpers.*` and `urlUtil.*` functions. Their bodies
are not part of this model. Each one is an uninterpreted function that either
returns a value or throws. `exec` is modelled by the `Command` value it would
be handed.

Modules:

- `JsValues`: the JavaScript values the file handles, and the coercions it
  relies on. These are truthiness for `||` and `!!`, and `ToString` for
  string `+` and for property keys. It also has `Completion`, meaning
  "returns or throws".
- `Collaborators`: these types:
  - the header table;
  - the configuration a request reads;
  - the options record;
  - the injected `helpers` and `urlUtil`;
  - the `Command` datatype.
- `HeaderStore`: how `setHeader` works. It resolves its arguments, checks
  them, and writes one entry. Also how `getHeaders` finds a bucket, and what a
  sequence of `setHeader` calls leaves in the table.
- `Requests`:
  - Basic authentication;
  - the three mode commands;
  - `sendRequest`, split into its steps before the switch (`Prepare`) and the
    switch itself (`Route`);
  - the eight convenience adapters.
- `PublicInterface`: the classes `GlobalConfigs` and `Interface`. These are
  the members that read and update `globalConfigs` in place.

Two behaviours worth knowing:

- `useBasicAuth` calls `setHeader`, so both checks apply to the
  `Authorization` header it writes (line 36).
- `getHeaders` reads `host || '*'`, so a falsy host reads the `'*'` bucket
  (line 40).

## Model

| member | source | states |
|---|---|---|
| PublicInterface.Interface.Init | www/public-interface.js:1 | `init` captures helpers, urlUtil and the shared configuration object and changes nothing |
| HeaderStore.ResolveHeaderArgs | www/public-interface.js:43-53 | exactly three arguments give (host, header, value); any other count gives the `'*'` host, with the header and value taken from the first two arguments (`undefined` past the end) |
| HeaderStore.CheckHeader | www/public-interface.js:55-56 | the call passes only when both hooks pass; the key hook runs first and its error wins; otherwise the value hook's error is thrown |
| HeaderStore.StoreHeader | www/public-interface.js:58-59 | after the write, `headers[host][key]` is the value; a missing bucket is created holding only that entry; every other key of the bucket and every other host's bucket is unchanged; no host key disappears |
| HeaderStore.SetHeaderEffect | www/public-interface.js:43-60 | a rejected call throws the hook's error and leaves the table exactly as it was; an accepted call returns `undefined` and performs exactly the one write, under the string keys of host and header |
| PublicInterface.Interface.SetHeader | www/public-interface.js:43-60 | the method's result and new table are those of `SetHeaderEffect` on the old table; on failure the table is unchanged; on success the addressed entry holds the value; the serializer and timeout never change |
| HeaderStore.ShortFormVisibleToWildcardLookup | www/public-interface.js:39-53 | after an accepted two-argument `setHeader`, `getHeaders()` with no host returns the old `'*'` bucket extended with the new entry |
| HeaderStore.FullFormVisibleToHostLookup | www/public-interface.js:39-53 | after an accepted three-argument `setHeader` with a non-empty host string, `getHeaders(host)` returns that host's old bucket extended with the new entry |
| HeaderStore.EmptyHostBucketHidden | www/public-interface.js:39-59 | `setHeader('', k, v)` stores the entry under the empty host key, and no `getHeaders` query can observe that bucket |
| HeaderStore.LastWriteWins | www/public-interface.js:43-60 | after any sequence of `setHeader` calls, an entry holds the value of the last accepted call that addressed it, or its original value when no accepted call did; rejected calls leave no trace |
| HeaderStore.BucketsOnlyGrow | www/public-interface.js:58 | after any sequence of `setHeader` calls, a bucket exists exactly when it existed before or some accepted call addressed its host |
| HeaderStore.GetHeadersKey | www/public-interface.js:40 | `host || '*'`: a falsy host (`undefined`, `null`, `''`, ...) gives `'*'`; a truthy host gives its property-key string; a non-empty string host is used as is |
| HeaderStore.Lookup | www/public-interface.js:40 | `headers[host || '*'] || null`: `null` exactly when no bucket is stored under that key, otherwise that bucket (a stored bucket is an object, so never falsy) |
| PublicInterface.Interface.GetHeaders | www/public-interface.js:39-41 | the bucket under `host || '*'`; `null` exactly when that bucket is missing; a falsy host reads the `'*'` bucket; a non-empty string host reads its own bucket |
| PublicInterface.Interface.GetDataSerializer | www/public-interface.js:62-64 | the stored field `globalConfigs.serializer`, i.e. what `configs.State()` gives `handleMissingOptions` as the configuration a request reads; a request sends whatever serializer its completed options carry (line 140) |
| PublicInterface.Interface.SetDataSerializer | www/public-interface.js:62-68 | `getDataSerializer` then returns what `checkSerializer` returned; a rejected serializer throws and keeps the old one; headers and timeout are unchanged |
| PublicInterface.Interface.GetRequestTimeout | www/public-interface.js:86-88 | the stored field `globalConfigs.timeout`, i.e. what `configs.State()` gives `handleMissingOptions` as the configuration a request reads; a request sends whatever timeout its completed options carry (lines 140-147) |
| PublicInterface.Interface.SetRequestTimeout | www/public-interface.js:86-92 | `getRequestTimeout` then returns exactly the given value, unchecked; headers and serializer are unchanged |
| Requests.BasicCredential | www/public-interface.js:32 | the credential is a string that starts with `Basic ` and continues with the base64 of `username + ':' + password` under string coercion |
| Requests.GetBasicAuthHeader | www/public-interface.js:31-33 | an object whose only key is `Authorization`, holding the Basic credential; being a function, it changes no state |
| PublicInterface.Interface.UseBasicAuth | www/public-interface.js:35-37 | exactly the effect of `setHeader('*', 'Authorization', credential)`, so both checks apply; on success the `'*'` bucket's `Authorization` entry is the value `getBasicAuthHeader` gives for that key |
| Requests.SetServerTrustMode | www/public-interface.js:94-98 | also serves `setSSLCertMode` (lines 16-17); a callback failure is thrown before the mode is checked; the call succeeds exactly when both pass; it then sends `setServerTrustMode` with the checked mode |
| Requests.ResolveClientAuthArgs | www/public-interface.js:100-112 | four arguments give (mode, filePath, success, failure); any other count gives (mode, `null`, success, failure) from the first three arguments |
| Requests.SetClientAuthMode | www/public-interface.js:100-117 | a callback failure is thrown first, then a mode failure; on success the command is `setClientAuthMode` with [checked mode, filePath]; the file path is `null` for three arguments and the second argument for four |
| Requests.DisableRedirect | www/public-interface.js:119-123 | a callback failure is thrown; otherwise the command is `disableRedirect` with one boolean argument that is true exactly when `disable` is truthy |
| Requests.Prepare | www/public-interface.js:126-133 | the steps run in source order: callbacks, options, query serialization, query append, header merge, success wrapper, failure wrapper; the first step that throws decides the error; the result is normal exactly when every step returns, and then the options are the ones `handleMissingOptions` completed and the header merge and both cookie wrappers use the one URL that has the query string appended |
| Requests.Route | www/public-interface.js:135-148 | the routing table: `post`, `put` and `patch` send their own name with [url, data, serializer, headers, timeout], failing exactly when data processing fails; `upload` sends `uploadFile` with [url, headers, filePath, name, timeout]; `download` sends `downloadFile` with [url, headers, filePath, timeout] and a success callback wrapped in a file entry and then in the cookie wrapper; every other method sends its own name with [url, headers, timeout]; every route sends the final URL first and uses the failure wrapper |
| Requests.SendRequest | www/public-interface.js:125-149 | nothing is sent unless the callback check passes, and its failure is what is thrown; any failure before the switch is thrown; otherwise the switch decides the command |
| PublicInterface.Interface.SendRequest | www/public-interface.js:125-133 | on the live object it is `Requests.SendRequest` with this object's collaborators and `configs.State()`: a callback failure is thrown first; a sent command completed its options against this `globalConfigs`, merged headers with this `globalConfigs.headers`, and is what the switch chose |
| PublicInterface.StoredHeaderReachesMerge | www/public-interface.js:58-59 | after an accepted `setHeader`, the table the next `sendRequest` passes to `getMergedHeaders` (line 131) is the old table with exactly the one write of lines 58-59, and it holds the new entry under the host key and header name the call addressed |
| Requests.BodyOptions | www/public-interface.js:152 | the object literal of `post`, and likewise `put` and `patch` (lines 160, 164): exactly the keys `method`, `data` and `headers`, holding the method name and the given values |
| Requests.QueryOptions | www/public-interface.js:156 | the object literal of `get`, and likewise `delete` and `head` (lines 168, 172): exactly the keys `method`, `params` and `headers`, holding the method name and the given values |
| Requests.UploadOptions | www/public-interface.js:176 | exactly the keys `method` (`'upload'`), `params`, `headers`, `filePath` and `name`, holding the given values |
| Requests.DownloadOptions | www/public-interface.js:180 | exactly the keys `method` (`'download'`), `params`, `headers` and `filePath`, holding the given values |
| Requests.BodyAdapterRoutes | www/public-interface.js:151-165 | when `handleMissingOptions` keeps the given options, a body adapter's command has its own method name and five arguments; the given data is processed with the serializer that is sent; the given headers are merged for the sent URL |
| Requests.QueryAdapterRoutes | www/public-interface.js:155-173 | when `handleMissingOptions` keeps the given options, a query adapter's command has its own name and three arguments; the given params are appended to the URL as a query string; the given headers are merged for that URL |
| Requests.UploadAdapterRoutes | www/public-interface.js:175-177 | when `handleMissingOptions` keeps the given options, `uploadFile` sends `uploadFile` with five arguments: the query-appended URL, the merged headers, and the given file path and name |
| Requests.DownloadAdapterRoutes | www/public-interface.js:179-181 | when `handleMissingOptions` keeps the given options, `downloadFile` sends `downloadFile` with four arguments: the query-appended URL, the merged headers and the given file path; success goes through the file-entry wrapper, then the cookie wrapper |
| Requests.Post | www/public-interface.js:151-153 | `sendRequest(url, {method: 'post', data, headers}, success, failure)`; a callback failure is thrown first; under `KeepsGivenOptions` a sent command is a `post` body command (see BodyAdapterRoutes) |
| Requests.Get | www/public-interface.js:155-157 | `sendRequest(url, {method: 'get', params, headers}, success, failure)`; a callback failure is thrown first; under `KeepsGivenOptions` a sent command is a `get` query command (see QueryAdapterRoutes) |
| Requests.Put | www/public-interface.js:159-161 | `sendRequest` of the `put` body literal; a callback failure is thrown first; under `KeepsGivenOptions` a sent command is a `put` body command |
| Requests.Patch | www/public-interface.js:163-165 | `sendRequest` of the `patch` body literal; a callback failure is thrown first; under `KeepsGivenOptions` a sent command is a `patch` body command |
| Requests.Delete | www/public-interface.js:167-169 | `del`, exported as `delete`: `sendRequest` of the `delete` query literal; a callback failure is thrown first; under `KeepsGivenOptions` a sent command is a `delete` query command |
| Requests.Head | www/public-interface.js:171-173 | `sendRequest` of the `head` query literal; a callback failure is thrown first; under `KeepsGivenOptions` a sent command is a `head` query command |
| Requests.UploadFile | www/public-interface.js:175-177 | `sendRequest` of the upload literal; a callback failure is thrown first; under `KeepsGivenOptions` a sent command is the upload command (see UploadAdapterRoutes) |
| Requests.DownloadFile | www/public-interface.js:179-181 | `sendRequest` of the download literal; a callback failure is thrown first; under `KeepsGivenOptions` a sent command is the download command (see DownloadAdapterRoutes) |

## Left out

- `exec` and the native `CordovaHttpPlugin` commands are an asynchronous bridge to native code. Each call is modelled only as the `Command` value it would receive.
- `setCookie`, `clearCookies`, `removeCookies` and `getCookieString` (lines 70-84) are left out. They pass straight through to `cookieHandler` and have no logic of their own.
- The bodies of every `helpers.*` and `urlUtil.*` function are left out. They are defined in another file of the plugin, so each is an uninterpreted function that returns or throws. `b64EncodeUnicode` is the one exception: it is a total function on strings.
- Callback semantics (success or failure, exactly once), asynchronous timing, and the late binding of `this.setHeader` and `publicInterface.sendRequest` are not modelled, because they are runtime behaviour. `useBasicAuth` and the adapters call the plugin's own `setHeader` and `sendRequest` directly.
- Some JavaScript values are not modelled: symbols and arrays. A plain object is an unordered map, so the insertion order of its properties is lost; `serializeQueryParams` and `getMergedHeaders` see that order in the source, while here they must give one result for two objects that differ only in key order. Strings hold Unicode scalar values, not UTF-16 code units, so a host, header or credential containing a lone surrogate cannot be expressed. This is also why `b64EncodeUnicode` can be total here: its `encodeURIComponent` step would throw on such input. An object's string form is always `[object Object]`, with no custom `toString`. Properties inherited through the prototype chain, `__proto__` included, are not modelled.
- PublicInterface.Interface.GetHeaders: returns a copy of the bucket. The source returns the live object, so later changes made through it are not modelled (no aliasing).
- The options that `handleMissingOptions` returns are assumed to be an object. The model reads its eight properties as a record.
- Requests.BodyAdapterRoutes, Requests.QueryAdapterRoutes, Requests.UploadAdapterRoutes, Requests.DownloadAdapterRoutes, Requests.Post, Requests.Get, Requests.Put, Requests.Patch, Requests.Delete, Requests.Head, Requests.UploadFile and Requests.DownloadFile: the command-shape contracts are weaker than the source's behaviour. They hold only if `handleMissingOptions` keeps every truthy value it was given (`KeepsGivenOptions`), because that helper's body is defined in another file of the plugin. With no assumption, each adapter still states two things: it is `sendRequest` of its own options literal, and a callback failure is thrown before anything else.
- The values `globalConfigs` starts with are set up in a file that is not part of this model. `GlobalConfigs` takes them as constructor parameters.
- JsValues.ToString: numbers are only the safe integers, at most 2^53 - 1 in magnitude. For these, the decimal form is exactly JavaScript's. Fractions, `NaN`, `Infinity`, and numbers from 10^21 up are left out; JavaScript writes the last in exponent form, such as `1e+21`. So these inputs cannot be expressed: a host key or header name that is such a number, a fractional timeout such as `setRequestTimeout(1.5)` (lines 90-91), and `NaN` passed as the falsy flag of `disableRedirect` (line 122).
