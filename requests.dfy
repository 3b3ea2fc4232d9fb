/** The request side of the public interface: Basic authentication values,
    the three mode commands, `sendRequest` with its routing switch, and the
    convenience adapters. Each is a function of the injected collaborators
    and of the configuration a call reads, and yields the native command the
    call would hand to `exec`, or the value it throws first. */
module Requests {
  import opened JsValues
  import opened Collaborators

  /** `'Basic ' + helpers.b64EncodeUnicode(username + ':' + password)`. */
  function BasicCredential(h: Helpers, username: Value, password: Value): (r: Value)
    ensures r.Str? && |r.s| >= 6
    ensures r.s[..6] == "Basic "
    ensures r.s[6..] == h.b64EncodeUnicode(ToString(username) + ":" + ToString(password))
  {
    Str("Basic " + h.b64EncodeUnicode(ToString(username) + ":" + ToString(password)))
  }

  /** `getBasicAuthHeader(username, password)`: an object with the single key
      `Authorization`. Being a function, it changes no state. */
  function GetBasicAuthHeader(h: Helpers, username: Value, password: Value): (r: Value)
    ensures r.Dict? && r.props.Keys == {"Authorization"}
    ensures r.props["Authorization"] == BasicCredential(h, username, password)
  {
    Dict(map["Authorization" := BasicCredential(h, username, password)])
  }

  /** `setServerTrustMode(mode, success, failure)` (also exported as
      `setSSLCertMode`): the callbacks are checked first, then the mode. */
  function SetServerTrustMode(h: Helpers, mode: Value, success: Value, failure: Value): (r: Completion<Command>)
    ensures h.handleMissingCallbacks(success, failure).Throw? ==>
              r == Throw(h.handleMissingCallbacks(success, failure).error)
    ensures h.handleMissingCallbacks(success, failure).Normal? && h.checkSSLCertMode(mode).Throw? ==>
              r == Throw(h.checkSSLCertMode(mode).error)
    ensures r.Normal? <==> h.handleMissingCallbacks(success, failure).Normal? && h.checkSSLCertMode(mode).Normal?
    ensures r.Normal? ==>
              r.value == Command(success, failure, PluginService, Str("setServerTrustMode"), [h.checkSSLCertMode(mode).value])
  {
    var callbacksChecked :- h.handleMissingCallbacks(success, failure);
    var checkedMode :- h.checkSSLCertMode(mode);
    Normal(Command(success, failure, PluginService, Str("setServerTrustMode"), [checkedMode]))
  }

  /** The four things `setClientAuthMode` works with. */
  datatype ClientAuthArgs = ClientAuthArgs(mode: Value, filePath: Value, success: Value, failure: Value)

  /** `setClientAuthMode` picks its arguments by count: exactly four
      arguments put the file path second; any other count has no file path
      (`null`) and the callbacks right after the mode. */
  function ResolveClientAuthArgs(args: seq<Value>): (r: ClientAuthArgs)
    ensures |args| == 4 ==> r == ClientAuthArgs(args[0], args[1], args[2], args[3])
    ensures |args| == 3 ==> r == ClientAuthArgs(args[0], Null, args[1], args[2])
    ensures |args| != 4 ==> r == ClientAuthArgs(Arg(args, 0), Null, Arg(args, 1), Arg(args, 2))
  {
    if |args| == 4 then ClientAuthArgs(args[0], args[1], args[2], args[3])
    else ClientAuthArgs(Arg(args, 0), Null, Arg(args, 1), Arg(args, 2))
  }

  /** `setClientAuthMode(args...)`: the callbacks are checked first, then the
      mode; the command carries the checked mode and the file path. */
  function SetClientAuthMode(h: Helpers, args: seq<Value>): (r: Completion<Command>)
    ensures var a := ResolveClientAuthArgs(args);
              h.handleMissingCallbacks(a.success, a.failure).Throw? ==>
                r == Throw(h.handleMissingCallbacks(a.success, a.failure).error)
    ensures var a := ResolveClientAuthArgs(args);
              h.handleMissingCallbacks(a.success, a.failure).Normal? && h.checkClientAuthMode(a.mode).Throw? ==>
                r == Throw(h.checkClientAuthMode(a.mode).error)
    ensures var a := ResolveClientAuthArgs(args);
              r.Normal? <==> h.handleMissingCallbacks(a.success, a.failure).Normal? && h.checkClientAuthMode(a.mode).Normal?
    ensures var a := ResolveClientAuthArgs(args);
              r.Normal? ==>
                r.value == Command(a.success, a.failure, PluginService, Str("setClientAuthMode"),
                                   [h.checkClientAuthMode(a.mode).value, a.filePath])
    ensures r.Normal? && |args| == 3 ==> r.value.args[1] == Null
    ensures r.Normal? && |args| == 4 ==> r.value.args[1] == args[1]
  {
    var a := ResolveClientAuthArgs(args);
    var callbacksChecked :- h.handleMissingCallbacks(a.success, a.failure);
    var checkedMode :- h.checkClientAuthMode(a.mode);
    Normal(Command(a.success, a.failure, PluginService, Str("setClientAuthMode"), [checkedMode, a.filePath]))
  }

  /** `disableRedirect(disable, success, failure)`: the callbacks are checked,
      then the flag is sent as a boolean (`!!disable`). */
  function DisableRedirect(h: Helpers, disable: Value, success: Value, failure: Value): (r: Completion<Command>)
    ensures h.handleMissingCallbacks(success, failure).Throw? ==>
              r == Throw(h.handleMissingCallbacks(success, failure).error)
    ensures r.Normal? <==> h.handleMissingCallbacks(success, failure).Normal?
    ensures r.Normal? ==>
              && r.value.onSuccess == success && r.value.onFailure == failure
              && r.value.service == PluginService && r.value.action == Str("disableRedirect")
              && |r.value.args| == 1 && r.value.args[0].Bool?
              && (r.value.args[0].b <==> Truthy(disable))
  {
    var callbacksChecked :- h.handleMissingCallbacks(success, failure);
    Normal(Command(success, failure, PluginService, Str("disableRedirect"), [Bool(Truthy(disable))]))
  }

  /** Whether `url` comes out of appending the query string serialized from
      `params` (with encoding on) to `base`. */
  ghost predicate QueryAppended(u: UrlUtil, base: Value, params: Value, url: Value) {
    && u.serializeQueryParams(params, true).Normal?
    && u.appendQueryParamsString(base, u.serializeQueryParams(params, true).value) == Normal(url)
  }

  /** Whether both query steps return for `params`: serializing them, and
      appending the result to `base`. */
  predicate QueryAppendedAny(u: UrlUtil, base: Value, params: Value) {
    && u.serializeQueryParams(params, true).Normal?
    && u.appendQueryParamsString(base, u.serializeQueryParams(params, true).value).Normal?
  }

  /** The URL with the query string of `params` appended. */
  function AppendedUrl(u: UrlUtil, base: Value, params: Value): (r: Value)
    requires QueryAppendedAny(u, base, params)
    ensures QueryAppended(u, base, params, r)
  {
    u.appendQueryParamsString(base, u.serializeQueryParams(params, true).value).value
  }

  /** What `sendRequest` has computed when it reaches its switch. */
  datatype Prepared = Prepared(options: Options, url: Value, headers: Value, onSuccess: Value, onFail: Value)

  /** The steps of `sendRequest` before its switch, in source order: the
      callbacks are checked, the options completed, the query string appended
      to the URL, and the merged headers and both cookie wrappers computed
      from that one final URL. */
  function Prepare(h: Helpers, u: UrlUtil, cfg: ConfigState, url: Value, options: Value, success: Value, failure: Value)
    : (r: Completion<Prepared>)
    ensures h.handleMissingCallbacks(success, failure).Throw? ==>
              r == Throw(h.handleMissingCallbacks(success, failure).error)
    ensures var o := h.handleMissingOptions(options, cfg);
              h.handleMissingCallbacks(success, failure).Normal? && o.Throw? ==> r == Throw(o.error)
    ensures var o := h.handleMissingOptions(options, cfg);
              h.handleMissingCallbacks(success, failure).Normal? && o.Normal? ==>
                var q := u.serializeQueryParams(o.value.params, true);
                q.Throw? ==> r == Throw(q.error)
    ensures var o := h.handleMissingOptions(options, cfg);
              h.handleMissingCallbacks(success, failure).Normal? && o.Normal?
              && u.serializeQueryParams(o.value.params, true).Normal? ==>
                var f := u.appendQueryParamsString(url, u.serializeQueryParams(o.value.params, true).value);
                f.Throw? ==> r == Throw(f.error)
    ensures var o := h.handleMissingOptions(options, cfg);
              h.handleMissingCallbacks(success, failure).Normal? && o.Normal? && QueryAppendedAny(u, url, o.value.params) ==>
                var finalUrl := AppendedUrl(u, url, o.value.params);
                var m := h.getMergedHeaders(finalUrl, o.value.headers, cfg.headers);
                && (m.Throw? ==> r == Throw(m.error))
                && (m.Normal? && h.injectCookieHandler(finalUrl, success).Throw? ==>
                      r == Throw(h.injectCookieHandler(finalUrl, success).error))
                && (m.Normal? && h.injectCookieHandler(finalUrl, success).Normal?
                    && h.injectCookieHandler(finalUrl, failure).Throw? ==>
                      r == Throw(h.injectCookieHandler(finalUrl, failure).error))
                && (r.Normal? <==>
                      m.Normal? && h.injectCookieHandler(finalUrl, success).Normal?
                      && h.injectCookieHandler(finalUrl, failure).Normal?)
    ensures r.Normal? ==>
              && h.handleMissingCallbacks(success, failure).Normal?
              && h.handleMissingOptions(options, cfg) == Normal(r.value.options)
              && QueryAppended(u, url, r.value.options.params, r.value.url)
              && h.getMergedHeaders(r.value.url, r.value.options.headers, cfg.headers) == Normal(r.value.headers)
              && h.injectCookieHandler(r.value.url, success) == Normal(r.value.onSuccess)
              && h.injectCookieHandler(r.value.url, failure) == Normal(r.value.onFail)
  {
    var callbacksChecked :- h.handleMissingCallbacks(success, failure);
    var opts :- h.handleMissingOptions(options, cfg);
    var query :- u.serializeQueryParams(opts.params, true);
    var finalUrl :- u.appendQueryParamsString(url, query);
    var headers :- h.getMergedHeaders(finalUrl, opts.headers, cfg.headers);
    var onSuccess :- h.injectCookieHandler(finalUrl, success);
    var onFail :- h.injectCookieHandler(finalUrl, failure);
    Normal(Prepared(opts, finalUrl, headers, onSuccess, onFail))
  }

  /** The methods that send a body. */
  predicate IsBodyMethod(m: Value) {
    m == Str("post") || m == Str("put") || m == Str("patch")
  }

  /** The switch of `sendRequest` on the completed options' method. The
      routing table: a body method goes to its own name with [url, data,
      serializer, headers, timeout]; `upload` goes to `uploadFile` with [url,
      headers, filePath, name, timeout]; `download` goes to `downloadFile`
      with [url, headers, filePath, timeout] and a success callback that is
      wrapped into a file entry before the cookie wrapper; any other method
      goes to its own name with [url, headers, timeout]. Every route sends the
      final URL first and the failure wrapper as its failure callback. */
  function Route(h: Helpers, p: Prepared, success: Value): (r: Completion<Command>)
    ensures r.Normal? ==>
              && r.value.service == PluginService
              && |r.value.args| >= 3
              && r.value.args[0] == p.url
              && r.value.onFailure == p.onFail
    ensures IsBodyMethod(p.options.httpMethod) ==>
              var data := h.getProcessedData(p.options.data, p.options.serializer);
              && (r.Normal? <==> data.Normal?)
              && (data.Throw? ==> r == Throw(data.error))
              && (r.Normal? ==>
                    && r.value.action == p.options.httpMethod
                    && r.value.onSuccess == p.onSuccess
                    && r.value.args == [p.url, data.value, p.options.serializer, p.headers, p.options.timeout])
    ensures p.options.httpMethod == Str("upload") ==>
              && r.Normal?
              && r.value.action == Str("uploadFile")
              && r.value.onSuccess == p.onSuccess
              && r.value.args == [p.url, p.headers, p.options.filePath, p.options.name, p.options.timeout]
    ensures p.options.httpMethod == Str("download") ==>
              var fileEntry := h.injectFileEntryHandler(success);
              && (fileEntry.Throw? ==> r == Throw(fileEntry.error))
              && (fileEntry.Normal? && h.injectCookieHandler(p.url, fileEntry.value).Throw? ==>
                    r == Throw(h.injectCookieHandler(p.url, fileEntry.value).error))
              && (fileEntry.Normal? && h.injectCookieHandler(p.url, fileEntry.value).Normal? ==>
                    r == Normal(Command(h.injectCookieHandler(p.url, fileEntry.value).value, p.onFail, PluginService,
                                        Str("downloadFile"), [p.url, p.headers, p.options.filePath, p.options.timeout])))
    ensures !IsBodyMethod(p.options.httpMethod) && p.options.httpMethod != Str("upload")
            && p.options.httpMethod != Str("download") ==>
              && r.Normal?
              && r.value.action == p.options.httpMethod
              && r.value.onSuccess == p.onSuccess
              && r.value.args == [p.url, p.headers, p.options.timeout]
  {
    var m := p.options.httpMethod;
    if IsBodyMethod(m) then
      var data :- h.getProcessedData(p.options.data, p.options.serializer);
      Normal(Command(p.onSuccess, p.onFail, PluginService, m, [p.url, data, p.options.serializer, p.headers, p.options.timeout]))
    else if m == Str("upload") then
      Normal(Command(p.onSuccess, p.onFail, PluginService, Str("uploadFile"),
                     [p.url, p.headers, p.options.filePath, p.options.name, p.options.timeout]))
    else if m == Str("download") then
      var fileEntry :- h.injectFileEntryHandler(success);
      var onDownloadSuccess :- h.injectCookieHandler(p.url, fileEntry);
      Normal(Command(onDownloadSuccess, p.onFail, PluginService, Str("downloadFile"),
                     [p.url, p.headers, p.options.filePath, p.options.timeout]))
    else
      Normal(Command(p.onSuccess, p.onFail, PluginService, m, [p.url, p.headers, p.options.timeout]))
  }

  /** `sendRequest(url, options, success, failure)`: nothing is dispatched
      before the callbacks pass their check; whatever the steps before the
      switch throw is thrown; otherwise the switch decides the command. */
  function SendRequest(h: Helpers, u: UrlUtil, cfg: ConfigState, url: Value, options: Value, success: Value, failure: Value)
    : (r: Completion<Command>)
    ensures h.handleMissingCallbacks(success, failure).Throw? ==>
              r == Throw(h.handleMissingCallbacks(success, failure).error)
    ensures var pr := Prepare(h, u, cfg, url, options, success, failure);
              && (pr.Throw? ==> r == Throw(pr.error))
              && (pr.Normal? ==> r == Route(h, pr.value, success))
    ensures r.Normal? ==> h.handleMissingCallbacks(success, failure).Normal?
  {
    var p :- Prepare(h, u, cfg, url, options, success, failure);
    Route(h, p, success)
  }

  /** Whether `handleMissingOptions` hands back every truthy property that
      was given in the options object unchanged (falsy ones it may replace by
      defaults). The adapters' contracts are stated under this hypothesis. */
  ghost predicate KeepsGivenOptions(h: Helpers) {
    forall o: Value, cfg: ConfigState {:trigger h.handleMissingOptions(o, cfg)} ::
      h.handleMissingOptions(o, cfg).Normal? ==> KeepsGiven(o, h.handleMissingOptions(o, cfg).value)
  }

  ghost predicate KeepsGiven(o: Value, r: Options) {
    o.Dict? ==>
      && Given(o, "method", r.httpMethod)
      && Given(o, "params", r.params)
      && Given(o, "data", r.data)
      && Given(o, "headers", r.headers)
      && Given(o, "serializer", r.serializer)
      && Given(o, "timeout", r.timeout)
      && Given(o, "filePath", r.filePath)
      && Given(o, "name", r.name)
  }

  ghost predicate Given(o: Value, key: string, kept: Value)
    requires o.Dict?
  {
    key in o.props && Truthy(o.props[key]) ==> kept == o.props[key]
  }

  /** The options object of `post`, `put` and `patch`: the method, the body
      as `data`, and the headers. */
  function BodyOptions(name: string, data: Value, headers: Value): (r: Value)
    ensures r.Dict? && r.props.Keys == {"method", "data", "headers"}
    ensures r.props["method"] == Str(name) && r.props["data"] == data && r.props["headers"] == headers
  {
    Dict(map["method" := Str(name), "data" := data, "headers" := headers])
  }

  /** The options object of `get`, `delete` and `head`: the method, the
      query parameters as `params`, and the headers. */
  function QueryOptions(name: string, params: Value, headers: Value): (r: Value)
    ensures r.Dict? && r.props.Keys == {"method", "params", "headers"}
    ensures r.props["method"] == Str(name) && r.props["params"] == params && r.props["headers"] == headers
  {
    Dict(map["method" := Str(name), "params" := params, "headers" := headers])
  }

  /** The commands of the body adapters: the method's own name, five
      arguments, the given data processed with the serializer that is sent
      next to it, and headers merged from the given ones for the sent URL. */
  ghost predicate BodyCommand(h: Helpers, cfg: ConfigState, name: string, data: Value, headers: Value, c: Command) {
    && c.action == Str(name)
    && |c.args| == 5
    && (Truthy(data) ==> h.getProcessedData(data, c.args[2]) == Normal(c.args[1]))
    && (Truthy(headers) ==> h.getMergedHeaders(c.args[0], headers, cfg.headers) == Normal(c.args[3]))
  }

  /** The commands of the query adapters: the given name, three arguments,
      the query string of the given params appended to the URL, and headers
      merged from the given ones for that URL. */
  ghost predicate QueryCommand(h: Helpers, u: UrlUtil, cfg: ConfigState, name: string, url: Value, params: Value,
                               headers: Value, c: Command) {
    && c.action == Str(name)
    && |c.args| == 3
    && (Truthy(params) ==> QueryAppended(u, url, params, c.args[0]))
    && (Truthy(headers) ==> h.getMergedHeaders(c.args[0], headers, cfg.headers) == Normal(c.args[1]))
  }

  /** A body adapter's options route to its own method with the body. */
  lemma BodyAdapterRoutes(h: Helpers, u: UrlUtil, cfg: ConfigState, url: Value, name: string, data: Value, headers: Value,
                          success: Value, failure: Value)
    requires name == "post" || name == "put" || name == "patch"
    ensures var r := SendRequest(h, u, cfg, url, BodyOptions(name, data, headers), success, failure);
              KeepsGivenOptions(h) && r.Normal? ==> BodyCommand(h, cfg, name, data, headers, r.value)
  {
  }

  /** A query adapter's options route to the default branch with the query
      string appended. */
  lemma QueryAdapterRoutes(h: Helpers, u: UrlUtil, cfg: ConfigState, url: Value, name: string, params: Value, headers: Value,
                           success: Value, failure: Value)
    requires name == "get" || name == "delete" || name == "head"
    ensures var r := SendRequest(h, u, cfg, url, QueryOptions(name, params, headers), success, failure);
              KeepsGivenOptions(h) && r.Normal? ==> QueryCommand(h, u, cfg, name, url, params, headers, r.value)
  {
  }

  /** `post(url, data, headers, success, failure)`. */
  function Post(h: Helpers, u: UrlUtil, cfg: ConfigState, url: Value, data: Value, headers: Value, success: Value, failure: Value)
    : (r: Completion<Command>)
    ensures h.handleMissingCallbacks(success, failure).Throw? ==>
              r == Throw(h.handleMissingCallbacks(success, failure).error)
    ensures r == SendRequest(h, u, cfg, url, BodyOptions("post", data, headers), success, failure)
    ensures KeepsGivenOptions(h) && r.Normal? ==> BodyCommand(h, cfg, "post", data, headers, r.value)
  {
    BodyAdapterRoutes(h, u, cfg, url, "post", data, headers, success, failure);
    SendRequest(h, u, cfg, url, BodyOptions("post", data, headers), success, failure)
  }

  /** `get(url, params, headers, success, failure)`. */
  function Get(h: Helpers, u: UrlUtil, cfg: ConfigState, url: Value, params: Value, headers: Value, success: Value, failure: Value)
    : (r: Completion<Command>)
    ensures h.handleMissingCallbacks(success, failure).Throw? ==>
              r == Throw(h.handleMissingCallbacks(success, failure).error)
    ensures r == SendRequest(h, u, cfg, url, QueryOptions("get", params, headers), success, failure)
    ensures KeepsGivenOptions(h) && r.Normal? ==> QueryCommand(h, u, cfg, "get", url, params, headers, r.value)
  {
    QueryAdapterRoutes(h, u, cfg, url, "get", params, headers, success, failure);
    SendRequest(h, u, cfg, url, QueryOptions("get", params, headers), success, failure)
  }

  /** `put(url, data, headers, success, failure)`. */
  function Put(h: Helpers, u: UrlUtil, cfg: ConfigState, url: Value, data: Value, headers: Value, success: Value, failure: Value)
    : (r: Completion<Command>)
    ensures h.handleMissingCallbacks(success, failure).Throw? ==>
              r == Throw(h.handleMissingCallbacks(success, failure).error)
    ensures r == SendRequest(h, u, cfg, url, BodyOptions("put", data, headers), success, failure)
    ensures KeepsGivenOptions(h) && r.Normal? ==> BodyCommand(h, cfg, "put", data, headers, r.value)
  {
    BodyAdapterRoutes(h, u, cfg, url, "put", data, headers, success, failure);
    SendRequest(h, u, cfg, url, BodyOptions("put", data, headers), success, failure)
  }

  /** `patch(url, data, headers, success, failure)`. */
  function Patch(h: Helpers, u: UrlUtil, cfg: ConfigState, url: Value, data: Value, headers: Value, success: Value, failure: Value)
    : (r: Completion<Command>)
    ensures h.handleMissingCallbacks(success, failure).Throw? ==>
              r == Throw(h.handleMissingCallbacks(success, failure).error)
    ensures r == SendRequest(h, u, cfg, url, BodyOptions("patch", data, headers), success, failure)
    ensures KeepsGivenOptions(h) && r.Normal? ==> BodyCommand(h, cfg, "patch", data, headers, r.value)
  {
    BodyAdapterRoutes(h, u, cfg, url, "patch", data, headers, success, failure);
    SendRequest(h, u, cfg, url, BodyOptions("patch", data, headers), success, failure)
  }

  /** `delete(url, params, headers, success, failure)` (`del` in the source). */
  function Delete(h: Helpers, u: UrlUtil, cfg: ConfigState, url: Value, params: Value, headers: Value, success: Value, failure: Value)
    : (r: Completion<Command>)
    ensures h.handleMissingCallbacks(success, failure).Throw? ==>
              r == Throw(h.handleMissingCallbacks(success, failure).error)
    ensures r == SendRequest(h, u, cfg, url, QueryOptions("delete", params, headers), success, failure)
    ensures KeepsGivenOptions(h) && r.Normal? ==> QueryCommand(h, u, cfg, "delete", url, params, headers, r.value)
  {
    QueryAdapterRoutes(h, u, cfg, url, "delete", params, headers, success, failure);
    SendRequest(h, u, cfg, url, QueryOptions("delete", params, headers), success, failure)
  }

  /** `head(url, params, headers, success, failure)`. */
  function Head(h: Helpers, u: UrlUtil, cfg: ConfigState, url: Value, params: Value, headers: Value, success: Value, failure: Value)
    : (r: Completion<Command>)
    ensures h.handleMissingCallbacks(success, failure).Throw? ==>
              r == Throw(h.handleMissingCallbacks(success, failure).error)
    ensures r == SendRequest(h, u, cfg, url, QueryOptions("head", params, headers), success, failure)
    ensures KeepsGivenOptions(h) && r.Normal? ==> QueryCommand(h, u, cfg, "head", url, params, headers, r.value)
  {
    QueryAdapterRoutes(h, u, cfg, url, "head", params, headers, success, failure);
    SendRequest(h, u, cfg, url, QueryOptions("head", params, headers), success, failure)
  }

  /** The options object of `uploadFile`. */
  function UploadOptions(params: Value, headers: Value, filePath: Value, name: Value): (r: Value)
    ensures r.Dict? && r.props.Keys == {"method", "params", "headers", "filePath", "name"}
    ensures r.props["method"] == Str("upload") && r.props["params"] == params && r.props["headers"] == headers
    ensures r.props["filePath"] == filePath && r.props["name"] == name
  {
    Dict(map["method" := Str("upload"), "params" := params, "headers" := headers, "filePath" := filePath, "name" := name])
  }

  /** The options object of `downloadFile`. */
  function DownloadOptions(params: Value, headers: Value, filePath: Value): (r: Value)
    ensures r.Dict? && r.props.Keys == {"method", "params", "headers", "filePath"}
    ensures r.props["method"] == Str("download") && r.props["params"] == params && r.props["headers"] == headers
    ensures r.props["filePath"] == filePath
  {
    Dict(map["method" := Str("download"), "params" := params, "headers" := headers, "filePath" := filePath])
  }

  /** The command of `uploadFile`: `uploadFile` with five arguments, the query
      string of the given params appended to the URL, headers merged for that
      URL, and the given file path and field name. */
  ghost predicate UploadCommand(h: Helpers, u: UrlUtil, cfg: ConfigState, url: Value, params: Value, headers: Value,
                                filePath: Value, name: Value, c: Command) {
    && c.action == Str("uploadFile")
    && |c.args| == 5
    && (Truthy(params) ==> QueryAppended(u, url, params, c.args[0]))
    && (Truthy(headers) ==> h.getMergedHeaders(c.args[0], headers, cfg.headers) == Normal(c.args[1]))
    && (Truthy(filePath) ==> c.args[2] == filePath)
    && (Truthy(name) ==> c.args[3] == name)
  }

  /** The command of `downloadFile`: `downloadFile` with four arguments, the
      query string of the given params appended to the URL, headers merged
      for that URL, the given file path, and a success callback wrapped into
      a file entry and then into the cookie wrapper for the sent URL. */
  ghost predicate DownloadCommand(h: Helpers, u: UrlUtil, cfg: ConfigState, url: Value, params: Value, headers: Value,
                                  filePath: Value, success: Value, c: Command) {
    && c.action == Str("downloadFile")
    && |c.args| == 4
    && (Truthy(params) ==> QueryAppended(u, url, params, c.args[0]))
    && (Truthy(headers) ==> h.getMergedHeaders(c.args[0], headers, cfg.headers) == Normal(c.args[1]))
    && (Truthy(filePath) ==> c.args[2] == filePath)
    && h.injectFileEntryHandler(success).Normal?
    && h.injectCookieHandler(c.args[0], h.injectFileEntryHandler(success).value) == Normal(c.onSuccess)
  }

  lemma UploadAdapterRoutes(h: Helpers, u: UrlUtil, cfg: ConfigState, url: Value, params: Value, headers: Value,
                            filePath: Value, name: Value, success: Value, failure: Value)
    ensures var r := SendRequest(h, u, cfg, url, UploadOptions(params, headers, filePath, name), success, failure);
              KeepsGivenOptions(h) && r.Normal? ==> UploadCommand(h, u, cfg, url, params, headers, filePath, name, r.value)
  {
  }

  lemma DownloadAdapterRoutes(h: Helpers, u: UrlUtil, cfg: ConfigState, url: Value, params: Value, headers: Value,
                              filePath: Value, success: Value, failure: Value)
    ensures var r := SendRequest(h, u, cfg, url, DownloadOptions(params, headers, filePath), success, failure);
              KeepsGivenOptions(h) && r.Normal? ==> DownloadCommand(h, u, cfg, url, params, headers, filePath, success, r.value)
  {
  }

  /** `uploadFile(url, params, headers, filePath, name, success, failure)`. */
  function UploadFile(h: Helpers, u: UrlUtil, cfg: ConfigState, url: Value, params: Value, headers: Value,
                      filePath: Value, name: Value, success: Value, failure: Value)
    : (r: Completion<Command>)
    ensures h.handleMissingCallbacks(success, failure).Throw? ==>
              r == Throw(h.handleMissingCallbacks(success, failure).error)
    ensures r == SendRequest(h, u, cfg, url, UploadOptions(params, headers, filePath, name), success, failure)
    ensures KeepsGivenOptions(h) && r.Normal? ==> UploadCommand(h, u, cfg, url, params, headers, filePath, name, r.value)
  {
    UploadAdapterRoutes(h, u, cfg, url, params, headers, filePath, name, success, failure);
    SendRequest(h, u, cfg, url, UploadOptions(params, headers, filePath, name), success, failure)
  }

  /** `downloadFile(url, params, headers, filePath, success, failure)`. */
  function DownloadFile(h: Helpers, u: UrlUtil, cfg: ConfigState, url: Value, params: Value, headers: Value,
                        filePath: Value, success: Value, failure: Value)
    : (r: Completion<Command>)
    ensures h.handleMissingCallbacks(success, failure).Throw? ==>
              r == Throw(h.handleMissingCallbacks(success, failure).error)
    ensures r == SendRequest(h, u, cfg, url, DownloadOptions(params, headers, filePath), success, failure)
    ensures KeepsGivenOptions(h) && r.Normal? ==> DownloadCommand(h, u, cfg, url, params, headers, filePath, success, r.value)
  {
    DownloadAdapterRoutes(h, u, cfg, url, params, headers, filePath, success, failure);
    SendRequest(h, u, cfg, url, DownloadOptions(params, headers, filePath), success, failure)
  }
}
