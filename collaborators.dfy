/** The collaborators that `init(exec, cookieHandler, urlUtil, helpers,
    globalConfigs)` receives. Their bodies are not part of this model: each
    one is an uninterpreted function that may return or throw, and whatever
    it yields is passed on unchanged. */
module Collaborators {
  import opened JsValues

  /** One host's headers: header name to header value. */
  type Bucket = map<string, Value>

  /** `globalConfigs.headers`: host key (an exact host or `'*'`) to bucket. */
  type HeaderTable = map<string, Bucket>

  /** What a request reads of `globalConfigs` at the moment it is sent. */
  datatype ConfigState = ConfigState(headers: HeaderTable, serializer: Value, timeout: Value)

  /** The options object that `helpers.handleMissingOptions` hands back
      (`httpMethod` is its `method` property);
      `sendRequest` reads these eight properties of it. */
  datatype Options = Options(
    httpMethod: Value,
    params: Value,
    data: Value,
    headers: Value,
    serializer: Value,
    timeout: Value,
    filePath: Value,
    name: Value)

  /** The `helpers` object. */
  datatype Helpers = Helpers(
    b64EncodeUnicode: string -> string,
    checkForBlacklistedHeaderKey: Value -> Completion<Value>,
    checkForInvalidHeaderValue: Value -> Completion<Value>,
    checkSerializer: Value -> Completion<Value>,
    checkSSLCertMode: Value -> Completion<Value>,
    checkClientAuthMode: Value -> Completion<Value>,
    handleMissingCallbacks: (Value, Value) -> Completion<Value>,
    handleMissingOptions: (Value, ConfigState) -> Completion<Options>,
    getMergedHeaders: (Value, Value, HeaderTable) -> Completion<Value>,
    getProcessedData: (Value, Value) -> Completion<Value>,
    injectCookieHandler: (Value, Value) -> Completion<Value>,
    injectFileEntryHandler: Value -> Completion<Value>)

  /** The `urlUtil` object. */
  datatype UrlUtil = UrlUtil(
    serializeQueryParams: (Value, bool) -> Completion<Value>,
    appendQueryParamsString: (Value, Value) -> Completion<Value>)

  /** The native service every command is addressed to. */
  const PluginService: string := "CordovaHttpPlugin"

  /** One call `exec(onSuccess, onFailure, service, action, args)` into the
      native bridge, recorded as a value. */
  datatype Command = Command(
    onSuccess: Value,
    onFailure: Value,
    service: string,
    action: Value,
    args: seq<Value>)
}
