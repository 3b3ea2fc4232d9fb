/** The object `init` returns, as far as it keeps state: the shared
    `globalConfigs` object, the members that read and update it in place, and
    `SendRequest`, which hands the live configuration to the request
    pipeline. The mode commands read no configuration; the convenience
    adapters all go through `sendRequest`. */
module PublicInterface {
  import opened JsValues
  import opened Collaborators
  import HeaderStore
  import Requests

  /** `globalConfigs`: the header table, the data serializer and the request
      timeout, shared by every call. */
  class GlobalConfigs {
    var headers: HeaderTable
    var serializer: Value
    var timeout: Value

    /** The defaults are set up elsewhere; here they are parameters. */
    constructor (headers0: HeaderTable, serializer0: Value, timeout0: Value)
      ensures headers == headers0 && serializer == serializer0 && timeout == timeout0
    {
      headers := headers0;
      serializer := serializer0;
      timeout := timeout0;
    }

    /** What a request reads of this object when it is sent. */
    function State(): ConfigState
      reads this
    {
      ConfigState(headers, serializer, timeout)
    }
  }

  /** The public interface `init(exec, cookieHandler, urlUtil, helpers,
      globalConfigs)` builds. */
  class Interface {
    const helpers: Helpers
    const urlUtil: UrlUtil
    const configs: GlobalConfigs

    /** `init`: the collaborators and the configuration object are captured;
        nothing is read or written yet. */
    constructor Init(helpers0: Helpers, urlUtil0: UrlUtil, configs0: GlobalConfigs)
      ensures helpers == helpers0 && urlUtil == urlUtil0 && configs == configs0
    {
      helpers := helpers0;
      urlUtil := urlUtil0;
      configs := configs0;
    }

    /** `setHeader(args...)`: resolves host, header and value by argument
        count, runs both checks, and only then creates the host's bucket when
        it is missing and writes the one entry. A rejected call throws and
        changes nothing; the serializer and timeout never change. */
    method SetHeader(args: seq<Value>) returns (c: Completion<Value>)
      modifies configs
      ensures (c, configs.headers) == HeaderStore.SetHeaderEffect(helpers, old(configs.headers), args)
      ensures c.Throw? ==> configs.headers == old(configs.headers)
      ensures var a := HeaderStore.ResolveHeaderArgs(args);
                c.Normal? ==> HeaderStore.Entry(configs.headers, ToString(a.host), ToString(a.header)) == Some(a.value)
      ensures configs.serializer == old(configs.serializer) && configs.timeout == old(configs.timeout)
    {
      var host := Str("*");
      var header := Arg(args, 0);
      var value := Arg(args, 1);
      if |args| == 3 {
        host := args[0];
        header := args[1];
        value := args[2];
      }
      assert HeaderStore.HeaderArgs(host, header, value) == HeaderStore.ResolveHeaderArgs(args);

      var keyChecked := helpers.checkForBlacklistedHeaderKey(header);
      if keyChecked.Throw? {
        return Throw(keyChecked.error);
      }
      var valueChecked := helpers.checkForInvalidHeaderValue(value);
      if valueChecked.Throw? {
        return Throw(valueChecked.error);
      }

      var hostKey := ToString(host);
      ghost var before := configs.headers;
      configs.headers := configs.headers[hostKey := HeaderStore.BucketOf(configs.headers, hostKey)];
      configs.headers := configs.headers[hostKey := configs.headers[hostKey][ToString(header) := value]];
      assert configs.headers == HeaderStore.StoreHeader(before, hostKey, ToString(header), value);
      c := Normal(Undefined);
    }

    /** `useBasicAuth(username, password)`: a `setHeader` of the wildcard
        host's `Authorization` header, so both checks apply, and on success
        the stored value is exactly the one `getBasicAuthHeader` gives. */
    method UseBasicAuth(username: Value, password: Value) returns (c: Completion<Value>)
      modifies configs
      ensures (c, configs.headers) ==
                HeaderStore.SetHeaderEffect(helpers, old(configs.headers),
                                            [Str("*"), Str("Authorization"), Requests.BasicCredential(helpers, username, password)])
      ensures c.Normal? ==>
                HeaderStore.Entry(configs.headers, "*", "Authorization") ==
                Some(Requests.GetBasicAuthHeader(helpers, username, password).props["Authorization"])
      ensures configs.serializer == old(configs.serializer) && configs.timeout == old(configs.timeout)
    {
      c := SetHeader([Str("*"), Str("Authorization"), Requests.BasicCredential(helpers, username, password)]);
    }

    /** `getHeaders(host)`: the bucket under `host || '*'`, or `null` when
        there is none. */
    function GetHeaders(host: Value): (r: Value)
      reads configs
      ensures HeaderStore.GetHeadersKey(host) in configs.headers ==>
                r == Dict(configs.headers[HeaderStore.GetHeadersKey(host)])
      ensures r == Null <==> HeaderStore.GetHeadersKey(host) !in configs.headers
      ensures !Truthy(host) ==> r == (if "*" in configs.headers then Dict(configs.headers["*"]) else Null)
      ensures host.Str? && host.s != "" ==> r == (if host.s in configs.headers then Dict(configs.headers[host.s]) else Null)
    {
      HeaderStore.Lookup(configs.headers, host)
    }

    /** `getDataSerializer()`: the stored serializer, which `configs.State()`
        hands to `handleMissingOptions` as the default a request reads. */
    function GetDataSerializer(): (s: Value)
      reads configs
      ensures s == configs.State().serializer
    {
      configs.serializer
    }

    /** `setDataSerializer(serializer)`: stores what the check returns; a
        rejected serializer throws and leaves the stored one in place. */
    method SetDataSerializer(serializer: Value) returns (c: Completion<Value>)
      modifies configs
      ensures helpers.checkSerializer(serializer).Throw? ==>
                c == Throw(helpers.checkSerializer(serializer).error) && GetDataSerializer() == old(GetDataSerializer())
      ensures helpers.checkSerializer(serializer).Normal? ==>
                c == Normal(Undefined) && GetDataSerializer() == helpers.checkSerializer(serializer).value
      ensures configs.headers == old(configs.headers) && configs.timeout == old(configs.timeout)
    {
      var checked := helpers.checkSerializer(serializer);
      if checked.Throw? {
        return Throw(checked.error);
      }
      configs.serializer := checked.value;
      c := Normal(Undefined);
    }

    /** `getRequestTimeout()`: the stored timeout, which `configs.State()`
        hands to `handleMissingOptions` as the default a request reads. */
    function GetRequestTimeout(): (t: Value)
      reads configs
      ensures t == configs.State().timeout
    {
      configs.timeout
    }

    /** `setRequestTimeout(timeout)`: stores any value, unchecked. */
    method SetRequestTimeout(timeout: Value)
      modifies configs
      ensures GetRequestTimeout() == timeout
      ensures configs.headers == old(configs.headers) && configs.serializer == old(configs.serializer)
    {
      configs.timeout := timeout;
    }

    /** `sendRequest(url, options, success, failure)` on this object: the
        options are completed against `globalConfigs` and the headers merged
        with `globalConfigs.headers`, both as they are at the moment of the
        call. */
    function SendRequest(url: Value, options: Value, success: Value, failure: Value): (r: Completion<Command>)
      reads configs
      ensures r == Requests.SendRequest(helpers, urlUtil, configs.State(), url, options, success, failure)
      ensures helpers.handleMissingCallbacks(success, failure).Throw? ==>
                r == Throw(helpers.handleMissingCallbacks(success, failure).error)
      ensures var pr := Requests.Prepare(helpers, urlUtil, configs.State(), url, options, success, failure);
                r.Normal? ==>
                  && pr.Normal?
                  && helpers.handleMissingOptions(options, configs.State()) == Normal(pr.value.options)
                  && helpers.getMergedHeaders(pr.value.url, pr.value.options.headers, configs.headers) == Normal(pr.value.headers)
                  && r == Requests.Route(helpers, pr.value, success)
    {
      Requests.SendRequest(helpers, urlUtil, configs.State(), url, options, success, failure)
    }
  }

  /** A header stored by an accepted `setHeader` is in the table that the
      next `sendRequest` hands to `getMergedHeaders`: that table is the old
      one with exactly this entry written, under the host key and header name
      the call addressed. */
  lemma StoredHeaderReachesMerge(h: Helpers, u: UrlUtil, store: HeaderTable, serializer: Value, timeout: Value,
                                 args: seq<Value>, url: Value, options: Value, success: Value, failure: Value)
    requires HeaderStore.Accepted(h, args)
    ensures var after := HeaderStore.SetHeaderEffect(h, store, args).1;
            var a := HeaderStore.ResolveHeaderArgs(args);
            var pr := Requests.Prepare(h, u, ConfigState(after, serializer, timeout), url, options, success, failure);
              pr.Normal? ==>
                && h.getMergedHeaders(pr.value.url, pr.value.options.headers,
                                      HeaderStore.StoreHeader(store, ToString(a.host), ToString(a.header), a.value))
                   == Normal(pr.value.headers)
                && HeaderStore.Entry(after, ToString(a.host), ToString(a.header)) == Some(a.value)
  {
  }
}
