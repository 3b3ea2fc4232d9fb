/** The global header table: how `setHeader` resolves its arguments,
    validates them and writes one entry, how `getHeaders` finds a bucket, and
    what a sequence of `setHeader` calls leaves behind. */
module HeaderStore {
  import opened JsValues
  import opened Collaborators

  /** The bucket stored under `host`, or an empty one (`headers[host] || {}`). */
  function BucketOf(store: HeaderTable, host: string): Bucket {
    if host in store then store[host] else map[]
  }

  /** The value stored for `key` in the bucket of `host`, if any. */
  function Entry(store: HeaderTable, host: string, key: string): Option<Value> {
    if host in store && key in store[host] then Some(store[host][key]) else None
  }

  /** Writes one header into the bucket of `host`, creating the bucket first
      when it is missing. */
  function StoreHeader(store: HeaderTable, host: string, key: string, value: Value): (r: HeaderTable)
    ensures r.Keys == store.Keys + {host}
    ensures r[host].Keys == BucketOf(store, host).Keys + {key}
    ensures r[host][key] == value
    ensures Entry(r, host, key) == Some(value)
    ensures host !in store ==> r[host] == map[key := value]
    ensures forall k :: k in BucketOf(store, host) && k != key ==> r[host][k] == store[host][k]
    ensures forall h :: h in store && h != host ==> r[h] == store[h]
  {
    store[host := BucketOf(store, host)[key := value]]
  }

  /** The three things `setHeader` works with, after resolving its arguments. */
  datatype HeaderArgs = HeaderArgs(host: Value, header: Value, value: Value)

  /** `setHeader` picks its target by argument count: exactly three arguments
      name the host first; any other count means the wildcard host `'*'` and
      the header and value come first. */
  function ResolveHeaderArgs(args: seq<Value>): (r: HeaderArgs)
    ensures |args| == 3 ==> r == HeaderArgs(args[0], args[1], args[2])
    ensures |args| == 2 ==> r == HeaderArgs(Str("*"), args[0], args[1])
    ensures |args| != 3 ==> r.host == Str("*") && r.header == Arg(args, 0) && r.value == Arg(args, 1)
  {
    if |args| == 3 then HeaderArgs(args[0], args[1], args[2])
    else HeaderArgs(Str("*"), Arg(args, 0), Arg(args, 1))
  }

  /** Both validation hooks, the key check first. */
  function CheckHeader(h: Helpers, header: Value, value: Value): (r: Completion<Value>)
    ensures r.Normal? <==> h.checkForBlacklistedHeaderKey(header).Normal? && h.checkForInvalidHeaderValue(value).Normal?
    ensures h.checkForBlacklistedHeaderKey(header).Throw? ==> r == h.checkForBlacklistedHeaderKey(header)
    ensures h.checkForBlacklistedHeaderKey(header).Normal? && h.checkForInvalidHeaderValue(value).Throw? ==>
              r == h.checkForInvalidHeaderValue(value)
  {
    var keyChecked :- h.checkForBlacklistedHeaderKey(header);
    var valueChecked :- h.checkForInvalidHeaderValue(value);
    Normal(Undefined)
  }

  /** Whether `setHeader(args...)` passes validation. */
  predicate Accepted(h: Helpers, args: seq<Value>) {
    var a := ResolveHeaderArgs(args);
    CheckHeader(h, a.header, a.value).Normal?
  }

  /** Whether `setHeader(args...)` addresses header `key` of host key `host`. */
  predicate Targets(args: seq<Value>, host: string, key: string) {
    var a := ResolveHeaderArgs(args);
    ToString(a.host) == host && ToString(a.header) == key
  }

  /** What `setHeader(args...)` returns and the table it leaves: a rejected
      call throws the hook's error and leaves the table exactly as it was; an
      accepted one returns `undefined` and writes one entry, under the
      property keys the host and header turn into. */
  function SetHeaderEffect(h: Helpers, store: HeaderTable, args: seq<Value>): (r: (Completion<Value>, HeaderTable))
    ensures var a := ResolveHeaderArgs(args);
              r.0 == (if CheckHeader(h, a.header, a.value).Throw? then CheckHeader(h, a.header, a.value) else Normal(Undefined))
    ensures r.0.Normal? <==> Accepted(h, args)
    ensures r.0.Throw? ==> r.1 == store
    ensures var a := ResolveHeaderArgs(args);
              r.0.Normal? ==> r.1 == StoreHeader(store, ToString(a.host), ToString(a.header), a.value)
  {
    var a := ResolveHeaderArgs(args);
    match CheckHeader(h, a.header, a.value)
    case Throw(e) => (Throw(e), store)
    case Normal(_) => (Normal(Undefined), StoreHeader(store, ToString(a.host), ToString(a.header), a.value))
  }

  /** The bucket key `getHeaders(host)` looks under: `host || '*'`. */
  function GetHeadersKey(host: Value): (k: string)
    ensures host == Undefined || host == Null || host == Str("") ==> k == "*"
    ensures host.Str? && host.s != "" ==> k == host.s
    ensures Truthy(host) ==> k == ToString(host)
    ensures !Truthy(host) ==> k == "*"
  {
    if Truthy(host) then ToString(host) else "*"
  }

  /** `globalConfigs.headers[host || '*'] || null`: a stored bucket is an
      object and so always truthy, hence only a missing bucket gives `null`. */
  function Lookup(store: HeaderTable, host: Value): (r: Value)
    ensures r == Null <==> GetHeadersKey(host) !in store
    ensures r != Null ==> r.Dict? && r.props == store[GetHeadersKey(host)]
  {
    var key := GetHeadersKey(host);
    if key in store then Dict(store[key]) else Null
  }

  /** A two-argument `setHeader` is seen by an argument-less `getHeaders`. */
  lemma ShortFormVisibleToWildcardLookup(h: Helpers, store: HeaderTable, header: Value, value: Value)
    requires Accepted(h, [header, value])
    ensures var after := SetHeaderEffect(h, store, [header, value]).1;
              && Lookup(after, Undefined).Dict?
              && Lookup(after, Undefined).props == BucketOf(store, "*")[ToString(header) := value]
  {
  }

  /** A three-argument `setHeader` with a non-empty host string is seen by
      `getHeaders` for that host. */
  lemma FullFormVisibleToHostLookup(h: Helpers, store: HeaderTable, host: string, header: Value, value: Value)
    requires host != ""
    requires Accepted(h, [Str(host), header, value])
    ensures var after := SetHeaderEffect(h, store, [Str(host), header, value]).1;
              && Lookup(after, Str(host)).Dict?
              && Lookup(after, Str(host)).props == BucketOf(store, host)[ToString(header) := value]
  {
  }

  /** `setHeader('', k, v)` writes a bucket under the empty host key, and no
      call of `getHeaders` can return that bucket: an empty host falls back
      to `'*'`, and every other host turns into a non-empty key (a function
      value's source text is never empty, by its type). */
  lemma EmptyHostBucketHidden(h: Helpers, store: HeaderTable, header: Value, value: Value, query: Value)
    requires Accepted(h, [Str(""), header, value])
    ensures var after := SetHeaderEffect(h, store, [Str(""), header, value]).1;
              && Entry(after, "", ToString(header)) == Some(value)
              && Lookup(after, query) == Lookup(SetHeaderEffect(h, store, [Str(""), header, value]).1 - {""}, query)
  {
  }

  /** The table after a sequence of `setHeader` calls, in call order. */
  function Replay(h: Helpers, store: HeaderTable, calls: seq<seq<Value>>): HeaderTable
    decreases |calls|
  {
    if calls == [] then store
    else SetHeaderEffect(h, Replay(h, store, calls[..|calls| - 1]), calls[|calls| - 1]).1
  }

  /** The value of the last accepted call among `calls` that addresses header
      `key` of host key `host`. */
  function LastWrite(h: Helpers, calls: seq<seq<Value>>, host: string, key: string): Option<Value>
    decreases |calls|
  {
    if calls == [] then None
    else
      var last := calls[|calls| - 1];
      if Accepted(h, last) && Targets(last, host, key) then Some(ResolveHeaderArgs(last).value)
      else LastWrite(h, calls[..|calls| - 1], host, key)
  }

  /** Whether some accepted call among `calls` addresses host key `host`. */
  predicate WritesHost(h: Helpers, calls: seq<seq<Value>>, host: string)
    decreases |calls|
  {
    calls != [] &&
    var last := calls[|calls| - 1];
    ((Accepted(h, last) && ToString(ResolveHeaderArgs(last).host) == host) || WritesHost(h, calls[..|calls| - 1], host))
  }

  /** Last write wins: after any sequence of `setHeader` calls, an entry holds
      the value of the last accepted call that addressed it, and is as it was
      when no accepted call did. Rejected calls leave no trace. */
  lemma {:induction false} LastWriteWins(h: Helpers, store: HeaderTable, calls: seq<seq<Value>>, host: string, key: string)
    ensures Entry(Replay(h, store, calls), host, key) ==
              (if LastWrite(h, calls, host, key).Some? then LastWrite(h, calls, host, key) else Entry(store, host, key))
    decreases |calls|
  {
    if calls != [] {
      LastWriteWins(h, store, calls[..|calls| - 1], host, key);
    }
  }

  /** Buckets are only ever created, never removed: after any sequence of
      `setHeader` calls a bucket exists exactly when it did before or some
      accepted call addressed its host. */
  lemma {:induction false} BucketsOnlyGrow(h: Helpers, store: HeaderTable, calls: seq<seq<Value>>, host: string)
    ensures host in Replay(h, store, calls) <==> host in store || WritesHost(h, calls, host)
    decreases |calls|
  {
    if calls != [] {
      BucketsOnlyGrow(h, store, calls[..|calls| - 1], host);
    }
  }
}
