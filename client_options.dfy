/**
 * The browser client's option handling (lib/index.js): the defaults merged
 * under the caller's options, the `contentTypes` fallback, and the
 * configuration each queued page job is started with.
 */
module ClientOptions {
  import opened JsValues

  /** An options computation either yields a value or throws a TypeError. */
  datatype Result<T> = Ok(value: T) | TypeError

  /** The keys of the client's object literal of defaults (lib/index.js:12-49). */
  const DefaultKeys: set<string> := {
    "host", "port", "tabs", "timeout", "disableCache", "bypassServiceWorkers", "ignoreSSL",
    "contentTypes", "userAgent", "cpu", "downloadRate", "uploadRate", "latency", "offline",
    "connectionType", "width", "height", "mobile", "scale", "orientation", "fitWindow", "media",
    "recordEvery", "cookies", "headers", "currentRunCount"
  }

  /**
   * The default the literal gives `key`, built from the caller's options `o`.
   * Where the literal names a key twice the later entry wins: `userAgent`
   * ends up null and `timeout` ends up the caller's own `timeout`. Every key
   * not listed here (userAgent, cpu, the rates, latency, connectionType,
   * width, height, orientation, media, recordEvery) defaults to null. The
   * default host and port come from the constants module, which is not part
   * of this model, so they are parameters.
   */
  function DefaultValue(o: map<string, Value>, key: string, defaultHost: Value, defaultPort: Value): Value {
    if key == "host" then defaultHost
    else if key == "port" then defaultPort
    else if key == "tabs" then Num(1)
    else if key == "timeout" then Get(o, "timeout")
    else if key == "disableCache" then Bool(Get(o, "disableCache") == Bool(true))
    else if key == "bypassServiceWorkers" then Bool(Get(o, "bypassServiceWorkers") == Bool(true))
    else if key == "ignoreSSL" then Bool(true)
    else if key == "contentTypes" then List(Spread(Or(Get(o, "contentTypes"), List([]))))
    else if key == "offline" then Bool(false)
    else if key == "mobile" then Bool(false)
    else if key == "scale" then Num(1)
    else if key == "fitWindow" then Bool(false)
    else if key == "cookies" then List([])
    else if key == "headers" then Object(OwnFields(Or(Get(o, "headers"), Object(map[]))))
    else if key == "currentRunCount" then Num(10)
    else Null
  }

  /** The object literal of defaults the client builds from the caller's options `o`. */
  function Defaults(o: map<string, Value>, defaultHost: Value, defaultPort: Value): map<string, Value> {
    map key | key in DefaultKeys :: DefaultValue(o, key, defaultHost, defaultPort)
  }

  /**
   * The `contentTypes` fallback (lib/index.js:54-63): a value whose `length`
   * is 0 gets `'*'` concatenated to it. An array becomes `['*']`, the empty
   * string becomes `'*'`; a value without a `length` is kept; reading
   * `length` of null or undefined, or calling `concat` on a plain object,
   * throws.
   */
  function WithDefaultContentTypes(v: Value): (r: Result<Value>)
    ensures v.List? ==> r == Ok(if v.items == [] then List([Str("*")]) else v)
    ensures v.Str? ==> r == Ok(if v.s == "" then Str("*") else v)
    ensures r.TypeError? <==> v.Undefined? || v.Null? || (v.Object? && "length" in v.fields && v.fields["length"] == Num(0))
    ensures r.Ok? && !v.List? && !v.Str? ==> r.value == v
  {
    match v
    case List(items) =>
      assert items == [] ==> items + [Str("*")] == [Str("*")];
      Ok(if |items| == 0 then List(items + [Str("*")]) else v)
    case Str(s) =>
      assert ToJsString(List([Str("*")])) == "*";
      assert s == "" ==> s + "*" == "*";
      Ok(if |s| == 0 then Str(s + ToJsString(List([Str("*")]))) else v)
    case Undefined => TypeError
    case Null => TypeError
    case Object(fields) => if "length" in fields && fields["length"] == Num(0) then TypeError else Ok(v)
    case _ => Ok(v)
  }

  /**
   * The client's options: the defaults extended by the caller's object, then
   * the `contentTypes` fallback (lib/index.js:12-63). Every key the caller
   * supplies keeps the caller's value (`contentTypes` only gains `'*'` when
   * empty); every other key takes its default.
   */
  function Configure(o: map<string, Value>, defaultHost: Value, defaultPort: Value): (r: Result<map<string, Value>>)
    ensures r.Ok? <==> WithDefaultContentTypes((Defaults(o, defaultHost, defaultPort) + o)["contentTypes"]).Ok?
    ensures r.Ok? ==> r.value.Keys == Defaults(o, defaultHost, defaultPort).Keys + o.Keys
    ensures r.Ok? ==> forall k :: k in o && k != "contentTypes" ==> r.value[k] == o[k]
    ensures r.Ok? ==> forall k :: k !in o && k in Defaults(o, defaultHost, defaultPort) && k != "contentTypes" ==>
                        r.value[k] == Defaults(o, defaultHost, defaultPort)[k]
    ensures r.Ok? ==> r.value["contentTypes"] == WithDefaultContentTypes((Defaults(o, defaultHost, defaultPort) + o)["contentTypes"]).value
  {
    var merged := Defaults(o, defaultHost, defaultPort) + o;
    match WithDefaultContentTypes(merged["contentTypes"])
    case Ok(types) => Ok(merged["contentTypes" := types])
    case TypeError => TypeError
  }

  /** Without a caller's `contentTypes` the client accepts every type; a caller's array is kept unless empty. */
  lemma ContentTypesFallback(o: map<string, Value>, host: Value, port: Value)
    ensures "contentTypes" !in o ==> Configure(o, host, port) .Ok? && Configure(o, host, port).value["contentTypes"] == List([Str("*")])
    ensures "contentTypes" in o && o["contentTypes"].List? ==>
              && Configure(o, host, port).Ok?
              && Configure(o, host, port).value["contentTypes"] ==
                   (if o["contentTypes"].items == [] then List([Str("*")]) else o["contentTypes"])
  {
    var merged := Defaults(o, host, port) + o;
    if "contentTypes" !in o {
      assert DefaultValue(o, "contentTypes", host, port) == List([]);
      assert merged["contentTypes"] == List([]);
    } else {
      assert merged["contentTypes"] == o["contentTypes"];
    }
  }

  /** Keys the caller leaves out take the literal defaults: one tab, certificate errors ignored, online. */
  lemma LiteralDefaults(o: map<string, Value>, host: Value, port: Value)
    requires Configure(o, host, port).Ok?
    ensures "tabs" !in o ==> Configure(o, host, port).value["tabs"] == Num(1)
    ensures "ignoreSSL" !in o ==> Configure(o, host, port).value["ignoreSSL"] == Bool(true)
    ensures "offline" !in o ==> Configure(o, host, port).value["offline"] == Bool(false)
  {
    var d := Defaults(o, host, port);
    assert "tabs" in d && "ignoreSSL" in d && "offline" in d;
  }

  /**
   * Defaults that depend on the caller's object: with no `timeout` of the
   * caller's the merged one is undefined (the literal's later `timeout`
   * entry); `userAgent` is null; `disableCache` is false; no cookies.
   */
  lemma CallerDependentDefaults(o: map<string, Value>, host: Value, port: Value)
    requires Configure(o, host, port).Ok?
    ensures "timeout" !in o ==> Configure(o, host, port).value["timeout"] == Undefined
    ensures "userAgent" !in o ==> Configure(o, host, port).value["userAgent"] == Null
    ensures "disableCache" !in o ==> Configure(o, host, port).value["disableCache"] == Bool(false)
    ensures "cookies" !in o ==> Configure(o, host, port).value["cookies"] == List([])
  {
    var d := Defaults(o, host, port);
    assert "timeout" in d && "userAgent" in d && "disableCache" in d && "cookies" in d;
  }

  /**
   * The client factory as written (lib/index.js:12-51): the literal of
   * defaults reads `options.disableCache` before the `options || {}` that
   * closes it is evaluated, so a missing (undefined or null) options
   * argument throws there; any other argument is read through its own
   * fields.
   */
  function ConfigureAsWritten(options: Value, defaultHost: Value, defaultPort: Value): Result<map<string, Value>> {
    if options.Undefined? || options.Null? then TypeError
    else Configure(OwnFields(options), defaultHost, defaultPort)
  }

  /** Calling the client without options throws, so its `options || {}` never supplies the empty object. */
  lemma MissingOptionsThrow(host: Value, port: Value)
    ensures ConfigureAsWritten(Undefined, host, port).TypeError?
    ensures ConfigureAsWritten(Null, host, port).TypeError?
    ensures ConfigureAsWritten(Object(map[]), host, port).Ok?
  {
    ContentTypesFallback(map[], host, port);
  }

  /** The client factory with `options || {}` applied before the options are read. */
  function ConfigureClient(options: Value, defaultHost: Value, defaultPort: Value): Result<map<string, Value>> {
    Configure(OwnFields(Or(options, Object(map[]))), defaultHost, defaultPort)
  }

  /** The corrected factory agrees with the one as written wherever that one does not throw, and reads a missing argument as the empty object. */
  lemma ConfigureClientAgrees(options: Value, host: Value, port: Value)
    ensures !options.Undefined? && !options.Null? ==> ConfigureClient(options, host, port) == ConfigureAsWritten(options, host, port)
    ensures options.Undefined? || options.Null? ==> ConfigureClient(options, host, port) == ConfigureAsWritten(Object(map[]), host, port)
  {
    if !Truthy(options) {
      assert OwnFields(options) == map[];
    }
  }

  /** A client created without options accepts every type, uses one tab and ignores certificate errors. */
  lemma NoOptionsDefaults(host: Value, port: Value)
    ensures var r := ConfigureClient(Undefined, host, port);
            && r.Ok?
            && r.value["contentTypes"] == List([Str("*")])
            && r.value["tabs"] == Num(1)
            && r.value["ignoreSSL"] == Bool(true)
  {
    assert ConfigureClient(Undefined, host, port) == Configure(map[], host, port);
    ContentTypesFallback(map[], host, port);
    LiteralDefaults(map[], host, port);
  }

  /**
   * `(options.cookies || []).concat(params.cookies || [])` (lib/index.js:220):
   * the client's cookies followed by the job's. An array argument is spread,
   * any other truthy argument is appended whole; a string receiver
   * concatenates text, and a receiver without `concat` throws.
   */
  function JobCookies(clientCookies: Value, jobCookies: Value): (r: Result<Value>)
    ensures clientCookies.List? && jobCookies.List? ==> r == Ok(List(clientCookies.items + jobCookies.items))
    ensures !Truthy(clientCookies) && jobCookies.List? ==> r == Ok(jobCookies)
    ensures clientCookies.List? && !Truthy(jobCookies) ==> r == Ok(clientCookies)
    ensures !Truthy(clientCookies) && !Truthy(jobCookies) ==> r == Ok(List([]))
    ensures clientCookies.List? && Truthy(jobCookies) && !jobCookies.List? ==> r == Ok(List(clientCookies.items + [jobCookies]))
    ensures r.TypeError? <==> Truthy(clientCookies) && (clientCookies.Bool? || clientCookies.Num? || clientCookies.Object?)
    ensures Truthy(clientCookies) && clientCookies.Str? ==> r == Ok(Str(clientCookies.s + ToJsString(Or(jobCookies, List([])))))
  {
    var arg := Or(jobCookies, List([]));
    match Or(clientCookies, List([]))
    case List(items) =>
      assert items + [] == items;
      assert arg.List? ==> [] + arg.items == arg.items;
      Ok(List(items + Spread(arg)))
    case Str(s) => Ok(Str(s + ToJsString(arg)))
    case _ => TypeError
  }

  /**
   * `_.extend({}, options.headers, params.headers || {})` (lib/index.js:219):
   * the client's headers overridden key by key by the job's.
   */
  function JobHeaders(clientHeaders: Value, jobHeaders: Value): (r: map<string, Value>)
    ensures r.Keys == OwnFields(clientHeaders).Keys + OwnFields(jobHeaders).Keys
    ensures forall h :: h in OwnFields(jobHeaders) ==> r[h] == OwnFields(jobHeaders)[h]
    ensures forall h :: h in OwnFields(clientHeaders) && h !in OwnFields(jobHeaders) ==> r[h] == OwnFields(clientHeaders)[h]
  {
    OwnFields(clientHeaders) + OwnFields(Or(jobHeaders, Object(map[])))
  }

  /** The keys the per-job merge sets itself, after the client's and the job's own. */
  predicate IsJobOverride(key: string) {
    key == "url" || key == "headers" || key == "cookies"
  }

  /**
   * The configuration a page job starts with (lib/index.js:215-222): the
   * client's options extended by the job's parameters, then `url` from the
   * job, the merged headers and the concatenated cookies. The transport
   * handle the source adds as `instance` is not modelled.
   */
  function JobConfig(client: map<string, Value>, job: map<string, Value>): (r: Result<map<string, Value>>)
    ensures r.Ok? <==> JobCookies(Get(client, "cookies"), Get(job, "cookies")).Ok?
    ensures r.Ok? ==> r.value.Keys == client.Keys + job.Keys + {"url", "headers", "cookies"}
    ensures r.Ok? ==> forall k :: !IsJobOverride(k) && k in job ==> r.value[k] == job[k]
    ensures r.Ok? ==> forall k :: !IsJobOverride(k) && k !in job && k in client ==> r.value[k] == client[k]
    ensures r.Ok? ==> r.value["url"] == Get(job, "url")
    ensures r.Ok? ==> r.value["headers"] == Object(JobHeaders(Get(client, "headers"), Get(job, "headers")))
    ensures r.Ok? ==> r.value["cookies"] == JobCookies(Get(client, "cookies"), Get(job, "cookies")).value
  {
    match JobCookies(Get(client, "cookies"), Get(job, "cookies"))
    case Ok(cookies) =>
      Ok(client + job + map[
        "url" := Get(job, "url"),
        "headers" := Object(JobHeaders(Get(client, "headers"), Get(job, "headers"))),
        "cookies" := cookies
      ])
    case TypeError => TypeError
  }

  /**
   * A job run under a client configured from `o`: the job's headers win key
   * by key over the caller's, and its cookies follow the caller's.
   */
  lemma JobOverridesClient(o: map<string, Value>, host: Value, port: Value, job: map<string, Value>,
                           clientHeaders: map<string, Value>, jobHeaders: map<string, Value>,
                           clientCookies: seq<Value>, jobCookies: seq<Value>)
    requires o.Keys == {"headers", "cookies"}
    requires o["headers"] == Object(clientHeaders) && o["cookies"] == List(clientCookies)
    requires "headers" in job && job["headers"] == Object(jobHeaders)
    requires "cookies" in job && job["cookies"] == List(jobCookies)
    ensures Configure(o, host, port).Ok?
    ensures JobConfig(Configure(o, host, port).value, job).Ok?
    ensures JobConfig(Configure(o, host, port).value, job).value["cookies"] == List(clientCookies + jobCookies)
    ensures JobConfig(Configure(o, host, port).value, job).value["headers"] == Object(clientHeaders + jobHeaders)
  {
    var client := Configure(o, host, port).value;
    assert client["headers"] == Object(clientHeaders);
    assert client["cookies"] == List(clientCookies);
  }
}
