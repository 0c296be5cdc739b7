/** The REST client: the base URL, the merge of caller options into the
    defaults, the retry loop around `fetch`, the listing query string, and
    the method/path/body of every sub-client operation. */
module Api {
  import opened Js
  import opened Seqs

  // ---------------------------------------------------------------------------
  // Base URL

  const DefaultBaseUrl := "http://localhost:3012/api"

  /** `process.env.NEXT_PUBLIC_API_URL || default`: an unset or empty variable gives the default. */
  function BaseUrl(env: OptStr): (base: string)
    ensures Truthy(env) ==> base == env.value
    ensures !Truthy(env) ==> base == DefaultBaseUrl
    ensures base != ""
  {
    if Truthy(env) then env.value else DefaultBaseUrl
  }

  /** The request URL: the base followed by the endpoint, nothing inserted between them. */
  function Url(env: OptStr, endpoint: string): (url: string)
    ensures |url| == |BaseUrl(env)| + |endpoint|
    ensures url[..|BaseUrl(env)|] == BaseUrl(env) && url[|BaseUrl(env)|..] == endpoint
  {
    BaseUrl(env) + endpoint
  }

  // ---------------------------------------------------------------------------
  // Headers as a plain object

  /** A headers object: its (name, value) entries in key order. */
  type Headers = seq<(string, string)>

  /** `h[k]`. The search runs from the end, so of repeated names the last counts. */
  function Lookup(h: Headers, k: string): Option<string> {
    if |h| == 0 then None
    else if h[|h| - 1].0 == k then Some(h[|h| - 1].1)
    else Lookup(h[..|h| - 1], k)
  }

  function Names(h: Headers): seq<string> {
    MapSeq(h, (e: (string, string)) => e.0)
  }

  /** Overwrite the value of every entry named `k`, keeping the entries in place. */
  function Replace(h: Headers, k: string, v: string): (r: Headers)
    ensures |r| == |h| && forall i :: 0 <= i < |h| ==> r[i].0 == h[i].0
    ensures forall j :: Lookup(r, j) == if j == k && Lookup(h, k).Some? then Some(v) else Lookup(h, j)
  {
    if |h| == 0 then []
    else
      var init, last := h[..|h| - 1], h[|h| - 1];
      var r := Replace(init, k, v) + [if last.0 == k then (k, v) else last];
      assert r[..|r| - 1] == Replace(init, k, v);
      r
  }

  /** `{...h, [k]: v}`: an existing key keeps its place and takes the new
      value, a new key is added at the end. */
  function Assign(h: Headers, k: string, v: string): (r: Headers)
    ensures forall j :: Lookup(r, j) == if j == k then Some(v) else Lookup(h, j)
    ensures Lookup(h, k).Some? ==> Names(r) == Names(h)
    ensures Lookup(h, k).None? ==> Names(r) == Names(h) + [k]
  {
    if Lookup(h, k).Some? then Replace(h, k, v)
    else
      var r := h + [(k, v)];
      assert r[..|r| - 1] == h;
      r
  }

  /** `{...h, ...o}`: the entries of `o` assigned one after the other. A key of
      `o` overrides the same key of `h`; every other key keeps its value. */
  function Spread(h: Headers, o: Headers): (r: Headers)
    ensures forall k :: Lookup(r, k) == if Lookup(o, k).Some? then Lookup(o, k) else Lookup(h, k)
  {
    if |o| == 0 then h
    else Assign(Spread(h, o[..|o| - 1]), o[|o| - 1].0, o[|o| - 1].1)
  }

  // ---------------------------------------------------------------------------
  // Options and the merged config

  datatype Method = Get | Post | Put | Delete

  /** A request body: none, a `JSON.stringify` text, or a `FormData` with its (field, file) parts. */
  datatype Body = NoBody | Json(text: string) | Form(parts: seq<(string, string)>)

  /** `AbortSignal.timeout(ms)`. */
  datatype Signal = Timeout(ms: nat)

  /** The caller's options object; `None` is an absent key. */
  datatype Options = Options(verb: Option<Method>, body: Body, headers: Option<Headers>, signal: Option<Signal>)

  /** What `fetch` receives. An absent method is `fetch`'s default, GET. */
  datatype Config = Config(verb: Option<Method>, body: Body, headers: Headers, signal: Signal)

  const NoOptions := Options(None, NoBody, None, None)

  const ContentType := "Content-Type"

  const DefaultHeaders: Headers := [(ContentType, "application/json")]

  const DefaultSignal := Timeout(2000)

  /** `options.headers`, spread as `{}` when absent. */
  function OwnHeaders(o: Options): Headers {
    if o.headers.Some? then o.headers.value else []
  }

  /** The merge as written: caller options over the defaults, and the caller's
      headers over the default headers key by key. */
  function MergeConfigAsWritten(o: Options): (c: Config)
    ensures c.verb == o.verb && c.body == o.body
    ensures c.signal == if o.signal.Some? then o.signal.value else DefaultSignal
    ensures forall k :: Lookup(OwnHeaders(o), k).Some? ==> Lookup(c.headers, k) == Lookup(OwnHeaders(o), k)
    ensures forall k :: Lookup(OwnHeaders(o), k).None? ==> Lookup(c.headers, k) == Lookup(DefaultHeaders, k)
  {
    Config(o.verb, o.body, Spread(DefaultHeaders, OwnHeaders(o)),
           if o.signal.Some? then o.signal.value else DefaultSignal)
  }

  /** Drop every entry named `k`. */
  function Without(h: Headers, k: string): (r: Headers)
    ensures forall j :: Lookup(r, j) == if j == k then None else Lookup(h, j)
  {
    if |h| == 0 then []
    else
      var init, last := h[..|h| - 1], h[|h| - 1];
      var r := Without(init, k);
      if last.0 == k then r
      else
        var r' := r + [last];
        assert r'[..|r'| - 1] == r;
        r'
  }

  /** The merge as intended: the same, except that a `FormData` body carries no
      Content-Type of ours, so that the browser supplies the multipart one. */
  function MergeConfig(o: Options): (c: Config)
    ensures !o.body.Form? ==> c == MergeConfigAsWritten(o)
    ensures o.body.Form? ==> Lookup(c.headers, ContentType) == None
    ensures forall k :: k != ContentType ==> Lookup(c.headers, k) == Lookup(MergeConfigAsWritten(o).headers, k)
    ensures c.verb == o.verb && c.body == o.body && c.signal == MergeConfigAsWritten(o).signal
  {
    var c := MergeConfigAsWritten(o);
    if o.body.Form? then c.(headers := Without(c.headers, ContentType)) else c
  }

  /** With no options the config is the defaults, under either merge. */
  lemma DefaultConfig()
    ensures MergeConfigAsWritten(NoOptions) == Config(None, NoBody, DefaultHeaders, DefaultSignal)
    ensures MergeConfig(NoOptions) == MergeConfigAsWritten(NoOptions)
  {
  }

  // ---------------------------------------------------------------------------
  // The retry loop

  /** What `response.json()` gives: a parsed document or a parse error's message. */
  datatype Parse<J> = Parsed(doc: J) | Unparsable(message: string)

  /** One call of `fetch`: a response with its status and body, or a rejection
      (network failure, abort) with its message. */
  datatype Attempt<J> = Responded(status: int, body: Parse<J>) | Rejected(message: string)

  /** `response.ok`: a status in 200..299. */
  predicate Ok(status: int) {
    200 <= status <= 299
  }

  /** An attempt that makes `apiCall` return its data. */
  predicate Succeeds<J>(a: Attempt<J>) {
    a.Responded? && Ok(a.status) && a.body.Parsed?
  }

  /** The `error.message` a failed attempt is caught with. A non-OK status is
      thrown as an error of its own, before the body is read. */
  function ErrorMessage<J>(a: Attempt<J>): (m: string)
    ensures a.Rejected? ==> m == a.message
    ensures a.Responded? && !Ok(a.status) ==> m == "HTTP error! status: " + IntToString(a.status)
    ensures a.Responded? && Ok(a.status) && a.body.Unparsable? ==> m == a.body.message
  {
    match a
    case Rejected(m) => m
    case Responded(status, body) =>
      if !Ok(status) then "HTTP error! status: " + IntToString(status)
      else if body.Unparsable? then body.message
      else ""
  }

  /** An HTTP error message names the status: two failed responses with the
      same message had the same status. */
  lemma HttpErrorNamesStatus<J>(a: Attempt<J>, b: Attempt<J>)
    requires a.Responded? && !Ok(a.status) && b.Responded? && !Ok(b.status)
    requires ErrorMessage(a) == ErrorMessage(b)
    ensures a.status == b.status
  {
    var prefix := "HTTP error! status: ";
    assert IntToString(a.status) == ErrorMessage(a)[|prefix|..] == IntToString(b.status);
    IntToStringInjective(a.status, b.status);
  }

  /** What `apiCall` resolves to: the parsed body, `{data: [], error}`, or
      `undefined` when the loop never runs. */
  datatype Outcome<J> = Data(doc: J) | ErrorResult(error: string) | Undefined

  /** The `console.error` of a failed attempt: its 1-based number, the attempt count, the message. */
  datatype LogEntry = LogEntry(attempt: nat, of: int, message: string)

  function Pow2(k: nat): (r: nat)
    ensures r >= 1
  {
    if k == 0 then 1 else 2 * Pow2(k - 1)
  }

  /** `Math.pow(2, attempt) * 1000`: the wait in milliseconds after failed attempt `k`. */
  function Backoff(k: nat): nat {
    Pow2(k) * 1000
  }

  /** The waits after the first `n` failed attempts, in order. */
  function Schedule(n: nat): (w: seq<nat>)
    ensures |w| == n && forall k :: 0 <= k < n ==> w[k] == Backoff(k)
  {
    if n == 0 then [] else Schedule(n - 1) + [Backoff(n - 1)]
  }

  function Sum(s: seq<nat>): nat {
    if |s| == 0 then 0 else Sum(s[..|s| - 1]) + s[|s| - 1]
  }

  /** `apiCall(endpoint, options, retries)`. `net(k)` is what the `k`-th call of
      `fetch` gives; the waits are returned instead of slept, the log lines
      instead of printed. */
  method ApiCall<J>(net: nat -> Attempt<J>, env: OptStr, endpoint: string, options: Options, retries: int)
    returns (result: Outcome<J>, url: string, config: Config, fetches: nat, waits: seq<nat>, log: seq<LogEntry>)
    ensures url == Url(env, endpoint) && config == MergeConfigAsWritten(options)
    ensures retries < 0 ==> result == Undefined && fetches == 0
    ensures retries >= 0 ==> 1 <= fetches <= retries + 1 && !result.Undefined?
    ensures result.Data? ==> Succeeds(net(fetches - 1)) && result.doc == net(fetches - 1).body.doc
    ensures result.ErrorResult? ==> fetches == retries + 1 && result.error == ErrorMessage(net(retries))
    ensures forall k :: 0 <= k < fetches && (result.ErrorResult? || k < fetches - 1) ==> !Succeeds(net(k))
    ensures waits == Schedule(if fetches == 0 then 0 else fetches - 1)
    ensures |log| == (if result.Data? then fetches - 1 else fetches)
    ensures forall k :: 0 <= k < |log| ==> log[k] == LogEntry(k + 1, retries + 1, ErrorMessage(net(k)))
  {
    url := Url(env, endpoint);
    config := MergeConfigAsWritten(options);
    result, fetches, waits, log := Undefined, 0, [], [];
    var attempt: nat := 0;
    while attempt <= retries
      invariant fetches == attempt && (if retries < 0 then attempt == 0 else attempt <= retries)
      invariant forall k :: 0 <= k < attempt ==> !Succeeds(net(k))
      invariant waits == Schedule(attempt)
      invariant |log| == attempt && forall k :: 0 <= k < |log| ==> log[k] == LogEntry(k + 1, retries + 1, ErrorMessage(net(k)))
      invariant result == Undefined
      decreases retries - attempt
    {
      var a := net(attempt);
      fetches := fetches + 1;
      if Succeeds(a) {
        result := Data(a.body.doc);
        return;
      }
      log := log + [LogEntry(attempt + 1, retries + 1, ErrorMessage(a))];
      if attempt == retries {
        result := ErrorResult(ErrorMessage(a));
        return;
      }
      waits := waits + [Backoff(attempt)];
      attempt := attempt + 1;
    }
  }

  /** The waits before attempt `n` add up to (2^n - 1) seconds. */
  lemma {:induction false} TotalBackoff(n: nat)
    ensures Sum(Schedule(n)) == (Pow2(n) - 1) * 1000
  {
    if n > 0 {
      assert Schedule(n)[..n - 1] == Schedule(n - 1);
      TotalBackoff(n - 1);
    }
  }

  /** With the default two retries the call waits 1 s, then 2 s: 3 s before the third attempt. */
  lemma DefaultRetriesWait()
    ensures Schedule(2) == [1000, 2000] && Sum(Schedule(2)) == 3000
  {
    TotalBackoff(2);
  }

  lemma {:induction false} Pow2AtLeastFour(k: nat)
    requires k >= 2
    ensures Pow2(k) >= 4
  {
    if k > 2 {
      Pow2AtLeastFour(k - 1);
    }
  }

  /** The one timeout signal is created before the loop, and attempt `k` starts
      no earlier than the sum of the first `k` waits: from the third attempt on,
      that sum is beyond the timeout, so such an attempt is aborted. */
  lemma SharedTimeoutExpires(k: nat)
    requires k >= 2
    ensures Sum(Schedule(k)) >= 3000 > DefaultSignal.ms
  {
    TotalBackoff(k);
    Pow2AtLeastFour(k);
  }

  // ---------------------------------------------------------------------------
  // The listing query string

  /** A filter value as `getAll` may receive it. */
  datatype Value = Undef | Null | Str(s: string) | Num(i: int) | Bool(b: bool)

  /** The `forEach` test: not undefined, not null, not ''. A 0 or `false` is kept. */
  predicate Included(e: (string, Value)) {
    !e.1.Undef? && !e.1.Null? && e.1 != Str("")
  }

  /** The text `URLSearchParams.append` stores: `String(value)`. */
  function Render(e: (string, Value)): (string, string) {
    (e.0, match e.1
          case Str(s) => s
          case Num(i) => IntToString(i)
          case Bool(b) => if b then "true" else "false"
          case _ => "")
  }

  /** The parameters the query is built from: the included entries, rendered, in order. */
  function QueryParams(entries: seq<(string, Value)>): seq<(string, string)> {
    MapSeq(Filter(entries, Included), Render)
  }

  /** The `forEach` over `Object.entries(filters)`, appending each included entry. */
  method BuildParams(entries: seq<(string, Value)>) returns (params: seq<(string, string)>)
    ensures params == QueryParams(entries)
  {
    params := [];
    for i := 0 to |entries|
      invariant params == QueryParams(entries[..i])
    {
      assert entries[..i + 1][..i] == entries[..i];
      if Included(entries[i]) {
        params := params + [Render(entries[i])];
      }
    }
    assert entries[..|entries|] == entries;
  }

  /** The parameters are exactly the included entries, in their order. */
  lemma QueryParamsExact(entries: seq<(string, Value)>)
    ensures |QueryParams(entries)| <= |entries|
    ensures forall e :: e in Filter(entries, Included) <==> e in entries && Included(e)
    ensures IsSubsequence(Filter(entries, Included), entries)
    ensures (forall i :: 0 <= i < |entries| ==> !Included(entries[i])) ==> QueryParams(entries) == []
  {
    FilterIsSubsequence(entries, Included);
    if forall i :: 0 <= i < |entries| ==> !Included(entries[i]) {
      FilterKeepsNone(entries, Included);
    }
  }

  /** `URLSearchParams.toString()`: `name=value` pairs joined by '&', each part
      passed through the percent-encoder `encode`. */
  function QueryString(params: seq<(string, string)>, encode: string -> string): (q: string)
    ensures q == "" <==> params == []
  {
    if |params| == 0 then ""
    else
      var pair := encode(params[|params| - 1].0) + "=" + encode(params[|params| - 1].1);
      assert pair[|encode(params[|params| - 1].0)|] == '=';
      var init := QueryString(params[..|params| - 1], encode);
      if init == "" then pair else init + "&" + pair
  }

  /** `queryString ? `/properties?${queryString}` : '/properties'`. */
  function WithQuery(q: string): string {
    if q != "" then "/properties?" + q else "/properties"
  }

  /** The listing endpoint for some filters: `/properties`, followed by `?` and
      the query when there is one. */
  function ListingEndpoint(entries: seq<(string, Value)>, encode: string -> string): (endpoint: string)
    ensures QueryParams(entries) == [] ==> endpoint == "/properties"
    ensures QueryParams(entries) != [] ==>
      endpoint == "/properties?" + QueryString(QueryParams(entries), encode) && |endpoint| > |"/properties?"|
  {
    WithQuery(QueryString(QueryParams(entries), encode))
  }

  /** `propertiesAPI.getAll(filters)`: the endpoint it calls `apiCall` with. */
  method GetAllEndpoint(entries: seq<(string, Value)>, encode: string -> string) returns (endpoint: string)
    ensures endpoint == ListingEndpoint(entries, encode)
  {
    var params := BuildParams(entries);
    endpoint := WithQuery(QueryString(params, encode));
  }

  // ---------------------------------------------------------------------------
  // The sub-clients

  datatype Resource = Builders | Cities | Categories

  function Collection(r: Resource): string {
    match r
    case Builders => "/builders"
    case Cities => "/cities"
    case Categories => "/categories"
  }

  /** Every exported operation. `GetOne` is `getBySlug` for builders and `getById`
      for cities and categories; `data` is the `JSON.stringify` text; files are
      named by opaque handles, `None` for a falsy one. */
  datatype Operation =
    | ListProperties(filters: seq<(string, Value)>)
    | GetProperty(id: string)
    | DropdownData
    | Stats
    | List(resource: Resource)
    | GetOne(resource: Resource, key: string)
    | Create(resource: Resource, data: string)
    | Update(resource: Resource, id: string, data: string)
    | Remove(resource: Resource, id: string)
    | UploadSingle(file: string)
    | UploadMultiple(files: seq<string>)
    | UploadBuilder(logo: OptStr, background: OptStr)

  /** The `apiCall` arguments of an operation: endpoint and options. */
  datatype Call = Call(endpoint: string, options: Options)

  function FormOf(name: string, files: seq<string>): seq<(string, string)> {
    MapSeq(files, (f: string) => (name, f))
  }

  function BuilderForm(logo: OptStr, background: OptStr): seq<(string, string)> {
    (if Truthy(logo) then [("logo", logo.value)] else [])
    + (if Truthy(background) then [("backgroundImage", background.value)] else [])
  }

  function Upload(endpoint: string, parts: seq<(string, string)>): Call {
    Call(endpoint, Options(Some(Post), Form(parts), Some([]), None))
  }

  predicate IsUpload(op: Operation) {
    op.UploadSingle? || op.UploadMultiple? || op.UploadBuilder?
  }

  /** The `apiCall` arguments of each operation. Reads pass no options; only the
      uploads send a form, and only they pass headers of their own (none). */
  function CallOf(op: Operation, encode: string -> string): (c: Call)
    ensures IsRead(op) <==> c.options == NoOptions
    ensures c.options.body.Form? <==> IsUpload(op)
    ensures c.options.headers.Some? <==> IsUpload(op)
    ensures IsUpload(op) ==> c.options.headers == Some([])
    ensures c.options.signal.None?
  {
    match op
    case ListProperties(filters) => Call(ListingEndpoint(filters, encode), NoOptions)
    case GetProperty(id) => Call("/properties/" + id, NoOptions)
    case DropdownData => Call("/properties/dropdown-data", NoOptions)
    case Stats => Call("/properties/stats/summary", NoOptions)
    case List(r) => Call(Collection(r), NoOptions)
    case GetOne(r, key) => Call(Collection(r) + "/" + key, NoOptions)
    case Create(r, data) => Call(Collection(r), Options(Some(Post), Json(data), None, None))
    case Update(r, id, data) => Call(Collection(r) + "/" + id, Options(Some(Put), Json(data), None, None))
    case Remove(r, id) => Call(Collection(r) + "/" + id, Options(Some(Delete), NoBody, None, None))
    case UploadSingle(file) => Upload("/upload/single", [("image", file)])
    case UploadMultiple(files) => Upload("/upload/multiple", FormOf("images", files))
    case UploadBuilder(logo, background) => Upload("/upload/builder", BuilderForm(logo, background))
  }

  /** The HTTP method `fetch` uses for a config. */
  function HttpMethod(c: Config): Method {
    if c.verb.Some? then c.verb.value else Get
  }

  predicate IsRead(op: Operation) {
    op.ListProperties? || op.GetProperty? || op.DropdownData? || op.Stats? || op.List? || op.GetOne?
  }

  /** Reads are bodiless GETs; create is a POST and update a PUT of JSON;
      delete is a bodiless DELETE; uploads POST a form. Every request keeps the
      default 2-second timeout. */
  lemma OperationVerbs(op: Operation, encode: string -> string)
    ensures var c := MergeConfigAsWritten(CallOf(op, encode).options);
      && (IsRead(op) ==> HttpMethod(c) == Get && c.body == NoBody)
      && (op.Create? ==> HttpMethod(c) == Post && c.body == Json(op.data))
      && (op.Update? ==> HttpMethod(c) == Put && c.body == Json(op.data))
      && (op.Remove? ==> HttpMethod(c) == Delete && c.body == NoBody)
      && (IsUpload(op) ==> HttpMethod(c) == Post && c.body.Form?)
      && c.signal == DefaultSignal
  {
  }

  /** Every JSON request, and every read, is sent with `Content-Type: application/json`. */
  lemma JsonContentType(op: Operation, encode: string -> string)
    requires !IsUpload(op)
    ensures Lookup(MergeConfigAsWritten(CallOf(op, encode).options).headers, ContentType) == Some("application/json")
  {
  }

  /** Update and delete of an item go to the item's path under its collection. */
  lemma ItemPaths(r: Resource, id: string, data: string, encode: string -> string)
    ensures CallOf(Update(r, id, data), encode).endpoint == Collection(r) + "/" + id
    ensures CallOf(Remove(r, id), encode).endpoint == CallOf(GetOne(r, id), encode).endpoint
    ensures CallOf(Create(r, data), encode).endpoint == CallOf(List(r), encode).endpoint
  {
  }

  /** Different collection operations make different requests: the path and the
      method name the operation, and the path names the item. */
  lemma CollectionCallsInjective(a: Operation, b: Operation, encode: string -> string)
    requires a.List? || a.GetOne? || a.Create? || a.Update? || a.Remove?
    requires b.List? || b.GetOne? || b.Create? || b.Update? || b.Remove?
    requires CallOf(a, encode) == CallOf(b, encode)
    ensures a == b
  {
    var e := CallOf(a, encode).endpoint;
    CollectionEndpoint(a, encode);
    CollectionEndpoint(b, encode);
    CollectionPrefix(a.resource, b.resource, e);
    var n := |Collection(a.resource)|;
    if a.GetOne? || a.Update? || a.Remove? {
      assert e[n + 1..] == (if a.GetOne? then a.key else a.id);
    }
    if b.GetOne? || b.Update? || b.Remove? {
      assert e[n + 1..] == (if b.GetOne? then b.key else b.id);
    }
  }

  /** A collection operation's path starts with its collection's path. */
  lemma CollectionEndpoint(a: Operation, encode: string -> string)
    requires a.List? || a.GetOne? || a.Create? || a.Update? || a.Remove?
    ensures |Collection(a.resource)| <= |CallOf(a, encode).endpoint|
    ensures CallOf(a, encode).endpoint[..|Collection(a.resource)|] == Collection(a.resource)
  {
  }

  /** No collection path is a prefix of another one. */
  lemma CollectionPrefix(r: Resource, s: Resource, e: string)
    requires |Collection(r)| <= |e| && e[..|Collection(r)|] == Collection(r)
    requires |Collection(s)| <= |e| && e[..|Collection(s)|] == Collection(s)
    ensures r == s
  {
    assert e[1] == Collection(r)[1] == Collection(s)[1];
    assert e[2] == Collection(r)[2] == Collection(s)[2];
  }

  /** The fixed dropdown path is also the path of the property with id
      "dropdown-data": the two calls are the same request. */
  lemma DropdownPathIsAnIdPath(encode: string -> string)
    ensures CallOf(GetProperty("dropdown-data"), encode) == CallOf(DropdownData, encode)
  {
  }

  /** The uploads pass `headers: {}`, yet the merge as written still sends
      `Content-Type: application/json` with the form. */
  lemma UploadKeepsJsonContentType(op: Operation, encode: string -> string)
    requires IsUpload(op)
    ensures CallOf(op, encode).options.headers == Some([])
    ensures Lookup(MergeConfigAsWritten(CallOf(op, encode).options).headers, ContentType) == Some("application/json")
    ensures Lookup(MergeConfig(CallOf(op, encode).options).headers, ContentType) == None
  {
  }

  /** The builder upload sends only the truthy files, logo first. */
  lemma BuilderUploadParts(logo: OptStr, background: OptStr, encode: string -> string)
    ensures var parts := CallOf(UploadBuilder(logo, background), encode).options.body.parts;
      && |parts| == (if Truthy(logo) then 1 else 0) + (if Truthy(background) then 1 else 0)
      && (Truthy(logo) ==> parts[0] == ("logo", logo.value))
      && (Truthy(background) ==> parts[|parts| - 1] == ("backgroundImage", background.value))
  {
  }
}
