/** The API controller `QrCodeController`: a cache in front of the service,
    an append-only log of generation records, the bulk stub and the history
    listing. */
module Controller {
  import opened Values
  import opened Service
  import opened Request

  /** `now()->addHours(24)`, in seconds. */
  const TtlSeconds: int := 24 * 60 * 60
  const HistoryLimit: nat := 50
  const BulkNotImplemented: string := "Bulk generation not implemented yet"

  /** A row of the `qr_codes` table as `QrCode::create` writes it. */
  datatype Record = Record(category: Value, content: Value, configuration: Config,
                           outputFormat: Value, filePath: Option<string>, createdAt: int)

  /** A cached result and the instant from which the cache no longer returns it. */
  datatype CacheEntry = CacheEntry(result: GenResult, expiresAt: int)

  /** What `generate` answers: the JSON of a result record, or an error the
      framework turns into a server error because nothing caught it. */
  datatype Response = Json(body: GenResult) | ServerError(thrown: Thrown)

  /** The columns `getHistory` selects. */
  datatype HistoryRow = HistoryRow(category: Value, content: Value, outputFormat: Value,
                                   filePath: Option<string>, createdAt: int)
  datatype HistoryResponse = HistoryResponse(success: bool, data: seq<HistoryRow>)
  datatype BulkResponse = BulkResponse(success: bool, error: string)

  /** What the controller calls but cannot see: `md5(json_encode(...))` and
      `(new QrCodeService($config))->generate()` (for instance `Service.Run`). */
  datatype Deps = Deps(fingerprint: Config -> string, service: Config -> Outcome)

  datatype State = State(cache: map<string, CacheEntry>, records: seq<Record>)

  function CacheKey(deps: Deps, validated: Config): string
  {
    "qr_" + deps.fingerprint(validated)
  }

  /** `Cache::get($key)` returns the entry until it expires. */
  predicate Live(cache: map<string, CacheEntry>, key: string, now: int)
  {
    key in cache && now < cache[key].expiresAt
  }

  /** `$request->key`: the input value, or null when absent. */
  function Input(input: Config, key: string): Value
  {
    if key in input then input[key] else VNull
  }

  function NewRecord(input: Config, validated: Config, r: GenResult, now: int): Record
  {
    var format := Input(input, "qrFormat");
    Record(Input(input, "qrCategory"), Input(input, "text"), validated,
           if format == VNull then VStr("png") else format, r.url, now)
  }

  /** One `generate` request against the cache and the record log. The log
      only grows, by at most one record; no cache entry is dropped; and a
      request that does not succeed changes nothing. */
  function Step(st: State, input: Config, deps: Deps, now: int): (r: (State, Response))
    ensures r.0.records == st.records ||
      (|r.0.records| == |st.records| + 1 && r.0.records[..|st.records|] == st.records)
    ensures st.cache.Keys <= r.0.cache.Keys
    ensures r.1.ServerError? ==> r.0 == st
    ensures r.1.Json? && !r.1.body.success ==> r.0 == st
  {
    var validated := Validated(input);
    var key := CacheKey(deps, validated);
    if Live(st.cache, key, now) then (st, Json(st.cache[key].result))
    else
      match deps.service(validated)
      case Escaped(e) => (st, ServerError(e))
      case Returned(r) =>
        if r.success then
          (State(st.cache[key := CacheEntry(r, now + TtlSeconds)],
                 st.records + [NewRecord(input, validated, r, now)]), Json(r))
        else (st, Json(r))
  }

  /** Identical validated input gives an identical cache key. */
  lemma SameInputSameKey(deps: Deps, input: Config, input': Config)
    requires Validated(input) == Validated(input')
    ensures CacheKey(deps, Validated(input)) == CacheKey(deps, Validated(input'))
    ensures CacheKey(deps, Validated(input))[..3] == "qr_"
  {
  }

  /** A hit returns the stored result and changes nothing; the service is not
      consulted, so any other service gives the same step. */
  lemma HitServesCache(st: State, input: Config, deps: Deps, now: int, other: Config -> Outcome)
    requires Live(st.cache, CacheKey(deps, Validated(input)), now)
    ensures Step(st, input, deps, now) == (st, Json(st.cache[CacheKey(deps, Validated(input))].result))
    ensures Step(st, input, Deps(deps.fingerprint, other), now) == Step(st, input, deps, now)
  {
  }

  /** A successful miss appends exactly one record (the request's category,
      text and format, the format defaulting to 'png', the validated input,
      the result's url as file path, and the current time) and caches the
      result for 24 hours; no other cache entry changes. */
  lemma MissSuccessRecords(st: State, input: Config, deps: Deps, now: int)
    requires !Live(st.cache, CacheKey(deps, Validated(input)), now)
    requires deps.service(Validated(input)).Returned? && deps.service(Validated(input)).result.success
    ensures var (st', resp) := Step(st, input, deps, now);
      var key := CacheKey(deps, Validated(input));
      var r := deps.service(Validated(input)).result;
      && resp == Json(r)
      && |st'.records| == |st.records| + 1
      && st'.records[..|st.records|] == st.records
      && st'.records[|st.records|].filePath == r.url
      && st'.records[|st.records|].configuration == Validated(input)
      && st'.records[|st.records|].category == Input(input, "qrCategory")
      && st'.records[|st.records|].content == Input(input, "text")
      && st'.records[|st.records|].createdAt == now
      && (Input(input, "qrFormat") == VNull ==> st'.records[|st.records|].outputFormat == VStr("png"))
      && (Input(input, "qrFormat") != VNull ==> st'.records[|st.records|].outputFormat == Input(input, "qrFormat"))
      && st'.cache.Keys == st.cache.Keys + {key}
      && st'.cache[key] == CacheEntry(r, now + TtlSeconds)
      && (forall k :: k in st.cache && k != key ==> st'.cache[k] == st.cache[k])
  {
    var (st', resp) := Step(st, input, deps, now);
    assert st'.records[..|st.records|] == st.records;
  }

  /** A failing miss, or one whose service call throws, leaves the cache and
      the record log as they were. */
  lemma MissFailureChangesNothing(st: State, input: Config, deps: Deps, now: int)
    requires !Live(st.cache, CacheKey(deps, Validated(input)), now)
    requires deps.service(Validated(input)).Escaped? || !deps.service(Validated(input)).result.success
    ensures Step(st, input, deps, now).0 == st
    ensures deps.service(Validated(input)).Returned? ==>
      Step(st, input, deps, now).1 == Json(deps.service(Validated(input)).result)
  {
  }

  /** After a failure an identical later request calls the service again
      rather than reading a cached failure: whatever the service answers
      then is what the request answers. */
  lemma FailureRetried(st: State, input: Config, deps: Deps, now: int, later: int, other: Config -> Outcome)
    requires !Live(st.cache, CacheKey(deps, Validated(input)), now) && now <= later
    requires deps.service(Validated(input)).Returned? && !deps.service(Validated(input)).result.success
    ensures var st' := Step(st, input, deps, now).0;
      && !Live(st'.cache, CacheKey(deps, Validated(input)), later)
      && Step(st', input, Deps(deps.fingerprint, other), later).1 ==
           match other(Validated(input))
           case Returned(r) => Json(r)
           case Escaped(e) => ServerError(e)
  {
    MissFailureChangesNothing(st, input, deps, now);
  }

  /** Idempotence: after a request that generated and stored a successful
      result, an identical request within 24 hours returns the same result
      and the log does not grow, even if the service would now answer
      differently. */
  lemma RepeatWithinTtl(st: State, input: Config, deps: Deps, now: int, later: int, other: Config -> Outcome)
    requires !Live(st.cache, CacheKey(deps, Validated(input)), now)
    requires now <= later < now + TtlSeconds
    requires Step(st, input, deps, now).1.Json? && Step(st, input, deps, now).1.body.success
    ensures var (st1, resp1) := Step(st, input, deps, now);
      Step(st1, input, Deps(deps.fingerprint, other), later) == (st1, resp1)
  {
    var key := CacheKey(deps, Validated(input));
    var (st1, resp1) := Step(st, input, deps, now);
    assert st1.cache[key] == CacheEntry(resp1.body, now + TtlSeconds);
  }

  /** A hit stays a hit: while the entry lives, repeating the request
      changes nothing and returns the same cached result. */
  lemma HitRepeats(st: State, input: Config, deps: Deps, now: int, later: int)
    requires Live(st.cache, CacheKey(deps, Validated(input)), later)
    ensures var (st1, resp1) := Step(st, input, deps, now);
      Live(st.cache, CacheKey(deps, Validated(input)), now) ==> Step(st1, input, deps, later) == (st1, resp1)
  {
  }

  /** Records appear in creation order. */
  ghost predicate Chronological(records: seq<Record>)
  {
    forall i, j :: 0 <= i < j < |records| ==> records[i].createdAt <= records[j].createdAt
  }

  /** The n newest records, newest first (the log is in creation order). */
  function Latest(records: seq<Record>, n: nat): (r: seq<Record>)
    ensures |r| == if n < |records| then n else |records|
    ensures forall i :: 0 <= i < |r| ==> r[i] == records[|records| - 1 - i]
  {
    if n == 0 || records == [] then []
    else [records[|records| - 1]] + Latest(records[..|records| - 1], n - 1)
  }

  function RowOf(r: Record): HistoryRow
  {
    HistoryRow(r.category, r.content, r.outputFormat, r.filePath, r.createdAt)
  }

  function Rows(records: seq<Record>): (rows: seq<HistoryRow>)
    ensures |rows| == |records|
    ensures forall i :: 0 <= i < |records| ==> rows[i] == RowOf(records[i])
  {
    seq(|records|, i requires 0 <= i < |records| => RowOf(records[i]))
  }

  class QrCodeController {
    var cache: map<string, CacheEntry>
    var records: seq<Record>

    ghost predicate Valid()
      reads this
    {
      Chronological(records)
    }

    constructor ()
      ensures Valid() && cache == map[] && records == []
    {
      cache := map[];
      records := [];
    }

    /** `generate`. The clock does not run backwards. */
    method Generate(input: Config, deps: Deps, now: int) returns (resp: Response)
      requires Valid()
      requires records != [] ==> records[|records| - 1].createdAt <= now
      modifies this
      ensures Valid()
      ensures (State(cache, records), resp) == Step(State(old(cache), old(records)), input, deps, now)
    {
      var validated := Validated(input);
      var cacheKey := CacheKey(deps, validated);
      if Live(cache, cacheKey, now) {
        return Json(cache[cacheKey].result);
      }
      var outcome := deps.service(validated);
      if outcome.Escaped? {
        return ServerError(outcome.thrown);
      }
      var result := outcome.result;
      if result.success {
        records := records + [NewRecord(input, validated, result, now)];
        cache := cache[cacheKey := CacheEntry(result, now + TtlSeconds)];
      }
      resp := Json(result);
    }

    /** `bulkGenerate`: a placeholder that always declines. */
    method BulkGenerate(input: Config) returns (r: BulkResponse)
      ensures !r.success && r.error == BulkNotImplemented
    {
      r := BulkResponse(false, BulkNotImplemented);
    }

    /** `getHistory`: the 50 newest records, newest first, with success. */
    method GetHistory() returns (h: HistoryResponse)
      requires Valid()
      ensures h.success
      ensures |h.data| == if |records| < HistoryLimit then |records| else HistoryLimit
      ensures forall i :: 0 <= i < |h.data| ==> h.data[i] == RowOf(records[|records| - 1 - i])
      ensures forall i, j :: 0 <= i < j < |h.data| ==> h.data[i].createdAt >= h.data[j].createdAt
    {
      var latest := Latest(records, HistoryLimit);
      h := HistoryResponse(true, Rows(latest));
    }
  }
}
