/** Reading a quote out of the Yahoo Finance chart endpoint, as the HTTP
    entry point's `get_stock_data` does.

    The transport is abstract: a request either times out, fails at the
    network level, fails in some other way, or yields a status code and a
    body that did or did not decode as JSON. Every failure, and every body
    that does not have the expected shape, reads as "no snapshot". */
module ChartResponse {
  import opened Options

  /** A decoded JSON value. Numbers are kept as integers: only whether a
      price is present matters here, not its value. */
  datatype Json =
    | JNull
    | JBool(b: bool)
    | JNumber(n: int)
    | JString(s: string)
    | JArray(items: seq<Json>)
    | JObject(fields: map<string, Json>)

  datatype HttpOutcome =
    | Timeout
    | NetworkError
    | UnexpectedError
    | Response(status: int, body: Option<Json>)

  /** What `get_stock_data` returns for a live quote. Missing currency and
      exchange fields take the defaults "USD" and "Unknown". */
  datatype Snapshot = Snapshot(price: Json, currency: Json, exchange: Json)

  /** One step of a path into a JSON document. */
  datatype Key = Field(name: string) | Index(position: nat)

  /** The value at `path` inside `j`, if every step exists: a field of an
      object, or an element of an array. */
  function Lookup(j: Json, path: seq<Key>): Option<Json>
    decreases |path|
  {
    if |path| == 0 then Some(j)
    else match (j, path[0])
      case (JObject(fields), Field(name)) =>
        if name in fields then Lookup(fields[name], path[1..]) else None
      case (JArray(items), Index(k)) =>
        if k < |items| then Lookup(items[k], path[1..]) else None
      case _ => None
  }

  /** `chart.result[0].meta` and the fields the source reads from it. */
  const MetaPath: seq<Key> := [Field("chart"), Field("result"), Index(0), Field("meta")]
  const PricePath: seq<Key> := MetaPath + [Field("regularMarketPrice")]
  const CurrencyPath: seq<Key> := MetaPath + [Field("currency")]
  const ExchangePath: seq<Key> := MetaPath + [Field("exchangeName")]

  /** The document carries a non-null `chart.result[0].meta.regularMarketPrice`. */
  predicate HasLivePrice(data: Json) {
    match Lookup(data, PricePath)
    case Some(p) => p != JNull
    case None => false
  }

  /** The value of `key` in `meta`, or `default` when it is missing (`dict.get`). */
  function MetaGet(meta: map<string, Json>, key: string, default: Json): Json {
    if key in meta then meta[key] else default
  }

  /** The four steps of `MetaPath`, one field or element at a time. */
  lemma LookupMeta(data: Json)
    requires data.JObject? && "chart" in data.fields
    requires data.fields["chart"].JObject? && "result" in data.fields["chart"].fields
    requires data.fields["chart"].fields["result"].JArray?
    requires |data.fields["chart"].fields["result"].items| > 0
    requires data.fields["chart"].fields["result"].items[0].JObject?
    requires "meta" in data.fields["chart"].fields["result"].items[0].fields
    ensures Lookup(data, MetaPath)
         == Some(data.fields["chart"].fields["result"].items[0].fields["meta"])
  {
    assert MetaPath[1..] == [Field("result"), Index(0), Field("meta")];
    assert MetaPath[1..][1..] == [Index(0), Field("meta")];
    assert MetaPath[1..][1..][1..] == [Field("meta")];
  }

  /** Looking up a path extended by one step is looking up the step in the
      value at the path. */
  lemma {:induction false} LookupAppend(j: Json, path: seq<Key>, k: Key)
    ensures Lookup(j, path + [k]) ==
      match Lookup(j, path)
      case Some(v) => Lookup(v, [k])
      case None => None
    decreases |path|
  {
    if |path| > 0 {
      assert (path + [k])[0] == path[0];
      assert (path + [k])[1..] == path[1..] + [k];
      match (j, path[0])
      case (JObject(fields), Field(name)) =>
        if name in fields { LookupAppend(fields[name], path[1..], k); }
      case (JArray(items), Index(n)) =>
        if n < |items| { LookupAppend(items[n], path[1..], k); }
      case _ =>
    }
  }

  /** Lines reading `data['chart']['result'][0]['meta']` and its price. A
      value of the wrong JSON type either fails a membership test or raises
      inside the `try`; both end in `None`. */
  function ReadChart(data: Json): (r: Option<Snapshot>)
    ensures r.Some? <==> HasLivePrice(data)
    ensures r.Some? ==> r.value.price == Lookup(data, PricePath).value
    ensures r.Some? ==> r.value.currency == Lookup(data, CurrencyPath).GetOr(JString("USD"))
    ensures r.Some? ==> r.value.exchange == Lookup(data, ExchangePath).GetOr(JString("Unknown"))
  {
    LookupAppend(data, MetaPath, Field("regularMarketPrice"));
    LookupAppend(data, MetaPath, Field("currency"));
    LookupAppend(data, MetaPath, Field("exchangeName"));
    if !(data.JObject? && "chart" in data.fields) then None
    else
      var chart := data.fields["chart"];
      if !(chart.JObject? && "result" in chart.fields) then None
      else
        var results := chart.fields["result"];
        if !(results.JArray? && |results.items| > 0) then None
        else
          var first := results.items[0];
          if !(first.JObject? && "meta" in first.fields) then None
          else
            LookupMeta(data);
            var meta := first.fields["meta"];
            if !meta.JObject? then None
            else
              var price := MetaGet(meta.fields, "regularMarketPrice", JNull);
              if price == JNull then None
              else Some(Snapshot(price, MetaGet(meta.fields, "currency", JString("USD")),
                                 MetaGet(meta.fields, "exchangeName", JString("Unknown"))))
  }

  /** A decoded HTTP 200 response with a live price in it. */
  predicate HasLivePriceResponse(resp: HttpOutcome) {
    resp.Response? && resp.status == 200 && resp.body.Some? && HasLivePrice(resp.body.value)
  }

  /** The request failed: it raised, returned a status other than 200, or
      returned a body that did not decode. */
  predicate FailedRequest(resp: HttpOutcome) {
    !resp.Response? || resp.status != 200 || resp.body.None?
  }

  /** `get_stock_data`: a snapshot only for an HTTP 200 whose body decodes
      and carries a live price; `None` on timeout, network error, any other
      exception, a non-200 status, an undecodable body or a missing price. */
  function GetStockData(resp: HttpOutcome): (r: Option<Snapshot>)
    ensures r.Some? <==> HasLivePriceResponse(resp)
    ensures r.Some? ==> r.value.price == Lookup(resp.body.value, PricePath).value
  {
    match resp
    case Timeout => None
    case NetworkError => None
    case UnexpectedError => None
    case Response(status, body) =>
      if status != 200 then None
      else match body
        case None => None
        case Some(data) => ReadChart(data)
  }
}
