/**
  The in-memory analysis cache and the request handlers that use it:
  analyse (generate and upsert under the upper-cased ticker), list, export
  and health. The cache is a dictionary from ticker to an entry holding the
  analysis and the time it was stored; like a Python dictionary it remembers
  the order in which keys were first inserted, and overwriting a key keeps
  its place.
*/
module Cache {
  import opened Wrappers
  import opened Ascii
  import opened Signals
  import opened Generator

  datatype CacheEntry = CacheEntry(data: Analysis, timestamp: string)

  /** The `ticker` member of a request body: absent, a string, or some other JSON value. */
  datatype TickerField = Missing | Text(value: string) | NotText

  /** A request body: a JSON object, or anything without a `get` (null, a list, a number, ...). */
  datatype Payload = NotAnObject | Object(ticker: TickerField)

  /** The answer to an analysis request: the analysis (200) or the error answer (400). */
  datatype AnalyzeResponse = Analyzed(analysis: Analysis) | BadRequest

  /** One line of the listing. */
  datatype Summary = Summary(ticker: string, timestamp: string, recommendation: Recommendation, confidence: real)

  datatype HealthReport = HealthReport(status: string, timestamp: string, cachedAnalyses: nat, version: string)

  const DefaultTicker: string := "UNKNOWN"
  const Healthy: string := "healthy"
  const Version: string := "1.0.0"

  /**
    The cache key a request names: its ticker (or "UNKNOWN" when absent),
    upper-cased; nothing when the body is not an object or the ticker is not
    a string, the cases where the handler's `get(...).upper()` raises.
  */
  function RequestKey(p: Payload): (k: Option<string>)
    ensures k.None? <==> p.NotAnObject? || p.ticker.NotText?
    ensures p.Object? && p.ticker.Text? ==> k == Some(ToUpper(p.ticker.value))
    ensures p.Object? && p.ticker.Missing? ==> k == Some(DefaultTicker)
    ensures k.Some? ==> NoLower(k.value)
  {
    match p
    case NotAnObject => None
    case Object(Missing) =>
      UpperFixedPoint(DefaultTicker);
      Some(ToUpper(DefaultTicker))
    case Object(Text(t)) =>
      UpperHasNoLower(t);
      Some(ToUpper(t))
    case Object(NotText) => None
  }

  /** The listing line for one cached entry. */
  function SummaryOf(key: string, e: CacheEntry): Summary {
    Summary(key, e.timestamp, e.data.recommendation, e.data.confidencePercent)
  }

  predicate Distinct(keys: seq<string>) {
    forall i, j :: 0 <= i < j < |keys| ==> keys[i] != keys[j]
  }

  /** A duplicate-free listing of exactly the keys of a set has as many elements as the set. */
  lemma {:induction false} DistinctListingSize(keys: seq<string>, s: set<string>)
    requires Distinct(keys)
    requires forall k :: k in s <==> k in keys
    ensures |keys| == |s|
  {
    if keys != [] {
      var n := |keys| - 1;
      var last, rest := keys[n], keys[..n];
      assert keys == rest + [last];
      forall k ensures k in s - {last} <==> k in rest {
        if k in rest {
          var i :| 0 <= i < n && rest[i] == k;
          assert keys[i] == k && keys[n] == last;
        }
      }
      DistinctListingSize(rest, s - {last});
    }
  }

  /** Appending a key the listing lacks keeps it duplicate-free. */
  lemma AppendFresh(keys: seq<string>, k: string)
    requires Distinct(keys) && k !in keys
    ensures Distinct(keys + [k])
  {
  }

  class AnalysisStore {
    /** The cached entries, by upper-case ticker. */
    var entries: map<string, CacheEntry>
    /** The keys of `entries` in first-insertion order, which is the dictionary's iteration order. */
    var order: seq<string>

    ghost predicate Valid()
      reads this
    {
      Distinct(order) && forall k :: k in entries <==> k in order
    }

    /** The cache starts empty at process start. */
    constructor ()
      ensures Valid() && entries == map[] && order == []
    {
      entries, order := map[], [];
    }

    /** The iteration order lists every key once, so it is as long as the cache is large. */
    lemma OrderSize()
      requires Valid()
      ensures |order| == |entries|
    {
      DistinctListingSize(order, entries.Keys);
    }

    /**
      POST /api/analysis. On a body that yields a key, the analysis is
      generated in full and then stored under the upper-cased ticker,
      replacing any earlier entry for that key and leaving every other key
      alone; the cache grows by one exactly when the key is new. On a body
      that does not, the answer is the 400 error and the cache is untouched.
    */
    method Analyze(payload: Payload, d: Draws, generatedAt: string, storedAt: string)
        returns (response: AnalyzeResponse)
      requires Valid() && InRange(d)
      modifies this
      ensures Valid()
      ensures RequestKey(payload).None? ==>
                response == BadRequest && entries == old(entries) && order == old(order)
      ensures RequestKey(payload).Some? ==>
                var key := RequestKey(payload).value;
                && response.Analyzed?
                && response.analysis.stockTicker == key
                && response.analysis.analysisTimestamp == generatedAt
                && DrawsOf(response.analysis) == d
                && Coherent(response.analysis)
                && entries == old(entries)[key := CacheEntry(response.analysis, storedAt)]
                && order == (if key in old(entries) then old(order) else old(order) + [key])
                && |entries| == |old(entries)| + (if key in old(entries) then 0 else 1)
    {
      var key := RequestKey(payload);
      if key.None? {
        return BadRequest;
      }
      var ticker := key.value;
      var analysis := Generator.Generate(ticker, d, generatedAt);
      if ticker !in entries {
        AppendFresh(order, ticker);
        order := order + [ticker];
      }
      entries := entries[ticker := CacheEntry(analysis, storedAt)];
      response := Analyzed(analysis);
    }

    /**
      GET /api/export/<ticker>: the analysis stored under the upper-cased
      ticker, or nothing (the 404 answer) when no such key was stored.
    */
    method Export(ticker: string) returns (r: Option<Analysis>)
      ensures r.Some? <==> ToUpper(ticker) in entries
      ensures r.Some? ==> r.value == entries[ToUpper(ticker)].data
    {
      var key := ToUpper(ticker);
      if key in entries {
        r := Some(entries[key].data);
      } else {
        r := None;
      }
    }

    /**
      GET /api/analyses: one summary per cached entry, in the dictionary's
      iteration order, and their number.
    */
    method List() returns (analyses: seq<Summary>, total: nat)
      requires Valid()
      ensures |analyses| == |order| && total == |analyses| == |entries|
      ensures forall i :: 0 <= i < |analyses| ==>
                order[i] in entries && analyses[i] == SummaryOf(order[i], entries[order[i]])
    {
      analyses := [];
      var n := 0;
      while n < |order|
        invariant 0 <= n <= |order| && |analyses| == n
        invariant forall i :: 0 <= i < n ==> analyses[i] == SummaryOf(order[i], entries[order[i]])
      {
        var key := order[n];
        analyses := analyses + [SummaryOf(key, entries[key])];
        n := n + 1;
      }
      total := |analyses|;
      OrderSize();
    }

    /** GET /health: healthy, with the number of cached analyses and the fixed version. */
    method Health(now: string) returns (report: HealthReport)
      requires Valid()
      ensures report.status == Healthy && report.version == Version && report.timestamp == now
      ensures report.cachedAnalyses == |entries| == |order|
    {
      OrderSize();
      report := HealthReport(Healthy, now, |entries|, Version);
    }
  }

  /**
    An analysis request followed by an export of any spelling of the same
    ticker (its upper-case form among them, by `UpperIdempotent`) returns
    exactly what was analysed; the listing total and the health count agree
    afterwards.
  */
  method AnalyzeThenExport(store: AnalysisStore, ticker: string, spelling: string, d: Draws, generatedAt: string, storedAt: string)
      returns (analyzed: AnalyzeResponse, exported: Option<Analysis>, total: nat, report: HealthReport)
    requires store.Valid() && InRange(d)
    requires ToUpper(spelling) == ToUpper(ticker)
    modifies store
    ensures store.Valid()
    ensures analyzed.Analyzed? && analyzed.analysis.stockTicker == ToUpper(ticker)
    ensures exported == Some(analyzed.analysis)
    ensures ToUpper(ticker) in store.entries
    ensures total == report.cachedAnalyses == |store.entries|
  {
    analyzed := store.Analyze(Object(Text(ticker)), d, generatedAt, storedAt);
    exported := store.Export(spelling);
    var listed;
    listed, total := store.List();
    report := store.Health(generatedAt);
  }

  /** The keys of the example session below. */
  lemma ScenarioKeys()
    ensures ToUpper("aapl") == "AAPL" && ToUpper("AAPL") == "AAPL" && ToUpper("MSFT") == "MSFT"
  {
  }

  /**
    An example session: an empty cache lists nothing; after analysing
    "aapl" the result is stored as "AAPL", both "AAPL" and "aapl" export it,
    "MSFT" is not found, and the cache holds one analysis.
  */
  method Scenario(d: Draws)
    requires InRange(d)
  {
    ScenarioKeys();
    var store := new AnalysisStore();
    var listed, total := store.List();
    assert listed == [] && total == 0;
    var response := store.Analyze(Object(Text("aapl")), d, "t1", "t2");
    assert response.analysis.stockTicker == "AAPL";
    var upper := store.Export("AAPL");
    var lower := store.Export("aapl");
    assert upper == lower == Some(response.analysis);
    var missing := store.Export("MSFT");
    assert missing == None;
    var report := store.Health("t3");
    assert report.cachedAnalyses == 1;
  }
}
