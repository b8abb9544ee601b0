/**
 * The saved configuration and the result history, kept in the browser's
 * key/value storage under two fixed keys. JSON is abstracted: a text
 * written by JSON.stringify is stored as the value JSON.parse gives back
 * for it, and any other stored text is `Raw`, which does not parse. JSON has
 * no Infinity or NaN, so a statistic holding one comes back as null. The
 * history is newest first and holds at most 20 results.
 */
module LocalStorage {
  import opened Types

  const CONFIG_KEY := "api-stress-tester-config"
  const RESULTS_KEY := "api-stress-tester-results"
  /** How many results the history keeps. */
  const MAX_RESULTS := 20

  /** A JSON text these functions write, as the value it parses to. */
  datatype Json = ConfigJson(config: TestConfig) | ResultsJson(results: seq<TestResult>)

  /** A stored string: one written by JSON.stringify, or any other text. */
  datatype Stored = Encoded(json: Json) | Raw(text: string)

  /** loadConfig over a snapshot of the storage: nothing stored or a text
      that does not parse gives null. */
  function ConfigIn(items: map<string, Stored>): (r: Option<TestConfig>)
    ensures r.Some? ==> CONFIG_KEY in items && items[CONFIG_KEY] == Encoded(ConfigJson(r.value))
    ensures r.None? <==> CONFIG_KEY !in items || items[CONFIG_KEY].Raw? || items[CONFIG_KEY].json.ResultsJson?
  {
    if CONFIG_KEY !in items then None
    else match items[CONFIG_KEY]
      case Encoded(ConfigJson(config)) => Some(config)
      case _ => None
  }

  /** loadResults over a snapshot of the storage: nothing stored or a text
      that does not parse gives the empty list. */
  function ResultsIn(items: map<string, Stored>): (rs: seq<TestResult>)
    ensures (RESULTS_KEY !in items || items[RESULTS_KEY].Raw?) ==> rs == []
    ensures rs != [] ==> RESULTS_KEY in items && items[RESULTS_KEY] == Encoded(ResultsJson(rs))
  {
    if RESULTS_KEY !in items then []
    else match items[RESULTS_KEY]
      case Encoded(ResultsJson(results)) => results
      case _ => []
  }

  /** The history after adding `result`: it goes first, the earlier
      results follow in their order, and the list is cut to 20. */
  function Newest(result: TestResult, results: seq<TestResult>): (h: seq<TestResult>)
    ensures h != [] && h[0] == result && |h| <= MAX_RESULTS
    ensures forall r :: r in h ==> r == result || r in results
  {
    var all := [result] + results;
    all[..Min(|all|, MAX_RESULTS)]
  }

  /** The new result comes first, at most 20 are kept, and the rest are
      the earlier results in their order, of which at most 19 stay: the
      oldest drops off when 20 were stored. */
  lemma NewestShape(result: TestResult, results: seq<TestResult>)
    ensures var h := Newest(result, results);
      && h != [] && h[0] == result
      && |h| == Min(|results| + 1, MAX_RESULTS)
      && h[1..] == results[..Min(|results|, MAX_RESULTS - 1)]
  {
    var all := [result] + results;
    assert all[1..] == results;
  }

  /** The history without the results that carry `id`. */
  function WithoutId(results: seq<TestResult>, id: string): (kept: seq<TestResult>)
    ensures |kept| <= |results|
    ensures forall i :: 0 <= i < |kept| ==> kept[i].id != id
  {
    if results == [] then []
    else (if results[0].id != id then [results[0]] else []) + WithoutId(results[1..], id)
  }

  /** A result stays exactly when it is in the history and has another id. */
  lemma {:induction false} WithoutIdMembers(results: seq<TestResult>, id: string)
    ensures forall r :: r in WithoutId(results, id) <==> r in results && r.id != id
  {
    if results != [] {
      WithoutIdMembers(results[1..], id);
      assert results == [results[0]] + results[1..];
    }
  }

  /** Filtering a history split in two filters each part: the results kept
      keep their relative order. */
  lemma {:induction false} WithoutIdAppend(a: seq<TestResult>, b: seq<TestResult>, id: string)
    ensures WithoutId(a + b, id) == WithoutId(a, id) + WithoutId(b, id)
  {
    if a != [] {
      assert (a + b)[1..] == a[1..] + b;
      WithoutIdAppend(a[1..], b, id);
      var head := if a[0].id != id then [a[0]] else [];
      assert WithoutId(a + b, id) == head + WithoutId(a[1..] + b, id);
      assert WithoutId(a, id) == head + WithoutId(a[1..], id);
      assert head + (WithoutId(a[1..], id) + WithoutId(b, id))
          == (head + WithoutId(a[1..], id)) + WithoutId(b, id);
    } else {
      assert a + b == b;
    }
  }

  /** Deleting an id nobody carries changes nothing, and deleting twice is
      deleting once. */
  lemma {:induction false} WithoutIdAbsent(results: seq<TestResult>, id: string)
    requires forall i :: 0 <= i < |results| ==> results[i].id != id
    ensures WithoutId(results, id) == results
  {
    if results != [] {
      WithoutIdAbsent(results[1..], id);
      assert [results[0]] + results[1..] == results;
    }
  }

  lemma WithoutIdIdempotent(results: seq<TestResult>, id: string)
    ensures WithoutId(WithoutId(results, id), id) == WithoutId(results, id)
  {
    var once := WithoutId(results, id);
    WithoutIdMembers(results, id);
    forall i | 0 <= i < |once| ensures once[i].id != id {
      assert once[i] in once;
    }
    WithoutIdAbsent(once, id);
  }

  /** A number after JSON.stringify and JSON.parse: a finite number, or
      null, comes back as it was; Infinity and NaN come back as null. */
  function JsonNumber(n: Num): Num
  {
    if n == Infinity || n == NaN then Null else n
  }

  /** A number JSON writes as itself. */
  predicate JsonSafe(n: Num)
  {
    n != Infinity && n != NaN
  }

  /** A result after a trip through JSON: the two statistics that can be
      non-finite go through `JsonNumber`; every other field is a string,
      an integer, a finite number, a list of those or an absent body, and
      comes back as it was. */
  function Stringified(r: TestResult): TestResult
  {
    r.(stats := r.stats.(minResponseTime := JsonNumber(r.stats.minResponseTime),
                         requestsPerSecond := JsonNumber(r.stats.requestsPerSecond)))
  }

  /** The stored form of a result list, as JSON.parse gives it back. */
  function StringifiedAll(results: seq<TestResult>): (stored: seq<TestResult>)
    ensures |stored| == |results|
    ensures forall i :: 0 <= i < |results| ==> stored[i].id == results[i].id
  {
    seq(|results|, i requires 0 <= i < |results| => Stringified(results[i]))
  }

  /** A result comes back from storage unchanged exactly when neither its
      minimum response time nor its rate is Infinity or NaN; otherwise that
      statistic comes back as null. */
  lemma StringifiedExactly(r: TestResult)
    ensures Stringified(r) == r <==>
      JsonSafe(r.stats.minResponseTime) && JsonSafe(r.stats.requestsPerSecond)
    ensures !JsonSafe(r.stats.minResponseTime) ==> Stringified(r).stats.minResponseTime == Null
    ensures !JsonSafe(r.stats.requestsPerSecond) ==> Stringified(r).stats.requestsPerSecond == Null
  {
    if Stringified(r) == r {
      assert Stringified(r).stats.minResponseTime == r.stats.minResponseTime;
      assert Stringified(r).stats.requestsPerSecond == r.stats.requestsPerSecond;
    }
  }

  /** A run with no request, or one that took no time, stores a statistic
      that does not come back: its minimum is Infinity and its rate NaN. */
  lemma EmptyRunLosesStatistics(id: string, timestamp: int, config: TestConfig)
    ensures var r := TestResult(id, timestamp, config, TestStats(0, 0, 0, 0.0, Infinity, 0.0, 0, NaN, []));
      Stringified(r) != r
      && Stringified(r).stats.minResponseTime == Null && Stringified(r).stats.requestsPerSecond == Null
  {
    var r := TestResult(id, timestamp, config, TestStats(0, 0, 0, 0.0, Infinity, 0.0, 0, NaN, []));
    StringifiedExactly(r);
  }

  /** A list whose statistics are all JSON-safe is stored as it is, and a
      stored list is stored again unchanged. */
  lemma StringifiedAllKeeps(results: seq<TestResult>)
    ensures (forall i :: 0 <= i < |results| ==>
               JsonSafe(results[i].stats.minResponseTime) && JsonSafe(results[i].stats.requestsPerSecond))
            ==> StringifiedAll(results) == results
    ensures StringifiedAll(StringifiedAll(results)) == StringifiedAll(results)
  {
    if forall i :: 0 <= i < |results| ==>
         JsonSafe(results[i].stats.minResponseTime) && JsonSafe(results[i].stats.requestsPerSecond)
    {
      forall i | 0 <= i < |results| ensures StringifiedAll(results)[i] == results[i] {
        StringifiedExactly(results[i]);
      }
    }
  }

  /** Deleting by id and storing commute: storage leaves ids alone. */
  lemma {:induction false} StringifiedWithoutId(results: seq<TestResult>, id: string)
    ensures WithoutId(StringifiedAll(results), id) == StringifiedAll(WithoutId(results, id))
  {
    if results != [] {
      StringifiedWithoutId(results[1..], id);
      assert StringifiedAll(results)[1..] == StringifiedAll(results[1..]);
      var head := if results[0].id != id then [results[0]] else [];
      assert StringifiedAll(head + WithoutId(results[1..], id))
          == StringifiedAll(head) + StringifiedAll(WithoutId(results[1..], id));
    }
  }

  /** The written configuration is read back as it was; a written result
      list is read back in its stored form, which is the list itself when
      its statistics are JSON-safe; and writing one key leaves what the
      other key reads. */
  lemma StoreRoundTrip(items: map<string, Stored>, config: TestConfig, results: seq<TestResult>)
    ensures ConfigIn(items[CONFIG_KEY := Encoded(ConfigJson(config))]) == Some(config)
    ensures ResultsIn(items[RESULTS_KEY := Encoded(ResultsJson(StringifiedAll(results)))])
            == StringifiedAll(results)
    ensures (forall i :: 0 <= i < |results| ==>
               JsonSafe(results[i].stats.minResponseTime) && JsonSafe(results[i].stats.requestsPerSecond))
            ==> ResultsIn(items[RESULTS_KEY := Encoded(ResultsJson(StringifiedAll(results)))]) == results
    ensures ResultsIn(items[CONFIG_KEY := Encoded(ConfigJson(config))]) == ResultsIn(items)
    ensures ConfigIn(items[RESULTS_KEY := Encoded(ResultsJson(StringifiedAll(results)))]) == ConfigIn(items)
  {
    StringifiedAllKeeps(results);
  }

  /** The browser storage of the page. */
  class Store {
    var items: map<string, Stored>

    constructor (items: map<string, Stored>)
      ensures this.items == items
    {
      this.items := items;
    }

    /** loadConfig: the configuration stored under the configuration key,
        or null when none is stored or the text does not parse. */
    function LoadConfig(): (config: Option<TestConfig>)
      reads this
      ensures config.Some? ==> CONFIG_KEY in items && items[CONFIG_KEY] == Encoded(ConfigJson(config.value))
      ensures CONFIG_KEY !in items ==> config == None
    {
      ConfigIn(items)
    }

    /** loadResults: the list stored under the results key, or the empty
        list when none is stored or the text does not parse. */
    function LoadResults(): (results: seq<TestResult>)
      reads this
      ensures results != [] ==> RESULTS_KEY in items && items[RESULTS_KEY] == Encoded(ResultsJson(results))
      ensures RESULTS_KEY !in items ==> results == []
    {
      ResultsIn(items)
    }

    method SaveConfig(config: TestConfig)
      modifies this
      ensures items == old(items)[CONFIG_KEY := Encoded(ConfigJson(config))]
      ensures LoadConfig() == Some(config) && LoadResults() == old(LoadResults())
    {
      items := items[CONFIG_KEY := Encoded(ConfigJson(config))];
    }

    /** Puts `result` at the head of the stored history, keeps the first
        20 entries and stores them through JSON. */
    method SaveResult(result: TestResult)
      modifies this
      ensures items == old(items)[RESULTS_KEY :=
        Encoded(ResultsJson(StringifiedAll(Newest(result, old(LoadResults())))))]
      ensures LoadResults() == StringifiedAll(Newest(result, old(LoadResults())))
      ensures LoadConfig() == old(LoadConfig())
    {
      var results := LoadResults();
      results := [result] + results;
      var limitedResults := results[..Min(|results|, MAX_RESULTS)];
      items := items[RESULTS_KEY := Encoded(ResultsJson(StringifiedAll(limitedResults)))];
    }

    /** Stores the history without the results that carry `id`, through
        JSON. */
    method DeleteResult(id: string)
      modifies this
      ensures items == old(items)[RESULTS_KEY :=
        Encoded(ResultsJson(StringifiedAll(WithoutId(old(LoadResults()), id))))]
      ensures LoadResults() == StringifiedAll(WithoutId(old(LoadResults()), id))
      ensures LoadConfig() == old(LoadConfig())
    {
      var results := LoadResults();
      var updatedResults := WithoutId(results, id);
      items := items[RESULTS_KEY := Encoded(ResultsJson(StringifiedAll(updatedResults)))];
    }
  }
}
