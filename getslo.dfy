/** The decision logic of the SLO check script: the bounded connect-retry loop
    (tryconnect), the error-ratio check over an MQL query's
    (response_code, request_count) rows (run_mql_check_threshold), and the
    burn-rate check over the first point of the first series
    (check_defined_slo).

    The monitoring clients, the query strings, the clock and the sleeps are not
    modelled: what a client call would return is a parameter, and each sleep is
    recorded as its delay in seconds. THRESHOLD and the ratio are `real`. */
module GetSlo {

  datatype Option<T> = None | Some(value: T)

  // ---------------------------------------------------------------------------
  // tryconnect: up to five attempts at constructing a client
  // ---------------------------------------------------------------------------

  /** What one call of the client constructor does. Only a missing-credentials
      error is caught and retried; any other exception escapes at once. */
  datatype Attempt = Connected | CredentialsError | OtherError

  /** How tryconnect ends. `Client(k)` is the client built by attempt `k`
      (counting from 0); `Raised(k)` is an uncaught exception from attempt `k`;
      `Exhausted` is the failure raised after every attempt hit a credentials
      error. */
  datatype ConnectResult = Client(attempt: nat) | Raised(attempt: nat) | Exhausted

  /** The loop's factors: after the k-th failed attempt tryconnect sleeps
      Backoff[k] * 0.1 seconds. */
  const Backoff: seq<nat> := [1, 2, 4, 8, 16]

  /** Seconds slept after the k-th failed attempt. */
  function Delay(k: nat): real
    requires k < |Backoff|
  {
    Backoff[k] as real * 0.1
  }

  /** Number of credentials errors tryconnect went through before it stopped. */
  function Failures(r: ConnectResult): nat
  {
    match r
    case Client(k) => k
    case Raised(k) => k
    case Exhausted => |Backoff|
  }

  /** Number of times tryconnect called the client constructor. */
  function AttemptsMade(r: ConnectResult): nat
  {
    match r
    case Client(k) => k + 1
    case Raised(k) => k + 1
    case Exhausted => |Backoff|
  }

  /** Index of the first attempt that is not a credentials error (|outcomes| if
      there is none): the attempt at which the retry loop leaves. */
  function FirstNonRetryable(outcomes: seq<Attempt>): (k: nat)
    ensures k <= |outcomes|
    ensures forall j :: 0 <= j < k ==> outcomes[j].CredentialsError?
    ensures k < |outcomes| ==> !outcomes[k].CredentialsError?
  {
    if outcomes == [] || !outcomes[0].CredentialsError? then 0
    else 1 + FirstNonRetryable(outcomes[1..])
  }

  /** How tryconnect ends when the k-th constructor call would do outcomes[k]. */
  function Connect(outcomes: seq<Attempt>): (r: ConnectResult)
    requires |outcomes| == |Backoff|
    ensures r.Client? ==> r.attempt < |Backoff| && outcomes[r.attempt].Connected?
    ensures r.Raised? ==> r.attempt < |Backoff| && outcomes[r.attempt].OtherError?
    ensures r.Exhausted? <==> forall j :: 0 <= j < |Backoff| ==> outcomes[j].CredentialsError?
    ensures forall j :: 0 <= j < Failures(r) ==> outcomes[j].CredentialsError?
  {
    var k := FirstNonRetryable(outcomes);
    if k == |outcomes| then Exhausted
    else if outcomes[k].Connected? then Client(k)
    else Raised(k)
  }

  /** tryconnect: the for/else retry loop. Returns how it ended and the delays
      it slept, one after each credentials error, including the fifth. */
  method TryConnect(outcomes: seq<Attempt>) returns (r: ConnectResult, delays: seq<real>)
    requires |outcomes| == |Backoff|
    ensures r == Connect(outcomes)
    ensures |delays| == Failures(r)
    ensures forall j :: 0 <= j < |delays| ==> delays[j] == Delay(j)
  {
    delays := [];
    r := Exhausted;
    var i := 0;
    while i < |Backoff|
      invariant 0 <= i <= |Backoff|
      invariant forall j :: 0 <= j < i ==> outcomes[j].CredentialsError?
      invariant |delays| == i
      invariant forall j :: 0 <= j < i ==> delays[j] == Delay(j)
      invariant r == Exhausted
    {
      match outcomes[i]
      case Connected =>
        r := Client(i);
        break;
      case OtherError =>
        r := Raised(i);
        break;
      case CredentialsError =>
        delays := delays + [Delay(i)];
        i := i + 1;
    }
  }

  /** tryconnect calls the constructor at most five times, and the delays it
      sleeps double from 0.1 s. */
  lemma AttemptsBounded(outcomes: seq<Attempt>)
    requires |outcomes| == |Backoff|
    ensures 1 <= AttemptsMade(Connect(outcomes)) <= 5
    ensures Failures(Connect(outcomes)) <= AttemptsMade(Connect(outcomes))
    ensures Delay(0) == 0.1
    ensures forall k :: 0 <= k < |Backoff| - 1 ==> Delay(k + 1) == 2.0 * Delay(k)
  {
  }

  /** tryconnect returns the client of the FIRST successful attempt: every
      attempt before it was a credentials error. */
  lemma ConnectUsesFirstSuccess(outcomes: seq<Attempt>, k: nat)
    requires |outcomes| == |Backoff|
    requires k < |Backoff| && outcomes[k].Connected?
    requires forall j :: 0 <= j < k ==> outcomes[j].CredentialsError?
    ensures Connect(outcomes) == Client(k)
  {
  }

  /** Sum of a sequence of reals. */
  function SumReals(s: seq<real>): real
  {
    if s == [] then 0.0 else SumReals(s[..|s| - 1]) + s[|s| - 1]
  }

  /** When every attempt fails, tryconnect has slept 0.1 + 0.2 + 0.4 + 0.8 +
      1.6 = 3.1 seconds before it gives up. */
  lemma ExhaustedSleepsTotal(outcomes: seq<Attempt>, delays: seq<real>)
    requires |outcomes| == |Backoff|
    requires forall j :: 0 <= j < |Backoff| ==> outcomes[j].CredentialsError?
    requires |delays| == Failures(Connect(outcomes))
    requires forall j :: 0 <= j < |delays| ==> delays[j] == Delay(j)
    ensures Connect(outcomes) == Exhausted
    ensures SumReals(delays) == 3.1
  {
    assert delays == [0.1, 0.2, 0.4, 0.8, 1.6];
    assert SumReals([0.1]) == 0.1 by { assert [0.1][..0] == []; }
    assert SumReals([0.1, 0.2]) == 0.3 by { assert [0.1, 0.2][..1] == [0.1]; }
    assert SumReals([0.1, 0.2, 0.4]) == 0.7 by { assert [0.1, 0.2, 0.4][..2] == [0.1, 0.2]; }
    assert SumReals([0.1, 0.2, 0.4, 0.8]) == 1.5 by {
      assert [0.1, 0.2, 0.4, 0.8][..3] == [0.1, 0.2, 0.4];
    }
    assert delays[..4] == [0.1, 0.2, 0.4, 0.8];
  }

  // ---------------------------------------------------------------------------
  // run_mql_check_threshold: error ratio over (response_code, count) rows
  // ---------------------------------------------------------------------------

  /** A label or point value of a query result, of whichever kind it holds. */
  datatype TypedValue =
    | BoolValue(b: bool)
    | Int64Value(i: int)
    | DoubleValue(d: real)
    | StringValue(s: string)
    | DistributionValue

  /** `.int64_value`: the integer a value holds, and the protobuf default 0 when
      it holds another kind. */
  function ReadInt64(v: TypedValue): int
  {
    if v.Int64Value? then v.i else 0
  }

  /** `.double_value`: the double a value holds, and the protobuf default 0.0
      when it holds another kind. */
  function ReadDouble(v: TypedValue): real
  {
    if v.DoubleValue? then v.d else 0.0
  }

  /** One row of an MQL query result: its label values (the response code is
      the first) and its point data, each point a list of values (the request
      count is the first value of the first point). */
  datatype TimeSeriesData = TimeSeriesData(labelValues: seq<TypedValue>, pointData: seq<seq<TypedValue>>)

  /** One (response_code, request_count) pair of the distribution. */
  datatype Row = Row(code: int, count: int)

  /** How a check ends: it returns 0, it raises "Error budget drops too fast",
      no client could be built, or the query result lacks the value indexed. */
  datatype Verdict = Passed | BudgetDropsTooFast | NotConnected | MissingData

  predicate HasFirstValues(x: TimeSeriesData)
  {
    |x.labelValues| > 0 && |x.pointData| > 0 && |x.pointData[0]| > 0
  }

  /** The row the comprehension builds from one query row: the int64 readings
      of its first label value and of the first value of its first point. */
  function FirstValues(x: TimeSeriesData): Row
    requires HasFirstValues(x)
  {
    Row(ReadInt64(x.labelValues[0]), ReadInt64(x.pointData[0][0]))
  }

  /** The list comprehension that builds the distribution: the first label value
      and the first value of the first point of every row, in order, each read
      as an int64. Fails (an index error in the source) if any row lacks one of
      them. */
  function Distribution(results: seq<TimeSeriesData>): (d: Option<seq<Row>>)
    ensures d.Some? <==> forall i :: 0 <= i < |results| ==> HasFirstValues(results[i])
    ensures d.Some? ==> |d.value| == |results|
    ensures d.Some? ==> forall i :: 0 <= i < |results| ==>
      d.value[i] == Row(ReadInt64(results[i].labelValues[0]), ReadInt64(results[i].pointData[0][0]))
  {
    if results == [] then Some([])
    else
      var x := results[|results| - 1];
      match Distribution(results[..|results| - 1])
      case None => None
      case Some(rows) =>
        if HasFirstValues(x) then Some(rows + [FirstValues(x)])
        else None
  }

  /** Responses with a code above 399 are errors: 400 is, 399 is not. */
  predicate IsErrorCode(code: int)
  {
    code > 399
  }

  function ErrorWeight(row: Row): int
  {
    if IsErrorCode(row.code) then row.count else 0
  }

  function TotalWeight(row: Row): int
  {
    row.count
  }

  /** Sum of `weight` over the rows, taken from the first row to the last. */
  function SumBy(rows: seq<Row>, weight: Row -> int): int
  {
    if rows == [] then 0 else SumBy(rows[..|rows| - 1], weight) + weight(rows[|rows| - 1])
  }

  /** Sum of the counts of the error rows. */
  function SumErrors(rows: seq<Row>): int
  {
    SumBy(rows, ErrorWeight)
  }

  /** Sum of all counts. */
  function SumAll(rows: seq<Row>): int
  {
    SumBy(rows, TotalWeight)
  }

  /** The denominator error_count / (total_count + 0.1) divides by; it is never
      zero for an integer total. */
  function Denominator(totalCount: int): (d: real)
    ensures d != 0.0
    ensures totalCount >= 0 ==> d > 0.0
  {
    totalCount as real + 0.1
  }

  function Ratio(errorCount: int, totalCount: int): real
  {
    errorCount as real / Denominator(totalCount)
  }

  /** The comparison of the check: strict. */
  predicate Breaches(errorCount: int, totalCount: int, threshold: real)
  {
    Ratio(errorCount, totalCount) > threshold
  }

  /** The accumulation loop: error_count and total_count after one pass. */
  method CountRequests(rows: seq<Row>) returns (errorCount: int, totalCount: int)
    ensures errorCount == SumErrors(rows)
    ensures totalCount == SumAll(rows)
  {
    errorCount, totalCount := 0, 0;
    var i := 0;
    while i < |rows|
      invariant 0 <= i <= |rows|
      invariant errorCount == SumErrors(rows[..i])
      invariant totalCount == SumAll(rows[..i])
    {
      var row := rows[i];
      assert rows[..i + 1][..i] == rows[..i];
      if row.code > 399 {
        errorCount := errorCount + row.count;
      }
      totalCount := totalCount + row.count;
      i := i + 1;
    }
    assert rows[..|rows|] == rows;
  }

  /** The end of run_mql_check_threshold: accumulate, then raise iff the ratio exceeds the threshold. */
  method CheckThreshold(rows: seq<Row>, threshold: real) returns (v: Verdict)
    ensures v == BudgetDropsTooFast || v == Passed
    ensures v == BudgetDropsTooFast <==>
      SumErrors(rows) as real / (SumAll(rows) as real + 0.1) > threshold
  {
    var errorCount, totalCount := CountRequests(rows);
    if Breaches(errorCount, totalCount, threshold) {
      v := BudgetDropsTooFast;
    } else {
      v := Passed;
    }
  }

  /** run_mql_check_threshold: connect, extract the distribution, check it. */
  method RunMqlCheckThreshold(outcomes: seq<Attempt>, results: seq<TimeSeriesData>, threshold: real)
    returns (v: Verdict, delays: seq<real>)
    requires |outcomes| == |Backoff|
    ensures v == NotConnected <==> !Connect(outcomes).Client?
    ensures v == MissingData <==> Connect(outcomes).Client? && Distribution(results).None?
    ensures v == BudgetDropsTooFast <==>
      Connect(outcomes).Client? && Distribution(results).Some? &&
      Breaches(SumErrors(Distribution(results).value), SumAll(Distribution(results).value), threshold)
    ensures |delays| == Failures(Connect(outcomes))
    ensures forall j :: 0 <= j < |delays| ==> delays[j] == Delay(j)
  {
    var client;
    client, delays := TryConnect(outcomes);
    if !client.Client? {
      return NotConnected, delays;
    }
    var d := Distribution(results);
    if d.None? {
      return MissingData, delays;
    }
    v := CheckThreshold(d.value, threshold);
  }

  /** Appending rows adds their sums. */
  lemma {:induction false} SumByAppend(a: seq<Row>, b: seq<Row>, weight: Row -> int)
    ensures SumBy(a + b, weight) == SumBy(a, weight) + SumBy(b, weight)
  {
    if b == [] {
      assert a + b == a;
    } else {
      assert (a + b)[..|a + b| - 1] == a + b[..|b| - 1];
      SumByAppend(a, b[..|b| - 1], weight);
    }
  }

  /** Row order does not matter: a permutation of the rows has the same sum. */
  lemma {:induction false} SumByPermutation(a: seq<Row>, b: seq<Row>, weight: Row -> int)
    requires multiset(a) == multiset(b)
    ensures SumBy(a, weight) == SumBy(b, weight)
    decreases |a|
  {
    if a == [] {
      assert |b| == |multiset(b)| == 0;
    } else {
      var x := a[|a| - 1];
      var rest := a[..|a| - 1];
      assert a == rest + [x];
      assert x in multiset(b);
      var j :| 0 <= j < |b| && b[j] == x;
      var others := b[..j] + b[j + 1..];
      assert b == b[..j] + [x] + b[j + 1..];
      assert multiset(others) == multiset(rest) by {
        calc {
          multiset(b);
          multiset(b[..j] + [x] + b[j + 1..]);
          multiset(b[..j]) + multiset{x} + multiset(b[j + 1..]);
          multiset(others) + multiset{x};
        }
        assert multiset(others) == multiset(b) - multiset{x};
        assert multiset(a) == multiset(rest) + multiset{x};
        assert multiset(rest) == multiset(a) - multiset{x};
      }
      SumByPermutation(rest, others, weight);
      SumByAppend(b[..j] + [x], b[j + 1..], weight);
      SumByAppend(b[..j], [x], weight);
      SumByAppend(b[..j], b[j + 1..], weight);
      assert SumBy([x], weight) == weight(x) by {
        assert [x][..0] == [];
      }
    }
  }

  /** Neither sum depends on the order of the query's rows. */
  lemma SumsIgnoreOrder(a: seq<Row>, b: seq<Row>)
    requires multiset(a) == multiset(b)
    ensures SumErrors(a) == SumErrors(b)
    ensures SumAll(a) == SumAll(b)
  {
    SumByPermutation(a, b, ErrorWeight);
    SumByPermutation(a, b, TotalWeight);
  }

  /** With non-negative counts the error count lies between 0 and the total. */
  lemma {:induction false} ErrorsWithinTotal(rows: seq<Row>)
    requires forall i :: 0 <= i < |rows| ==> rows[i].count >= 0
    ensures 0 <= SumErrors(rows) <= SumAll(rows)
  {
    if rows != [] {
      ErrorsWithinTotal(rows[..|rows| - 1]);
    }
  }

  /** A single row counts as an error from code 400 up, and always counts
      towards the total. */
  lemma ErrorBoundary(count: int)
    ensures SumErrors([Row(400, count)]) == count
    ensures SumErrors([Row(399, count)]) == 0
    ensures SumAll([Row(399, count)]) == count
    ensures SumAll([Row(400, count)]) == count
  {
    assert [Row(400, count)][..0] == [];
    assert [Row(399, count)][..0] == [];
    assert SumBy([Row(400, count)], ErrorWeight) == ErrorWeight(Row(400, count));
    assert SumBy([Row(399, count)], ErrorWeight) == ErrorWeight(Row(399, count));
    assert SumBy([Row(399, count)], TotalWeight) == TotalWeight(Row(399, count));
    assert SumBy([Row(400, count)], TotalWeight) == TotalWeight(Row(400, count));
  }

  /** With 0 <= errors <= total the ratio lies in [0, 1). */
  lemma RatioBounds(errorCount: int, totalCount: int)
    requires 0 <= errorCount <= totalCount
    ensures 0.0 <= Ratio(errorCount, totalCount) < 1.0
  {
  }

  /** An empty distribution sums to 0, divides by 0.1 and gives ratio 0: it
      breaches exactly when the threshold is negative. */
  lemma EmptyDistribution(threshold: real)
    ensures SumErrors([]) == 0 && SumAll([]) == 0
    ensures Denominator(SumAll([])) == 0.1 && Ratio(SumErrors([]), SumAll([])) == 0.0
    ensures Breaches(SumErrors([]), SumAll([]), threshold) <==> threshold < 0.0
  {
  }

  /** With non-negative counts a threshold of 1 or more is never exceeded, and
      a negative threshold always is. */
  lemma ThresholdExtremes(rows: seq<Row>, threshold: real)
    requires forall i :: 0 <= i < |rows| ==> rows[i].count >= 0
    ensures threshold >= 1.0 ==> !Breaches(SumErrors(rows), SumAll(rows), threshold)
    ensures threshold < 0.0 ==> Breaches(SumErrors(rows), SumAll(rows), threshold)
  {
    ErrorsWithinTotal(rows);
    RatioBounds(SumErrors(rows), SumAll(rows));
  }

  /** 90 successes and 10 errors: 10 / 100.1 exceeds 0.05; 100 successes give
      0 / 100.1, which does not. */
  lemma ThresholdScenarios()
    ensures SumErrors([Row(200, 90), Row(500, 10)]) == 10
    ensures SumAll([Row(200, 90), Row(500, 10)]) == 100
    ensures Breaches(10, 100, 0.05)
    ensures !Breaches(SumErrors([Row(200, 100)]), SumAll([Row(200, 100)]), 0.05)
  {
    var two := [Row(200, 90), Row(500, 10)];
    assert two[..1] == [Row(200, 90)];
    assert two[..1][..0] == [];
    assert [Row(200, 100)][..0] == [];
    assert SumBy(two[..1], ErrorWeight) == 0;
    assert SumBy(two[..1], TotalWeight) == 90;
    assert SumBy([Row(200, 100)], ErrorWeight) == 0;
  }

  /** Rows whose counts are all 0 sum to 0, errors and total alike. */
  lemma {:induction false} ZeroCountsSumToZero(rows: seq<Row>)
    requires forall i :: 0 <= i < |rows| ==> rows[i].count == 0
    ensures SumErrors(rows) == 0 && SumAll(rows) == 0
  {
    if rows != [] {
      ZeroCountsSumToZero(rows[..|rows| - 1]);
    }
  }

  /** A count that is not an int64 value (a double from a rate-aligned query,
      say) reads as 0: if no row's first point value is an int64, every count
      is 0 and the check never breaches a non-negative threshold. */
  lemma NonInt64CountsNeverBreach(results: seq<TimeSeriesData>, threshold: real)
    requires forall i :: 0 <= i < |results| ==>
      HasFirstValues(results[i]) && !results[i].pointData[0][0].Int64Value?
    requires threshold >= 0.0
    ensures Distribution(results).Some?
    ensures SumAll(Distribution(results).value) == 0
    ensures !Breaches(SumErrors(Distribution(results).value), SumAll(Distribution(results).value), threshold)
  {
    ZeroCountsSumToZero(Distribution(results).value);
  }

  // ---------------------------------------------------------------------------
  // check_defined_slo: burn rate against the threshold
  // ---------------------------------------------------------------------------

  /** One series of the burn-rate query: the values of its points. */
  datatype TimeSeries = TimeSeries(points: seq<TypedValue>)

  /** [[points] for each series][0][0]: the double reading of the first point of
      the first series, or None where the source's indexing fails. */
  function FirstBurnRate(results: seq<TimeSeries>): (b: Option<real>)
    ensures b.Some? <==> |results| > 0 && |results[0].points| > 0
    ensures b.Some? ==> b.value == ReadDouble(results[0].points[0])
  {
    if |results| > 0 && |results[0].points| > 0 then Some(ReadDouble(results[0].points[0])) else None
  }

  /** check_defined_slo: connect, take the first burn rate, compare it to the
      threshold with a strict `>`. Only the first point of the first series
      matters; no data is a failure. */
  method CheckDefinedSlo(outcomes: seq<Attempt>, results: seq<TimeSeries>, threshold: real)
    returns (v: Verdict, delays: seq<real>)
    requires |outcomes| == |Backoff|
    ensures v == NotConnected <==> !Connect(outcomes).Client?
    ensures v == MissingData <==>
      Connect(outcomes).Client? && (results == [] || results[0].points == [])
    ensures v == BudgetDropsTooFast <==>
      Connect(outcomes).Client? && results != [] && results[0].points != [] &&
      ReadDouble(results[0].points[0]) > threshold
    ensures v == Passed <==>
      Connect(outcomes).Client? && results != [] && results[0].points != [] &&
      ReadDouble(results[0].points[0]) <= threshold
    ensures |delays| == Failures(Connect(outcomes))
    ensures forall j :: 0 <= j < |delays| ==> delays[j] == Delay(j)
  {
    var client;
    client, delays := TryConnect(outcomes);
    if !client.Client? {
      return NotConnected, delays;
    }
    var burnrate := FirstBurnRate(results);
    if burnrate.None? {
      v := MissingData;
    } else if burnrate.value > threshold {
      v := BudgetDropsTooFast;
    } else {
      v := Passed;
    }
  }
}
