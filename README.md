# gcp-rollout-demo decision logic, modelled in Dafny

The repository holds two small tools used to exercise canary rollouts:

- `slocheck/getslo.py`, a check script that asks Google Cloud Monitoring for
  either an MQL distribution of request counts by response code or an SLO burn
  rate, and fails (raises) when the error ratio or the burn rate exceeds
  `THRESHOLD`. Before it queries, `tryconnect` builds the client with up to
  five attempts, sleeping 0.1, 0.2, 0.4, 0.8 and 1.6 s after each credentials
  error; any other exception from the constructor escapes at once.
- `demoapp/app.py`, a synthetic HTTP responder: every GET draws `r` in
  [1, 100] and answers 200 with the configured color, or the configured error
  code with `ERROR`, when `r` is not above the configured error rate.

This project models the decision logic of both, in two modules:

- `GetSlo` (`getslo.dfy`): the retry loop as a method over the outcomes the
  client constructor would have (`TryConnect`, specified by `Connect`), the
  row extraction (`Distribution`), the accumulation loop (`CountRequests`,
  specified by the recursive `SumErrors` and `SumAll`), the strict ratio test
  with its `+ 0.1` denominator (`CheckThreshold`), the burn-rate test
  (`CheckDefinedSlo`), and the whole MQL check (`RunMqlCheckThreshold`). Each
  check ends in a `Verdict`: `Passed` (the script returns 0),
  `BudgetDropsTooFast` (it raises "Error budget drops too fast"),
  `NotConnected` (no client was built) or `MissingData` (the indexing of the
  query result failed).
- `DemoApp` (`demoapp.dfy`): the configuration, the branch test (`Decide`), the
  response built by `send_result` (`SendResult`) and `do_GET` (`HandleGet`),
  with the counting result that exactly `max(0, min(error, 100))` of the 100
  draws take the error branch.

Counts and codes are unbounded integers, as Python's are. `THRESHOLD`, the
ratio and the delays are `real`.

On exhaustion, `raise(e)` at `slocheck/getslo.py:30` names the exception
variable that Python unbinds when its `except` clause ends. What escapes is
therefore an `UnboundLocalError`, which is a kind of `NameError`. The model
records only that the check fails (`Exhausted`, then `NotConnected`).

Label and point values are typed protobuf values (`TypedValue`). The source
reads them with `.int64_value` and `.double_value`, which give the default 0
for a value of another kind instead of failing; the model reads them the same
way (`ReadInt64`, `ReadDouble`).

## Model

| member | source | states |
|---|---|---|
| `GetSlo.FirstNonRetryable` | slocheck/getslo.py:20-28 | the index where the retry loop leaves: every earlier attempt was a credentials error and the attempt there (if any) was not |
| `GetSlo.Connect` | slocheck/getslo.py:19-31 | tryconnect returns a client only from an attempt that connected, re-raises an uncaught error only from the attempt that raised it, fails after exhaustion exactly when all five attempts were credentials errors, and every attempt before its stopping point was a credentials error |
| `GetSlo.TryConnect` | slocheck/getslo.py:19-31 | the for/else loop ends as `Connect` says, and sleeps once after each credentials error (including the fifth), the k-th delay being `[1,2,4,8,16][k] * 0.1` s |
| `GetSlo.AttemptsBounded` | slocheck/getslo.py:20-27 | at most five and at least one constructor call; the delays start at 0.1 s and double |
| `GetSlo.ConnectUsesFirstSuccess` | slocheck/getslo.py:20-24 | if attempt k connects and every earlier one was a credentials error, tryconnect returns the client of attempt k |
| `GetSlo.ExhaustedSleepsTotal` | slocheck/getslo.py:20-30 | when all five attempts fail, tryconnect fails after sleeping 3.1 s in all |
| `GetSlo.Distribution` | slocheck/getslo.py:60-62 | the distribution has one row per query row, in order, made of the int64 readings of the first label value and the first value of the first point only; it fails exactly when some row lacks one of them |
| `GetSlo.Denominator` | slocheck/getslo.py:71 | `total_count + 0.1` is never zero, and is positive for a non-negative total |
| `GetSlo.CountRequests` | slocheck/getslo.py:63-68 | after the loop, `error_count` is the sum of the counts of rows with code > 399 and `total_count` the sum of all counts |
| `GetSlo.CheckThreshold` | slocheck/getslo.py:63-73 | the check raises exactly when `error_count / (total_count + 0.1)` is strictly above the threshold, and returns 0 otherwise |
| `GetSlo.RunMqlCheckThreshold` | slocheck/getslo.py:52-73 | the MQL check fails without a client, fails on a malformed result row, and otherwise raises exactly when the ratio of the extracted distribution exceeds the threshold; its sleeps are those of tryconnect |
| `GetSlo.SumsIgnoreOrder` | slocheck/getslo.py:65-68 | reordering the query rows changes neither sum |
| `GetSlo.SumByPermutation` | slocheck/getslo.py:65-68 | a sum accumulated over the rows is the same for every permutation of them |
| `GetSlo.ErrorsWithinTotal` | slocheck/getslo.py:63-68 | with non-negative counts, `0 <= error_count <= total_count` |
| `GetSlo.ErrorBoundary` | slocheck/getslo.py:66-68 | code 400 counts as an error, code 399 does not, and both count towards the total |
| `GetSlo.RatioBounds` | slocheck/getslo.py:71 | with `0 <= error_count <= total_count` the ratio lies in [0, 1) |
| `GetSlo.EmptyDistribution` | slocheck/getslo.py:63-71 | an empty distribution gives sums 0, denominator 0.1 and ratio 0, and breaches exactly when the threshold is negative |
| `GetSlo.ThresholdExtremes` | slocheck/getslo.py:63-73 | with non-negative counts a threshold of 1 or more never breaches and a negative threshold always does |
| `GetSlo.ZeroCountsSumToZero` | slocheck/getslo.py:63-68 | rows whose counts are all 0 give an error count and a total count of 0 |
| `GetSlo.NonInt64CountsNeverBreach` | slocheck/getslo.py:60-71 | when no row's first point value is an int64, every count reads as 0, so the check never breaches a non-negative threshold |
| `GetSlo.ThresholdScenarios` | slocheck/getslo.py:63-72 | rows (200,90),(500,10) give 10 errors of 100 and breach 0.05; (200,100) does not |
| `GetSlo.FirstBurnRate` | slocheck/getslo.py:104 | the burn rate is the double reading of the first point of the first series, and there is none when the result or its first series is empty |
| `GetSlo.CheckDefinedSlo` | slocheck/getslo.py:84-108 | the burn-rate check fails without a client, fails when there is no data, raises exactly when the double reading of the first value of the first series is strictly above the threshold and passes exactly when it is at or below it |
| `DemoApp.Decide` | demoapp/app.py:44 | a draw takes the error branch exactly when it is not above the configured error rate |
| `DemoApp.SendResult` | demoapp/app.py:38-42 | the response has the given status, Content-type text/plain, and the message as its whole body |
| `DemoApp.HandleGet` | demoapp/app.py:43-47 | a draw above the error rate gets 200 with `color + "\n"`; any other draw gets the error code with `"ERROR\n"`; both are text/plain |
| `DemoApp.ErrorDrawsAreAPrefix` | demoapp/app.py:44 | the error draws are exactly 1 .. max(0, min(error, 100)) |
| `DemoApp.ErrorDrawCount` | demoapp/app.py:31-44 | exactly max(0, min(error, 100)) of the 100 draws take the error branch, matching "error rate, min 0, max 100" |
| `DemoApp.ErrorDrawsMonotone` | demoapp/app.py:44 | raising the error rate never turns an error draw into a success |
| `DemoApp.NoErrorsAtOrBelowZero` | demoapp/app.py:29-45 | with error <= 0 (the default 0 included) every draw gets 200 with the color |
| `DemoApp.AllErrorsFromHundred` | demoapp/app.py:43-47 | with error >= 100 every draw gets the error code with `"ERROR\n"` |
| `DemoApp.ResponseShape` | demoapp/app.py:38-47 | every response is text/plain, with status 200 or the error code and body the color line or `"ERROR\n"` |
| `DemoApp.ResponderScenarios` | demoapp/app.py:43-47 | color blue with error 0 answers 200 `"blue\n"`; error 100 with code 503 answers 503 `"ERROR\n"` |

## Left out

- The HTTP server, socket binding and `serve_forever`, and the writes to `wfile`: the response is a returned value, and its UTF-8 encoding is not modelled.
- `random.randint(1, 100)`: the draw is a parameter restricted to [1, 100].
- argparse and the environment variables (`TARGET_PROJECT`, `THRESHOLD`, `MQL_QUERY`, `DEFINEDSLO`): their values are parameters. `DemoApp.Config` keeps the port only as a value; binding it is I/O.
- The Cloud Monitoring clients, the request objects and the MQL and filter strings: what a query returns is an input sequence, and what each call of a client constructor does is an input `Attempt`.
- `GetSlo.TryConnect`: the constructor's behaviour is given as one outcome per possible call (five of them), so the method requires exactly five outcomes; an outcome the loop never reaches does not affect it.
- `GetSlo.Connect`: which exception object escapes after five credentials errors (a `NameError`, see above) is not modelled, only that tryconnect fails.
- The time interval built from `time.time()` in `check_defined_slo`, and the sleeps themselves: the delays are recorded, not slept.
- IEEE float rounding in `error_count*1.0/(total_count+0.1)` and in `float(THRESHOLD)`: the ratio and the threshold are exact reals.
- The contents of a distribution-kind value: `DistributionValue` carries no payload, since every reading the source makes of it is the default 0.
- The diagnostic prints of the result and of the computed counts or burn rate.
