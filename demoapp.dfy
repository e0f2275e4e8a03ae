/** The synthetic responder of the rollout demo app: every GET draws r in
    [1, 100] and answers 200 with the configured color, or the configured error
    code with "ERROR", depending on whether r exceeds the configured error rate.

    The HTTP server, the socket and the random draw are not modelled: the draw
    is a parameter and the response is a returned value. */
module DemoApp {

  /** The command-line configuration, fixed for the process's lifetime. */
  datatype Config = Config(port: int, color: string, error: int, errorCode: int)

  /** The argparse defaults: port 8080, color "green", error 0, code 500. */
  const DefaultConfig: Config := Config(8080, "green", 0, 500)

  /** What one request gets back: a status code, its Content-type header and
      its body. */
  datatype Response = Response(status: int, contentType: string, body: string)

  /** Which branch of do_GET a request takes. */
  datatype Branch = Success | Failure

  /** The test in do_GET: the draw succeeds when it is strictly above the
      configured error rate. */
  function Decide(error: int, r: int): (b: Branch)
    requires 1 <= r <= 100
    ensures b == Failure <==> r <= error
  {
    if r > error then Success else Failure
  }

  /** send_result: status line, one text/plain header, and the message as the
      whole body. */
  function SendResult(code: int, message: string): (resp: Response)
    ensures resp.status == code
    ensures resp.contentType == "text/plain"
    ensures resp.body == message
  {
    Response(code, "text/plain", message)
  }

  /** do_GET for the draw r. */
  function HandleGet(cfg: Config, r: int): (resp: Response)
    requires 1 <= r <= 100
    ensures resp.contentType == "text/plain"
    ensures r > cfg.error ==> resp.status == 200 && resp.body == cfg.color + "\n"
    ensures r <= cfg.error ==> resp.status == cfg.errorCode && resp.body == "ERROR\n"
  {
    match Decide(cfg.error, r)
    case Success => SendResult(200, cfg.color + "\n")
    case Failure => SendResult(cfg.errorCode, "ERROR\n")
  }

  /** The draws of [1, 100] that take the error branch. */
  function ErrorDraws(error: int): set<int>
  {
    set r | 1 <= r <= 100 && Decide(error, r) == Failure
  }

  /** The error rate as it acts: below 0 it behaves as 0, above 100 as 100. */
  function Clamp(error: int): int
  {
    if error < 0 then 0 else if error > 100 then 100 else error
  }

  /** r is one of the draws 1 .. n. */
  predicate Within(r: int, n: int)
  {
    1 <= r <= n
  }

  /** The integers 1 through n. */
  function Draws(n: nat): set<int>
  {
    set r | 1 <= r <= n && Within(r, n)
  }

  lemma {:induction false} DrawsCardinality(n: nat)
    ensures |Draws(n)| == n
  {
    if n > 0 {
      DrawsCardinality(n - 1);
      assert Draws(n) == Draws(n - 1) + {n};
      assert n !in Draws(n - 1);
    }
  }

  /** The error draws are exactly 1 .. clamp(error). */
  lemma ErrorDrawsAreAPrefix(error: int)
    ensures ErrorDraws(error) == Draws(Clamp(error))
  {
  }

  /** Exactly max(0, min(error, 100)) of the 100 equally likely draws answer
      with the error, so the error probability is that number over 100. */
  lemma ErrorDrawCount(error: int)
    ensures |ErrorDraws(error)| == Clamp(error)
    ensures 0 <= |ErrorDraws(error)| <= 100
  {
    ErrorDrawsAreAPrefix(error);
    DrawsCardinality(Clamp(error));
  }

  /** Raising the error rate never turns an error draw into a success. */
  lemma ErrorDrawsMonotone(e1: int, e2: int)
    requires e1 <= e2
    ensures ErrorDraws(e1) <= ErrorDraws(e2)
  {
  }

  /** With an error rate of 0 or below, every draw is answered 200 with the
      color; this covers the default configuration. */
  lemma NoErrorsAtOrBelowZero(cfg: Config, r: int)
    requires cfg.error <= 0
    requires 1 <= r <= 100
    ensures HandleGet(cfg, r) == Response(200, "text/plain", cfg.color + "\n")
    ensures HandleGet(DefaultConfig, r) == Response(200, "text/plain", "green\n")
  {
  }

  /** With an error rate of 100 or above, every draw is answered with the error
      code and "ERROR". */
  lemma AllErrorsFromHundred(cfg: Config, r: int)
    requires cfg.error >= 100
    requires 1 <= r <= 100
    ensures HandleGet(cfg, r) == Response(cfg.errorCode, "text/plain", "ERROR\n")
  {
  }

  /** Every response is text/plain and its body is one of the two messages. */
  lemma ResponseShape(cfg: Config, r: int)
    requires 1 <= r <= 100
    ensures HandleGet(cfg, r).contentType == "text/plain"
    ensures HandleGet(cfg, r).body == cfg.color + "\n" || HandleGet(cfg, r).body == "ERROR\n"
    ensures HandleGet(cfg, r).status == 200 || HandleGet(cfg, r).status == cfg.errorCode
  {
  }

  /** color "blue" with error 0 answers 200 "blue\n"; error 100 with code 503
      answers 503 "ERROR\n". */
  lemma ResponderScenarios(r: int)
    requires 1 <= r <= 100
    ensures HandleGet(Config(8080, "blue", 0, 500), r) == Response(200, "text/plain", "blue\n")
    ensures HandleGet(Config(8080, "green", 100, 503), r) == Response(503, "text/plain", "ERROR\n")
  {
  }
}
