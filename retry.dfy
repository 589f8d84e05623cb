/**
 * The retry policy of the ingestion service's call to the parsing service:
 * how each attempt's outcome is classified, the geometric backoff schedule,
 * and the run of attempts that results. The run is a function of the
 * per-attempt outcomes; the store's dispatch method is proved to follow it.
 */
module Retry {
  import opened Text
  import opened IngestionConfig

  /** What one POST to the parsing service produced. */
  datatype AttemptOutcome =
    | Response(statusCode: nat)
    | Timeout(message: string)
    | ConnectError(message: string)
    | OtherError(message: string)

  datatype RetryConfig = RetryConfig(maxRetries: nat, retryDelay: real, backoff: real)

  const DEFAULT_RETRY: RetryConfig := RetryConfig(MAX_RETRIES, RETRY_DELAY, RETRY_BACKOFF)

  /** How the dispatch ended: parsing accepted, or the failure detail that is recorded. */
  datatype DispatchOutcome = Accepted | Failed(detail: string)

  /** What the loop does after one attempt: stop with an outcome, or sleep and try again. */
  datatype Step = Stop(outcome: DispatchOutcome) | SleepAndRetry

  function Pow(b: real, k: nat): (r: real)
    ensures b > 0.0 ==> r > 0.0
  {
    if k == 0 then 1.0 else b * Pow(b, k - 1)
  }

  /** RETRY_DELAY * RETRY_BACKOFF ** attempt */
  function BackoffDelay(cfg: RetryConfig, attempt: nat): real
  {
    cfg.retryDelay * Pow(cfg.backoff, attempt)
  }

  /** The first n backoff delays. */
  function Schedule(cfg: RetryConfig, n: nat): (r: seq<real>)
    ensures |r| == n
    ensures forall k :: 0 <= k < n ==> r[k] == BackoffDelay(cfg, k)
  {
    seq(n, k requires 0 <= k => BackoffDelay(cfg, k))
  }

  /**
   * The schedule is geometric: it starts at RETRY_DELAY and each delay is
   * the previous one times RETRY_BACKOFF.
   */
  lemma ScheduleGeometric(cfg: RetryConfig, n: nat)
    ensures n > 0 ==> Schedule(cfg, n)[0] == cfg.retryDelay
    ensures forall k :: 0 < k < n ==> Schedule(cfg, n)[k] == Schedule(cfg, n)[k - 1] * cfg.backoff
  {
    forall k | 0 < k < n
      ensures BackoffDelay(cfg, k) == BackoffDelay(cfg, k - 1) * cfg.backoff
    {
      BackoffStep(cfg, k);
    }
  }

  /** With a backoff of at least 1 and a non-negative delay, the waits never shrink. */
  lemma ScheduleNonDecreasing(cfg: RetryConfig, n: nat)
    requires cfg.backoff >= 1.0 && cfg.retryDelay >= 0.0
    ensures forall k :: 0 < k < n ==> Schedule(cfg, n)[k - 1] <= Schedule(cfg, n)[k]
  {
    forall k | 0 < k < n
      ensures BackoffDelay(cfg, k - 1) <= BackoffDelay(cfg, k)
    {
      BackoffStep(cfg, k);
      DelayNonNegative(cfg, k - 1);
      GrowsByFactor(BackoffDelay(cfg, k - 1), cfg.backoff);
    }
  }

  /** One more attempt multiplies the delay by the backoff. */
  lemma BackoffStep(cfg: RetryConfig, k: nat)
    requires k > 0
    ensures BackoffDelay(cfg, k) == BackoffDelay(cfg, k - 1) * cfg.backoff
  {
    var p := Pow(cfg.backoff, k - 1);
    assert Pow(cfg.backoff, k) == cfg.backoff * p;
    MulRotate(cfg.retryDelay, cfg.backoff, p);
  }

  lemma MulRotate(d: real, b: real, p: real)
    ensures d * (b * p) == (d * p) * b
  {
  }

  lemma DelayNonNegative(cfg: RetryConfig, k: nat)
    requires cfg.backoff >= 1.0 && cfg.retryDelay >= 0.0
    ensures BackoffDelay(cfg, k) >= 0.0
  {
  }

  lemma GrowsByFactor(x: real, b: real)
    requires x >= 0.0 && b >= 1.0
    ensures x <= x * b
  {
  }

  /** Whether a status code asks for another attempt: rate limiting or a server error. */
  predicate IsRetryableStatus(code: nat)
  {
    code == 429 || code >= 500
  }

  /**
   * The decision taken after attempt number `attempt` (counting from 0):
   * only 200 is success; 429 and 5xx always sleep; other codes fail with
   * "HTTP <code>"; timeouts and connection errors sleep unless this was the
   * last attempt; any other exception fails at once.
   */
  function Classify(cfg: RetryConfig, o: AttemptOutcome, attempt: nat): (s: Step)
    ensures s == Stop(Accepted) <==> o == Response(200)
    ensures s.SleepAndRetry? <==>
      (o.Response? && IsRetryableStatus(o.statusCode)) ||
      ((o.Timeout? || o.ConnectError?) && attempt + 1 < cfg.maxRetries)
    ensures o.Response? && o.statusCode != 200 && !IsRetryableStatus(o.statusCode) ==>
      s == Stop(Failed("HTTP " + NatToString(o.statusCode)))
    ensures (o.Timeout? || o.ConnectError?) && attempt + 1 >= cfg.maxRetries ==> s == Stop(Failed(o.message))
    ensures o.OtherError? ==> s == Stop(Failed(o.message))
  {
    match o
    case Response(code) =>
      if code == 200 then Stop(Accepted)
      else if IsRetryableStatus(code) then SleepAndRetry
      else Stop(Failed("HTTP " + NatToString(code)))
    case Timeout(msg) => if attempt + 1 < cfg.maxRetries then SleepAndRetry else Stop(Failed(msg))
    case ConnectError(msg) => if attempt + 1 < cfg.maxRetries then SleepAndRetry else Stop(Failed(msg))
    case OtherError(msg) => Stop(Failed(msg))
  }

  /** The delays slept, the number of POSTs made, and the final outcome. */
  datatype Run = Run(delays: seq<real>, calls: nat, outcome: DispatchOutcome)

  const MAX_RETRIES_EXCEEDED: string := "Max retries exceeded"

  /** The rest of the loop, from attempt `attempt` on, given the outcome of every attempt. */
  function DispatchFrom(cfg: RetryConfig, network: nat -> AttemptOutcome, attempt: nat): Run
    requires attempt <= cfg.maxRetries
    decreases cfg.maxRetries - attempt
  {
    if attempt == cfg.maxRetries then Run([], 0, Failed(MAX_RETRIES_EXCEEDED))
    else match Classify(cfg, network(attempt), attempt)
      case Stop(out) => Run([], 1, out)
      case SleepAndRetry =>
        var rest := DispatchFrom(cfg, network, attempt + 1);
        Run([BackoffDelay(cfg, attempt)] + rest.delays, 1 + rest.calls, rest.outcome)
  }

  /** One attempt that retries: its delay comes first, then the rest of the loop. */
  lemma RetryStep(cfg: RetryConfig, network: nat -> AttemptOutcome, attempt: nat)
    requires attempt < cfg.maxRetries
    requires Classify(cfg, network(attempt), attempt).SleepAndRetry?
    ensures var rest := DispatchFrom(cfg, network, attempt + 1);
      DispatchFrom(cfg, network, attempt) == Run([BackoffDelay(cfg, attempt)] + rest.delays, 1 + rest.calls, rest.outcome)
  {
  }

  /** One attempt that stops: it is the last call and decides the outcome. */
  lemma StopStep(cfg: RetryConfig, network: nat -> AttemptOutcome, attempt: nat)
    requires attempt < cfg.maxRetries
    requires Classify(cfg, network(attempt), attempt).Stop?
    ensures DispatchFrom(cfg, network, attempt) == Run([], 1, Classify(cfg, network(attempt), attempt).outcome)
  {
  }

  function Dispatch(cfg: RetryConfig, network: nat -> AttemptOutcome): Run
  {
    DispatchFrom(cfg, network, 0)
  }

  /**
   * The dispatch loop is at attempt `attempt` having slept `delays` and made
   * `calls` POSTs: what remains of the run is DispatchFrom at `attempt`.
   */
  ghost predicate RunSoFar(cfg: RetryConfig, network: nat -> AttemptOutcome, attempt: nat, delays: seq<real>, calls: nat)
  {
    && attempt <= cfg.maxRetries
    && var rest := DispatchFrom(cfg, network, attempt);
       Dispatch(cfg, network) == Run(delays + rest.delays, calls + rest.calls, rest.outcome)
  }

  lemma RunSoFarStart(cfg: RetryConfig, network: nat -> AttemptOutcome)
    ensures RunSoFar(cfg, network, 0, [], 0)
  {
    assert [] + DispatchFrom(cfg, network, 0).delays == DispatchFrom(cfg, network, 0).delays;
  }

  /** An attempt that retries adds its backoff delay and one call. */
  lemma RunSoFarRetry(cfg: RetryConfig, network: nat -> AttemptOutcome, attempt: nat, delays: seq<real>, calls: nat)
    requires RunSoFar(cfg, network, attempt, delays, calls) && attempt < cfg.maxRetries
    requires Classify(cfg, network(attempt), attempt).SleepAndRetry?
    ensures RunSoFar(cfg, network, attempt + 1, delays + [BackoffDelay(cfg, attempt)], calls + 1)
  {
    RetryStep(cfg, network, attempt);
    var rest := DispatchFrom(cfg, network, attempt + 1);
    assert (delays + [BackoffDelay(cfg, attempt)]) + rest.delays == delays + ([BackoffDelay(cfg, attempt)] + rest.delays);
  }

  /** An attempt that stops ends the run with one more call and its own outcome. */
  lemma RunSoFarStop(cfg: RetryConfig, network: nat -> AttemptOutcome, attempt: nat, delays: seq<real>, calls: nat)
    requires RunSoFar(cfg, network, attempt, delays, calls) && attempt < cfg.maxRetries
    requires Classify(cfg, network(attempt), attempt).Stop?
    ensures Dispatch(cfg, network) == Run(delays, calls + 1, Classify(cfg, network(attempt), attempt).outcome)
  {
    StopStep(cfg, network, attempt);
    assert delays + [] == delays;
  }

  /** Running out of attempts ends the run with "Max retries exceeded". */
  lemma RunSoFarExhausted(cfg: RetryConfig, network: nat -> AttemptOutcome, delays: seq<real>, calls: nat)
    requires RunSoFar(cfg, network, cfg.maxRetries, delays, calls)
    ensures Dispatch(cfg, network) == Run(delays, calls, Failed(MAX_RETRIES_EXCEEDED))
  {
    assert delays + [] == delays;
  }

  /**
   * The dispatch loop: POST attempt after attempt, stop on the first
   * attempt the policy says stops, otherwise sleep the backoff delay, and
   * fail with "Max retries exceeded" when the attempts run out.
   */
  method RunDispatch(cfg: RetryConfig, network: nat -> AttemptOutcome) returns (run: Run)
    ensures run == Dispatch(cfg, network)
  {
    var delays: seq<real> := [];
    var calls: nat := 0;
    var attempt: nat := 0;
    RunSoFarStart(cfg, network);
    while attempt < cfg.maxRetries
      invariant calls == attempt
      invariant RunSoFar(cfg, network, attempt, delays, calls)
    {
      var o := network(attempt);
      match Classify(cfg, o, attempt) {
        case Stop(out) =>
          RunSoFarStop(cfg, network, attempt, delays, calls);
          return Run(delays, calls + 1, out);
        case SleepAndRetry =>
          RunSoFarRetry(cfg, network, attempt, delays, calls);
          delays := delays + [BackoffDelay(cfg, attempt)];
          calls := calls + 1;
      }
      attempt := attempt + 1;
    }
    RunSoFarExhausted(cfg, network, delays, calls);
    run := Run(delays, calls, Failed(MAX_RETRIES_EXCEEDED));
  }

  /**
   * The first attempt at or after `from` whose classification stops the
   * loop, or `cfg.maxRetries` when every remaining attempt retries.
   */
  function FirstStop(cfg: RetryConfig, network: nat -> AttemptOutcome, from: nat): (r: nat)
    requires from <= cfg.maxRetries
    ensures from <= r <= cfg.maxRetries
    ensures forall j :: from <= j < r ==> Classify(cfg, network(j), j).SleepAndRetry?
    ensures r < cfg.maxRetries ==> Classify(cfg, network(r), r).Stop?
    decreases cfg.maxRetries - from
  {
    if from == cfg.maxRetries then from
    else if Classify(cfg, network(from), from).Stop? then from
    else FirstStop(cfg, network, from + 1)
  }

  /**
   * The loop from attempt `from`: it sleeps the backoff delays of the
   * attempts that retry, makes one call per attempt up to and including the
   * first that stops, and ends with that attempt's outcome, or with
   * "Max retries exceeded" when none stops.
   */
  lemma {:induction false} DispatchFromCharacterised(cfg: RetryConfig, network: nat -> AttemptOutcome, from: nat)
    requires from <= cfg.maxRetries
    ensures var r := FirstStop(cfg, network, from);
      DispatchFrom(cfg, network, from) ==
        if r < cfg.maxRetries
        then Run(Schedule(cfg, r)[from..], r - from + 1, Classify(cfg, network(r), r).outcome)
        else Run(Schedule(cfg, r)[from..], r - from, Failed(MAX_RETRIES_EXCEEDED))
    decreases cfg.maxRetries - from
  {
    var r := FirstStop(cfg, network, from);
    if from < cfg.maxRetries && Classify(cfg, network(from), from).SleepAndRetry? {
      DispatchFromCharacterised(cfg, network, from + 1);
      assert FirstStop(cfg, network, from + 1) == r;
      assert Schedule(cfg, r)[from..] == [BackoffDelay(cfg, from)] + Schedule(cfg, r)[from + 1..];
    }
  }

  /** Every run makes at most maxRetries calls and sleeps a prefix of the backoff schedule, at most once per call. */
  lemma DispatchBounds(cfg: RetryConfig, network: nat -> AttemptOutcome)
    ensures Dispatch(cfg, network).calls <= cfg.maxRetries
    ensures |Dispatch(cfg, network).delays| <= Dispatch(cfg, network).calls
    ensures Dispatch(cfg, network).delays == Schedule(cfg, |Dispatch(cfg, network).delays|)
    ensures cfg.maxRetries > 0 ==> Dispatch(cfg, network).calls > 0
  {
    DispatchFromCharacterised(cfg, network, 0);
  }

  /**
   * Parsing is accepted exactly when some attempt gets HTTP 200 and every
   * attempt before it asked for a retry; that attempt is the last call.
   */
  lemma AcceptedIff(cfg: RetryConfig, network: nat -> AttemptOutcome)
    ensures Dispatch(cfg, network).outcome == Accepted <==>
      exists k :: 0 <= k < cfg.maxRetries && network(k) == Response(200) &&
        (forall j :: 0 <= j < k ==> Classify(cfg, network(j), j).SleepAndRetry?)
  {
    DispatchFromCharacterised(cfg, network, 0);
    var r := FirstStop(cfg, network, 0);
    if Dispatch(cfg, network).outcome == Accepted {
      assert r < cfg.maxRetries && network(r) == Response(200);
    }
    if k :| (0 <= k < cfg.maxRetries && network(k) == Response(200) &&
             (forall j :: 0 <= j < k ==> Classify(cfg, network(j), j).SleepAndRetry?)) {
      assert Classify(cfg, network(k), k).Stop?;
      assert r == k;
    }
  }

  /**
   * An attempt that stops the loop — success, a non-retryable status, an
   * unexpected exception, or a connection problem on the last attempt —
   * is the last call, and the delays slept are those of the attempts before it.
   */
  lemma StopsAtFirstStop(cfg: RetryConfig, network: nat -> AttemptOutcome, k: nat)
    requires k < cfg.maxRetries
    requires Classify(cfg, network(k), k).Stop?
    requires forall j :: 0 <= j < k ==> Classify(cfg, network(j), j).SleepAndRetry?
    ensures Dispatch(cfg, network) == Run(Schedule(cfg, k), k + 1, Classify(cfg, network(k), k).outcome)
  {
    DispatchFromCharacterised(cfg, network, 0);
    assert FirstStop(cfg, network, 0) == k;
  }

  /** A non-200 status that is neither 429 nor 5xx fails with "HTTP <code>" and is not retried. */
  lemma ClientErrorStops(cfg: RetryConfig, network: nat -> AttemptOutcome, k: nat)
    requires k < cfg.maxRetries
    requires network(k).Response? && network(k).statusCode != 200 && !IsRetryableStatus(network(k).statusCode)
    requires forall j :: 0 <= j < k ==> Classify(cfg, network(j), j).SleepAndRetry?
    ensures Dispatch(cfg, network).calls == k + 1
    ensures Dispatch(cfg, network).outcome == Failed("HTTP " + NatToString(network(k).statusCode))
  {
    StopsAtFirstStop(cfg, network, k);
  }

  /**
   * When every attempt is rate limited or a server error, the loop sleeps
   * after every attempt, the last one included, and then fails with
   * "Max retries exceeded".
   */
  lemma PersistentOverload(cfg: RetryConfig, network: nat -> AttemptOutcome)
    requires forall j :: 0 <= j < cfg.maxRetries ==> network(j).Response? && IsRetryableStatus(network(j).statusCode)
    ensures Dispatch(cfg, network) == Run(Schedule(cfg, cfg.maxRetries), cfg.maxRetries, Failed(MAX_RETRIES_EXCEEDED))
  {
    DispatchFromCharacterised(cfg, network, 0);
  }

  /**
   * When every attempt times out, the loop sleeps after all but the last
   * attempt and records the last attempt's error text, without sleeping.
   */
  lemma PersistentTimeout(cfg: RetryConfig, network: nat -> AttemptOutcome)
    requires cfg.maxRetries > 0
    requires forall j :: 0 <= j < cfg.maxRetries ==> network(j).Timeout?
    ensures Dispatch(cfg, network) ==
      Run(Schedule(cfg, cfg.maxRetries - 1), cfg.maxRetries, Failed(network(cfg.maxRetries - 1).message))
  {
    var k := cfg.maxRetries - 1;
    assert forall j :: 0 <= j < k ==> Classify(cfg, network(j), j).SleepAndRetry?;
    StopsAtFirstStop(cfg, network, k);
  }

  /** With no attempts allowed nothing is called and the dispatch fails. */
  lemma NoAttempts(cfg: RetryConfig, network: nat -> AttemptOutcome)
    requires cfg.maxRetries == 0
    ensures Dispatch(cfg, network) == Run([], 0, Failed(MAX_RETRIES_EXCEEDED))
  {
  }

  /** The default settings sleep 5, 10, then 20 seconds. */
  lemma DefaultSchedule()
    ensures DEFAULT_RETRY.maxRetries == 3
    ensures Schedule(DEFAULT_RETRY, 3) == [5.0, 10.0, 20.0]
  {
    assert Pow(2.0, 1) == 2.0;
    assert Pow(2.0, 2) == 4.0;
  }

  /**
   * With the defaults, three 503 responses exhaust the budget after 35
   * seconds of sleeping, even when a fourth attempt would have succeeded.
   */
  lemma ThreeServerErrorsExhaust(network: nat -> AttemptOutcome)
    requires network(0) == Response(503) && network(1) == Response(503) && network(2) == Response(503)
    requires network(3) == Response(200)
    ensures Dispatch(DEFAULT_RETRY, network) == Run([5.0, 10.0, 20.0], 3, Failed(MAX_RETRIES_EXCEEDED))
  {
    PersistentOverload(DEFAULT_RETRY, network);
    DefaultSchedule();
  }
}
