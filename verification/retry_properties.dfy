/** Properties of the REST connection's retry recursion taken as a whole:
    the trace of attempts it makes and concrete retry scenarios. */
module RetryProperties {
  import opened Common
  import opened Strings
  import opened OpenAIConnection

  /** The sleeps after `count` attempts made from counter value `from`. */
  function Pauses(cfg: Config, network: int -> Attempt, from: int, count: nat): seq<int>
    decreases count
  {
    if count == 0 then [] else PauseAfter(cfg, network(from)) + Pauses(cfg, network, from + 1, count - 1)
  }

  /** Every attempt but the last of a call was retryable. */
  lemma {:induction false} RetriedBeforeLast(cfg: Config, o: Oracles, prompt: string, keyOverride: Option<string>,
                                             retry: int, network: int -> Attempt)
    ensures var n := |GetResponse(cfg, o, prompt, keyOverride, retry, network).sent|;
      forall j :: retry <= j < retry + n - 1 ==> Retryable(cfg, network(j))
    decreases cfg.apiRetries - retry
  {
    if retry < cfg.apiRetries {
      AttemptStep(cfg, o, prompt, keyOverride, retry, network);
      if Retryable(cfg, network(retry)) {
        RetriedBeforeLast(cfg, o, prompt, keyOverride, retry + 1, network);
      }
    }
  }

  /** How the last attempt of a call ends it: a retryable last attempt means
      the counter reached `api_retries` and the call gave up after sleeping
      after every attempt; any other last attempt settled the call, after a
      sleep following each earlier attempt. */
  lemma {:induction false} LastAttempt(cfg: Config, o: Oracles, prompt: string, keyOverride: Option<string>,
                                       retry: int, network: int -> Attempt)
    ensures var e := GetResponse(cfg, o, prompt, keyOverride, retry, network);
      var n := |e.sent|;
      && (n > 0 && Retryable(cfg, network(retry + n - 1)) ==>
            && e.outcome == Failure(RetriesExhausted)
            && retry + n == cfg.apiRetries
            && e.sleeps == Pauses(cfg, network, retry, n))
      && (n > 0 && !Retryable(cfg, network(retry + n - 1)) ==>
            && e.outcome == Settle(cfg, o, prompt, network(retry + n - 1))
            && e.sleeps == Pauses(cfg, network, retry, n - 1))
    decreases cfg.apiRetries - retry
  {
    if retry < cfg.apiRetries {
      AttemptStep(cfg, o, prompt, keyOverride, retry, network);
      if Retryable(cfg, network(retry)) {
        LastAttempt(cfg, o, prompt, keyOverride, retry + 1, network);
      }
    }
  }

  /** The whole trace of a call made with counter `retry`: the `n` requests
      sent were attempts `retry .. retry+n-1`, none is sent once the counter
      has reached `api_retries`, every attempt but the last was retryable,
      and the last one ends the call as `LastAttempt` says. */
  lemma RetryTrace(cfg: Config, o: Oracles, prompt: string, keyOverride: Option<string>,
                   retry: int, network: int -> Attempt)
    ensures var e := GetResponse(cfg, o, prompt, keyOverride, retry, network);
      var n := |e.sent|;
      && (n == 0 <==> retry >= cfg.apiRetries)
      && (n == 0 ==> e.outcome == Failure(RetriesExhausted) && e.sleeps == [])
      && (forall j :: retry <= j < retry + n - 1 ==> Retryable(cfg, network(j)))
      && (n > 0 && Retryable(cfg, network(retry + n - 1)) ==>
            && e.outcome == Failure(RetriesExhausted)
            && retry + n == cfg.apiRetries
            && e.sleeps == Pauses(cfg, network, retry, n))
      && (n > 0 && !Retryable(cfg, network(retry + n - 1)) ==>
            && e.outcome == Settle(cfg, o, prompt, network(retry + n - 1))
            && e.sleeps == Pauses(cfg, network, retry, n - 1))
  {
    RetriedBeforeLast(cfg, o, prompt, keyOverride, retry, network);
    LastAttempt(cfg, o, prompt, keyOverride, retry, network);
  }

  /** The counter is checked before every attempt: a call made with the
      default counter 0 sends at most `api_retries` requests in total, and
      none when `api_retries <= 0`. */
  lemma AtMostApiRetriesRequests(cfg: Config, o: Oracles, prompt: string, keyOverride: Option<string>,
                                 network: int -> Attempt)
    ensures var e := GetResponse(cfg, o, prompt, keyOverride, 0, network);
      && |e.sent| <= (if cfg.apiRetries > 0 then cfg.apiRetries else 0)
      && (cfg.apiRetries <= 0 ==> e.sent == [] && e.outcome == Failure(RetriesExhausted))
  {
  }

  /** A status other than 200 and 429 ends the call at once with an error
      naming the gateway and the status. */
  lemma OtherStatusIsFatal(cfg: Config, o: Oracles, prompt: string, keyOverride: Option<string>,
                           retry: int, network: int -> Attempt)
    requires retry < cfg.apiRetries
    requires network(retry).Answered? && network(retry).status != 200 && network(retry).status != 429
    ensures var e := GetResponse(cfg, o, prompt, keyOverride, retry, network);
      && e.sent == [BuildRequest(cfg, prompt, keyOverride)]
      && e.sleeps == []
      && e.outcome == Failure(GatewayError(GatewayName(cfg), network(retry).status, network(retry).text))
      && (e.outcome.error.gateway == "OpenRouter" <==> cfg.useOpenrouter)
  {
  }

  /** Any other `requests` exception escapes both handlers: the call raises
      at once, after its one request and without sleeping. */
  lemma UncaughtRequestErrorIsFatal(cfg: Config, o: Oracles, prompt: string, keyOverride: Option<string>,
                                    retry: int, network: int -> Attempt)
    requires retry < cfg.apiRetries && network(retry) == RequestFailed
    ensures var e := GetResponse(cfg, o, prompt, keyOverride, retry, network);
      e == Exchange(Failure(UncaughtRequestError), [BuildRequest(cfg, prompt, keyOverride)], [])
  {
  }

  /** A call that succeeds returned the first choice's content unchanged,
      from the answer of its last attempt, which had status 200. */
  lemma SuccessComesFromLastAnswer(cfg: Config, o: Oracles, prompt: string, keyOverride: Option<string>,
                                   retry: int, network: int -> Attempt)
    ensures var e := GetResponse(cfg, o, prompt, keyOverride, retry, network);
      e.outcome.Success? ==>
        var a := network(retry + |e.sent| - 1);
        && |e.sent| > 0
        && a.Answered? && a.status == 200
        && |a.body.choices| > 0
        && e.outcome.value.content == a.body.choices[0].content
        && e.outcome.value.message == a.body.choices[0].content
  {
    RetryTrace(cfg, o, prompt, keyOverride, retry, network);
  }

  /** With `api_retries = 3` and three rate-limited answers, the call gives up
      after three requests and three backoff sleeps: the limit counts
      attempts, not retries after a first attempt. */
  lemma ThreeRateLimitsExhaust(cfg: Config, o: Oracles, prompt: string, network: int -> Attempt)
    requires cfg.apiRetries == 3 && cfg.apiBackoff >= 0
    requires forall k :: 0 <= k < 3 ==> network(k).Answered? && network(k).status == 429
    ensures var e := GetResponse(cfg, o, prompt, None, 0, network);
      && e.outcome == Failure(RetriesExhausted)
      && |e.sent| == 3
      && e.sleeps == [cfg.apiBackoff, cfg.apiBackoff, cfg.apiBackoff]
  {
    assert network(0).status == 429 && network(1).status == 429 && network(2).status == 429;
    AttemptStep(cfg, o, prompt, None, 2, network);
    AttemptStep(cfg, o, prompt, None, 1, network);
    AttemptStep(cfg, o, prompt, None, 0, network);
  }

  /** Two rate-limited answers and then a 200 succeed on the third request
      after two backoff sleeps. */
  lemma TwoRateLimitsThenSuccess(cfg: Config, o: Oracles, prompt: string, network: int -> Attempt)
    requires cfg.apiRetries == 3 && cfg.apiBackoff >= 0
    requires forall k :: 0 <= k < 2 ==> network(k).Answered? && network(k).status == 429
    requires network(2).Answered? && network(2).status == 200 && |network(2).body.choices| > 0
    requires !HostedTokens(cfg) && network(2).body.usage.NoUsage?
    ensures var e := GetResponse(cfg, o, prompt, None, 0, network);
      && e.outcome.Success?
      && e.outcome.value.content == network(2).body.choices[0].content
      && |e.sent| == 3
      && e.sleeps == [cfg.apiBackoff, cfg.apiBackoff]
  {
    assert network(0).status == 429 && network(1).status == 429;
    AttemptStep(cfg, o, prompt, None, 2, network);
    AttemptStep(cfg, o, prompt, None, 1, network);
    AttemptStep(cfg, o, prompt, None, 0, network);
  }

  /** A read timeout is retried without sleeping, a connection error after
      sleeping 5 seconds. */
  lemma TimeoutThenConnectionError(cfg: Config, o: Oracles, prompt: string, network: int -> Attempt)
    requires cfg.apiRetries == 2
    requires network(0) == ReadTimedOut && network(1) == ConnectFailed
    ensures var e := GetResponse(cfg, o, prompt, None, 0, network);
      && e.outcome == Failure(RetriesExhausted)
      && |e.sent| == 2
      && e.sleeps == [5]
  {
  }
}
