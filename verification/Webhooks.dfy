/** deliver_webhook: signed POSTs with capped geometric backoff. */
module Webhooks {
  import opened Records

  datatype Response = Status(code: int) | ConnectionError(reason: string)

  /** One signed POST. */
  datatype Post = Post(deliveryId: string, event: string, body: Bytes, timestamp: string, signature: string)

  datatype Failure = NoAttemptMade | Answered(response: Response)

  datatype DeliveryResult = DeliveryResult(delivered: bool, attempts: nat, lastError: Option<Failure>)

  /** A 2xx answer. */
  ghost predicate Accepted(r: Response) {
    r.Status? && 200 <= r.code < 300
  }

  function Pow2(n: nat): real {
    if n == 0 then 1.0 else 2.0 * Pow2(n - 1)
  }

  /** _backoff_seconds, for a 1-based attempt. */
  function BackoffSeconds(base: real, attempt: nat): real
    requires attempt >= 1
  {
    var delay := base * Pow2(attempt - 1);
    if delay <= 30.0 then delay else 30.0
  }

  /** The first `n` delays added up. */
  ghost function TotalBackoff(base: real, n: nat): real {
    if n == 0 then 0.0 else TotalBackoff(base, n - 1) + BackoffSeconds(base, n)
  }

  /** The sum of `n` delays without the cap, in closed form. */
  ghost function Geometric(base: real, n: nat): real {
    base * (Pow2(n) - 1.0)
  }

  lemma GeometricStep(base: real, n: nat)
    ensures Geometric(base, n + 1) == Geometric(base, n) + base * Pow2(n)
    ensures Geometric(base, 0) == 0.0
  {
    var p := Pow2(n);
    calc {
      base * (2.0 * p - 1.0);
      base * ((p - 1.0) + p);
      base * (p - 1.0) + base * p;
    }
  }

  lemma {:induction false} DelaysGrow(base: real, n: nat)
    requires base >= 0.0
    ensures 0.0 <= base * Pow2(n) <= base * Pow2(n + 1)
  {
    assert base * Pow2(n + 1) == base * Pow2(n) + base * Pow2(n);
    if n > 0 { DelaysGrow(base, n - 1); }
  }

  lemma {:induction false} BackoffBelowCap(base: real, n: nat)
    requires base >= 0.0
    ensures 0.0 <= TotalBackoff(base, n) <= 30.0 * n as real
  {
    if n > 0 {
      BackoffBelowCap(base, n - 1);
      DelaysGrow(base, n - 1);
    }
  }

  lemma {:induction false} BackoffBelowGeometric(base: real, n: nat)
    ensures TotalBackoff(base, n) <= Geometric(base, n)
  {
    GeometricStep(base, 0);
    if n > 0 {
      BackoffBelowGeometric(base, n - 1);
      GeometricStep(base, n - 1);
    }
  }

  lemma {:induction false} BackoffIsGeometric(base: real, n: nat)
    requires base >= 0.0 && n > 0 && base * Pow2(n - 1) <= 30.0
    ensures TotalBackoff(base, n) == Geometric(base, n)
  {
    GeometricStep(base, n - 1);
    if n > 1 {
      DelaysGrow(base, n - 2);
      BackoffIsGeometric(base, n - 1);
    } else {
      GeometricStep(base, 0);
    }
  }

  /** The delays of `n` retries never exceed 30 seconds each, nor the uncapped geometric
      sum; and they are that sum as long as the last of them is not capped. */
  lemma BackoffIsBounded(base: real, n: nat)
    requires base >= 0.0
    ensures 0.0 <= TotalBackoff(base, n) <= 30.0 * n as real
    ensures TotalBackoff(base, n) <= Geometric(base, n)
    ensures n > 0 && base * Pow2(n - 1) <= 30.0 ==> TotalBackoff(base, n) == Geometric(base, n)
  {
    BackoffBelowCap(base, n);
    BackoffBelowGeometric(base, n);
    if n > 0 && base * Pow2(n - 1) <= 30.0 { BackoffIsGeometric(base, n); }
  }

  /** `attempts` is the first accepted attempt up to the limit, or the limit itself. */
  ghost predicate FirstAccepted(respond: int -> Response, limit: int, r: DeliveryResult) {
    && (r.delivered ==> 1 <= r.attempts <= limit && Accepted(respond(r.attempts)))
    && (forall i :: 1 <= i <= limit && (r.delivered ==> i < r.attempts) ==> !Accepted(respond(i)))
    && (!r.delivered ==> r.attempts == if limit > 0 then limit else 0)
  }

  /** deliver_webhook.  `respond(i)` is what attempt `i` gets back, `clock(i)` its time, and
      `sign` the HMAC over timestamp and body. */
  method DeliverWebhook(deliveryId: string, event: string, body: Bytes, limit: int, base: real,
                        respond: int -> Response, clock: int -> string, sign: (string, Bytes) -> string)
    returns (r: DeliveryResult, posts: seq<Post>, slept: real)
    ensures FirstAccepted(respond, limit, r)
    ensures r.delivered <==> exists i :: 1 <= i <= limit && respond(i).Status? && 200 <= respond(i).code < 300
    ensures |posts| == r.attempts
    ensures forall i :: 0 <= i < |posts| ==>
              posts[i] == Post(deliveryId, event, body, clock(i + 1), sign(clock(i + 1), body))
    ensures r.lastError == if r.delivered then None
                           else Some(if limit <= 0 then NoAttemptMade else Answered(respond(limit)))
    ensures slept == TotalBackoff(base, if r.attempts == 0 then 0 else r.attempts - 1)
    ensures base >= 0.0 && r.attempts > 0 ==>
              slept <= 30.0 * (r.attempts - 1) as real && slept <= Geometric(base, r.attempts - 1)
  {
    posts, slept := [], 0.0;
    var lastError := NoAttemptMade;
    var attempt := 0;
    while attempt < limit
      invariant 0 <= attempt && (attempt <= limit || attempt == 0)
      invariant |posts| == attempt
      invariant forall i :: 0 <= i < |posts| ==>
                  posts[i] == Post(deliveryId, event, body, clock(i + 1), sign(clock(i + 1), body))
      invariant forall i :: 1 <= i <= attempt ==> !Accepted(respond(i))
      invariant lastError == if attempt == 0 then NoAttemptMade else Answered(respond(attempt))
      invariant slept == TotalBackoff(base, if attempt == 0 then 0 else if attempt < limit then attempt
                                            else attempt - 1)
    {
      attempt := attempt + 1;
      var timestamp := clock(attempt);
      posts := posts + [Post(deliveryId, event, body, timestamp, sign(timestamp, body))];
      var response := respond(attempt);
      if response.Status? && 200 <= response.code < 300 {
        if base >= 0.0 { BackoffIsBounded(base, attempt - 1); }
        return DeliveryResult(true, attempt, None), posts, slept;
      }
      lastError := Answered(response);
      if attempt < limit { slept := slept + BackoffSeconds(base, attempt); }
    }
    if base >= 0.0 && attempt > 0 { BackoffIsBounded(base, attempt - 1); }
    r := DeliveryResult(false, attempt, Some(lastError));
  }
}
