/** The retry wrapper around one call of the generation backend
    (`generateWithRetry`): which failures are retried, the exponential
    backoff it waits before each retry, and the empty-response check.
    The backend itself is an oracle: one outcome per attempt the wrapper may
    make. Waiting is not modelled as time; the wrapper reports the delays it
    would have waited, in order. */
module Retry {
  import opened Types
  import opened JsString

  const MaxRetries: nat := 3
  const BaseDelayMs: nat := 2000

  /** The JavaScript values an SDK error can carry in `status` or `code`. */
  datatype JsValue = Undefined | Num(n: int) | Str(s: string)

  /** JavaScript truthiness, as `||` tests it. */
  predicate Truthy(v: JsValue) {
    match v
    case Undefined => false
    case Num(n) => n != 0
    case Str(s) => s != ""
  }

  /** `String(v)`. */
  function JsToString(v: JsValue): string {
    match v
    case Undefined => "undefined"
    case Num(n) => NumberToString(n)
    case Str(s) => s
  }

  /** An error object thrown by the backend call or by the wrapper itself. */
  datatype ApiError = ApiError(message: string, status: JsValue, code: JsValue)

  /** The error thrown when the backend answers without text: a plain
      `Error`, with neither `status` nor `code`. */
  const EmptyResponseError := ApiError("Empty response from Gemini", Undefined, Undefined)

  /** What one backend call does: it resolves with a response whose `text`
      may be missing, or it rejects with an error. */
  datatype Attempt = Responded(text: Option<string>) | Failed(error: ApiError)

  /** The backend's behaviour for every attempt the wrapper may make: the
      first call and up to `MaxRetries` retries. */
  type Attempts = s: seq<Attempt> | |s| == MaxRetries + 1
    witness [Responded(None), Responded(None), Responded(None), Responded(None)]

  /** How a call of the wrapper settles. */
  datatype Outcome = Returned(text: string) | Threw(error: ApiError)

  /** The settled outcome and every backoff delay waited before it, in ms. */
  datatype Generation = Generation(outcome: Outcome, waits: seq<nat>)

  /** `error.status || error.code`. */
  function StatusOf(e: ApiError): JsValue {
    if Truthy(e.status) then e.status else e.code
  }

  const ResourceExhausted := "RESOURCE_EXHAUSTED"

  /** The retry condition, less the retry budget: status strictly equal to
      429, 500 or 503, or a status whose string form contains the
      resource-exhaustion marker. */
  predicate IsRetryable(e: ApiError) {
    var status := StatusOf(e);
    status == Num(429) || status == Num(500) || status == Num(503) ||
    Contains(JsToString(status), ResourceExhausted)
  }

  function Pow2(k: nat): (r: nat)
    ensures r >= 1
  {
    if k == 0 then 1 else 2 * Pow2(k - 1)
  }

  /** The wait before retry number `retries` (counting from 0). */
  function BackoffDelay(retries: nat): nat {
    BaseDelayMs * Pow2(retries)
  }

  /** The `try` block for one attempt: the trimmed text, or the error
      thrown, which for a missing or empty text is `EmptyResponseError`. */
  function AttemptOutcome(a: Attempt): Outcome {
    match a
    case Responded(text) =>
      if text == None || text.value == "" then Threw(EmptyResponseError)
      else Returned(Trim(text.value))
    case Failed(e) => Threw(e)
  }

  /** The attempt ends in a failure the `catch` block would retry if the
      budget allowed it. */
  predicate FailsRetryably(a: Attempt) {
    var o := AttemptOutcome(a);
    o.Threw? && IsRetryable(o.error)
  }

  /** `generateWithRetry(model, prompt, retries)`: attempt number `retries`
      is `attempts[retries]`; each retry is preceded by one wait. */
  function GenerateWithRetry(attempts: Attempts, retries: nat): (g: Generation)
    requires retries <= MaxRetries
    ensures |g.waits| <= MaxRetries - retries
    decreases MaxRetries - retries
  {
    match AttemptOutcome(attempts[retries])
    case Returned(text) => Generation(Returned(text), [])
    case Threw(e) =>
      if retries < MaxRetries && IsRetryable(e) then
        var rest := GenerateWithRetry(attempts, retries + 1);
        Generation(rest.outcome, [BackoffDelay(retries)] + rest.waits)
      else
        Generation(Threw(e), [])
  }

  /** How the wrapper settles: with the outcome of the last attempt it
      makes; every attempt before that one failed retryably, and the last
      one either did not or used up the retry budget. */
  lemma GenerateWithRetrySettles(attempts: Attempts, retries: nat)
    requires retries <= MaxRetries
    ensures var g := GenerateWithRetry(attempts, retries);
      var last := retries + |g.waits|;
      g.outcome == AttemptOutcome(attempts[last]) &&
      (forall j :: retries <= j < last ==> FailsRetryably(attempts[j])) &&
      (last < MaxRetries ==> !FailsRetryably(attempts[last]))
  {
    SettlesWithLastAttempt(attempts, retries);
    RetriedOnlyRetryable(attempts, retries);
  }

  /** The first half of `GenerateWithRetrySettles`, by its own induction. */
  lemma {:induction false} SettlesWithLastAttempt(attempts: Attempts, retries: nat)
    requires retries <= MaxRetries
    ensures var g := GenerateWithRetry(attempts, retries);
      g.outcome == AttemptOutcome(attempts[retries + |g.waits|])
    decreases MaxRetries - retries
  {
    if retries < MaxRetries && FailsRetryably(attempts[retries]) {
      SettlesWithLastAttempt(attempts, retries + 1);
    }
  }

  /** The second half of `GenerateWithRetrySettles`, by its own induction. */
  lemma {:induction false} RetriedOnlyRetryable(attempts: Attempts, retries: nat)
    requires retries <= MaxRetries
    ensures var last := retries + |GenerateWithRetry(attempts, retries).waits|;
      (forall j :: retries <= j < last ==> FailsRetryably(attempts[j])) &&
      (last < MaxRetries ==> !FailsRetryably(attempts[last]))
    decreases MaxRetries - retries
  {
    if retries < MaxRetries && FailsRetryably(attempts[retries]) {
      RetriedOnlyRetryable(attempts, retries + 1);
    }
  }

  /** The wait before each retry doubles, starting from the base delay:
      the k-th wait is `2000 * 2^(retries + k)` ms. */
  lemma {:induction false} BackoffDelays(attempts: Attempts, retries: nat)
    requires retries <= MaxRetries
    ensures var w := GenerateWithRetry(attempts, retries).waits;
      forall k :: 0 <= k < |w| ==> w[k] == BackoffDelay(retries + k)
    decreases MaxRetries - retries
  {
    var w := GenerateWithRetry(attempts, retries).waits;
    if w != [] {
      BackoffDelays(attempts, retries + 1);
      assert w == [BackoffDelay(retries)] + GenerateWithRetry(attempts, retries + 1).waits;
    }
  }

  /** The wrapper as `generateBotReply` calls it, with no retries yet. */
  function Generate(attempts: Attempts): Generation {
    GenerateWithRetry(attempts, 0)
  }

  function Sum(s: seq<nat>): nat {
    if s == [] then 0 else s[0] + Sum(s[1..])
  }

  /** The retry condition, stated without `String(status)`: a number never
      renders with the marker, nor does `undefined`, so only a string
      status can match it. */
  lemma RetryableIff(e: ApiError)
    ensures IsRetryable(e) <==>
      StatusOf(e) in {Num(429), Num(500), Num(503)} ||
      (StatusOf(e).Str? && Contains(StatusOf(e).s, ResourceExhausted))
  {
    match StatusOf(e)
    case Num(n) => NumberOmits(n, ResourceExhausted);
    case Undefined => OmitsFirstChar(JsToString(Undefined), ResourceExhausted);
    case Str(_) =>
  }

  /** An error without `status` and `code` is never retried. */
  lemma BareErrorNotRetryable(message: string)
    ensures !IsRetryable(ApiError(message, Undefined, Undefined))
  {
    OmitsFirstChar(JsToString(Undefined), ResourceExhausted);
  }

  /** The wrapper makes at most four attempts: the waits are a prefix of
      2000, 4000, 8000, so their total is at most 14000 ms. */
  lemma BackoffSchedule(attempts: Attempts)
    ensures Generate(attempts).waits <= [2000, 4000, 8000]
    ensures Sum(Generate(attempts).waits) <= 14000
  {
    var w := Generate(attempts).waits;
    BackoffDelays(attempts, 0);
    assert Pow2(1) == 2 && Pow2(2) == 4;
    if |w| == 3 {
      assert w == [2000, 4000, 8000];
      assert Sum(w) == 2000 + Sum([4000, 8000]);
    } else if |w| == 2 {
      assert w == [2000, 4000];
      assert Sum(w) == 2000 + Sum([4000]);
    } else if |w| == 1 {
      assert w == [2000];
    }
  }

  /** A backend that always fails retryably: the wrapper rethrows the error
      of the fourth attempt after exactly three waits. */
  lemma AlwaysRetryableFailsAfterThreeRetries(attempts: Attempts)
    requires forall j :: 0 <= j < |attempts| ==> FailsRetryably(attempts[j])
    ensures Generate(attempts).outcome == AttemptOutcome(attempts[MaxRetries]) && Generate(attempts).outcome.Threw?
    ensures Generate(attempts).waits == [2000, 4000, 8000]
  {
    var g := Generate(attempts);
    BackoffDelays(attempts, 0);
    GenerateWithRetrySettles(attempts, 0);
    assert |g.waits| == 3;
    assert Pow2(1) == 2 && Pow2(2) == 4;
  }

  /** Two retryable failures and then a reply: the trimmed reply comes back
      after exactly two waits. */
  lemma TwoFailuresThenReply(attempts: Attempts, text: string)
    requires FailsRetryably(attempts[0]) && FailsRetryably(attempts[1])
    requires attempts[2] == Responded(Some(text)) && text != ""
    ensures Generate(attempts) == Generation(Returned(Trim(text)), [2000, 4000])
  {
    var g := Generate(attempts);
    BackoffDelays(attempts, 0);
    GenerateWithRetrySettles(attempts, 0);
    assert |g.waits| == 2;
    assert Pow2(1) == 2;
  }

  /** A missing or empty text fails at once, with no wait, whatever the
      later attempts would have done. */
  lemma EmptyResponseFailsAtOnce(attempts: Attempts)
    requires attempts[0] == Responded(None) || attempts[0] == Responded(Some(""))
    ensures Generate(attempts) == Generation(Threw(EmptyResponseError), [])
  {
    BareErrorNotRetryable(EmptyResponseError.message);
  }

  /** A failure that is not retryable is rethrown unchanged, with no wait. */
  lemma NonRetryableRethrown(attempts: Attempts, e: ApiError)
    requires attempts[0] == Failed(e) && !IsRetryable(e)
    ensures Generate(attempts) == Generation(Threw(e), [])
  {
  }

  /** A non-empty text of white space only passes the empty-response check,
      so the wrapper returns the empty string instead of throwing. */
  lemma WhiteSpaceReplyReturnsEmpty(attempts: Attempts, text: string)
    requires attempts[0] == Responded(Some(text)) && text != "" && AllWhiteSpace(text)
    ensures Generate(attempts) == Generation(Returned(""), [])
  {
    TrimEmptyIff(text);
  }
}
