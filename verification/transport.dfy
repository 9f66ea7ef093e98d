/** The retry state machine of `graphQLRequest`.

    HTTP, the OAuth2 decorator, body reading and JSON decoding are replaced by
    an abstract transcript: the outcome each attempt observes. The function
    walks the transcript exactly as the Go loop walks its attempts. */
module Transport {
  import opened Wrappers
  import opened Models
  import opened Backoff

  /** maxRetries: at most MaxRetries + 1 attempts in all. */
  const MaxRetries: nat := 5
  const StatusOK: int := 200
  const StatusTooManyRequests: int := 429

  /** The body of a 200 response after JSON decoding. */
  datatype Decoded<T> = Malformed | Envelope(response: GraphQLResponse<T>)

  /** What one attempt observes. A body is read before its status is
      inspected, so a failed read ends the call whatever the status was. */
  datatype Attempt<T> =
    | RequestBuildFailed
    | NetworkFailure
    | BodyReadFailed
    | Received(status: int, body: string, decoded: Decoded<T>)

  datatype RequestError =
    | BuildFailed
    | ExecuteFailed
    | ReadBodyFailed
    | RateLimitExceeded(retries: nat, body: string)
    | UnexpectedStatus(code: int, body: string)
    | UnmarshalFailed
    | GraphQLErrors(errors: seq<GraphQLError>)

  /** The outcome attempt `k` observes (attempts are numbered from 0). */
  type Transcript<T> = nat -> Attempt<T>

  /** The jitter drawn before the sleep that follows attempt `k`. */
  type Jitter = nat -> JitterSample

  /** The whole call: its result, how many attempts it made, and the delays
      it slept between them. */
  datatype RequestRun<T> = RequestRun(result: Result<T, RequestError>, attempts: nat, delays: seq<nat>)

  /** Network errors and HTTP 429 are the only outcomes worth another attempt. */
  predicate Retryable<T>(a: Attempt<T>) {
    a.NetworkFailure? || (a.Received? && a.status == StatusTooManyRequests)
  }

  /** The result of an attempt that is not followed by another one. */
  function Settle<T>(a: Attempt<T>): (r: Result<T, RequestError>)
    ensures r.Success? <==>
      && a.Received? && a.status == StatusOK
      && a.decoded.Envelope? && |a.decoded.response.errors| == 0
    ensures r.Success? ==> r.value == a.decoded.response.data
    ensures a.Received? && a.status != StatusOK && a.status != StatusTooManyRequests ==>
      r == Failure(UnexpectedStatus(a.status, a.body))
    ensures a.Received? && a.status == StatusOK && a.decoded.Envelope? && |a.decoded.response.errors| > 0 ==>
      r == Failure(GraphQLErrors(a.decoded.response.errors))
  {
    match a
    case RequestBuildFailed => Failure(BuildFailed)
    case NetworkFailure => Failure(ExecuteFailed)
    case BodyReadFailed => Failure(ReadBodyFailed)
    case Received(status, body, decoded) =>
      if status == StatusTooManyRequests then Failure(RateLimitExceeded(MaxRetries, body))
      else if status != StatusOK then Failure(UnexpectedStatus(status, body))
      else match decoded
        case Malformed => Failure(UnmarshalFailed)
        case Envelope(response) =>
          if |response.errors| > 0 then Failure(GraphQLErrors(response.errors))
          else Success(response.data)
  }

  /** The loop from attempt `attempt` onwards: the result, and the number
      of attempts made in all. */
  function RunFrom<T>(transcript: Transcript<T>, attempt: nat): (r: (Result<T, RequestError>, nat))
    requires attempt <= MaxRetries
    ensures attempt < r.1 <= MaxRetries + 1
    ensures forall k :: attempt <= k < r.1 - 1 ==> Retryable(transcript(k))
    ensures r.1 <= MaxRetries ==> !Retryable(transcript(r.1 - 1))
    ensures r.0 == Settle(transcript(r.1 - 1))
    decreases MaxRetries - attempt
  {
    var outcome := transcript(attempt);
    if Retryable(outcome) && attempt < MaxRetries then RunFrom(transcript, attempt + 1)
    else (Settle(outcome), attempt + 1)
  }

  /** The first `count` sleeps of a call: the sleep after attempt `k` is the
      backoff for `k` with that attempt's jitter. */
  function Delays(count: nat, jitter: Jitter): (delays: seq<nat>)
    ensures |delays| == count
    ensures forall k :: 0 <= k < count ==> delays[k] == CalculateBackoff(k, BaseDelay, MaxDelay, jitter(k))
  {
    if count == 0 then [] else Delays(count - 1, jitter) + [CalculateBackoff(count - 1, BaseDelay, MaxDelay, jitter(count - 1))]
  }

  /** graphQLRequest: attempts run while they end retryably and the budget
      lasts; the first other outcome, or the last permitted attempt, decides
      the result. */
  function GraphQLRequest<T>(transcript: Transcript<T>, jitter: Jitter): (r: RequestRun<T>)
    ensures 1 <= r.attempts <= MaxRetries + 1
    ensures forall k :: 0 <= k < r.attempts - 1 ==> Retryable(transcript(k))
    ensures r.attempts <= MaxRetries ==> !Retryable(transcript(r.attempts - 1))
    ensures r.result == Settle(transcript(r.attempts - 1))
    ensures |r.delays| == r.attempts - 1
    ensures forall k :: 0 <= k < |r.delays| ==> r.delays[k] == CalculateBackoff(k, BaseDelay, MaxDelay, jitter(k))
  {
    var (result, attempts) := RunFrom(transcript, 0);
    RequestRun(result, attempts, Delays(attempts - 1, jitter))
  }

  /** Six consecutive 429 responses: six attempts, then the rate-limit error;
      there is never a seventh attempt. */
  lemma RateLimitExhaustion<T>(transcript: Transcript<T>, jitter: Jitter)
    requires forall k :: 0 <= k <= MaxRetries ==>
      transcript(k).Received? && transcript(k).status == StatusTooManyRequests
    ensures var r := GraphQLRequest(transcript, jitter);
            && r.attempts == MaxRetries + 1
            && r.result == Failure(RateLimitExceeded(MaxRetries, transcript(MaxRetries).body))
  {
  }

  /** Six consecutive network failures end with the execution error. */
  lemma NetworkExhaustion<T>(transcript: Transcript<T>, jitter: Jitter)
    requires forall k :: 0 <= k <= MaxRetries ==> transcript(k).NetworkFailure?
    ensures var r := GraphQLRequest(transcript, jitter);
            r.attempts == MaxRetries + 1 && r.result == Failure(ExecuteFailed)
  {
  }

  /** An outcome that is not retryable ends the call on that same attempt:
      another status, a body that cannot be read or decoded, GraphQL errors. */
  lemma FatalOutcomeStopsAt<T>(transcript: Transcript<T>, jitter: Jitter, k: nat)
    requires k <= MaxRetries
    requires forall j :: 0 <= j < k ==> Retryable(transcript(j))
    requires !Retryable(transcript(k))
    ensures var r := GraphQLRequest(transcript, jitter);
            r.attempts == k + 1 && r.result == Settle(transcript(k))
  {
  }

  /** A 200 response carrying GraphQL errors is never retried. */
  lemma GraphQLErrorsNotRetried<T>(transcript: Transcript<T>, jitter: Jitter)
    requires transcript(0).Received? && transcript(0).status == StatusOK
    requires transcript(0).decoded.Envelope? && |transcript(0).decoded.response.errors| > 0
    ensures var r := GraphQLRequest(transcript, jitter);
            && r.attempts == 1 && r.delays == []
            && r.result == Failure(GraphQLErrors(transcript(0).decoded.response.errors))
  {
    FatalOutcomeStopsAt(transcript, jitter, 0);
  }

  /** Sleeps only follow attempts 0 to 4, whose capped delays are at most
      16 s, so no slept delay reaches maxDelay even with jitter. */
  lemma SleptDelaysBelowCap<T>(transcript: Transcript<T>, jitter: Jitter)
    ensures var r := GraphQLRequest(transcript, jitter);
            forall k :: 0 <= k < |r.delays| ==> r.delays[k] <= 17_600_000_000 < MaxDelay
  {
    var r := GraphQLRequest(transcript, jitter);
    forall k | 0 <= k < |r.delays|
      ensures r.delays[k] <= 17_600_000_000
    {
      Pow2Monotone(k, 4);
      assert Pow2(4) == 16;
      MulMonotone(BaseDelay, Pow2(k), 16);
      assert CappedBackoff(k, BaseDelay, MaxDelay) <= 16_000_000_000;
      BackoffWindow(k, BaseDelay, MaxDelay, jitter(k));
    }
  }
}
