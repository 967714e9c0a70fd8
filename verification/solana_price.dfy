/** The SOL/USD price hook as a deterministic state machine. A state holds the nullable price,
    the loading flag, the last error and the retry count: failures counted since the last
    success or `retry()`, which stops growing at the fallback threshold. A fetch attempt is
    two events, `Begin` when it starts loading and `Settle` when the outcome of its request is
    known (`FetchPrice` is one whole attempt); the user's `retry()` is `Retry`. The network request, JSON parsing, timers and React scheduling are not modelled:
    the outcome of each request is an input. */
module SolanaPrice {
  import opened Wrappers

  /** The price adopted after repeated failures, in USD. */
  const FallbackPrice: real := 165.0

  /** A failure that finds this many earlier failures switches to the fallback price. */
  const FailuresBeforeFallback: nat := 2

  /** Polling periods in milliseconds: quick retries while failing, a minute otherwise. */
  const RetryIntervalMs: nat := 5000
  const RefreshIntervalMs: nat := 60000

  datatype PriceError =
    | RequestFailed           // the request or the JSON decoding threw
    | HttpStatus(status: int) // the response was not ok
    | InvalidPriceData        // the payload has no truthy `solana.usd`

  /** What one request produced. `Received(None)` is a payload without a `solana.usd` value. */
  datatype FetchOutcome =
    | NetworkFailure
    | HttpFailure(status: int)
    | Received(usd: Option<real>)

  datatype PriceState = PriceState(price: Option<real>, loading: bool, error: Option<PriceError>, retryCount: nat)

  datatype Event = Begin | Settle(outcome: FetchOutcome) | Retry

  /** The hook's state before the first attempt. */
  function Initial(): PriceState {
    PriceState(None, true, None, 0)
  }

  /** The error an outcome raises inside the attempt, or None when it carries a usable price. */
  function OutcomeError(o: FetchOutcome): (r: Option<PriceError>)
    ensures r.None? <==> o.Received? && o.usd.Some? && o.usd.value != 0.0
  {
    match o
    case NetworkFailure => Some(RequestFailed)
    case HttpFailure(status) => Some(HttpStatus(status))
    case Received(usd) =>
      if usd.Some? && usd.value != 0.0 then None else Some(InvalidPriceData)
  }

  /** The start of `fetchPrice`: loading is set and the error cleared, nothing else. */
  function BeginAttempt(s: PriceState): (r: PriceState)
    ensures r.loading && r.error.None?
    ensures r.(loading := s.loading, error := s.error) == s
  {
    s.(loading := true, error := None)
  }

  /** The end of `fetchPrice`: either the received price is adopted or the failure is handled,
      and loading always ends. */
  function SettleAttempt(s: PriceState, o: FetchOutcome): (r: PriceState)
    ensures !r.loading
    ensures s.price.Some? ==> r.price.Some?
    ensures r.error.Some? ==> r.price == s.price && r.retryCount == s.retryCount + 1
    ensures OutcomeError(o).None? ==>
              r == PriceState(Some(o.usd.value), false, None, 0)
    ensures OutcomeError(o).Some? && s.retryCount >= FailuresBeforeFallback ==>
              r == PriceState(Some(FallbackPrice), false, None, s.retryCount)
    ensures OutcomeError(o).Some? && s.retryCount < FailuresBeforeFallback ==>
              r == PriceState(s.price, false, OutcomeError(o), s.retryCount + 1)
  {
    match OutcomeError(o)
    case None =>
      s.(price := Some(o.usd.value), error := None, retryCount := 0, loading := false)
    case Some(err) =>
      if s.retryCount >= FailuresBeforeFallback then
        s.(price := Some(FallbackPrice), error := None, loading := false)
      else
        s.(error := Some(err), retryCount := s.retryCount + 1, loading := false)
  }

  /** One whole attempt of `fetchPrice`, from its start to its outcome. */
  function FetchPrice(s: PriceState, o: FetchOutcome): (r: PriceState)
    ensures !r.loading
    ensures s.price.Some? ==> r.price.Some?
    ensures r.error.Some? ==> r.price == s.price && r.retryCount == s.retryCount + 1
  {
    SettleAttempt(BeginAttempt(s), o)
  }

  /** Starting the attempt leaves no trace once its outcome is applied: settling alone has the
      effect of a whole attempt. */
  lemma SettleIsWholeAttempt(s: PriceState, o: FetchOutcome)
    ensures SettleAttempt(s, o) == FetchPrice(s, o)
  {
  }

  /** `retry()`: forget the failures seen so far. */
  function Retry(s: PriceState): (r: PriceState)
    ensures r.retryCount == 0
    ensures r.(retryCount := s.retryCount) == s
  {
    s.(retryCount := 0)
  }

  function Step(s: PriceState, e: Event): PriceState {
    match e
    case Begin => BeginAttempt(s)
    case Settle(o) => SettleAttempt(s, o)
    case Retry => Retry(s)
  }

  /** The state after a sequence of events. */
  function Run(s: PriceState, events: seq<Event>): PriceState
    decreases |events|
  {
    if events == [] then s else Run(Step(s, events[0]), events[1..])
  }

  /** The polling period chosen for a state. */
  function RefreshInterval(s: PriceState): (ms: nat)
    ensures ms == RetryIntervalMs <==> s.error.Some? && s.retryCount < 3
    ensures ms == RetryIntervalMs || ms == RefreshIntervalMs
  {
    if s.error.Some? && s.retryCount < 3 then RetryIntervalMs else RefreshIntervalMs
  }

  /** A successful fetch sets the price to the received value, clears the error and resets
      the failure count, and touches nothing else. */
  lemma SuccessfulFetch(s: PriceState, usd: real)
    requires usd != 0.0
    ensures FetchPrice(s, Received(Some(usd)))
            == PriceState(Some(usd), false, None, 0)
  {
  }

  /** A failed attempt either switches to the fallback price with the error cleared (after two
      earlier failures) or records the error and counts the failure, leaving the price alone. */
  lemma FailedFetch(s: PriceState, o: FetchOutcome)
    requires OutcomeError(o).Some?
    ensures s.retryCount >= 2 ==>
              FetchPrice(s, o) == PriceState(Some(FallbackPrice), false, None, s.retryCount)
    ensures s.retryCount < 2 ==>
              FetchPrice(s, o) == PriceState(s.price, false, OutcomeError(o), s.retryCount + 1)
  {
  }

  /** A payload whose `solana.usd` is missing or zero is handled exactly like a request that
      failed: only the recorded reason differs. */
  lemma InvalidPayloadIsFailure(s: PriceState, usd: Option<real>)
    requires usd.None? || usd.value == 0.0
    ensures FetchPrice(s, Received(usd)).price == FetchPrice(s, NetworkFailure).price
    ensures FetchPrice(s, Received(usd)).retryCount == FetchPrice(s, NetworkFailure).retryCount
    ensures FetchPrice(s, Received(usd)).loading == FetchPrice(s, NetworkFailure).loading
    ensures FetchPrice(s, Received(usd)).error.Some? == FetchPrice(s, NetworkFailure).error.Some?
    ensures FetchPrice(s, Received(usd)).error.Some? ==> FetchPrice(s, Received(usd)).error == Some(InvalidPriceData)
  {
  }

  /** What every reachable state satisfies: at most two failures are counted, and a price once
      adopted is a truthy number. */
  predicate Consistent(s: PriceState) {
    s.retryCount <= FailuresBeforeFallback && (s.price.Some? ==> s.price.value != 0.0)
  }

  lemma StepKeepsConsistent(s: PriceState, e: Event)
    requires Consistent(s)
    ensures Consistent(Step(s, e))
  {
  }

  lemma {:induction false} RunKeepsConsistent(s: PriceState, events: seq<Event>)
    requires Consistent(s)
    ensures Consistent(Run(s, events))
    decreases |events|
  {
    if events != [] {
      StepKeepsConsistent(s, events[0]);
      RunKeepsConsistent(Step(s, events[0]), events[1..]);
    }
  }

  /** Once a price is set, no sequence of fetches and retries makes it null again. */
  lemma {:induction false} PriceNeverCleared(s: PriceState, events: seq<Event>)
    requires s.price.Some?
    ensures Run(s, events).price.Some?
    decreases |events|
  {
    if events != [] {
      PriceNeverCleared(Step(s, events[0]), events[1..]);
    }
  }

  /** Running a sequence and then one more event is stepping from where the sequence ends. */
  lemma {:induction false} RunAppend(s: PriceState, events: seq<Event>, e: Event)
    ensures Run(s, events + [e]) == Step(Run(s, events), e)
    decreases |events|
  {
    if events != [] {
      assert (events + [e])[0] == events[0];
      assert (events + [e])[1..] == events[1..] + [e];
      RunAppend(Step(s, events[0]), events[1..], e);
    }
  }

  /** After `events`, the last `Begin` or `Settle` event is a `Begin`, or there is none and
      the state was already loading: every `Settle` is followed by a later `Begin`, and either
      some `Begin` occurred or the state was loading. */
  predicate LastAttemptOpen(s: PriceState, events: seq<Event>) {
    && (forall i :: 0 <= i < |events| && events[i].Settle? ==>
          exists j :: i < j < |events| && events[j].Begin?)
    && (s.loading || exists j :: 0 <= j < |events| && events[j].Begin?)
  }

  /** The hook is loading exactly when the last attempt event is a start; the first outcome
      to arrive ends loading even if another attempt started later is still pending. */
  lemma {:induction false} LoadingIffLastAttemptOpen(s: PriceState, events: seq<Event>)
    ensures Run(s, events).loading <==> LastAttemptOpen(s, events)
    decreases |events|
  {
    if events != [] {
      var n := |events| - 1;
      var prefix, e := events[..n], events[n];
      assert events == prefix + [e];
      RunAppend(s, prefix, e);
      LoadingIffLastAttemptOpen(s, prefix);
      assert forall i :: 0 <= i < n ==> events[i] == prefix[i];
      match e
      case Begin =>
        assert LastAttemptOpen(s, events) by {
          assert events[n].Begin?;
        }
      case Settle(o) =>
        assert !LastAttemptOpen(s, events) by {
          assert events[n].Settle?;
        }
      case Retry =>
        if LastAttemptOpen(s, prefix) {
          assert LastAttemptOpen(s, events);
        }
        if LastAttemptOpen(s, events) {
          assert LastAttemptOpen(s, prefix);
        }
    }
  }

  /** From the start the hook is loading until some outcome arrives, and afterwards exactly
      when an attempt has started since the last outcome. */
  lemma LoadingFromStart(events: seq<Event>)
    ensures Run(Initial(), events).loading <==>
              forall i :: 0 <= i < |events| && events[i].Settle? ==>
                exists j :: i < j < |events| && events[j].Begin?
  {
    LoadingIffLastAttemptOpen(Initial(), events);
  }

  /** In every reachable state the failure count is below three, so the quick retry period is
      chosen exactly when an error is recorded. */
  lemma ReachableInterval(events: seq<Event>)
    ensures RefreshInterval(Run(Initial(), events)) == RetryIntervalMs <==> Run(Initial(), events).error.Some?
  {
    RunKeepsConsistent(Initial(), events);
  }

  /** From a state with no counted failures, two failed attempts keep the price and a third
      adopts the fallback price with the error cleared. */
  lemma ThirdFailureAdoptsFallback(s: PriceState, o1: FetchOutcome, o2: FetchOutcome, o3: FetchOutcome)
    requires s.retryCount == 0
    requires OutcomeError(o1).Some? && OutcomeError(o2).Some? && OutcomeError(o3).Some?
    ensures FetchPrice(FetchPrice(s, o1), o2).price == s.price
    ensures FetchPrice(FetchPrice(s, o1), o2).error == OutcomeError(o2)
    ensures FetchPrice(FetchPrice(FetchPrice(s, o1), o2), o3).price == Some(FallbackPrice)
    ensures FetchPrice(FetchPrice(FetchPrice(s, o1), o2), o3).error.None?
  {
  }
}
