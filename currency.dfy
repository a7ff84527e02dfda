/**
 * The USD -> EUR exchange-rate cache of backend/app/services/currency.py.
 *
 * The service keeps a cached rate and its last-update instant, which is the
 * configured one until a refresh succeeds. Asking for the rate refetches it
 * from the rate source when that instant is absent, more than one day old,
 * or a refresh is forced. A refresh commits both fields together, and every
 * failure of the fetch is swallowed, leaving the cache as it was.
 *
 * The clock and the rate source are inputs: `now` is an instant in whole
 * seconds and `RateFetch` is what the one HTTP request of a refresh produced.
 */
module Currency {
  import opened Wrappers

  /** `timedelta(days=1)`, in seconds. */
  const OneDay: int := 86_400

  /** The HTTP status the rate source must answer with for its body to be read. */
  const StatusOk: int := 200

  /** The part of the rate source's JSON body that the service reads: the `rates` object, if any. */
  datatype RateBody = RateBody(rates: Option<map<string, real>>)

  /** What the request to the rate source produced. */
  datatype RateFetch =
    | Raised(message: string)                  // any exception: transport error, timeout, body not JSON
    | Answered(status: int, body: RateBody)    // an HTTP response whose body parsed as JSON

  /** The two cached fields, as a value. */
  datatype RateState = RateState(rate: real, lastUpdate: Option<int>)

  /**
   * Whether a call must try to refresh: `lastUpdate` is absent (none was
   * configured and no refresh has succeeded yet), it is strictly more than
   * one day old, or the caller forces it.
   */
  predicate NeedsRefresh(lastUpdate: Option<int>, now: int, force: bool) {
    lastUpdate.None? || now - lastUpdate.value > OneDay || force
  }

  /**
   * The EUR rate a fetch delivers, if it delivers one: only a status-200
   * answer whose body has a `rates` object holding an `EUR` entry does.
   */
  function FetchedRate(fetch: RateFetch): (r: Option<real>)
    ensures r.Some? <==>
      fetch.Answered? && fetch.status == StatusOk &&
      fetch.body.rates.Some? && "EUR" in fetch.body.rates.value
    ensures r.Some? ==> r.value == fetch.body.rates.value["EUR"]
  {
    match fetch
    case Raised(_) => None
    case Answered(status, body) =>
      if status == StatusOk && body.rates.Some? && "EUR" in body.rates.value
      then Some(body.rates.value["EUR"])
      else None
  }

  /** The cache after one call at time `now`: the reference for `GetExchangeRate`. */
  function Refreshed(s: RateState, now: int, force: bool, fetch: RateFetch): (t: RateState)
    // the cache changes only when a refresh was due and the fetch delivered a rate ...
    ensures t != s ==> NeedsRefresh(s.lastUpdate, now, force) && FetchedRate(fetch).Some?
    // ... and then both fields change together: the fetched rate, stamped `now`
    ensures NeedsRefresh(s.lastUpdate, now, force) && FetchedRate(fetch).Some? ==>
      t == RateState(FetchedRate(fetch).value, Some(now))
  {
    if NeedsRefresh(s.lastUpdate, now, force) && FetchedRate(fetch).Some? then
      RateState(FetchedRate(fetch).value, Some(now))
    else
      s
  }

  /** A rate that was just refreshed at `now` is fresh at `now`: an unforced call at the same instant keeps it. */
  lemma RefreshedIsFresh(s: RateState, now: int, force: bool, fetch: RateFetch, next: RateFetch)
    requires NeedsRefresh(s.lastUpdate, now, force) && FetchedRate(fetch).Some?
    ensures !NeedsRefresh(Refreshed(s, now, force, fetch).lastUpdate, now, false)
    ensures Refreshed(Refreshed(s, now, force, fetch), now, false, next) == Refreshed(s, now, force, fetch)
  {
  }

  /**
   * A fetch that delivers no rate (an exception, a non-200 status, a body
   * without `rates.EUR`) leaves both cached fields as they were, forced or not.
   */
  lemma FailedFetchKeepsCache(s: RateState, now: int, force: bool, fetch: RateFetch)
    requires FetchedRate(fetch).None?
    ensures Refreshed(s, now, force, fetch) == s
  {
  }

  /** The boundary of the freshness test: exactly one day old is fresh, one second more is stale. */
  lemma OneDayBoundary(t: int)
    ensures !NeedsRefresh(Some(t), t + OneDay, false)
    ensures NeedsRefresh(Some(t), t + OneDay + 1, false)
  {
  }

  /** One call to `get_exchange_rate` in a sequence of calls. */
  datatype Call = Call(now: int, force: bool, fetch: RateFetch)

  /** The cache after a sequence of calls made one after the other. */
  function Replay(s: RateState, calls: seq<Call>): RateState
    decreases |calls|
  {
    if calls == [] then s
    else Replay(Refreshed(s, calls[0].now, calls[0].force, calls[0].fetch), calls[1..])
  }

  /** How many of those calls try to reach the rate source. */
  function Attempts(s: RateState, calls: seq<Call>): nat
    decreases |calls|
  {
    if calls == [] then 0
    else
      (if NeedsRefresh(s.lastUpdate, calls[0].now, calls[0].force) then 1 else 0)
      + Attempts(Refreshed(s, calls[0].now, calls[0].force, calls[0].fetch), calls[1..])
  }

  /**
   * While the cached instant is at most one day old, unforced calls never
   * contact the rate source: once the cache holds a rate stamped `t`, unforced
   * calls made no later than one day after `t` never reach the rate source and
   * never change the cache.
   */
  lemma {:induction false} NoFetchWithinADay(s: RateState, calls: seq<Call>)
    requires s.lastUpdate.Some?
    requires forall i :: 0 <= i < |calls| ==>
      !calls[i].force && calls[i].now - s.lastUpdate.value <= OneDay
    ensures Attempts(s, calls) == 0
    ensures Replay(s, calls) == s
    decreases |calls|
  {
    if calls != [] {
      assert !NeedsRefresh(s.lastUpdate, calls[0].now, calls[0].force);
      assert Refreshed(s, calls[0].now, calls[0].force, calls[0].fetch) == s;
      forall i | 0 <= i < |calls[1..]|
        ensures !calls[1..][i].force && calls[1..][i].now - s.lastUpdate.value <= OneDay
      {
        assert calls[1..][i] == calls[i + 1];
      }
      NoFetchWithinADay(s, calls[1..]);
    }
  }

  /**
   * A failed fetch is retried: when an unforced call finds the cache stale and
   * its fetch delivers no rate, the cache stays stale, so every later unforced
   * call contacts the rate source again. The rate is therefore updated, not
   * fetched, at most once a day.
   */
  lemma FailedFetchRetried(s: RateState, now: int, fetch: RateFetch, later: int)
    requires NeedsRefresh(s.lastUpdate, now, false) && FetchedRate(fetch).None?
    requires later >= now
    ensures NeedsRefresh(Refreshed(s, now, false, fetch).lastUpdate, later, false)
  {
  }

  /**
   * The rate source is the only way the rate changes: a positive cached rate
   * stays positive as long as every rate the source delivers is positive (the
   * service itself does not check the fetched value).
   */
  lemma {:induction false} PositiveRateKept(s: RateState, calls: seq<Call>)
    requires s.rate > 0.0
    requires forall i :: 0 <= i < |calls| && FetchedRate(calls[i].fetch).Some? ==>
      FetchedRate(calls[i].fetch).value > 0.0
    ensures Replay(s, calls).rate > 0.0
    decreases |calls|
  {
    if calls != [] {
      var s' := Refreshed(s, calls[0].now, calls[0].force, calls[0].fetch);
      assert s'.rate > 0.0;
      forall i | 0 <= i < |calls[1..]| && FetchedRate(calls[1..][i].fetch).Some?
        ensures FetchedRate(calls[1..][i].fetch).value > 0.0
      {
        assert calls[1..][i] == calls[i + 1];
      }
      PositiveRateKept(s', calls[1..]);
    }
  }

  /** The process-wide rate cache. */
  class CurrencyService {
    var usdToEurRate: real
    var lastUpdate: Option<int>

    /** The two fields, as a value. */
    function State(): RateState
      reads this
    {
      RateState(usdToEurRate, lastUpdate)
    }

    /** Starts from the configured rate and last-update instant. */
    constructor (initialRate: real, initialUpdate: Option<int>)
      ensures State() == RateState(initialRate, initialUpdate)
    {
      usdToEurRate := initialRate;
      lastUpdate := initialUpdate;
    }

    /**
     * `get_exchange_rate`: refreshes the cache when it is due or forced, then
     * returns the cached rate. Never fails: a raised exception, a non-200
     * status or a body without `rates.EUR` leave both fields as they were.
     * `attempted` says whether the rate source was contacted.
     */
    method GetExchangeRate(now: int, forceUpdate: bool, fetch: RateFetch) returns (rate: real, attempted: bool)
      modifies this
      ensures attempted == NeedsRefresh(old(lastUpdate), now, forceUpdate)
      ensures State() == Refreshed(old(State()), now, forceUpdate, fetch)
      ensures rate == usdToEurRate
    {
      attempted := lastUpdate.None? || now - lastUpdate.value > OneDay || forceUpdate;
      if attempted {
        match fetch {
          case Raised(_) =>
            // the error is logged and the existing rate kept
          case Answered(status, body) =>
            if status == StatusOk {
              if body.rates.Some? && "EUR" in body.rates.value {
                usdToEurRate := body.rates.value["EUR"];
                lastUpdate := Some(now);
              }
            }
        }
      }
      rate := usdToEurRate;
    }

    /** `usd_to_eur`: converts an amount with the rate of an unforced `GetExchangeRate`. */
    method UsdToEur(amountUsd: real, now: int, fetch: RateFetch) returns (amountEur: real)
      modifies this
      ensures State() == Refreshed(old(State()), now, false, fetch)
      ensures amountEur == amountUsd * usdToEurRate
    {
      var rate, _ := GetExchangeRate(now, false, fetch);
      amountEur := amountUsd * rate;
    }
  }
}
