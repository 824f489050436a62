/**
 The exchange-rate cache behind every quote (services/fx_rate_service.py):
 one fetched rate, a window in which it is served without asking again,
 and a ceiling on how old it may get while refreshes fail.

 Every use of the cache is one event: a look before the lock, the work done
 while holding it, or a reset.  Requests on several threads interleave
 their events in any order.
 */
module FxRates {
  import opened Arithmetic
  import opened Decimals
  import opened Wrappers

  // Clock readings; any fixed unit will do.
  type Time = int

  datatype FxError = RateUnavailable

  /** What the provider answered: nothing usable, or a number. */
  datatype Answer = Broken | Number(negative: bool, value: Dec)

  datatype Cached = Cached(expiresAt: Time, rate: nat, fetchedAt: Time)

  datatype Event =
    | Look(at: Time)
    | Refresh(checkedAt: Time, answer: Answer, answeredAt: Time)
    | Reset

  /** _quantise: millionths, half up; zero and below are refused first. */
  function Quantise(a: Answer): Result<nat, FxError> {
    if a.Broken? || a.negative || a.value.digits == 0 then Err(RateUnavailable)
    else
      match QuantizeHalfUp(a.value, 6)
      case Ok(rate) => Ok(rate)
      case Err(_) => Err(RateUnavailable)
  }

  // -- what the cache is for, told from its history alone ---------------------------

  /** A locked refresh asks the provider unless it finds the last fetch still fresh. */
  predicate Asks(history: seq<Event>, e: Event, window: nat) {
    && e.Refresh?
    && (LastFetch(history, window).None? || e.checkedAt >= LastFetch(history, window).value.fetchedAt + window)
  }

  /** The most recent fetch that succeeded since the last reset. */
  function LastFetch(history: seq<Event>, window: nat): Option<Cached>
    decreases |history|, 0
  {
    if history == [] then None
    else
      var before, e := history[..|history| - 1], history[|history| - 1];
      match e
      case Reset => None
      case Look(_) => LastFetch(before, window)
      case Refresh(checkedAt, answer, answeredAt) =>
        var last := LastFetch(before, window);
        if (last.None? || checkedAt >= last.value.fetchedAt + window) && Quantise(answer).Ok?
        then Some(Cached(answeredAt + window, Quantise(answer).value, answeredAt))
        else last
  }

  class RateCache {
    const window: nat
    const maxStale: nat
    var cached: Option<Cached>
    ghost var history: seq<Event>

    /** The cache holds the most recent successful fetch: no failure and no look ever touches it. */
    ghost predicate Valid()
      reads this
    {
      cached == LastFetch(history, window)
    }

    constructor (window: nat, maxStale: nat)
      ensures Valid() && history == [] && this.window == window && this.maxStale == maxStale
    {
      this.window, this.maxStale := window, maxStale;
      cached, history := None, [];
    }

    /** The unlocked check that opens _api_rate. */
    method TryCached(now: Time) returns (rate: Option<nat>)
      requires Valid()
      modifies this`history
      ensures Valid() && history == old(history) + [Look(now)]
      ensures rate.Some? <==> cached.Some? && now - cached.value.fetchedAt < window
      ensures rate.Some? ==> rate.value == cached.value.rate
    {
      LastFetchSteps(history, Look(now), window);
      history := history + [Look(now)];
      FetchesExpireAWindowLater(history, window);
      if cached.Some? && now < cached.value.expiresAt {
        return Some(cached.value.rate);
      }
      return None;
    }

    /** _fallback: the last good rate, unless it is too old to price with. */
    function Fallback(last: Cached, now: Time): (r: Result<nat, FxError>)
      ensures r.Ok? <==> now - last.fetchedAt <= maxStale
      ensures r.Ok? ==> r.value == last.rate
    {
      if now - last.fetchedAt > maxStale then Err(RateUnavailable) else Ok(last.rate)
    }

    /** The cache holds one answer's own rate, and for how long. */
    ghost predicate FetchedFrom(answer: Answer, answeredAt: Time)
      reads this
    {
      && Usable(answer) && cached.Some? && IsNearestMillionth(cached.value.rate, answer.value)
      && cached.value.fetchedAt == answeredAt && cached.value.expiresAt == answeredAt + window
    }

    /** The part of _api_rate that holds the lock. */
    method RefreshLocked(checkedAt: Time, answer: Answer, answeredAt: Time) returns (r: Result<nat, FxError>)
      requires Valid()
      modifies this
      ensures Valid() && history == old(history) + [Refresh(checkedAt, answer, answeredAt)]
      ensures r == Served(old(history), Refresh(checkedAt, answer, answeredAt), window, maxStale)
      ensures cached == old(cached) || FetchedFrom(answer, answeredAt)
    {
      AnswersAreServedExactly(answer);
      hide Usable, IsNearestMillionth;
      var e := Refresh(checkedAt, answer, answeredAt);
      FetchesExpireAWindowLater(history, window);
      LastFetchSteps(history, e, window);
      history := history + [e];
      if cached.Some? && checkedAt < cached.value.expiresAt {
        return Ok(cached.value.rate);
      }
      var fetched := Quantise(answer);
      if fetched.Err? {
        if cached.Some? {
          r := Fallback(cached.value, answeredAt);
          return;
        }
        return Err(RateUnavailable);
      }
      cached := Some(Cached(answeredAt + window, fetched.value, answeredAt));
      return fetched;
    }

    /** reset_api_cache */
    method Clear()
      requires Valid()
      modifies this
      ensures Valid() && cached.None? && history == old(history) + [Reset]
    {
      LastFetchSteps(history, Reset, window);
      history := history + [Reset];
      cached := None;
    }

    /** _api_rate, when no other thread comes between its two halves. */
    method ApiRate(started: Time, checkedAt: Time, answer: Answer, answeredAt: Time) returns (r: Result<nat, FxError>)
      requires Valid() && started <= checkedAt <= answeredAt
      modifies this
      ensures Valid()
      ensures r.Ok? ==> cached.Some? && r.value == cached.value.rate
      ensures r.Ok? && cached.value.fetchedAt != answeredAt ==>
                || started - cached.value.fetchedAt < window
                || answeredAt - cached.value.fetchedAt <= maxStale
      ensures cached == old(cached) || FetchedFrom(answer, answeredAt)
      ensures r.Err? ==>
                && cached == old(cached) && !Usable(answer)
                && (cached.Some? ==> answeredAt - cached.value.fetchedAt > maxStale)
    {
      var hit := TryCached(started);
      if hit.Some? {
        return Ok(hit.value);
      }
      AnswersAreServedExactly(answer);
      hide Usable, IsNearestMillionth, Quantise, FetchedFrom;
      ghost var before := history;
      LastFetchSteps(before, Refresh(checkedAt, answer, answeredAt), window);
      r := RefreshLocked(checkedAt, answer, answeredAt);
    }
  }

  lemma LastFetchSteps(history: seq<Event>, e: Event, window: nat)
    ensures
      LastFetch(history + [e], window) ==
      if e.Reset? then None
      else if Asks(history, e, window) && Quantise(e.answer).Ok? then
        Some(Cached(e.answeredAt + window, Quantise(e.answer).value, e.answeredAt))
      else LastFetch(history, window)
  {
  }

  lemma {:induction false} FetchesExpireAWindowLater(history: seq<Event>, window: nat)
    ensures LastFetch(history, window).Some? ==>
              LastFetch(history, window).value.expiresAt == LastFetch(history, window).value.fetchedAt + window
  {
    if history != [] {
      FetchesExpireAWindowLater(history[..|history| - 1], window);
    }
  }

  // -- the agreement, over every history ---------------------------------------------

  /** What a locked refresh serves. */
  function Served(history: seq<Event>, e: Event, window: nat, maxStale: nat): Result<nat, FxError>
    requires e.Refresh?
  {
    var last := LastFetch(history, window);
    if !Asks(history, e, window) then Ok(last.value.rate)
    else if Quantise(e.answer).Ok? then Quantise(e.answer)
    else if last.Some? && e.answeredAt - last.value.fetchedAt <= maxStale then Ok(last.value.rate)
    else Err(RateUnavailable)
  }

  /** `i` is the refresh whose successful fetch a history last remembers. */
  ghost predicate FetchedBy(history: seq<Event>, i: nat, window: nat) {
    && i < |history| && history[i].Refresh?
    && Asks(history[..i], history[i], window) && Quantise(history[i].answer).Ok?
    && forall j :: i < j < |history| ==>
         && !history[j].Reset?
         && !(Asks(history[..j], history[j], window) && Quantise(history[j].answer).Ok?)
  }

  /**
   The cache remembers a rate exactly if some fetch has succeeded since the
   last reset, and then it is the latest such fetch, at the age that fetch
   had: no failed refresh in between has renewed it.
   */
  lemma {:induction false} CacheIsTheLatestFetch(history: seq<Event>, window: nat)
    ensures LastFetch(history, window).Some? <==> exists i: nat :: FetchedBy(history, i, window)
    ensures forall i: nat :: FetchedBy(history, i, window) ==>
              LastFetch(history, window) == Some(FetchAt(history, i, window))
  {
    if history != [] {
      var n := |history| - 1;
      assert history == history[..n] + [history[n]];
      CacheIsTheLatestFetch(history[..n], window);
      CacheStaysTheLatestFetch(history[..n], history[n], window);
    }
  }

  /** What a successful refresh leaves in the cache. */
  function FetchAt(history: seq<Event>, i: nat, window: nat): Cached
    requires i < |history| && history[i].Refresh? && Quantise(history[i].answer).Ok?
  {
    Cached(history[i].answeredAt + window, Quantise(history[i].answer).value, history[i].answeredAt)
  }

  lemma CacheStaysTheLatestFetch(before: seq<Event>, e: Event, window: nat)
    requires LastFetch(before, window).Some? <==> exists i: nat :: FetchedBy(before, i, window)
    requires forall i: nat :: FetchedBy(before, i, window) ==>
               LastFetch(before, window) == Some(FetchAt(before, i, window))
    ensures
      var history := before + [e];
      && (LastFetch(history, window).Some? <==> exists i: nat :: FetchedBy(history, i, window))
      && forall i: nat :: FetchedBy(history, i, window) ==>
           LastFetch(history, window) == Some(FetchAt(history, i, window))
  {
    var history := before + [e];
    LastFetchSteps(before, e, window);
    FetchedByLast(before, e, window);
    forall i: nat | i < |before|
      ensures FetchedBy(history, i, window) <==>
                && FetchedBy(before, i, window) && !e.Reset?
                && !(Asks(before, e, window) && Quantise(e.answer).Ok?)
    {
      FetchedByExtends(before, e, i, window);
    }
    assert forall i: nat :: FetchedBy(history, i, window) ==> i < |history|;
    assert forall i: nat :: FetchedBy(before, i, window) ==> i < |before|;
    hide LastFetch, Asks, Quantise;
  }

  lemma FetchedByLast(before: seq<Event>, e: Event, window: nat)
    ensures FetchedBy(before + [e], |before|, window) <==>
              e.Refresh? && Asks(before, e, window) && Quantise(e.answer).Ok?
  {
    assert (before + [e])[..|before|] == before;
    hide Asks, Quantise;
  }

  lemma FetchedByExtends(before: seq<Event>, e: Event, i: nat, window: nat)
    requires i < |before|
    ensures FetchedBy(before + [e], i, window) <==>
              && FetchedBy(before, i, window) && !e.Reset?
              && !(Asks(before, e, window) && Quantise(e.answer).Ok?)
  {
    var history := before + [e];
    assert history[..|before|] == before;
    forall j: nat | j < |before|
      ensures history[..j] == before[..j] && history[j] == before[j]
    {
    }
    hide Asks, Quantise;
  }

  /** A served rate is the one just fetched, or one younger than the window, or at most the ceiling's age. */
  lemma ServedRatesAreRecentEnough(history: seq<Event>, e: Event, window: nat, maxStale: nat)
    requires e.Refresh?
    ensures
      var r, after := Served(history, e, window, maxStale), LastFetch(history + [e], window);
      && (r.Ok? ==>
            && after.Some? && r.value == after.value.rate
            && (after.value.fetchedAt == e.answeredAt
                || e.checkedAt - after.value.fetchedAt < window
                || e.answeredAt - after.value.fetchedAt <= maxStale))
      && (r.Err? <==>
            && Quantise(e.answer).Err? && Asks(history, e, window)
            && (after.None? || e.answeredAt - after.value.fetchedAt > maxStale))
      && (Quantise(e.answer).Err? ==> after == LastFetch(history, window))
  {
  }

  // -- the rate itself ----------------------------------------------------------------------

  /** r millionths is the nearest there is to an answer, half up. */
  ghost predicate IsNearestMillionth(r: nat, answer: Dec) {
    if answer.exp >= -6 then r == answer.digits * Pow10(answer.exp + 6)
    else
      var d := Pow10(-6 - answer.exp);
      2 * answer.digits - d < 2 * (r * d) <= 2 * answer.digits + d
  }

  /** A positive number of at most 28 digits in millionths. */
  ghost predicate Usable(a: Answer) {
    && a.Number? && !a.negative && a.value.digits > 0
    && exists r: nat :: r < 10_000_000_000_000_000_000_000_000_000 && IsNearestMillionth(r, a.value)
  }

  lemma NearestIsUnique(r: nat, r': nat, answer: Dec)
    requires IsNearestMillionth(r, answer) && IsNearestMillionth(r', answer)
    ensures r == r'
  {
    if answer.exp < -6 {
      var d := Pow10(-6 - answer.exp);
      HalfUpIsUnique(answer.digits, d, r);
      HalfUpIsUnique(answer.digits, d, r');
    }
  }

  lemma QuantizedIsNearest(a: Dec)
    ensures IsNearestMillionth(ShiftHalfUp(a.digits, a.exp + 6), a)
  {
  }

  /** Exactly the usable answers are served, each as the nearest millionth to it. */
  lemma AnswersAreServedExactly(a: Answer)
    ensures Quantise(a).Ok? <==> Usable(a)
    ensures Quantise(a).Ok? ==> IsNearestMillionth(Quantise(a).value, a.value)
  {
    if a.Number? {
      var r := ShiftHalfUp(a.value.digits, a.value.exp + 6);
      QuantizedIsNearest(a.value);
      forall r': nat | IsNearestMillionth(r', a.value)
        ensures r' == r
      {
        NearestIsUnique(r, r', a.value);
      }
    }
    hide IsNearestMillionth, ShiftHalfUp;
  }

  /** So whatever is served is the nearest millionth to the answer of the refresh it was fetched by. */
  lemma ServedRatesAreTheProvidersOwn(history: seq<Event>, e: Event, window: nat, maxStale: nat)
    requires e.Refresh? && Served(history, e, window, maxStale).Ok?
    ensures
      var events := history + [e];
      exists i: nat ::
        && FetchedBy(events, i, window) && Usable(events[i].answer)
        && IsNearestMillionth(Served(history, e, window, maxStale).value, events[i].answer.value)
        && (i == |history|
            || e.checkedAt - events[i].answeredAt < window || e.answeredAt - events[i].answeredAt <= maxStale)
  {
    var events := history + [e];
    ServedRatesAreRecentEnough(history, e, window, maxStale);
    CacheIsTheLatestFetch(events, window);
    var i: nat :| FetchedBy(events, i, window);
    AnswersAreServedExactly(events[i].answer);
    FetchedNowOrBefore(history, e, i, window);
    hide Usable, IsNearestMillionth, Quantise, Served, LastFetch, Asks;
  }

  /** A fetch that is not the refresh itself was not asked for again, or was not answered. */
  lemma FetchedNowOrBefore(history: seq<Event>, e: Event, i: nat, window: nat)
    requires e.Refresh? && FetchedBy(history + [e], i, window)
    ensures i == |history| || !(Asks(history, e, window) && Quantise(e.answer).Ok?)
  {
    if i < |history| {
      FetchedByExtends(history, e, i, window);
    }
    hide Asks, Quantise;
  }

  /** A positive answer is still priced as zero exactly when it is below half a millionth. */
  lemma TinyRatesRoundToZero(digits: nat, places: int)
    requires digits > 0 && places > 6
    requires Quantise(Number(false, Dec(digits, -places))).Ok?
    ensures Quantise(Number(false, Dec(digits, -places))).value == 0 <==> 2 * digits < Pow10(places - 6)
  {
    var d := Pow10(places - 6);
    var r := RoundHalfUp(digits, d);
    assert ShiftHalfUp(digits, 6 - places) == r;
    assert r == 0 ==> r * d == 0;
    assert r >= 1 ==> r * d >= d by { MulMono(1, r, d); }
  }
}
