/** The exchange-rate service (`CurrencyExchangeService`).

    Rates are "units of the currency per 1 EUR". A rate is resolved through a
    chain: the cache, then the historical rate for the date, then (only when the
    historical request threw) the latest rate, then a hard-coded fallback table.
    The HTTP provider is an oracle that, for each request, throws, answers
    without the rate, or answers with a rate; the requests the service issues
    are recorded so that "no provider call" is observable. The cache is a map
    with expiry times and the clock is an explicit `now` in seconds.
 */
module Exchange {
  import opened Results
  import opened Calendar

  const SecondsPerHour: int := 3600
  const SecondsPerDay: int := 86400

  /** Rates used when the provider cannot supply one. */
  const FallbackRates: map<string, real> := map["USD" := 1.1497, "JPY" := 129.53]

  /** The two kinds of provider request: the rate on a given date, or the
      provider's latest rate. Both ask for base EUR and the one symbol. */
  datatype Request = Historical(currency: string, date: Date) | Latest(currency: string)

  /** What a provider request yields: a thrown HTTP exception, a response
      whose `rates` lack the currency, or a response carrying the rate. */
  datatype Response = Throws | NoRate | Rate(rate: real)

  type Provider = Request -> Response

  datatype CacheKey = CacheKey(currency: string, date: Date)

  datatype Entry = Entry(rate: real, expiresAt: int)

  type Cache = map<CacheKey, Entry>

  /** Where a resolved rate came from (the fallback case is the one the
      service logs as degraded). */
  datatype Source = Reference | Cached | HistoricalApi | LatestApi | FallbackTable

  datatype Quote = Quote(rate: real, source: Source)

  /** The effect of one call into the service: its result, the cache after the
      call, and the provider requests it issued, in order. */
  datatype Answer<+T> = Answer(result: Result<T>, cache: Cache, requests: seq<Request>)

  // ---------------------------------------------------------------------------
  // trim()

  /** The characters PHP's `trim` strips by default. */
  predicate IsBlank(c: char) {
    c == ' ' || c == '\t' || c == '\n' || c == '\r' || c == '\0' || c == '\U{000B}'
  }

  predicate AllBlank(s: string) {
    forall i :: 0 <= i < |s| ==> IsBlank(s[i])
  }

  function TrimStart(s: string): string {
    if |s| > 0 && IsBlank(s[0]) then TrimStart(s[1..]) else s
  }

  function TrimEnd(s: string): string {
    if |s| > 0 && IsBlank(s[|s| - 1]) then TrimEnd(s[..|s| - 1]) else s
  }

  /** PHP `trim`: the result is never longer than the input, has no blank at
      either end, and a code that is already clean comes back unchanged. */
  function Trim(s: string): (r: string)
    ensures |r| <= |s|
    ensures r == [] || (!IsBlank(r[0]) && !IsBlank(r[|r| - 1]))
    ensures (s == [] || (!IsBlank(s[0]) && !IsBlank(s[|s| - 1]))) ==> r == s
  {
    TrimStartSpec(s);
    TrimEndSpec(TrimStart(s));
    TrimEnd(TrimStart(s))
  }

  /** `TrimStart` drops a blank prefix and keeps a suffix that does not start
      with a blank. */
  lemma {:induction false} TrimStartSpec(s: string)
    ensures var r := TrimStart(s);
            && |r| <= |s| && r == s[|s| - |r|..]
            && AllBlank(s[..|s| - |r|])
            && (r == [] || !IsBlank(r[0]))
  {
    if |s| > 0 && IsBlank(s[0]) {
      TrimStartSpec(s[1..]);
      var r := TrimStart(s);
      assert s[..|s| - |r|] == [s[0]] + s[1..][..|s| - 1 - |r|];
    }
  }

  /** `TrimEnd` drops a blank suffix and keeps a prefix that does not end with
      a blank. */
  lemma {:induction false} TrimEndSpec(s: string)
    ensures var r := TrimEnd(s);
            && |r| <= |s| && r == s[..|r|]
            && AllBlank(s[|r|..])
            && (r == [] || !IsBlank(r[|r| - 1]))
  {
    if |s| > 0 && IsBlank(s[|s| - 1]) {
      var t := s[..|s| - 1];
      TrimEndSpec(t);
      var r := TrimEnd(s);
      assert s[|r|..] == t[|r|..] + [s[|s| - 1]];
    }
  }

  /** `Trim(s)` is the middle of `s` left after removing blank characters
      from both ends: it neither starts nor ends with a blank. */
  lemma TrimSpec(s: string)
    ensures var r := Trim(s);
            var i := |s| - |TrimStart(s)|;
            && |TrimStart(s)| <= |s|
            && i + |r| <= |s|
            && r == s[i..i + |r|]
            && AllBlank(s[..i]) && AllBlank(s[i + |r|..])
            && (r == [] || (!IsBlank(r[0]) && !IsBlank(r[|r| - 1])))
  {
    var t := TrimStart(s);
    TrimStartSpec(s);
    TrimEndSpec(t);
    var i := |s| - |t|;
    assert t == s[i..];
    SliceOfSuffix(s, i, |TrimEnd(t)|);
  }

  /** Slicing a suffix is slicing the whole string further along. */
  lemma SliceOfSuffix(s: string, i: nat, k: nat)
    requires i + k <= |s|
    ensures s[i..][..k] == s[i..i + k]
    ensures s[i..][k..] == s[i + k..]
  {
  }

  /** A string with no blank at either end is its own trim. */
  lemma TrimKeepsClean(s: string)
    requires s == [] || (!IsBlank(s[0]) && !IsBlank(s[|s| - 1]))
    ensures Trim(s) == s
  {
  }

  /** Trimming twice is trimming once. */
  lemma TrimIdempotent(s: string)
    ensures Trim(Trim(s)) == Trim(s)
  {
    TrimSpec(s);
    TrimKeepsClean(Trim(s));
  }

  // ---------------------------------------------------------------------------
  // getExchangeRate()

  /** An entry that `Cache::has` reports: present and not yet expired. */
  predicate IsFresh(cache: Cache, key: CacheKey, now: int) {
    key in cache && now < cache[key].expiresAt
  }

  /** An entry written at `now` to live `ttl` seconds is reported fresh at
      time `t` exactly when `t` is before `now + ttl`, and writing it leaves
      the freshness of every other key as it was. */
  lemma FreshUntilExpiry(cache: Cache, key: CacheKey, rate: real, now: int, ttl: int, t: int, other: CacheKey)
    requires other != key
    ensures IsFresh(cache[key := Entry(rate, now + ttl)], key, t) <==> t < now + ttl
    ensures IsFresh(cache[key := Entry(rate, now + ttl)], other, t) <==> IsFresh(cache, other, t)
  {
  }

  /** The cache key the service uses for a currency and date. */
  function KeyOf(currency: string, date: Date): CacheKey {
    CacheKey(Trim(currency), date)
  }

  /** Nothing but `key` differs between the two caches. */
  ghost predicate OnlyKeyChanged(before: Cache, after: Cache, key: CacheKey) {
    forall k :: k != key ==> (k in before <==> k in after) && (k in before ==> before[k] == after[k])
  }

  /** Storing one entry changes the cache at that key only. */
  lemma PutChangesOnlyKey(cache: Cache, key: CacheKey, entry: Entry)
    ensures OnlyKeyChanged(cache, cache[key := entry], key)
  {
  }

  /** The last resort of the chain: the fallback table, cached for a day, or
      `RateUnavailable` with the cache untouched. */
  function UseFallback(currency: string, key: CacheKey, cache: Cache, now: int, requests: seq<Request>): (a: Answer<Quote>)
    ensures a.requests == requests
    ensures currency in FallbackRates ==> a.result == Ok(Quote(FallbackRates[currency], FallbackTable))
    ensures currency in FallbackRates ==> a.cache == cache[key := Entry(FallbackRates[currency], now + SecondsPerDay)]
    ensures currency !in FallbackRates ==> a.result == Err(RateUnavailable(currency)) && a.cache == cache
  {
    if currency in FallbackRates then
      var rate := FallbackRates[currency];
      Answer(Ok(Quote(rate, FallbackTable)), cache[key := Entry(rate, now + SecondsPerDay)], requests)
    else
      Answer(Err(RateUnavailable(currency)), cache, requests)
  }

  /** Resolve the rate of `currency` on `date` at time `now`. */
  function GetExchangeRate(currency: string, date: Date, cache: Cache, now: int, provider: Provider): (a: Answer<Quote>)
    ensures a.result.Ok? && a.result.value.source != Reference ==>
              IsFresh(a.cache, KeyOf(currency, date), now) && a.cache[KeyOf(currency, date)].rate == a.result.value.rate
    ensures a.result.Err? ==> a.cache == cache && a.result.error == RateUnavailable(Trim(currency))
    ensures |a.requests| <= 2
  {
    var code := Trim(currency);
    if code == "EUR" then
      Answer(Ok(Quote(1.0, Reference)), cache, [])
    else
      var key := CacheKey(code, date);
      if IsFresh(cache, key, now) then
        Answer(Ok(Quote(cache[key].rate, Cached)), cache, [])
      else
        var historical := Historical(code, date);
        match provider(historical)
        case Rate(rate) =>
          Answer(Ok(Quote(rate, HistoricalApi)), cache[key := Entry(rate, now + SecondsPerDay)], [historical])
        case NoRate =>
          UseFallback(code, key, cache, now, [historical])
        case Throws =>
          var latest := Latest(code);
          match provider(latest)
          case Rate(rate) =>
            Answer(Ok(Quote(rate, LatestApi)), cache[key := Entry(rate, now + SecondsPerHour)], [historical, latest])
          case _ =>
            UseFallback(code, key, cache, now, [historical, latest])
  }

  /** Resolving a rate writes the cache at most at its own (currency, date)
      key. */
  lemma ResolutionTouchesOnlyItsKey(currency: string, date: Date, cache: Cache, now: int, provider: Provider)
    ensures OnlyKeyChanged(cache, GetExchangeRate(currency, date, cache, now, provider).cache, KeyOf(currency, date))
  {
    var code := Trim(currency);
    var key := KeyOf(currency, date);
    if code != "EUR" && !IsFresh(cache, key, now) {
      var a := GetExchangeRate(currency, date, cache, now, provider);
      if a.result.Ok? {
        PutChangesOnlyKey(cache, key, a.cache[key]);
        assert a.cache == cache[key := a.cache[key]];
      }
    }
  }

  /** A currency that trims to EUR has rate 1 and touches neither the cache
      nor the provider. */
  lemma EurRateIsOne(currency: string, date: Date, cache: Cache, now: int, provider: Provider)
    requires Trim(currency) == "EUR"
    ensures GetExchangeRate(currency, date, cache, now, provider) == Answer(Ok(Quote(1.0, Reference)), cache, [])
  {
  }

  /** A fresh cache entry is returned as is, with no provider request and no
      cache change. */
  lemma CacheHit(currency: string, date: Date, cache: Cache, now: int, provider: Provider)
    requires Trim(currency) != "EUR"
    requires IsFresh(cache, KeyOf(currency, date), now)
    ensures GetExchangeRate(currency, date, cache, now, provider)
            == Answer(Ok(Quote(cache[KeyOf(currency, date)].rate, Cached)), cache, [])
  {
  }

  /** On a miss, a historical response with the rate is returned and cached
      under the dated key for one day; nothing else is asked. */
  lemma HistoricalHit(currency: string, date: Date, cache: Cache, now: int, provider: Provider, rate: real)
    requires Trim(currency) != "EUR"
    requires !IsFresh(cache, KeyOf(currency, date), now)
    requires provider(Historical(Trim(currency), date)) == Rate(rate)
    ensures GetExchangeRate(currency, date, cache, now, provider)
            == Answer(Ok(Quote(rate, HistoricalApi)),
                      cache[KeyOf(currency, date) := Entry(rate, now + SecondsPerDay)],
                      [Historical(Trim(currency), date)])
  {
  }

  /** The latest rate is requested exactly when the cache missed and the
      historical request threw; a response that merely lacks the rate does not
      lead to it. */
  lemma LatestOnlyAfterThrow(currency: string, date: Date, cache: Cache, now: int, provider: Provider)
    requires Trim(currency) != "EUR"
    ensures var a := GetExchangeRate(currency, date, cache, now, provider);
            Latest(Trim(currency)) in a.requests
            <==> !IsFresh(cache, KeyOf(currency, date), now) && provider(Historical(Trim(currency), date)) == Throws
  {
  }

  /** After a thrown historical request, a latest response with the rate is
      returned and cached under the same dated key for one hour. */
  lemma LatestHit(currency: string, date: Date, cache: Cache, now: int, provider: Provider, rate: real)
    requires Trim(currency) != "EUR"
    requires !IsFresh(cache, KeyOf(currency, date), now)
    requires provider(Historical(Trim(currency), date)) == Throws
    requires provider(Latest(Trim(currency))) == Rate(rate)
    ensures GetExchangeRate(currency, date, cache, now, provider)
            == Answer(Ok(Quote(rate, LatestApi)),
                      cache[KeyOf(currency, date) := Entry(rate, now + SecondsPerHour)],
                      [Historical(Trim(currency), date), Latest(Trim(currency))])
  {
  }

  /** When no request produced a rate, the fallback table decides: USD and JPY
      get their fixed rate cached for a day, any other code fails and nothing is
      cached. */
  lemma FallbackDecides(currency: string, date: Date, cache: Cache, now: int, provider: Provider)
    requires Trim(currency) != "EUR"
    requires !IsFresh(cache, KeyOf(currency, date), now)
    requires !provider(Historical(Trim(currency), date)).Rate?
    requires provider(Historical(Trim(currency), date)) == Throws ==> !provider(Latest(Trim(currency))).Rate?
    ensures var a := GetExchangeRate(currency, date, cache, now, provider);
            var code := Trim(currency);
            && (code in FallbackRates ==>
                  a.result == Ok(Quote(FallbackRates[code], FallbackTable))
                  && a.cache == cache[KeyOf(currency, date) := Entry(FallbackRates[code], now + SecondsPerDay)])
            && (code !in FallbackRates ==> a.result == Err(RateUnavailable(code)) && a.cache == cache)
  {
  }

  /** A successful resolution leaves a fresh entry behind: asking again at the
      same time is a cache hit for the same rate, whatever the provider does. */
  lemma ResolvedRateIsCached(currency: string, date: Date, cache: Cache, now: int, provider: Provider, provider2: Provider)
    requires GetExchangeRate(currency, date, cache, now, provider).result.Ok?
    ensures var a := GetExchangeRate(currency, date, cache, now, provider);
            var b := GetExchangeRate(currency, date, a.cache, now, provider2);
            && b.result.Ok?
            && b.result.value.rate == a.result.value.rate
            && b.cache == a.cache
            && b.requests == []
  {
    var a := GetExchangeRate(currency, date, cache, now, provider);
    if Trim(currency) == "EUR" {
      EurRateIsOne(currency, date, a.cache, now, provider2);
    } else {
      assert a.result.value.source != Reference;
      CacheHit(currency, date, a.cache, now, provider2);
    }
  }

  /** A provider that throws on every request (network down, API rejecting
      every call). */
  ghost predicate ProviderDown(provider: Provider) {
    forall r :: provider(r) == Throws
  }

  /** Every cached rate is the fallback rate of its currency. */
  ghost predicate CacheHoldsFallback(cache: Cache) {
    forall k :: k in cache ==> k.currency in FallbackRates && cache[k].rate == FallbackRates[k.currency]
  }

  /** With the provider down, a currency other than EUR resolves exactly when
      the fallback table knows it, always to the fallback rate, and the cache
      goes on holding fallback rates only. */
  lemma ProviderDownUsesFallback(currency: string, date: Date, cache: Cache, now: int, provider: Provider)
    requires ProviderDown(provider)
    requires CacheHoldsFallback(cache)
    ensures CacheHoldsFallback(GetExchangeRate(currency, date, cache, now, provider).cache)
    ensures Trim(currency) != "EUR" ==>
              (GetExchangeRate(currency, date, cache, now, provider).result.Ok? <==> Trim(currency) in FallbackRates)
    ensures Trim(currency) != "EUR" && GetExchangeRate(currency, date, cache, now, provider).result.Ok? ==>
              GetExchangeRate(currency, date, cache, now, provider).result.value.rate == FallbackRates[Trim(currency)]
  {
    var code := Trim(currency);
    if code != "EUR" && !IsFresh(cache, KeyOf(currency, date), now) {
      assert provider(Historical(code, date)) == Throws;
      assert provider(Latest(code)) == Throws;
      FallbackDecides(currency, date, cache, now, provider);
    }
  }

  // ---------------------------------------------------------------------------
  // convertToEur() / convertFromEur()

  lemma DivideThenMultiply(x: real, rate: real)
    requires rate != 0.0
    ensures (x / rate) * rate == x
  {
  }

  lemma MultiplyThenDivide(x: real, rate: real)
    ensures rate != 0.0 ==> (x * rate) / rate == x
  {
  }

  lemma UndoScaling(v: real, w: real, a: real, rate: real)
    requires rate != 0.0 && v / rate == w && w * rate == a
    ensures v == a
  {
    DivideThenMultiply(v, rate);
  }

  /** `amount` in `currency` expressed in EUR: divided by the rate. */
  function ConvertToEur(amount: real, currency: string, date: Date, cache: Cache, now: int, provider: Provider): (a: Answer<real>)
    ensures currency == "EUR" ==> a == Answer(Ok(amount), cache, [])
    ensures currency != "EUR" ==>
              var q := GetExchangeRate(currency, date, cache, now, provider);
              && a.cache == q.cache && a.requests == q.requests
              && (a.result.Ok? <==> q.result.Ok? && q.result.value.rate != 0.0)
              && (a.result.Ok? ==> a.result.value * q.result.value.rate == amount)
              && (q.result.Ok? && q.result.value.rate == 0.0 ==> a.result == Err(DivisionByZero))
              && (q.result.Err? ==> a.result == Err(q.result.error))
  {
    if currency == "EUR" then
      Answer(Ok(amount), cache, [])
    else
      var q := GetExchangeRate(currency, date, cache, now, provider);
      match q.result
      case Err(e) => Answer(Err(e), q.cache, q.requests)
      case Ok(quote) =>
        if quote.rate == 0.0 then Answer(Err(DivisionByZero), q.cache, q.requests)
        else
          DivideThenMultiply(amount, quote.rate);
          Answer(Ok(amount / quote.rate), q.cache, q.requests)
  }

  /** `amount` in EUR expressed in `currency`: multiplied by the rate. */
  function ConvertFromEur(amount: real, currency: string, date: Date, cache: Cache, now: int, provider: Provider): (a: Answer<real>)
    ensures currency == "EUR" ==> a == Answer(Ok(amount), cache, [])
    ensures currency != "EUR" ==>
              var q := GetExchangeRate(currency, date, cache, now, provider);
              && a.cache == q.cache && a.requests == q.requests
              && (a.result.Ok? <==> q.result.Ok?)
              && (a.result.Ok? && q.result.value.rate != 0.0 ==> a.result.value / q.result.value.rate == amount)
              && (q.result.Ok? && q.result.value.rate == 0.0 ==> a.result == Ok(0.0))
              && (q.result.Err? ==> a.result == Err(q.result.error))
  {
    if currency == "EUR" then
      Answer(Ok(amount), cache, [])
    else
      var q := GetExchangeRate(currency, date, cache, now, provider);
      match q.result
      case Err(e) => Answer(Err(e), q.cache, q.requests)
      case Ok(quote) =>
        var converted := amount * quote.rate;
        MultiplyThenDivide(amount, quote.rate);
        assert quote.rate != 0.0 ==> converted / quote.rate == amount;
        Answer(Ok(converted), q.cache, q.requests)
  }

  /** After a successful conversion to EUR, converting back at the same time
      is served from the cache with the same rate. */
  lemma WayBackHitsCache(amount: real, currency: string, date: Date, cache: Cache, now: int, provider: Provider, provider2: Provider)
    requires currency != "EUR"
    requires ConvertToEur(amount, currency, date, cache, now, provider).result.Ok?
    ensures var there := ConvertToEur(amount, currency, date, cache, now, provider);
            var q2 := GetExchangeRate(currency, date, there.cache, now, provider2);
            && q2.result.Ok?
            && q2.result.value.rate == GetExchangeRate(currency, date, cache, now, provider).result.value.rate
            && q2.cache == there.cache
            && q2.requests == []
  {
    ResolvedRateIsCached(currency, date, cache, now, provider, provider2);
  }

  /** Converting to EUR and back at the same time gives the original amount,
      and the way back is served from the cache: no request, no cache change,
      no failure. */
  lemma ConvertRoundTrip(amount: real, currency: string, date: Date, cache: Cache, now: int, provider: Provider, provider2: Provider)
    requires ConvertToEur(amount, currency, date, cache, now, provider).result.Ok?
    ensures var there := ConvertToEur(amount, currency, date, cache, now, provider);
            ConvertFromEur(there.result.value, currency, date, there.cache, now, provider2)
            == Answer(Ok(amount), there.cache, [])
  {
    if currency != "EUR" {
      WayBackHitsCache(amount, currency, date, cache, now, provider, provider2);
      var there := ConvertToEur(amount, currency, date, cache, now, provider);
      var rate := GetExchangeRate(currency, date, cache, now, provider).result.value.rate;
      var back := ConvertFromEur(there.result.value, currency, date, there.cache, now, provider2);
      UndoScaling(back.result.value, there.result.value, amount, rate);
    }
  }
}
