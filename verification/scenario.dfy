/** The 13-row example log of the command's feature test, replayed from an
    empty ledger and an empty cache while the rate provider is down, so that
    USD and JPY are converted at the fallback rates 1.1497 and 129.53 (the
    rates the test's exchange-service double answers with).
 */
module Scenario {
  import opened Results
  import opened Calendar
  import opened Money
  import opened Exchange
  import opened Ledger
  import opened Commission
  import opened Replay

  const Down: Provider := r => Throws

  /** One clock reading for the whole replay; every cached entry stays fresh. */
  const Offline: Env := Env(0, Down)

  const Start: State := State(map[], map[])

  const T1: Transaction := Transaction(Date(2014, 12, 31), 4, "private", "withdraw", 1200.0, "EUR")
  const T2: Transaction := Transaction(Date(2015, 1, 1), 4, "private", "withdraw", 1000.0, "EUR")
  const T3: Transaction := Transaction(Date(2016, 1, 5), 4, "private", "withdraw", 1000.0, "EUR")
  const T4: Transaction := Transaction(Date(2016, 1, 5), 1, "private", "deposit", 200.0, "EUR")
  const T5: Transaction := Transaction(Date(2016, 1, 6), 2, "business", "withdraw", 300.0, "EUR")
  const T6: Transaction := Transaction(Date(2016, 1, 6), 1, "private", "withdraw", 30000.0, "JPY")
  const T7: Transaction := Transaction(Date(2016, 1, 7), 1, "private", "withdraw", 1000.0, "EUR")
  const T8: Transaction := Transaction(Date(2016, 1, 7), 1, "private", "withdraw", 100.0, "USD")
  const T9: Transaction := Transaction(Date(2016, 1, 10), 1, "private", "withdraw", 100.0, "EUR")
  const T10: Transaction := Transaction(Date(2016, 1, 10), 2, "business", "deposit", 10000.0, "EUR")
  const T11: Transaction := Transaction(Date(2016, 1, 10), 3, "private", "withdraw", 1000.0, "EUR")
  const T12: Transaction := Transaction(Date(2016, 2, 15), 1, "private", "withdraw", 300.0, "EUR")
  const T13: Transaction := Transaction(Date(2016, 2, 19), 5, "private", "withdraw", 3000000.0, "JPY")

  /** The log from row `n` on (`RowsFrom13` is the last row alone). */
  const RowsFrom13: seq<Transaction> := [T13]
  const RowsFrom12: seq<Transaction> := [T12] + RowsFrom13
  const RowsFrom11: seq<Transaction> := [T11] + RowsFrom12
  const RowsFrom10: seq<Transaction> := [T10] + RowsFrom11
  const RowsFrom9: seq<Transaction> := [T9] + RowsFrom10
  const RowsFrom8: seq<Transaction> := [T8] + RowsFrom9
  const RowsFrom7: seq<Transaction> := [T7] + RowsFrom8
  const RowsFrom6: seq<Transaction> := [T6] + RowsFrom7
  const RowsFrom5: seq<Transaction> := [T5] + RowsFrom6
  const RowsFrom4: seq<Transaction> := [T4] + RowsFrom5
  const RowsFrom3: seq<Transaction> := [T3] + RowsFrom4
  const RowsFrom2: seq<Transaction> := [T2] + RowsFrom3
  const RowsFrom1: seq<Transaction> := [T1] + RowsFrom2

  const Log: seq<Transaction> := RowsFrom1

  /** One environment per row from row `n` on. */
  const EnvsFrom13: seq<Env> := [Offline]
  const EnvsFrom12: seq<Env> := [Offline] + EnvsFrom13
  const EnvsFrom11: seq<Env> := [Offline] + EnvsFrom12
  const EnvsFrom10: seq<Env> := [Offline] + EnvsFrom11
  const EnvsFrom9: seq<Env> := [Offline] + EnvsFrom10
  const EnvsFrom8: seq<Env> := [Offline] + EnvsFrom9
  const EnvsFrom7: seq<Env> := [Offline] + EnvsFrom8
  const EnvsFrom6: seq<Env> := [Offline] + EnvsFrom7
  const EnvsFrom5: seq<Env> := [Offline] + EnvsFrom6
  const EnvsFrom4: seq<Env> := [Offline] + EnvsFrom5
  const EnvsFrom3: seq<Env> := [Offline] + EnvsFrom4
  const EnvsFrom2: seq<Env> := [Offline] + EnvsFrom3
  const EnvsFrom1: seq<Env> := [Offline] + EnvsFrom2

  const Envs: seq<Env> := EnvsFrom1

  /** The commissions the feature test expects from row `n` on. The whole
      list, as printed: "0.60", "3.00", "0.00", "0.06", "1.50", "0", "0.70",
      "0.30", "0.30", "3.00", "0.00", "0.00", "8612". */
  const ExpectedFrom13: seq<Result<real>> := [Ok(8612.0)]
  const ExpectedFrom12: seq<Result<real>> := [Ok(0.0)] + ExpectedFrom13
  const ExpectedFrom11: seq<Result<real>> := [Ok(0.0)] + ExpectedFrom12
  const ExpectedFrom10: seq<Result<real>> := [Ok(3.0)] + ExpectedFrom11
  const ExpectedFrom9: seq<Result<real>> := [Ok(0.3)] + ExpectedFrom10
  const ExpectedFrom8: seq<Result<real>> := [Ok(0.3)] + ExpectedFrom9
  const ExpectedFrom7: seq<Result<real>> := [Ok(0.7)] + ExpectedFrom8
  const ExpectedFrom6: seq<Result<real>> := [Ok(0.0)] + ExpectedFrom7
  const ExpectedFrom5: seq<Result<real>> := [Ok(1.5)] + ExpectedFrom6
  const ExpectedFrom4: seq<Result<real>> := [Ok(0.06)] + ExpectedFrom5
  const ExpectedFrom3: seq<Result<real>> := [Ok(0.0)] + ExpectedFrom4
  const ExpectedFrom2: seq<Result<real>> := [Ok(3.0)] + ExpectedFrom3
  const ExpectedFrom1: seq<Result<real>> := [Ok(0.6)] + ExpectedFrom2

  const Expected: seq<Result<real>> := ExpectedFrom1

  // The ledger keys the log touches: the user, then the ISO week-year and week.
  const User4Week2015W01: WeekKey := WeekKey(4, IsoWeek(2015, 1))
  const User4Week2016W01: WeekKey := WeekKey(4, IsoWeek(2016, 1))
  const User1Week2016W01: WeekKey := WeekKey(1, IsoWeek(2016, 1))
  const User3Week2016W01: WeekKey := WeekKey(3, IsoWeek(2016, 1))
  const User1Week2016W07: WeekKey := WeekKey(1, IsoWeek(2016, 7))
  const User5Week2016W07: WeekKey := WeekKey(5, IsoWeek(2016, 7))

  /** Units of `currency` per EUR while the provider is down. */
  function OfflineRate(currency: string): real
    requires currency == "EUR" || currency in FallbackRates
  {
    if currency == "EUR" then 1.0 else FallbackRates[currency]
  }

  /** The last day of 2014 and the first of 2015 share ISO week 2015-W01. */
  lemma WeeksAroundNewYear2015()
    ensures KeyFor(T1.userId, T1.date) == User4Week2015W01 && KeyFor(T2.userId, T2.date) == User4Week2015W01
  {
    NewYear2015SharesWeek();
  }

  /** 2016-01-05 to 2016-01-10 (a Sunday) are all in 2016-W01. */
  lemma WeeksJanuary2016()
    ensures KeyFor(T3.userId, T3.date) == User4Week2016W01
    ensures KeyFor(T6.userId, T6.date) == User1Week2016W01 && KeyFor(T7.userId, T7.date) == User1Week2016W01
    ensures KeyFor(T8.userId, T8.date) == User1Week2016W01 && KeyFor(T9.userId, T9.date) == User1Week2016W01
    ensures KeyFor(T11.userId, T11.date) == User3Week2016W01
  {
    assert DaysBeforeYear(2016) == 735963;
    assert DayNumber(T3.date) == 735967 && ThursdayOf(T3.date) == 735969;
    assert DayNumber(T6.date) == 735968 && ThursdayOf(T6.date) == 735969;
    assert DayNumber(T7.date) == 735969 && ThursdayOf(T7.date) == 735969;
    assert DayNumber(T9.date) == 735972 && ThursdayOf(T9.date) == 735969;
  }

  /** 2016-02-15 (a Monday) and 2016-02-19 are in 2016-W07. */
  lemma WeeksFebruary2016()
    ensures KeyFor(T12.userId, T12.date) == User1Week2016W07 && KeyFor(T13.userId, T13.date) == User5Week2016W07
  {
    assert DaysBeforeYear(2016) == 735963;
    assert DayNumber(T12.date) == 736008 && ThursdayOf(T12.date) == 736011;
    assert DayNumber(T13.date) == 736012 && ThursdayOf(T13.date) == 736011;
  }

  // ---------------------------------------------------------------------------
  // Converting and booking while the provider is down.

  lemma OfflineProviderIsDown()
    ensures ProviderDown(Offline.provider)
  {
  }

  /** With the provider down and only fallback rates cached, an EUR, USD or
      JPY amount always converts, at the offline rate, and the cache keeps
      holding fallback rates only. */
  lemma OfflineConversion(tx: Transaction, cache: Cache)
    requires CacheHoldsFallback(cache)
    requires tx.currency == "EUR" || tx.currency in FallbackRates
    ensures AmountInEur(tx, cache, Offline).result.Ok?
    ensures RateApplied(tx, cache, Offline) == OfflineRate(tx.currency)
    ensures AmountInEur(tx, cache, Offline).result.value * OfflineRate(tx.currency) == tx.amount
    ensures CacheHoldsFallback(AmountInEur(tx, cache, Offline).cache)
  {
    if tx.currency != "EUR" {
      assert tx.currency == "USD" || tx.currency == "JPY";
      TrimKeepsClean(tx.currency);
      OfflineProviderIsDown();
      ProviderDownUsesFallback(tx.currency, tx.date, cache, Offline.now, Offline.provider);
    }
  }

  /** A private withdrawal of the log, booked under `key` whose entry was
      `before`: it pays the uncovered part at the offline rate, books itself,
      touches no other week and keeps the cache on fallback rates. */
  lemma OfflinePrivateRow(tx: Transaction, st: State, key: WeekKey, before: Bucket)
    requires IsPrivateWithdraw(tx)
    requires tx.currency == "EUR" || tx.currency in FallbackRates
    requires CacheHoldsFallback(st.cache)
    requires key == KeyFor(tx.userId, tx.date) && Lookup(st.ledger, key) == before
    ensures AmountInEur(tx, st.cache, Offline).result.Ok?
    ensures AmountInEur(tx, st.cache, Offline).result.value * OfflineRate(tx.currency) == tx.amount
    ensures Calculate(tx, st, Offline).commission
            == Ok(UncoveredCharge(tx, before, AmountInEur(tx, st.cache, Offline).result.value, OfflineRate(tx.currency)))
    ensures Lookup(Calculate(tx, st, Offline).state.ledger, key)
            == Bucket(before.operations + 1, before.amountEur + AmountInEur(tx, st.cache, Offline).result.value)
    ensures AgreeExcept(st.ledger, Calculate(tx, st, Offline).state.ledger, key)
    ensures CacheHoldsFallback(Calculate(tx, st, Offline).state.cache)
  {
    OfflineConversion(tx, st.cache);
    PrivateWithdrawChargesUncoveredPart(tx, st, Offline);
    PrivateWithdrawBookkeeping(tx, st, Offline);
    PrivateWithdrawCacheIsConversionCache(tx, st, Offline);
  }

  // ---------------------------------------------------------------------------
  // The commission of each row.

  lemma Scales()
    ensures Scale("EUR") == 100.0 && Scale("USD") == 100.0 && Scale("JPY") == 1.0
  {
    assert "EUR" in KnownDecimalPlaces && "USD" in KnownDecimalPlaces && "JPY" in KnownDecimalPlaces;
    assert Pow10(2) == 100 && Pow10(0) == 1;
  }

  /** 1200 EUR with the whole week ahead: 200 EUR over the limit, 0.60. */
  lemma ChargeRow1()
    ensures UncoveredCharge(T1, EmptyBucket, 1200.0, 1.0) == 0.6
  {
    Scales();
    assert TaxedAmount(T1, EmptyBucket, 1200.0, 1.0) == 200.0;
    RoundUpFixesWholeUnits(0.6, "EUR");
  }

  /** 1000 EUR after 1200 EUR in the same ISO week: 0.3% of all of it, 3.00. */
  lemma ChargeRow2()
    ensures UncoveredCharge(T2, Bucket(1, 1200.0), 1000.0, 1.0) == 3.0
  {
    Scales();
    FullChargeOutsideAllowance(T2, Bucket(1, 1200.0), 1000.0, 1.0);
    RoundUpFixesWholeUnits(3.0, "EUR");
  }

  /** Exactly the 1000 EUR allowance of a new week: free. */
  lemma ChargeFreeEur(tx: Transaction, before: Bucket)
    requires tx.currency == "EUR"
    requires before.operations < FreeWithdrawOperationsPerWeek
    requires before.amountEur < FreeWithdrawLimitEur && before.amountEur + tx.amount <= FreeWithdrawLimitEur
    ensures UncoveredCharge(tx, before, tx.amount, 1.0) == 0.0
  {
    NoChargeWithinAllowance(tx, before, tx.amount, 1.0);
  }

  /** 30000 JPY is about 231.61 EUR, well within a new week's allowance: free. */
  lemma ChargeRow6(amountInEur: real)
    requires amountInEur * 129.53 == 30000.0
    ensures UncoveredCharge(T6, EmptyBucket, amountInEur, 129.53) == 0.0
  {
    NoChargeWithinAllowance(T6, EmptyBucket, amountInEur, 129.53);
  }

  /** 1000 EUR after those 231.61 EUR: the 231.61 EUR over the limit cost
      0.6948..., rounded up to 0.70. */
  lemma ChargeRow7(row6Eur: real)
    requires row6Eur * 129.53 == 30000.0
    ensures UncoveredCharge(T7, Bucket(1, row6Eur), 1000.0, 1.0) == 0.7
  {
    Scales();
    assert TaxedAmount(T7, Bucket(1, row6Eur), 1000.0, 1.0) == row6Eur;
    assert row6Eur * PrivateWithdrawRate * 100.0 == 9000000.0 / 129530.0;
  }

  /** Any withdrawal once the allowance is used up or after the third one:
      0.3% of 100 (EUR or USD) is 0.30. */
  lemma ChargeHundred(tx: Transaction, before: Bucket, amountInEur: real, rate: real)
    requires tx.amount == 100.0 && (tx.currency == "EUR" || tx.currency == "USD")
    requires before.operations >= FreeWithdrawOperationsPerWeek || before.amountEur >= FreeWithdrawLimitEur
    ensures UncoveredCharge(tx, before, amountInEur, rate) == 0.3
  {
    Scales();
    FullChargeOutsideAllowance(tx, before, amountInEur, rate);
    RoundUpFixesWholeUnits(0.3, tx.currency);
  }

  /** 3000000 JPY against a fresh week: the 1000 EUR allowance covers 129530
      JPY, 0.3% of the remaining 2870470 JPY is 8611.41, rounded up to 8612. */
  lemma ChargeRow13(amountInEur: real)
    requires amountInEur * 129.53 == 3000000.0
    ensures UncoveredCharge(T13, EmptyBucket, amountInEur, 129.53) == 8612.0
  {
    Scales();
    assert CoveredEur(EmptyBucket, amountInEur) == 1000.0;
    assert TaxedAmount(T13, EmptyBucket, amountInEur, 129.53) == 2870470.0;
  }

  // ---------------------------------------------------------------------------
  // Replaying the log, from the last row back to the first: each lemma states
  // what the rows from one point on print, given what the state must hold
  // there.

  /** The cache holds fallback rates only and none of `weeks` has an entry
      yet. */
  ghost predicate Untouched(st: State, weeks: set<WeekKey>) {
    && CacheHoldsFallback(st.cache)
    && forall k :: k in weeks ==> Lookup(st.ledger, k) == EmptyBucket
  }

  /** Booking under `key` leaves every other week as it was. */
  lemma StaysUntouched(st: State, next: State, key: WeekKey, weeks: set<WeekKey>)
    requires Untouched(st, weeks) && key !in weeks
    requires AgreeExcept(st.ledger, next.ledger, key) && CacheHoldsFallback(next.cache)
    ensures Untouched(next, weeks)
  {
  }

  /** Replaying a log that starts with a row that succeeds is calculating
      that row and then replaying the rest from the state it leaves. */
  lemma RunCons(tx: Transaction, log: seq<Transaction>, env: Env, envs: seq<Env>, st: State)
    requires |envs| == |log|
    requires Calculate(tx, st, env).commission.Ok?
    ensures Run([tx] + log, [env] + envs, st).commissions
            == [Calculate(tx, st, env).commission] + Run(log, envs, Calculate(tx, st, env).state).commissions
  {
    assert ([tx] + log)[0] == tx && ([tx] + log)[1..] == log;
    assert ([env] + envs)[0] == env && ([env] + envs)[1..] == envs;
    RunUnfolds([tx] + log, [env] + envs, st);
  }

  lemma Row13(st: State)
    requires Untouched(st, {User5Week2016W07})
    ensures Calculate(T13, st, Offline).commission == Ok(8612.0)
  {
    WeeksFebruary2016();
    OfflinePrivateRow(T13, st, User5Week2016W07, EmptyBucket);
    ChargeRow13(AmountInEur(T13, st.cache, Offline).result.value);
  }

  lemma Row12(st: State)
    requires Untouched(st, {User1Week2016W07, User5Week2016W07})
    ensures Calculate(T12, st, Offline).commission == Ok(0.0)
    ensures Untouched(Calculate(T12, st, Offline).state, {User5Week2016W07})
  {
    WeeksFebruary2016();
    OfflinePrivateRow(T12, st, User1Week2016W07, EmptyBucket);
    ChargeFreeEur(T12, EmptyBucket);
    StaysUntouched(st, Calculate(T12, st, Offline).state, User1Week2016W07, {User5Week2016W07});
  }

  lemma Row11(st: State)
    requires Untouched(st, {User3Week2016W01, User1Week2016W07, User5Week2016W07})
    ensures Calculate(T11, st, Offline).commission == Ok(0.0)
    ensures Untouched(Calculate(T11, st, Offline).state, {User1Week2016W07, User5Week2016W07})
  {
    WeeksJanuary2016();
    OfflinePrivateRow(T11, st, User3Week2016W01, EmptyBucket);
    ChargeFreeEur(T11, EmptyBucket);
    StaysUntouched(st, Calculate(T11, st, Offline).state, User3Week2016W01, {User1Week2016W07, User5Week2016W07});
  }

  /** A business user's deposit pays the deposit rate: 0.03% of 10000 EUR. */
  lemma Row10(st: State)
    ensures Calculate(T10, st, Offline) == Step(Ok(3.0), st, [])
  {
    Scales();
    RoundUpFixesWholeUnits(3.0, "EUR");
  }

  lemma Row9(st: State)
    requires Untouched(st, {User3Week2016W01, User1Week2016W07, User5Week2016W07})
    requires Lookup(st.ledger, User1Week2016W01).operations == 3
    ensures Calculate(T9, st, Offline).commission == Ok(0.3)
    ensures Untouched(Calculate(T9, st, Offline).state, {User3Week2016W01, User1Week2016W07, User5Week2016W07})
  {
    WeeksJanuary2016();
    OfflinePrivateRow(T9, st, User1Week2016W01, Lookup(st.ledger, User1Week2016W01));
    ChargeHundred(T9, Lookup(st.ledger, User1Week2016W01), 100.0, 1.0);
    StaysUntouched(st, Calculate(T9, st, Offline).state, User1Week2016W01, {User3Week2016W01, User1Week2016W07, User5Week2016W07});
  }

  lemma Row8(st: State)
    requires Untouched(st, {User3Week2016W01, User1Week2016W07, User5Week2016W07})
    requires Lookup(st.ledger, User1Week2016W01).operations == 2 && Lookup(st.ledger, User1Week2016W01).amountEur >= FreeWithdrawLimitEur
    ensures Calculate(T8, st, Offline).commission == Ok(0.3)
    ensures Untouched(Calculate(T8, st, Offline).state, {User3Week2016W01, User1Week2016W07, User5Week2016W07})
    ensures Lookup(Calculate(T8, st, Offline).state.ledger, User1Week2016W01).operations == 3
  {
    WeeksJanuary2016();
    OfflinePrivateRow(T8, st, User1Week2016W01, Lookup(st.ledger, User1Week2016W01));
    ChargeHundred(T8, Lookup(st.ledger, User1Week2016W01), AmountInEur(T8, st.cache, Offline).result.value, 1.1497);
    StaysUntouched(st, Calculate(T8, st, Offline).state, User1Week2016W01, {User3Week2016W01, User1Week2016W07, User5Week2016W07});
  }

  lemma Row7(st: State)
    requires Untouched(st, {User3Week2016W01, User1Week2016W07, User5Week2016W07})
    requires Lookup(st.ledger, User1Week2016W01).operations == 1 && Lookup(st.ledger, User1Week2016W01).amountEur * 129.53 == 30000.0
    ensures Calculate(T7, st, Offline).commission == Ok(0.7)
    ensures Untouched(Calculate(T7, st, Offline).state, {User3Week2016W01, User1Week2016W07, User5Week2016W07})
    ensures Lookup(Calculate(T7, st, Offline).state.ledger, User1Week2016W01).operations == 2
    ensures Lookup(Calculate(T7, st, Offline).state.ledger, User1Week2016W01).amountEur >= FreeWithdrawLimitEur
  {
    WeeksJanuary2016();
    OfflinePrivateRow(T7, st, User1Week2016W01, Lookup(st.ledger, User1Week2016W01));
    ChargeRow7(Lookup(st.ledger, User1Week2016W01).amountEur);
    StaysUntouched(st, Calculate(T7, st, Offline).state, User1Week2016W01, {User3Week2016W01, User1Week2016W07, User5Week2016W07});
  }

  lemma Row6(st: State)
    requires Untouched(st, {User1Week2016W01, User3Week2016W01, User1Week2016W07, User5Week2016W07})
    ensures Calculate(T6, st, Offline).commission == Ok(0.0)
    ensures Untouched(Calculate(T6, st, Offline).state, {User3Week2016W01, User1Week2016W07, User5Week2016W07})
    ensures Lookup(Calculate(T6, st, Offline).state.ledger, User1Week2016W01).operations == 1
    ensures Lookup(Calculate(T6, st, Offline).state.ledger, User1Week2016W01).amountEur * 129.53 == 30000.0
  {
    WeeksJanuary2016();
    OfflinePrivateRow(T6, st, User1Week2016W01, EmptyBucket);
    ChargeRow6(AmountInEur(T6, st.cache, Offline).result.value);
    StaysUntouched(st, Calculate(T6, st, Offline).state, User1Week2016W01, {User3Week2016W01, User1Week2016W07, User5Week2016W07});
  }

  /** A business user's withdrawal pays 0.5% of 300 EUR. */
  lemma Row5(st: State)
    ensures Calculate(T5, st, Offline) == Step(Ok(1.5), st, [])
  {
    Scales();
    RoundUpFixesWholeUnits(1.5, "EUR");
  }

  /** A private user's deposit pays 0.03% of 200 EUR. */
  lemma Row4(st: State)
    ensures Calculate(T4, st, Offline) == Step(Ok(0.06), st, [])
  {
    Scales();
    RoundUpFixesWholeUnits(0.06, "EUR");
  }

  lemma Row3(st: State)
    requires Untouched(st, {User4Week2016W01, User1Week2016W01, User3Week2016W01, User1Week2016W07, User5Week2016W07})
    ensures Calculate(T3, st, Offline).commission == Ok(0.0)
    ensures Untouched(Calculate(T3, st, Offline).state, {User1Week2016W01, User3Week2016W01, User1Week2016W07, User5Week2016W07})
  {
    WeeksJanuary2016();
    OfflinePrivateRow(T3, st, User4Week2016W01, EmptyBucket);
    ChargeFreeEur(T3, EmptyBucket);
    StaysUntouched(st, Calculate(T3, st, Offline).state, User4Week2016W01, {User1Week2016W01, User3Week2016W01, User1Week2016W07, User5Week2016W07});
  }

  lemma Row2(st: State)
    requires Untouched(st, {User4Week2016W01, User1Week2016W01, User3Week2016W01, User1Week2016W07, User5Week2016W07})
    requires Lookup(st.ledger, User4Week2015W01) == Bucket(1, 1200.0)
    ensures Calculate(T2, st, Offline).commission == Ok(3.0)
    ensures Untouched(Calculate(T2, st, Offline).state, {User4Week2016W01, User1Week2016W01, User3Week2016W01, User1Week2016W07, User5Week2016W07})
  {
    WeeksAroundNewYear2015();
    OfflinePrivateRow(T2, st, User4Week2015W01, Bucket(1, 1200.0));
    assert AmountInEur(T2, st.cache, Offline).result.value == 1000.0;
    ChargeRow2();
    StaysUntouched(st, Calculate(T2, st, Offline).state, User4Week2015W01, {User4Week2016W01, User1Week2016W01, User3Week2016W01, User1Week2016W07, User5Week2016W07});
  }

  lemma Row1(st: State)
    requires Untouched(st, {User4Week2015W01, User4Week2016W01, User1Week2016W01, User3Week2016W01, User1Week2016W07, User5Week2016W07})
    ensures Calculate(T1, st, Offline).commission == Ok(0.6)
    ensures Untouched(Calculate(T1, st, Offline).state, {User4Week2016W01, User1Week2016W01, User3Week2016W01, User1Week2016W07, User5Week2016W07})
    ensures Lookup(Calculate(T1, st, Offline).state.ledger, User4Week2015W01) == Bucket(1, 1200.0)
  {
    WeeksAroundNewYear2015();
    OfflinePrivateRow(T1, st, User4Week2015W01, EmptyBucket);
    ChargeRow1();
    StaysUntouched(st, Calculate(T1, st, Offline).state, User4Week2015W01, {User4Week2016W01, User1Week2016W01, User3Week2016W01, User1Week2016W07, User5Week2016W07});
  }

  lemma FromRow13(st: State)
    requires Untouched(st, {User5Week2016W07})
    ensures Run(RowsFrom13, EnvsFrom13, st).commissions == ExpectedFrom13
  {
    Row13(st);
    RunCons(T13, [], Offline, [], st);
  }

  lemma FromRow12(st: State)
    requires Untouched(st, {User1Week2016W07, User5Week2016W07})
    ensures Run(RowsFrom12, EnvsFrom12, st).commissions == ExpectedFrom12
  {
    Row12(st);
    RunCons(T12, RowsFrom13, Offline, EnvsFrom13, st);
    FromRow13(Calculate(T12, st, Offline).state);
  }

  lemma FromRow11(st: State)
    requires Untouched(st, {User3Week2016W01, User1Week2016W07, User5Week2016W07})
    ensures Run(RowsFrom11, EnvsFrom11, st).commissions == ExpectedFrom11
  {
    Row11(st);
    RunCons(T11, RowsFrom12, Offline, EnvsFrom12, st);
    FromRow12(Calculate(T11, st, Offline).state);
  }

  lemma FromRow10(st: State)
    requires Untouched(st, {User3Week2016W01, User1Week2016W07, User5Week2016W07})
    ensures Run(RowsFrom10, EnvsFrom10, st).commissions == ExpectedFrom10
  {
    Row10(st);
    RunCons(T10, RowsFrom11, Offline, EnvsFrom11, st);
    FromRow11(Calculate(T10, st, Offline).state);
  }

  lemma FromRow9(st: State)
    requires Untouched(st, {User3Week2016W01, User1Week2016W07, User5Week2016W07})
    requires Lookup(st.ledger, User1Week2016W01).operations == 3
    ensures Run(RowsFrom9, EnvsFrom9, st).commissions == ExpectedFrom9
  {
    Row9(st);
    RunCons(T9, RowsFrom10, Offline, EnvsFrom10, st);
    FromRow10(Calculate(T9, st, Offline).state);
  }

  lemma FromRow8(st: State)
    requires Untouched(st, {User3Week2016W01, User1Week2016W07, User5Week2016W07})
    requires Lookup(st.ledger, User1Week2016W01).operations == 2 && Lookup(st.ledger, User1Week2016W01).amountEur >= FreeWithdrawLimitEur
    ensures Run(RowsFrom8, EnvsFrom8, st).commissions == ExpectedFrom8
  {
    Row8(st);
    RunCons(T8, RowsFrom9, Offline, EnvsFrom9, st);
    FromRow9(Calculate(T8, st, Offline).state);
  }

  lemma FromRow7(st: State)
    requires Untouched(st, {User3Week2016W01, User1Week2016W07, User5Week2016W07})
    requires Lookup(st.ledger, User1Week2016W01).operations == 1 && Lookup(st.ledger, User1Week2016W01).amountEur * 129.53 == 30000.0
    ensures Run(RowsFrom7, EnvsFrom7, st).commissions == ExpectedFrom7
  {
    Row7(st);
    RunCons(T7, RowsFrom8, Offline, EnvsFrom8, st);
    FromRow8(Calculate(T7, st, Offline).state);
  }

  lemma FromRow6(st: State)
    requires Untouched(st, {User1Week2016W01, User3Week2016W01, User1Week2016W07, User5Week2016W07})
    ensures Run(RowsFrom6, EnvsFrom6, st).commissions == ExpectedFrom6
  {
    Row6(st);
    RunCons(T6, RowsFrom7, Offline, EnvsFrom7, st);
    FromRow7(Calculate(T6, st, Offline).state);
  }

  lemma FromRow5(st: State)
    requires Untouched(st, {User1Week2016W01, User3Week2016W01, User1Week2016W07, User5Week2016W07})
    ensures Run(RowsFrom5, EnvsFrom5, st).commissions == ExpectedFrom5
  {
    Row5(st);
    RunCons(T5, RowsFrom6, Offline, EnvsFrom6, st);
    FromRow6(Calculate(T5, st, Offline).state);
  }

  lemma FromRow4(st: State)
    requires Untouched(st, {User1Week2016W01, User3Week2016W01, User1Week2016W07, User5Week2016W07})
    ensures Run(RowsFrom4, EnvsFrom4, st).commissions == ExpectedFrom4
  {
    Row4(st);
    RunCons(T4, RowsFrom5, Offline, EnvsFrom5, st);
    FromRow5(Calculate(T4, st, Offline).state);
  }

  lemma FromRow3(st: State)
    requires Untouched(st, {User4Week2016W01, User1Week2016W01, User3Week2016W01, User1Week2016W07, User5Week2016W07})
    ensures Run(RowsFrom3, EnvsFrom3, st).commissions == ExpectedFrom3
  {
    Row3(st);
    RunCons(T3, RowsFrom4, Offline, EnvsFrom4, st);
    FromRow4(Calculate(T3, st, Offline).state);
  }

  lemma FromRow2(st: State)
    requires Untouched(st, {User4Week2016W01, User1Week2016W01, User3Week2016W01, User1Week2016W07, User5Week2016W07})
    requires Lookup(st.ledger, User4Week2015W01) == Bucket(1, 1200.0)
    ensures Run(RowsFrom2, EnvsFrom2, st).commissions == ExpectedFrom2
  {
    Row2(st);
    RunCons(T2, RowsFrom3, Offline, EnvsFrom3, st);
    FromRow3(Calculate(T2, st, Offline).state);
  }

  lemma FromRow1(st: State)
    requires Untouched(st, {User4Week2015W01, User4Week2016W01, User1Week2016W01, User3Week2016W01, User1Week2016W07, User5Week2016W07})
    ensures Run(RowsFrom1, EnvsFrom1, st).commissions == ExpectedFrom1
  {
    Row1(st);
    RunCons(T1, RowsFrom2, Offline, EnvsFrom2, st);
    FromRow2(Calculate(T1, st, Offline).state);
  }

  /** Replaying the example log from an empty ledger and an empty cache, with
      the provider down, prints exactly the commissions the feature test
      expects. */
  lemma ExampleLogCommissions()
    ensures Run(Log, Envs, Start).commissions == Expected
  {
    FromRow1(Start);
  }
}
