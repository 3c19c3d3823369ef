# Commission calculator — a Dafny model

This project models the commission engine of the Homework repository, a
Laravel command-line tool. The tool reads a log of transactions and prints
one commission fee per transaction.

- **Fees.**
  - Deposits pay 0.03%.
  - Business withdrawals pay 0.5%.
  - Private withdrawals pay 0.3%, but share a weekly allowance. A user's
    first three withdrawals in an ISO week are free up to 1000 EUR in total.
    The withdrawal that crosses 1000 EUR pays only on the excess, converted
    back to its own currency. Every other private withdrawal pays on its
    full amount.
- **Rounding.** Every commission is rounded up to the currency's minor unit:
  0 decimals for JPY and 2 for every other code.
- **Exchange rates.** Foreign amounts are converted to EUR by the exchange
  service. It trims the currency code and gives EUR the rate 1. For any other
  code it looks the rate up in order:
  1. a fresh cache entry;
  2. the provider's historical rate for the date, cached for a day;
  3. only if the historical request threw, the provider's latest rate,
     cached for an hour;
  4. a fixed fallback table (USD 1.1497, JPY 129.53), cached for a day.

  If none of these gives a rate, the lookup fails.
- **The command.** It replays the log in order. It reports a transaction
  whose calculation throws an exception and carries on with the next one. A
  zero rate is different. Dividing by it raises PHP's `DivisionByZeroError`,
  which is an `Error` rather than an `Exception`. Neither of the command's
  `catch (\Exception $e)` blocks catches it, so the run ends at that row.

Modules:

- `Results`: the outcomes `Ok` / `Err` and the errors the core can throw.
- `Calendar`: Gregorian dates and ISO-8601 week numbering, i.e. PHP's
  `format('oW')`.
- `Money`: `roundUp` and the decimal-places table.
- `Exchange`: `CurrencyExchangeService`.
  - The rate cache is a map from (currency, date) to a rate and an expiry
    time.
  - The clock is an explicit `now`, in seconds.
  - The HTTP provider is an oracle. For each request it throws, answers
    without the rate, or answers with a rate.
  - Every provider request is recorded, so "no request was made" can be
    stated.
- `Ledger`: the weekly ledger, keyed by (user, ISO week-year, week).
- `Commission`: `CommissionCalculator::calculate`. The ledger and the rate
  cache are threaded through as explicit state.
- `Replay`: the command's loop over the log.
- `Scenario`: the 13-row log of the feature test. It is replayed from an
  empty state while the provider is down, so USD and JPY convert at the
  fallback rates. Those are the same rates the test's service double uses.
  The lemmas `Row1`…`Row13` and `FromRow1`…`FromRow13` are the steps of
  `ExampleLogCommissions`.

Behaviour of the code that is easy to misread:

- Only a historical request that throws leads to the latest-rate request. A
  historical response that lacks the rate goes straight to the fallback
  table (`Exchange.LatestOnlyAfterThrow`).
- A withdrawal's operation is counted only after its conversion to EUR
  succeeded. Conversion happens before the counter is incremented. If it
  throws, the ledger only gains the week's zero entry
  (`Commission.PrivateWithdrawBookkeeping`).
- The first two rows of the example log, 2014-12-31 and 2015-01-01, fall in
  the same ISO week, 2015-W01. That is why the second row pays 3.00
  (`Scenario.WeeksAroundNewYear2015`).
- The command's loop is meant to log a failing transaction and continue
  with the next (CalculateCommissionCommand.php:70). But neither
  `catch (\Exception $e)` block (lines 69 and 76) catches PHP's
  `DivisionByZeroError`, so a zero rate ends the run
  (`Replay.RunStopsOnlyAtFatal`).

## Model

| member | source | states |
|---|---|---|
| Calendar.IsoWeekOf | app/Services/CommissionCalculator.php:52-54 | The week-year is the year that holds the Thursday of the date's Monday-to-Sunday week. It is within one of the calendar year. The week number, between 1 and 53, counts that year's weeks up to and including that Thursday. |
| Calendar.SameIsoWeekIffSameWeek | app/Services/CommissionCalculator.php:54-55 | Two dates get the same week key exactly when they fall in the same Monday-to-Sunday week, even across a year boundary. |
| Calendar.IsoWeekOrdinalFormula | app/Services/CommissionCalculator.php:54 | When the week-year is the calendar year, the week number is (ordinal day − weekday + 10) / 7. |
| Calendar.NewYear2015SharesWeek | tests/Feature/CalculateCommissionCommandTest.php:52-53 | 2014-12-31 and 2015-01-01 are both in ISO week 2015-W01. |
| Money.DecimalPlaces | app/Services/CommissionCalculator.php:131-141 | JPY has 0 decimal places. Every other code, listed or not, has 2. |
| Money.RoundUp | app/Services/CommissionCalculator.php:123-129 | The result is not below the amount, is less than one minor unit above it, and is a whole number of minor units. |
| Money.RoundUpIsLeast | app/Services/CommissionCalculator.php:128 | No whole number of minor units that is at or above the amount is below the rounded result. |
| Money.RoundUpFixesWholeUnits | app/Services/CommissionCalculator.php:128 | An amount that is already a whole number of minor units is unchanged. |
| Money.RoundUpIdempotent | app/Services/CommissionCalculator.php:128 | Rounding twice is rounding once. |
| Money.RoundUpMonotonic | app/Services/CommissionCalculator.php:128 | A larger amount never rounds to a smaller commission. |
| Money.RoundUpExamples | app/Services/CommissionCalculator.php:123-141 | 0.0301 EUR rounds up to 0.04 and 0.03 EUR stays 0.03. 8611.41 JPY rounds up to 8612. For an unlisted code, 0.001 rounds up to 0.01. |
| Exchange.Trim | app/Services/CurrencyExchangeService.php:51 | The trimmed code is no longer than the input and has no blank at either end. A code with no blank at either end comes back unchanged. |
| Exchange.TrimSpec | app/Services/CurrencyExchangeService.php:50-51 | The trimmed code is the middle of the input. Only blank characters are removed from either end, and the result neither starts nor ends with a blank. |
| Exchange.TrimIdempotent | app/Services/CurrencyExchangeService.php:51 | Trimming twice is trimming once. |
| Exchange.TrimKeepsClean | app/Services/CurrencyExchangeService.php:51 | A code with no blank at either end is unchanged by trimming. |
| Exchange.IsFresh | app/Services/CurrencyExchangeService.php:59-60 | `Cache::has`: an entry counts only while the clock is before its expiry time. |
| Exchange.FreshUntilExpiry | app/Services/CurrencyExchangeService.php:59-60 | An entry written now to live a given number of seconds is fresh exactly until then. Writing it does not change whether any other key is fresh. |
| Exchange.UseFallback | app/Services/CurrencyExchangeService.php:107-115 | A code in the fallback table gets its fixed rate, cached for one day under the dated key. Any other code fails with "rate not available" and leaves the cache unchanged. No request is added. |
| Exchange.GetExchangeRate | app/Services/CurrencyExchangeService.php:48-116 | A rate that does not come from the EUR shortcut is left fresh in the cache under its key, with the same rate. A failure leaves the cache unchanged and names the trimmed code. At most two provider requests are made. |
| Exchange.ResolutionTouchesOnlyItsKey | app/Services/CurrencyExchangeService.php:57-113 | Resolving a rate writes the cache at most under its own (currency, date) key. |
| Exchange.EurRateIsOne | app/Services/CurrencyExchangeService.php:50-55 | A code that trims to EUR has rate 1 and uses neither the cache nor the provider. |
| Exchange.CacheHit | app/Services/CurrencyExchangeService.php:59-62 | A fresh cache entry is returned unchanged, with no request and no cache change. |
| Exchange.HistoricalHit | app/Services/CurrencyExchangeService.php:64-82 | On a cache miss, a historical answer with the rate is returned and cached for one day. Only that one request is made. |
| Exchange.LatestOnlyAfterThrow | app/Services/CurrencyExchangeService.php:64-105 | The latest rate is requested if and only if the cache missed and the historical request threw. |
| Exchange.LatestHit | app/Services/CurrencyExchangeService.php:83-101 | After a thrown historical request, a latest answer with the rate is returned and cached for one hour under the same dated key. |
| Exchange.FallbackDecides | app/Services/CurrencyExchangeService.php:107-115 | If no request produced a rate, USD and JPY get their fixed rate, cached for a day. Any other code fails and nothing is cached. |
| Exchange.ResolvedRateIsCached | app/Services/CurrencyExchangeService.php:57-113 | After a successful resolution, asking again at the same time is a cache hit for the same rate, with no request, whatever the provider does. |
| Exchange.ProviderDownUsesFallback | app/Services/CurrencyExchangeService.php:83-115 | Suppose the provider throws on every request and the cache holds only fallback rates. Then a non-EUR code resolves exactly when the table knows it, always to the table's rate, and the cache keeps holding only fallback rates. |
| Exchange.ConvertToEur | app/Services/CurrencyExchangeService.php:24-34 | EUR is returned as is, with no effect. Any other code succeeds exactly when a non-zero rate is resolved, and the result times the rate is the amount. A zero rate gives a division by zero. A failed lookup passes its own error on. The cache and requests are those of the rate lookup. |
| Exchange.ConvertFromEur | app/Services/CurrencyExchangeService.php:36-46 | EUR is returned as is, with no effect. Any other code succeeds exactly when a rate is resolved. The result divided by a non-zero rate is the amount, and a zero rate gives 0. A failed lookup passes its own error on. |
| Exchange.WayBackHitsCache | app/Services/CurrencyExchangeService.php:24-62 | After converting to EUR, resolving the same code and date again at the same time hits the cache for the same rate. |
| Exchange.ConvertRoundTrip | app/Services/CurrencyExchangeService.php:24-46 | Converting to EUR and back at the same time gives the original amount, with no request and no cache change on the way back. |
| Ledger.KeyFor | app/Services/CommissionCalculator.php:52-55 | The key carries the user and an ISO week numbered 1 to 53, whose week-year is within one of the date's year. |
| Ledger.SameKeyIffSameUserAndWeek | app/Services/CommissionCalculator.php:52-55 | Two withdrawals share a ledger entry exactly when they have the same user and fall in the same Monday-to-Sunday week, also across a year end. |
| Ledger.Open | app/Services/CommissionCalculator.php:57-63 | After opening, the week's entry exists and every week looks up as before. |
| Commission.AmountInEur | app/Services/CommissionCalculator.php:65-73 | An EUR amount is used as is, without calling the exchange service. |
| Commission.FromEurForTransaction | app/Services/CommissionCalculator.php:95-103 | An EUR excess is used as is, without calling the exchange service. |
| Commission.DepositCommission | app/Services/CommissionCalculator.php:38-42 | The fee is the least whole number of minor units not below 0.03% of the amount. It is never negative for a non-negative amount. |
| Commission.BusinessWithdrawCommission | app/Services/CommissionCalculator.php:44-48 | The fee is the least whole number of minor units not below 0.5% of the amount. It is never negative for a non-negative amount. |
| Commission.PrivateWithdrawCommission | app/Services/CommissionCalculator.php:50-121 | A failed conversion to EUR is passed on with its requests. Otherwise the fee is 0.3% of exactly the part of the amount the week's allowance does not cover, converted at the applied rate and rounded up. |
| Commission.ApplyAllowance | app/Services/CommissionCalculator.php:75-120 | Whatever the commission, the week's entry gains exactly one operation and the EUR amount, and no other week changes. |
| Commission.Calculate | app/Services/CommissionCalculator.php:23-48 | A deposit pays 0.03% and a business withdrawal pays 0.5%, both rounded up and without touching the ledger, the cache or the provider. The call is rejected as an invalid operation exactly when it is not a deposit, a private withdrawal or a business withdrawal, and then nothing changes. |
| Commission.ForeignRateApplied | app/Services/CommissionCalculator.php:65-73 | A successful conversion of a non-EUR amount used a resolved, non-zero rate, and the EUR amount times that rate is the original amount. |
| Commission.AmountInEurUsesRate | app/Services/CommissionCalculator.php:65-73 | Every successful conversion to EUR, EUR included, divides by a non-zero applied rate. |
| Commission.ForeignExcessHitsCache | app/Services/CommissionCalculator.php:95-103 | Converting a non-EUR excess back is served from the cache the first conversion filled. It makes no request, changes nothing and cannot fail. |
| Commission.ForeignExcessUsesSameRate | app/Services/CommissionCalculator.php:95-103 | The excess is converted back with the same rate the amount was converted to EUR with. |
| Commission.ExcessConvertsAtSameRate | app/Services/CommissionCalculator.php:91-103 | For any currency, the way back succeeds at the applied rate, with no request and no cache change. |
| Commission.PrivateWithdrawBookkeeping | app/Services/CommissionCalculator.php:57-116 | After a successful conversion, the withdrawal's week gains one operation and its EUR amount, and no other week changes. After a failed conversion, no week changes and the conversion's error is the outcome. |
| Commission.PrivateWithdrawFailsOnlyOnConversion | app/Services/CommissionCalculator.php:65-103 | A private withdrawal fails if and only if its conversion to EUR fails. |
| Commission.OvershootCharge | app/Services/CommissionCalculator.php:92-107 | Within the first three operations, a withdrawal beyond what is left of the allowance pays 0.3% of the converted excess, rounded up. |
| Commission.AllowanceChargesUncoveredPart | app/Services/CommissionCalculator.php:78-120 | If the excess converts back at the rate the amount was converted with, the weekly rule charges 0.3% of the part the allowance does not cover, in the transaction's currency, rounded up. |
| Commission.PrivateWithdrawReachesAllowance | app/Services/CommissionCalculator.php:50-76 | A withdrawal that converts goes to the weekly rule with its week's entry opened and holding the earlier bookings. |
| Commission.AllowanceAtAppliedRate | app/Services/CommissionCalculator.php:78-120 | Given the converted amount and the conversion back through the cache, the weekly rule charges the uncovered part at the applied rate. |
| Commission.PrivateWithdrawChargesUncoveredPart | app/Services/CommissionCalculator.php:50-121 | A private withdrawal pays 0.3% of exactly the part of its amount the week's allowance does not cover, rounded up. |
| Commission.FullChargeOutsideAllowance | app/Services/CommissionCalculator.php:115-120 | From the fourth operation of a week, or once 1000 EUR are used (exactly 1000 included), the uncovered part is the whole amount. |
| Commission.NoChargeWithinAllowance | app/Services/CommissionCalculator.php:83-111 | Within the first three operations, an amount that fits in what is left of the allowance owes nothing. |
| Commission.TaxedIsConvertedExcess | app/Services/CommissionCalculator.php:92-103 | For the withdrawal that crosses 1000 EUR, the uncovered part is the EUR excess converted at the same rate. |
| Commission.NoChargeAtAppliedRate | app/Services/CommissionCalculator.php:83-111 | The no-charge case holds at the rate a successful conversion applied. |
| Commission.ExcessChargeAtAppliedRate | app/Services/CommissionCalculator.php:92-107 | The crossing case holds at the rate a successful conversion applied. |
| Commission.PrivateWithdrawPaysInFull | app/Services/CommissionCalculator.php:115-120 | With three operations already booked, or 1000 EUR used, a private withdrawal pays 0.3% of its full amount, rounded up. |
| Commission.PrivateWithdrawWithinAllowanceIsFree | app/Services/CommissionCalculator.php:83-111 | Among the first three of its week, a withdrawal that stays within 1000 EUR pays nothing. |
| Commission.PrivateWithdrawStraddlePaysOnExcess | app/Services/CommissionCalculator.php:86-108 | Among the first three of its week, the withdrawal that crosses 1000 EUR pays 0.3% of the excess only, converted at the rate it was converted with. It leaves the week above 1000 EUR. |
| Commission.PrivateWithdrawCacheIsConversionCache | app/Services/CommissionCalculator.php:65-103 | A converted private withdrawal leaves the cache as its conversion to EUR left it. It makes only that conversion's requests. |
| Commission.EurTransactionLeavesCacheAlone | app/Services/CommissionCalculator.php:65-73 | A transaction in EUR of any kind neither changes the cache nor asks the provider anything. |
| Commission.UncoveredChargeNonNegative | app/Services/CommissionCalculator.php:75-120 | For a non-negative amount converted to EUR at any rate, the part the allowance leaves uncovered is not negative, and neither is its charge. |
| Commission.ConvertedChargeNonNegative | app/Services/CommissionCalculator.php:65-120 | Once a non-negative amount has reached EUR, the charge the weekly rule gives it is not negative. |
| Commission.PrivateWithdrawCommissionNonNegative | app/Services/CommissionCalculator.php:50-121 | A private withdrawal of a non-negative amount never pays a negative commission. |
| Commission.CommissionNonNegative | app/Services/CommissionCalculator.php:23-48 | Every commission returned for a non-negative amount, of any operation and user type, is not negative. |
| Replay.RunWith | app/Console/Commands/CalculateCommissionCommand.php:50-73 | There are never more outcomes than rows. A run that did not halt has exactly one outcome per row, whether that row succeeded or threw an exception. |
| Replay.Run | app/Console/Commands/CalculateCommissionCommand.php:50-73 | Replaying a log with the calculator gives one outcome per row unless the run halted. |
| Replay.RunStopsOnlyAtFatal | app/Console/Commands/CalculateCommissionCommand.php:33-85 | The run halts exactly when some outcome is a division by zero. That outcome is the last one, and no earlier outcome is fatal. |
| Replay.RunUnfolds | app/Console/Commands/CalculateCommissionCommand.php:50-73 | The first row is calculated on the initial state. A division by zero ends the run there. Otherwise the rest of the log is replayed from the state the first row leaves. |
| Replay.RunSplits | app/Console/Commands/CalculateCommissionCommand.php:50-73 | If the first part of a log did not halt, replaying the log in two parts, the second from where the first stopped, gives the same outcomes, final state, requests and halting as replaying it at once. |
| Replay.EurRowIsNotFatal | app/Services/CommissionCalculator.php:65-73 | A transaction in EUR never divides by a rate, so it cannot end the run. |
| Replay.BookOneRow | app/Services/CommissionCalculator.php:57-116 | An EUR private withdrawal books one operation and its amount under its own week. Any other EUR row leaves the ledger as it was. |
| Replay.LedgerCountsWeeklyWithdrawals | app/Services/CommissionCalculator.php:57-116 | After an EUR log, every week's entry has gained exactly the number and the total of that week's private withdrawals in the log. |
| Replay.EurLogNeverAsksProvider | app/Services/CommissionCalculator.php:65-73 | Replaying an EUR-only log never changes the rate cache and never asks the provider. |
| Scenario.WeeksAroundNewYear2015 | tests/Feature/CalculateCommissionCommandTest.php:52-53 | User 4's withdrawals on 2014-12-31 and 2015-01-01 are booked in the same week. |
| Scenario.WeeksJanuary2016 | tests/Feature/CalculateCommissionCommandTest.php:54-62 | The rows from 2016-01-05 to Sunday 2016-01-10 all fall in 2016-W01. |
| Scenario.WeeksFebruary2016 | tests/Feature/CalculateCommissionCommandTest.php:63-64 | 2016-02-15 and 2016-02-19 fall in 2016-W07. |
| Scenario.OfflineConversion | app/Services/CurrencyExchangeService.php:107-113 | With the provider down, EUR, USD and JPY amounts always convert at 1, 1.1497 and 129.53, and only fallback rates enter the cache. |
| Scenario.ChargeRow1 | tests/Feature/CalculateCommissionCommandTest.php:52 | 1200 EUR in a fresh week pays 0.60. |
| Scenario.ChargeRow2 | tests/Feature/CalculateCommissionCommandTest.php:53 | 1000 EUR after 1200 EUR in the same week pays 3.00. |
| Scenario.ChargeRow7 | tests/Feature/CalculateCommissionCommandTest.php:57-58 | 1000 EUR after 30000 JPY in the same week pays 0.70. |
| Scenario.ChargeRow13 | tests/Feature/CalculateCommissionCommandTest.php:64 | 3000000 JPY in a fresh week pays 8612. |
| Scenario.ExampleLogCommissions | tests/Feature/CalculateCommissionCommandTest.php:51-89 | The 13 rows, replayed from an empty ledger and cache, give 0.60, 3.00, 0.00, 0.06, 1.50, 0, 0.70, 0.30, 0.30, 3.00, 0.00, 0.00 and 8612, in that order. |

## Left out

- HTTP and JSON: the provider is an oracle per request. The URL, query
  parameters and body decoding are not modelled. A rate in a response is
  taken to be a number.
- Laravel's `Cache` and `Log` facades:
  - The cache is an explicit map. Expired entries are never evicted; they
    only stop counting as fresh.
  - Logging is reduced to the `Source` tag of a resolved rate.
- Date strings: transactions carry a validated (year, month, day) date, and
  the cache is keyed by that date. `strtotime`, `date('Y-m-d')` and the
  spelling of the date inside the cache-key string are not modelled.
- Floating point: amounts and rates are exact reals. `ceil($x * 10 ** d) / 10 ** d`
  is modelled without its rounding artefacts.
- The clock: one `now` reading per transaction. Both conversions of a
  withdrawal see the same time.
- Commission.ForeignExcessHitsCache, Commission.ForeignExcessUsesSameRate,
  Commission.ExcessConvertsAtSameRate and
  Commission.PrivateWithdrawFailsOnlyOnConversion hold only under that single
  clock reading. In the code, `convertToEur` and `convertFromEur` each call
  `Cache::has` at their own moment. A latest-rate entry lives one hour. If it
  expires between the two calls, the way back asks the provider again. It may
  then get a different rate, or throw after the week was already booked.
  These four members do not promise anything for that case.
- Output formatting of the command (`number_format`, the JPY integer cast),
  its options, exit codes and messages: outcomes stay exact amounts or
  errors.
- `CsvFileHandler`, `AppServiceProvider` and the accessors of `Transaction`:
  input parsing and dependency wiring. A transaction is a plain record.
- Concurrency: the engine is run sequentially, as the command runs it.
- Scenario.ExampleLogCommissions: the feature test replaces the exchange
  service with a double answering USD 1.1497 and JPY 129.53. The replay
  instead uses the real service with the provider down, which yields the
  same rates from the fallback table.
- Commission.PrivateWithdrawBookkeeping: when the conversion fails, it states
  that every week looks up as before rather than that the map is unchanged.
  The code does store a zero entry for the week (`Ledger.Open`), which no
  lookup can tell from a missing one.
