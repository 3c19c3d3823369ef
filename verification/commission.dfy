/** The commission engine (`CommissionCalculator`).

    Each transaction is charged by a rule picked from its operation type and
    user type; the commission is rounded up to the currency's minor unit.
    Private withdrawals share a weekly allowance: the first three withdrawals of
    a user in an ISO week are free up to 1000 EUR in total, the withdrawal that
    crosses the limit pays only on the excess, and everything else pays 0.3% of
    the full amount. The weekly ledger and the rate cache are threaded through
    as explicit state.
 */
module Commission {
  import opened Results
  import opened Calendar
  import opened Money
  import opened Exchange
  import opened Ledger

  const DepositRate: real := 0.0003
  const PrivateWithdrawRate: real := 0.003
  const BusinessWithdrawRate: real := 0.005
  const FreeWithdrawLimitEur: real := 1000.0
  const FreeWithdrawOperationsPerWeek: int := 3

  /** One row of the transaction log. Operation and user types are the raw
      (trimmed) strings, so unknown values reach the engine and are rejected
      there, as PHP's `calculate` rejects them. */
  datatype Transaction = Transaction(
    date: ValidDate,
    userId: int,
    userType: string,
    operationType: string,
    amount: real,
    currency: string)

  /** The engine's state: the weekly ledger and the exchange service's cache. */
  datatype State = State(ledger: Ledger, cache: Cache)

  /** What the world supplies to one transaction: the clock reading and the
      rate provider. */
  datatype Env = Env(now: int, provider: Provider)

  /** The outcome of one `calculate` call: the commission (or the exception),
      the state afterwards, and the provider requests made on the way. */
  datatype Step = Step(commission: Result<real>, state: State, requests: seq<Request>)

  predicate IsDeposit(tx: Transaction) {
    tx.operationType == "deposit"
  }

  predicate IsPrivateWithdraw(tx: Transaction) {
    tx.operationType == "withdraw" && tx.userType == "private"
  }

  predicate IsBusinessWithdraw(tx: Transaction) {
    tx.operationType == "withdraw" && tx.userType == "business"
  }

  /** The transaction amount in EUR; EUR amounts skip the exchange service. */
  function AmountInEur(tx: Transaction, cache: Cache, env: Env): (a: Answer<real>)
    ensures tx.currency == "EUR" ==> a == Answer(Ok(tx.amount), cache, [])
  {
    if tx.currency != "EUR" then ConvertToEur(tx.amount, tx.currency, tx.date, cache, env.now, env.provider)
    else Answer(Ok(tx.amount), cache, [])
  }

  /** An EUR amount expressed in the transaction's currency. */
  function FromEurForTransaction(tx: Transaction, amountEur: real, cache: Cache, env: Env): (a: Answer<real>)
    ensures tx.currency == "EUR" ==> a == Answer(Ok(amountEur), cache, [])
  {
    if tx.currency != "EUR" then ConvertFromEur(amountEur, tx.currency, tx.date, cache, env.now, env.provider)
    else Answer(Ok(amountEur), cache, [])
  }

  /** `calculateDepositCommission`: the least whole number of minor units not
      below 0.03% of the amount. */
  function DepositCommission(tx: Transaction): (c: real)
    ensures tx.amount * DepositRate <= c < tx.amount * DepositRate + MinorUnit(tx.currency)
    ensures IsWholeUnits(c, tx.currency)
    ensures tx.amount >= 0.0 ==> c >= 0.0
  {
    RoundUp(tx.amount * DepositRate, tx.currency)
  }

  /** `calculateBusinessWithdrawCommission`: the least whole number of minor
      units not below 0.5% of the amount. */
  function BusinessWithdrawCommission(tx: Transaction): (c: real)
    ensures tx.amount * BusinessWithdrawRate <= c < tx.amount * BusinessWithdrawRate + MinorUnit(tx.currency)
    ensures IsWholeUnits(c, tx.currency)
    ensures tx.amount >= 0.0 ==> c >= 0.0
  {
    RoundUp(tx.amount * BusinessWithdrawRate, tx.currency)
  }

  /** Conversion of an EUR amount back to the transaction's currency, as a
      function of the amount, for the weekly rule to call when it needs it. */
  function ConvertBack(tx: Transaction, cache: Cache, env: Env): real -> Answer<real> {
    amountEur => FromEurForTransaction(tx, amountEur, cache, env)
  }

  /** The weekly rule once the EUR amount is known. `ledger` already holds an
      entry for `key`; the operation is counted and its EUR amount booked on
      every path, before the commission is decided. Only the withdrawal that
      crosses the limit calls `convertBack`, on the part above it. */
  function ApplyAllowance(tx: Transaction, ledger: Ledger, key: WeekKey, amountInEur: real,
                          cache: Cache, requests: seq<Request>, convertBack: real -> Answer<real>): (s: Step)
    requires key in ledger
    ensures Lookup(s.state.ledger, key) == Bucket(ledger[key].operations + 1, ledger[key].amountEur + amountInEur)
    ensures AgreeExcept(ledger, s.state.ledger, key)
  {
    var operationsThisWeek := ledger[key].operations + 1;
    var amountUsedThisWeek := ledger[key].amountEur;
    var booked := ledger[key := Bucket(operationsThisWeek, amountUsedThisWeek + amountInEur)];
    var remainingFreeAmount := FreeWithdrawLimitEur - amountUsedThisWeek;
    if operationsThisWeek <= FreeWithdrawOperationsPerWeek && remainingFreeAmount > 0.0 then
      if amountInEur > remainingFreeAmount then
        var back := convertBack(amountInEur - remainingFreeAmount);
        match back.result
        case Err(e) => Step(Err(e), State(booked, back.cache), requests + back.requests)
        case Ok(exceedingAmount) =>
          Step(Ok(RoundUp(exceedingAmount * PrivateWithdrawRate, tx.currency)), State(booked, back.cache), requests + back.requests)
      else
        Step(Ok(0.0), State(booked, cache), requests)
    else
      Step(Ok(RoundUp(tx.amount * PrivateWithdrawRate, tx.currency)), State(booked, cache), requests)
  }

  /** `calculatePrivateWithdrawCommission`: open the week's entry, convert the
      amount to EUR, then apply the weekly rule. A failed conversion is passed
      on as it is; otherwise the fee is 0.3% of exactly the part of the amount
      the week's allowance does not cover, at the rate the conversion used. */
  function PrivateWithdrawCommission(tx: Transaction, st: State, env: Env): (s: Step)
    ensures AmountInEur(tx, st.cache, env).result.Err? ==>
              s.commission == AmountInEur(tx, st.cache, env).result
              && s.requests == AmountInEur(tx, st.cache, env).requests
    ensures AmountInEur(tx, st.cache, env).result.Ok? ==>
              s.commission == Ok(UncoveredCharge(tx, Lookup(st.ledger, KeyFor(tx.userId, tx.date)),
                                                 AmountInEur(tx, st.cache, env).result.value, RateApplied(tx, st.cache, env)))
  {
    var key := KeyFor(tx.userId, tx.date);
    var initialised := Open(st.ledger, key);
    var toEur := AmountInEur(tx, st.cache, env);
    match toEur.result
    case Err(e) => Step(Err(e), State(initialised, toEur.cache), toEur.requests)
    case Ok(amountInEur) =>
      AllowanceAtAppliedRate(tx, st, env, key);
      ApplyAllowance(tx, initialised, key, amountInEur, toEur.cache, toEur.requests, ConvertBack(tx, toEur.cache, env))
  }

  /** `calculate`: dispatch on operation type, then user type. Deposits and
      business withdrawals leave the ledger and the cache alone and ask the
      provider nothing; an unknown combination is rejected without effect. */
  function Calculate(tx: Transaction, st: State, env: Env): (s: Step)
    ensures IsDeposit(tx) ==> s == Step(Ok(RoundUp(tx.amount * DepositRate, tx.currency)), st, [])
    ensures IsBusinessWithdraw(tx) ==> s == Step(Ok(RoundUp(tx.amount * BusinessWithdrawRate, tx.currency)), st, [])
    ensures !IsDeposit(tx) && !IsPrivateWithdraw(tx) && !IsBusinessWithdraw(tx) ==> s == Step(Err(InvalidOperation), st, [])
    ensures s.commission.Err? && s.commission.error == InvalidOperation <==>
              !IsDeposit(tx) && !IsPrivateWithdraw(tx) && !IsBusinessWithdraw(tx)
  {
    if tx.operationType == "deposit" then
      Step(Ok(DepositCommission(tx)), st, [])
    else if tx.operationType == "withdraw" && tx.userType == "private" then
      PrivateWithdrawCommission(tx, st, env)
    else if tx.operationType == "withdraw" && tx.userType == "business" then
      Step(Ok(BusinessWithdrawCommission(tx)), st, [])
    else
      Step(Err(InvalidOperation), st, [])
  }

  // ---------------------------------------------------------------------------
  // The weekly allowance, stated independently of the code path.

  function Min(a: real, b: real): real {
    if a <= b then a else b
  }

  /** The part (in EUR) of a private withdrawal that the week's allowance
      covers, given the week's entry before the withdrawal: only the first three
      withdrawals of the week are covered, and only up to what is left of the
      1000 EUR. */
  function CoveredEur(before: Bucket, amountInEur: real): real {
    if before.operations < FreeWithdrawOperationsPerWeek && before.amountEur < FreeWithdrawLimitEur then
      Min(amountInEur, FreeWithdrawLimitEur - before.amountEur)
    else
      0.0
  }

  /** How far a withdrawal of `amountInEur` EUR goes past what is left of the
      week's 1000 EUR. */
  function Excess(before: Bucket, amountInEur: real): real {
    amountInEur - (FreeWithdrawLimitEur - before.amountEur)
  }

  /** The excess converted back to the transaction's currency at `rate`
      units per EUR. */
  function ConvertedExcess(before: Bucket, amountInEur: real, rate: real): real {
    Excess(before, amountInEur) * rate
  }

  /** The part of the amount, in the transaction's currency at `rate` units
      per EUR, that the allowance does not cover. */
  function TaxedAmount(tx: Transaction, before: Bucket, amountInEur: real, rate: real): real {
    tx.amount - rate * CoveredEur(before, amountInEur)
  }

  /** The commission the weekly rule promises: 0.3% of the uncovered part,
      rounded up. */
  function UncoveredCharge(tx: Transaction, before: Bucket, amountInEur: real, rate: real): real {
    PrivateWithdrawCharge(TaxedAmount(tx, before, amountInEur, rate), tx.currency)
  }

  /** 0.3% of an amount, rounded up. */
  function PrivateWithdrawCharge(amount: real, currency: string): real {
    RoundUp(amount * PrivateWithdrawRate, currency)
  }

  /** Units of the transaction's currency per EUR used for its conversions
      (1 for EUR; 0 stands for "no rate could be resolved"). */
  function RateApplied(tx: Transaction, cache: Cache, env: Env): real {
    if tx.currency == "EUR" then 1.0
    else
      match GetExchangeRate(tx.currency, tx.date, cache, env.now, env.provider).result
      case Ok(q) => q.rate
      case Err(_) => 0.0
  }

  /** For a currency other than EUR, the applied rate is the resolved one. */
  lemma ForeignRateApplied(tx: Transaction, cache: Cache, env: Env)
    requires tx.currency != "EUR"
    requires ConvertToEur(tx.amount, tx.currency, tx.date, cache, env.now, env.provider).result.Ok?
    ensures var q := GetExchangeRate(tx.currency, tx.date, cache, env.now, env.provider);
            && q.result.Ok?
            && q.result.value.rate == RateApplied(tx, cache, env)
            && RateApplied(tx, cache, env) != 0.0
            && ConvertToEur(tx.amount, tx.currency, tx.date, cache, env.now, env.provider).result.value * RateApplied(tx, cache, env) == tx.amount
  {
  }

  /** A successful conversion to EUR divides by a non-zero applied rate. */
  lemma AmountInEurUsesRate(tx: Transaction, cache: Cache, env: Env)
    requires AmountInEur(tx, cache, env).result.Ok?
    ensures RateApplied(tx, cache, env) != 0.0
    ensures AmountInEur(tx, cache, env).result.value * RateApplied(tx, cache, env) == tx.amount
  {
    if tx.currency == "EUR" {
      assert RateApplied(tx, cache, env) == 1.0;
      assert AmountInEur(tx, cache, env).result.value == tx.amount;
    } else {
      ForeignRateApplied(tx, cache, env);
    }
  }

  /** Converting back a foreign-currency excess is served from the cache the
      conversion to EUR filled: no request, no cache change, no failure. */
  lemma ForeignExcessHitsCache(tx: Transaction, cache: Cache, env: Env, excessEur: real)
    requires tx.currency != "EUR"
    requires ConvertToEur(tx.amount, tx.currency, tx.date, cache, env.now, env.provider).result.Ok?
    ensures var toEur := ConvertToEur(tx.amount, tx.currency, tx.date, cache, env.now, env.provider);
            var back := ConvertFromEur(excessEur, tx.currency, tx.date, toEur.cache, env.now, env.provider);
            back.result.Ok? && back.cache == toEur.cache && back.requests == []
  {
    WayBackHitsCache(tx.amount, tx.currency, tx.date, cache, env.now, env.provider, env.provider);
  }

  /** ... and multiplies by the same rate the conversion to EUR divided by. */
  lemma ForeignExcessUsesSameRate(tx: Transaction, cache: Cache, env: Env, excessEur: real)
    requires tx.currency != "EUR"
    requires ConvertToEur(tx.amount, tx.currency, tx.date, cache, env.now, env.provider).result.Ok?
    ensures var toEur := ConvertToEur(tx.amount, tx.currency, tx.date, cache, env.now, env.provider);
            var back := ConvertFromEur(excessEur, tx.currency, tx.date, toEur.cache, env.now, env.provider);
            back.result.Ok? && back.result.value == excessEur * RateApplied(tx, cache, env)
  {
    var toEur := ConvertToEur(tx.amount, tx.currency, tx.date, cache, env.now, env.provider);
    ForeignRateApplied(tx, cache, env);
    WayBackHitsCache(tx.amount, tx.currency, tx.date, cache, env.now, env.provider, env.provider);
    var rate := RateApplied(tx, cache, env);
    var back := ConvertFromEur(excessEur, tx.currency, tx.date, toEur.cache, env.now, env.provider);
    assert back.result.Ok? && back.result.value / rate == excessEur;
    DivideThenMultiply(back.result.value, rate);
  }

  /** Within one transaction, converting an EUR excess back to the
      transaction's currency is served from the cache the first conversion
      filled: it multiplies by the same rate and cannot fail. */
  lemma ExcessConvertsAtSameRate(tx: Transaction, cache: Cache, env: Env, excessEur: real)
    requires AmountInEur(tx, cache, env).result.Ok?
    ensures var toEur := AmountInEur(tx, cache, env);
            var back := ConvertBack(tx, toEur.cache, env)(excessEur);
            && back.result.Ok?
            && back.result.value == excessEur * RateApplied(tx, cache, env)
            && back.cache == toEur.cache
            && back.requests == []
  {
    var toEur := AmountInEur(tx, cache, env);
    assert ConvertBack(tx, toEur.cache, env)(excessEur) == FromEurForTransaction(tx, excessEur, toEur.cache, env);
    if tx.currency != "EUR" {
      ForeignExcessHitsCache(tx, cache, env, excessEur);
      ForeignExcessUsesSameRate(tx, cache, env, excessEur);
    }
  }

  /** Bookkeeping of a private withdrawal: once its amount is in EUR, its week's
      entry gains exactly one operation and exactly that EUR amount (whether it
      was free, straddled the limit or paid in full) and no other week changes;
      if the conversion fails, no week changes. */
  lemma PrivateWithdrawBookkeeping(tx: Transaction, st: State, env: Env)
    requires IsPrivateWithdraw(tx)
    ensures var s := Calculate(tx, st, env);
            var key := KeyFor(tx.userId, tx.date);
            var toEur := AmountInEur(tx, st.cache, env);
            && (toEur.result.Ok? ==>
                  && Lookup(s.state.ledger, key)
                     == Bucket(Lookup(st.ledger, key).operations + 1, Lookup(st.ledger, key).amountEur + toEur.result.value)
                  && AgreeExcept(st.ledger, s.state.ledger, key))
            && (toEur.result.Err? ==> SameEntries(st.ledger, s.state.ledger) && s.commission == toEur.result)
  {
    var key := KeyFor(tx.userId, tx.date);
    var initialised := Open(st.ledger, key);
    assert SameEntries(st.ledger, initialised);
  }

  /** A private withdrawal fails exactly when its conversion to EUR fails: the
      conversion of the excess back to the original currency never does. */
  lemma PrivateWithdrawFailsOnlyOnConversion(tx: Transaction, st: State, env: Env)
    requires IsPrivateWithdraw(tx)
    ensures Calculate(tx, st, env).commission.Err? <==> AmountInEur(tx, st.cache, env).result.Err?
  {
    var toEur := AmountInEur(tx, st.cache, env);
    if toEur.result.Ok? {
      var key := KeyFor(tx.userId, tx.date);
      var before := Lookup(st.ledger, key);
      ExcessConvertsAtSameRate(tx, st.cache, env, Excess(before, toEur.result.value));
    }
  }

  /** The weekly rule, once the EUR amount and the rate are known, charges
      0.3% of the uncovered part of the amount in the transaction's currency,
      provided converting the excess back uses the same rate. */
  lemma AllowanceChargesUncoveredPart(tx: Transaction, ledger: Ledger, key: WeekKey, amountInEur: real,
                                      cache: Cache, requests: seq<Request>, convertBack: real -> Answer<real>,
                                      rate: real)
    requires key in ledger
    requires amountInEur * rate == tx.amount
    requires convertBack(Excess(ledger[key], amountInEur)).result.Ok?
    requires convertBack(Excess(ledger[key], amountInEur)).result.value == Excess(ledger[key], amountInEur) * rate
    ensures ApplyAllowance(tx, ledger, key, amountInEur, cache, requests, convertBack).commission
            == Ok(UncoveredCharge(tx, ledger[key], amountInEur, rate))
  {
    AllowanceChargesTaxedPart(tx, ledger, key, amountInEur, cache, requests, convertBack, rate,
                              TaxedAmount(tx, ledger[key], amountInEur, rate));
  }

  lemma AllowanceChargesTaxedPart(tx: Transaction, ledger: Ledger, key: WeekKey, amountInEur: real,
                                  cache: Cache, requests: seq<Request>, convertBack: real -> Answer<real>,
                                  rate: real, taxed: real)
    requires key in ledger
    requires amountInEur * rate == tx.amount
    requires convertBack(Excess(ledger[key], amountInEur)).result.Ok?
    requires convertBack(Excess(ledger[key], amountInEur)).result.value == Excess(ledger[key], amountInEur) * rate
    requires taxed == TaxedAmount(tx, ledger[key], amountInEur, rate)
    ensures ApplyAllowance(tx, ledger, key, amountInEur, cache, requests, convertBack).commission
            == Ok(RoundUp(taxed * PrivateWithdrawRate, tx.currency))
  {
    var before := ledger[key];
    var remaining := FreeWithdrawLimitEur - before.amountEur;
    if before.operations + 1 <= FreeWithdrawOperationsPerWeek && remaining > 0.0 {
      if amountInEur > remaining {
        assert CoveredEur(before, amountInEur) == remaining;
        DistributeRate(amountInEur, remaining, rate, tx.amount);
        OvershootCharge(tx, ledger, key, amountInEur, cache, requests, convertBack, taxed);
      } else {
        assert CoveredEur(before, amountInEur) == amountInEur;
        ZeroCharge(tx.amount, rate, amountInEur, taxed, tx.currency);
      }
    } else {
      assert CoveredEur(before, amountInEur) == 0.0;
    }
  }

  /** The withdrawal that crosses the limit pays on the converted excess. */
  lemma OvershootCharge(tx: Transaction, ledger: Ledger, key: WeekKey, amountInEur: real,
                        cache: Cache, requests: seq<Request>, convertBack: real -> Answer<real>,
                        excessConverted: real)
    requires key in ledger
    requires ledger[key].operations + 1 <= FreeWithdrawOperationsPerWeek
    requires 0.0 < FreeWithdrawLimitEur - ledger[key].amountEur < amountInEur
    requires convertBack(Excess(ledger[key], amountInEur)).result.Ok?
    requires convertBack(Excess(ledger[key], amountInEur)).result.value == excessConverted
    ensures ApplyAllowance(tx, ledger, key, amountInEur, cache, requests, convertBack).commission
            == Ok(RoundUp(excessConverted * PrivateWithdrawRate, tx.currency))
  {
  }

  /** Nothing left to tax means no commission. */
  lemma ZeroCharge(amount: real, rate: real, amountInEur: real, taxed: real, currency: string)
    requires amountInEur * rate == amount
    requires taxed == amount - rate * amountInEur
    ensures RoundUp(taxed * PrivateWithdrawRate, currency) == 0.0
  {
    assert taxed * PrivateWithdrawRate == 0.0;
    RoundUpFixesWholeUnits(taxed * PrivateWithdrawRate, currency);
  }

  /** The excess over the allowance, converted at the same rate, is the amount
      minus the allowance converted at that rate. */
  lemma DistributeRate(amountInEur: real, remaining: real, rate: real, amount: real)
    requires amountInEur * rate == amount
    ensures (amountInEur - remaining) * rate == amount - rate * remaining
  {
  }

  /** A private withdrawal whose amount reaches EUR goes on to the weekly rule
      with the week's entry opened. */
  lemma PrivateWithdrawReachesAllowance(tx: Transaction, st: State, env: Env)
    requires IsPrivateWithdraw(tx)
    requires AmountInEur(tx, st.cache, env).result.Ok?
    ensures KeyFor(tx.userId, tx.date) in Open(st.ledger, KeyFor(tx.userId, tx.date))
    ensures Open(st.ledger, KeyFor(tx.userId, tx.date))[KeyFor(tx.userId, tx.date)] == Lookup(st.ledger, KeyFor(tx.userId, tx.date))
    ensures Calculate(tx, st, env)
            == ApplyAllowance(tx, Open(st.ledger, KeyFor(tx.userId, tx.date)), KeyFor(tx.userId, tx.date),
                              AmountInEur(tx, st.cache, env).result.value, AmountInEur(tx, st.cache, env).cache,
                              AmountInEur(tx, st.cache, env).requests, ConvertBack(tx, AmountInEur(tx, st.cache, env).cache, env))
  {
  }

  /** The weekly rule, fed the amount in EUR, the cache the conversion left
      and the conversion back through that cache, charges the uncovered part at
      the applied rate (whatever week `key` the withdrawal is booked under). */
  lemma AllowanceAtAppliedRate(tx: Transaction, st: State, env: Env, key: WeekKey)
    requires AmountInEur(tx, st.cache, env).result.Ok?
    ensures key in Open(st.ledger, key)
    ensures ApplyAllowance(tx, Open(st.ledger, key), key,
                           AmountInEur(tx, st.cache, env).result.value, AmountInEur(tx, st.cache, env).cache,
                           AmountInEur(tx, st.cache, env).requests, ConvertBack(tx, AmountInEur(tx, st.cache, env).cache, env)).commission
            == Ok(UncoveredCharge(tx, Open(st.ledger, key)[key], AmountInEur(tx, st.cache, env).result.value,
                                  RateApplied(tx, st.cache, env)))
  {
    AmountInEurUsesRate(tx, st.cache, env);
    ExcessConvertsAtSameRate(tx, st.cache, env, Excess(Open(st.ledger, key)[key], AmountInEur(tx, st.cache, env).result.value));
    AllowanceChargesUncoveredPart(tx, Open(st.ledger, key), key,
                                  AmountInEur(tx, st.cache, env).result.value, AmountInEur(tx, st.cache, env).cache,
                                  AmountInEur(tx, st.cache, env).requests,
                                  ConvertBack(tx, AmountInEur(tx, st.cache, env).cache, env), RateApplied(tx, st.cache, env));
  }

  /** The weekly rule charges 0.3% of exactly the part of the amount the
      allowance does not cover, expressed in the transaction's currency and
      rounded up. */
  lemma PrivateWithdrawChargesUncoveredPart(tx: Transaction, st: State, env: Env)
    requires IsPrivateWithdraw(tx)
    requires AmountInEur(tx, st.cache, env).result.Ok?
    ensures Calculate(tx, st, env).commission
            == Ok(UncoveredCharge(tx, Lookup(st.ledger, KeyFor(tx.userId, tx.date)),
                                  AmountInEur(tx, st.cache, env).result.value, RateApplied(tx, st.cache, env)))
  {
    PrivateWithdrawReachesAllowance(tx, st, env);
    AllowanceAtAppliedRate(tx, st, env, KeyFor(tx.userId, tx.date));
  }

  // ---------------------------------------------------------------------------
  // The three cases of the weekly rule.

  /** The fourth and later withdrawals of a week, and every withdrawal once the
      week's 1000 EUR are used up (exactly 1000 included), owe 0.3% of the full
      amount. */
  lemma FullChargeOutsideAllowance(tx: Transaction, before: Bucket, amountInEur: real, rate: real)
    requires before.operations >= FreeWithdrawOperationsPerWeek || before.amountEur >= FreeWithdrawLimitEur
    ensures UncoveredCharge(tx, before, amountInEur, rate) == RoundUp(tx.amount * PrivateWithdrawRate, tx.currency)
  {
    assert CoveredEur(before, amountInEur) == 0.0;
  }

  /** One of the first three withdrawals of a week that stays within what is
      left of the 1000 EUR owes nothing. */
  lemma NoChargeWithinAllowance(tx: Transaction, before: Bucket, amountInEur: real, rate: real)
    requires amountInEur * rate == tx.amount
    requires before.operations < FreeWithdrawOperationsPerWeek
    requires before.amountEur < FreeWithdrawLimitEur
    requires before.amountEur + amountInEur <= FreeWithdrawLimitEur
    ensures UncoveredCharge(tx, before, amountInEur, rate) == 0.0
  {
    assert CoveredEur(before, amountInEur) == amountInEur;
    ZeroCharge(tx.amount, rate, amountInEur, TaxedAmount(tx, before, amountInEur, rate), tx.currency);
  }

  /** Across the limit, the uncovered part is the excess converted at the
      rate the amount was converted with. */
  lemma TaxedIsConvertedExcess(tx: Transaction, before: Bucket, amountInEur: real, rate: real)
    requires amountInEur * rate == tx.amount
    requires before.operations < FreeWithdrawOperationsPerWeek
    requires before.amountEur < FreeWithdrawLimitEur < before.amountEur + amountInEur
    ensures TaxedAmount(tx, before, amountInEur, rate) == ConvertedExcess(before, amountInEur, rate)
  {
    assert CoveredEur(before, amountInEur) == FreeWithdrawLimitEur - before.amountEur;
    DistributeRate(amountInEur, FreeWithdrawLimitEur - before.amountEur, rate, tx.amount);
  }

  /** Within-allowance case at the applied rate of a successful conversion. */
  lemma NoChargeAtAppliedRate(tx: Transaction, cache: Cache, env: Env, before: Bucket)
    requires AmountInEur(tx, cache, env).result.Ok?
    requires before.operations < FreeWithdrawOperationsPerWeek
    requires before.amountEur < FreeWithdrawLimitEur
    requires before.amountEur + AmountInEur(tx, cache, env).result.value <= FreeWithdrawLimitEur
    ensures UncoveredCharge(tx, before, AmountInEur(tx, cache, env).result.value, RateApplied(tx, cache, env)) == 0.0
  {
    AmountInEurUsesRate(tx, cache, env);
    NoChargeWithinAllowance(tx, before, AmountInEur(tx, cache, env).result.value, RateApplied(tx, cache, env));
  }

  /** The withdrawal that crosses the 1000 EUR mark within the first three of
      the week owes 0.3% of the excess only, converted at the rate the amount
      was converted with. */
  lemma ExcessChargeAtAppliedRate(tx: Transaction, cache: Cache, env: Env, before: Bucket)
    requires AmountInEur(tx, cache, env).result.Ok?
    requires before.operations < FreeWithdrawOperationsPerWeek
    requires before.amountEur < FreeWithdrawLimitEur < before.amountEur + AmountInEur(tx, cache, env).result.value
    ensures TaxedAmount(tx, before, AmountInEur(tx, cache, env).result.value, RateApplied(tx, cache, env))
            == ConvertedExcess(before, AmountInEur(tx, cache, env).result.value, RateApplied(tx, cache, env))
  {
    AmountInEurUsesRate(tx, cache, env);
    TaxedIsConvertedExcess(tx, before, AmountInEur(tx, cache, env).result.value, RateApplied(tx, cache, env));
  }

  /** A private withdrawal outside the week's allowance pays 0.3% of the full
      amount. */
  lemma PrivateWithdrawPaysInFull(tx: Transaction, st: State, env: Env)
    requires IsPrivateWithdraw(tx)
    requires AmountInEur(tx, st.cache, env).result.Ok?
    requires Lookup(st.ledger, KeyFor(tx.userId, tx.date)).operations >= FreeWithdrawOperationsPerWeek
             || Lookup(st.ledger, KeyFor(tx.userId, tx.date)).amountEur >= FreeWithdrawLimitEur
    ensures Calculate(tx, st, env).commission == Ok(RoundUp(tx.amount * PrivateWithdrawRate, tx.currency))
  {
    PrivateWithdrawChargesUncoveredPart(tx, st, env);
    FullChargeOutsideAllowance(tx, Lookup(st.ledger, KeyFor(tx.userId, tx.date)),
                               AmountInEur(tx, st.cache, env).result.value, RateApplied(tx, st.cache, env));
  }

  /** A private withdrawal within the week's allowance is free. */
  lemma PrivateWithdrawWithinAllowanceIsFree(tx: Transaction, st: State, env: Env)
    requires IsPrivateWithdraw(tx)
    requires AmountInEur(tx, st.cache, env).result.Ok?
    requires Lookup(st.ledger, KeyFor(tx.userId, tx.date)).operations < FreeWithdrawOperationsPerWeek
    requires Lookup(st.ledger, KeyFor(tx.userId, tx.date)).amountEur < FreeWithdrawLimitEur
    requires Lookup(st.ledger, KeyFor(tx.userId, tx.date)).amountEur + AmountInEur(tx, st.cache, env).result.value
             <= FreeWithdrawLimitEur
    ensures Calculate(tx, st, env).commission == Ok(0.0)
  {
    PrivateWithdrawChargesUncoveredPart(tx, st, env);
    NoChargeAtAppliedRate(tx, st.cache, env, Lookup(st.ledger, KeyFor(tx.userId, tx.date)));
  }

  /** A private withdrawal that crosses the 1000 EUR mark pays on the excess
      only, and leaves the week's allowance used up. */
  lemma PrivateWithdrawStraddlePaysOnExcess(tx: Transaction, st: State, env: Env)
    requires IsPrivateWithdraw(tx)
    requires AmountInEur(tx, st.cache, env).result.Ok?
    requires Lookup(st.ledger, KeyFor(tx.userId, tx.date)).operations < FreeWithdrawOperationsPerWeek
    requires Lookup(st.ledger, KeyFor(tx.userId, tx.date)).amountEur < FreeWithdrawLimitEur
             < Lookup(st.ledger, KeyFor(tx.userId, tx.date)).amountEur + AmountInEur(tx, st.cache, env).result.value
    ensures Calculate(tx, st, env).commission
            == Ok(PrivateWithdrawCharge(ConvertedExcess(Lookup(st.ledger, KeyFor(tx.userId, tx.date)),
                                                        AmountInEur(tx, st.cache, env).result.value,
                                                        RateApplied(tx, st.cache, env)), tx.currency))
    ensures Lookup(Calculate(tx, st, env).state.ledger, KeyFor(tx.userId, tx.date)).amountEur > FreeWithdrawLimitEur
  {
    PrivateWithdrawChargesUncoveredPart(tx, st, env);
    ExcessChargeAtAppliedRate(tx, st.cache, env, Lookup(st.ledger, KeyFor(tx.userId, tx.date)));
    SameAmountSameCharge(TaxedAmount(tx, Lookup(st.ledger, KeyFor(tx.userId, tx.date)),
                                     AmountInEur(tx, st.cache, env).result.value, RateApplied(tx, st.cache, env)),
                         ConvertedExcess(Lookup(st.ledger, KeyFor(tx.userId, tx.date)),
                                         AmountInEur(tx, st.cache, env).result.value, RateApplied(tx, st.cache, env)),
                         tx.currency);
    PrivateWithdrawBookkeeping(tx, st, env);
  }

  lemma SameAmountSameCharge(a: real, b: real, currency: string)
    requires a == b
    ensures PrivateWithdrawCharge(a, currency) == PrivateWithdrawCharge(b, currency)
  {
  }

  /** A private withdrawal whose amount reaches EUR leaves the cache as the
      conversion to EUR left it and asks the provider only what that conversion
      asked: converting the excess back is served from the cache. */
  lemma PrivateWithdrawCacheIsConversionCache(tx: Transaction, st: State, env: Env)
    requires IsPrivateWithdraw(tx)
    requires AmountInEur(tx, st.cache, env).result.Ok?
    ensures Calculate(tx, st, env).state.cache == AmountInEur(tx, st.cache, env).cache
    ensures Calculate(tx, st, env).requests == AmountInEur(tx, st.cache, env).requests
  {
    PrivateWithdrawReachesAllowance(tx, st, env);
    ExcessConvertsAtSameRate(tx, st.cache, env,
                             Excess(Lookup(st.ledger, KeyFor(tx.userId, tx.date)), AmountInEur(tx, st.cache, env).result.value));
  }

  /** A transaction in EUR neither reads nor writes the rate cache and asks
      the provider nothing, whatever its operation. */
  lemma EurTransactionLeavesCacheAlone(tx: Transaction, st: State, env: Env)
    requires tx.currency == "EUR"
    ensures Calculate(tx, st, env).state.cache == st.cache
    ensures Calculate(tx, st, env).requests == []
  {
    if IsPrivateWithdraw(tx) {
      PrivateWithdrawCacheIsConversionCache(tx, st, env);
    }
  }

  // ---------------------------------------------------------------------------
  // No commission is negative.

  /** The part of a non-negative amount that the allowance leaves uncovered is
      never negative, whatever rate took the amount to EUR, and neither is its
      charge. */
  lemma UncoveredChargeNonNegative(tx: Transaction, before: Bucket, amountInEur: real, rate: real)
    requires tx.amount >= 0.0
    requires amountInEur * rate == tx.amount
    ensures TaxedAmount(tx, before, amountInEur, rate) >= 0.0
    ensures UncoveredCharge(tx, before, amountInEur, rate) >= 0.0
  {
    var covered := CoveredEur(before, amountInEur);
    if covered != 0.0 {
      assert covered == Min(amountInEur, FreeWithdrawLimitEur - before.amountEur);
      if rate > 0.0 {
        if amountInEur < 0.0 {
          assert amountInEur * rate < 0.0;
        }
        assert covered <= amountInEur;
        assert rate * covered <= rate * amountInEur;
      } else if rate < 0.0 {
        if amountInEur > 0.0 {
          assert amountInEur * rate < 0.0;
        }
        assert covered == amountInEur;
      }
    }
  }

  /** Once a non-negative amount has reached EUR, the charge the weekly rule
      promises for it is not negative. */
  lemma ConvertedChargeNonNegative(tx: Transaction, st: State, env: Env)
    requires tx.amount >= 0.0
    requires AmountInEur(tx, st.cache, env).result.Ok?
    ensures UncoveredCharge(tx, Lookup(st.ledger, KeyFor(tx.userId, tx.date)),
                            AmountInEur(tx, st.cache, env).result.value, RateApplied(tx, st.cache, env)) >= 0.0
  {
    var eur, rate := AmountInEur(tx, st.cache, env).result.value, RateApplied(tx, st.cache, env);
    assert eur * rate == tx.amount by {
      AmountInEurUsesRate(tx, st.cache, env);
    }
    UncoveredChargeNonNegative(tx, Lookup(st.ledger, KeyFor(tx.userId, tx.date)), eur, rate);
  }

  /** A private withdrawal of a non-negative amount never pays a negative
      commission. */
  lemma PrivateWithdrawCommissionNonNegative(tx: Transaction, st: State, env: Env)
    requires tx.amount >= 0.0
    ensures PrivateWithdrawCommission(tx, st, env).commission.Ok? ==>
              PrivateWithdrawCommission(tx, st, env).commission.value >= 0.0
  {
    if AmountInEur(tx, st.cache, env).result.Ok? {
      ConvertedChargeNonNegative(tx, st, env);
    }
  }

  /** Every commission `calculate` returns for a non-negative amount is
      non-negative: deposits and business withdrawals, and private withdrawals
      in every case of the weekly rule. */
  lemma CommissionNonNegative(tx: Transaction, st: State, env: Env)
    requires tx.amount >= 0.0
    ensures Calculate(tx, st, env).commission.Ok? ==> Calculate(tx, st, env).commission.value >= 0.0
  {
    if IsPrivateWithdraw(tx) && !IsDeposit(tx) {
      assert Calculate(tx, st, env) == PrivateWithdrawCommission(tx, st, env);
      PrivateWithdrawCommissionNonNegative(tx, st, env);
    }
  }
}
