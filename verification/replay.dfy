/** Replaying a transaction log (`commission:calculate`): every row is
    calculated against the state the previous rows left, in file order. A row
    whose calculation throws an exception is reported and the loop goes on with
    the next row; a division by zero is a PHP `Error`, which the command does
    not catch, and ends the run. Output formatting is not modelled; each row's
    commission stays an exact amount.
 */
module Replay {
  import opened Results
  import opened Exchange
  import opened Ledger
  import opened Commission

  /** What replaying a log produces: one outcome per row reached, in order,
      the state after the last row reached, every provider request made on the
      way, and whether a fatal error ended the run early. */
  datatype Outcome = Outcome(commissions: seq<Result<real>>, state: State, requests: seq<Request>, halted: bool)

  /** One call of the calculator on one row. */
  type Calculator = (Transaction, State, Env) -> Step

  /** `DivisionByZeroError` is not an `Exception`: neither of the command's
      `catch (\Exception $e)` blocks stops it, so it ends the run. */
  predicate IsFatal(r: Result<real>) {
    r.Err? && r.error == DivisionByZero
  }

  /** The command's loop over `log` from `st` with calculator `engine`;
      `envs[i]` is what the world supplies to row `i` (its clock reading and the
      provider as it then behaves). A run that was not halted reports every
      row; a halted one stops at the fatal error. */
  function RunWith(engine: Calculator, log: seq<Transaction>, envs: seq<Env>, st: State): (o: Outcome)
    requires |envs| == |log|
    ensures |o.commissions| <= |log|
    ensures !o.halted ==> |o.commissions| == |log|
    decreases |log|
  {
    if log == [] then Outcome([], st, [], false)
    else
      var s := engine(log[0], st, envs[0]);
      if IsFatal(s.commission) then Outcome([s.commission], s.state, s.requests, true)
      else
        var rest := RunWith(engine, log[1..], envs[1..], s.state);
        Outcome([s.commission] + rest.commissions, rest.state, s.requests + rest.requests, rest.halted)
  }

  /** Replay `log` from `st` with the commission engine. */
  function Run(log: seq<Transaction>, envs: seq<Env>, st: State): (o: Outcome)
    requires |envs| == |log|
    ensures !o.halted ==> |o.commissions| == |log|
  {
    RunWith((tx, s, env) => Calculate(tx, s, env), log, envs, st)
  }

  /** Only a fatal error halts the run, and it is the last outcome: no
      earlier row's outcome is fatal, and a halted run ends with one. */
  lemma {:induction false} RunStopsOnlyAtFatal(engine: Calculator, log: seq<Transaction>, envs: seq<Env>, st: State)
    requires |envs| == |log|
    ensures var cs := RunWith(engine, log, envs, st).commissions;
            forall i :: 0 <= i < |cs| - 1 ==> !IsFatal(cs[i])
    ensures var o := RunWith(engine, log, envs, st);
            o.halted <==> exists i :: 0 <= i < |o.commissions| && IsFatal(o.commissions[i])
    ensures var o := RunWith(engine, log, envs, st);
            o.halted ==> o.commissions != [] && IsFatal(o.commissions[|o.commissions| - 1])
    decreases |log|
  {
    if log != [] {
      var s := engine(log[0], st, envs[0]);
      if !IsFatal(s.commission) {
        RunStopsOnlyAtFatal(engine, log[1..], envs[1..], s.state);
        var rest := RunWith(engine, log[1..], envs[1..], s.state);
        var o := RunWith(engine, log, envs, st);
        assert o.commissions == [s.commission] + rest.commissions;
        forall i | 0 <= i < |o.commissions| - 1 ensures !IsFatal(o.commissions[i]) {
          if i > 0 {
            assert o.commissions[i] == rest.commissions[i - 1];
          }
        }
        if o.halted {
          var k := |rest.commissions| - 1;
          assert IsFatal(o.commissions[k + 1]);
        } else {
          forall i | 0 <= i < |o.commissions| ensures !IsFatal(o.commissions[i]) {
            if i > 0 {
              assert o.commissions[i] == rest.commissions[i - 1];
            }
          }
        }
      } else {
        assert IsFatal(RunWith(engine, log, envs, st).commissions[0]);
      }
    }
  }

  /** Row by row: the first row is calculated on the initial state; a fatal
      error ends the run there, otherwise the rest of the log is replayed from
      the state the first row leaves. */
  lemma RunUnfolds(log: seq<Transaction>, envs: seq<Env>, st: State)
    requires |envs| == |log| && log != []
    ensures IsFatal(Calculate(log[0], st, envs[0]).commission) ==>
              Run(log, envs, st) == Outcome([Calculate(log[0], st, envs[0]).commission],
                                            Calculate(log[0], st, envs[0]).state, Calculate(log[0], st, envs[0]).requests, true)
    ensures !IsFatal(Calculate(log[0], st, envs[0]).commission) ==>
              Run(log, envs, st).commissions
              == [Calculate(log[0], st, envs[0]).commission]
                 + Run(log[1..], envs[1..], Calculate(log[0], st, envs[0]).state).commissions
    ensures !IsFatal(Calculate(log[0], st, envs[0]).commission) ==>
              Run(log, envs, st).state == Run(log[1..], envs[1..], Calculate(log[0], st, envs[0]).state).state
    ensures !IsFatal(Calculate(log[0], st, envs[0]).commission) ==>
              Run(log, envs, st).requests
              == Calculate(log[0], st, envs[0]).requests
                 + Run(log[1..], envs[1..], Calculate(log[0], st, envs[0]).state).requests
  {
  }

  /** Replaying a log in two parts, the second from where the first stopped,
      is replaying it at once, provided the first part was not halted. */
  lemma {:induction false} RunSplits(engine: Calculator, a: seq<Transaction>, b: seq<Transaction>,
                                     ea: seq<Env>, eb: seq<Env>, st: State)
    requires |ea| == |a| && |eb| == |b|
    requires !RunWith(engine, a, ea, st).halted
    ensures RunWith(engine, a + b, ea + eb, st)
            == Outcome(RunWith(engine, a, ea, st).commissions + RunWith(engine, b, eb, RunWith(engine, a, ea, st).state).commissions,
                       RunWith(engine, b, eb, RunWith(engine, a, ea, st).state).state,
                       RunWith(engine, a, ea, st).requests + RunWith(engine, b, eb, RunWith(engine, a, ea, st).state).requests,
                       RunWith(engine, b, eb, RunWith(engine, a, ea, st).state).halted)
    decreases |a|
  {
    if a != [] {
      var s := engine(a[0], st, ea[0]);
      var ra := RunWith(engine, a[1..], ea[1..], s.state);
      FirstRowOfSplit(engine, a, b, ea, eb, st);
      RunSplits(engine, a[1..], b, ea[1..], eb, s.state);
      var rb := RunWith(engine, b, eb, ra.state);
      AppendAssociates([s.commission], ra.commissions, rb.commissions);
      AppendAssociates(s.requests, ra.requests, rb.requests);
    } else {
      assert a + b == b && ea + eb == eb;
    }
  }

  /** The first row of an unhalted `a`, run alone or followed by `b`: it does
      not halt, and both runs go on from the state it leaves. */
  lemma FirstRowOfSplit(engine: Calculator, a: seq<Transaction>, b: seq<Transaction>,
                        ea: seq<Env>, eb: seq<Env>, st: State)
    requires |ea| == |a| && |eb| == |b| && a != []
    requires !RunWith(engine, a, ea, st).halted
    ensures !RunWith(engine, a[1..], ea[1..], engine(a[0], st, ea[0]).state).halted
    ensures RunWith(engine, a, ea, st)
            == Outcome([engine(a[0], st, ea[0]).commission] + RunWith(engine, a[1..], ea[1..], engine(a[0], st, ea[0]).state).commissions,
                       RunWith(engine, a[1..], ea[1..], engine(a[0], st, ea[0]).state).state,
                       engine(a[0], st, ea[0]).requests + RunWith(engine, a[1..], ea[1..], engine(a[0], st, ea[0]).state).requests,
                       false)
    ensures RunWith(engine, a + b, ea + eb, st)
            == Outcome([engine(a[0], st, ea[0]).commission] + RunWith(engine, a[1..] + b, ea[1..] + eb, engine(a[0], st, ea[0]).state).commissions,
                       RunWith(engine, a[1..] + b, ea[1..] + eb, engine(a[0], st, ea[0]).state).state,
                       engine(a[0], st, ea[0]).requests + RunWith(engine, a[1..] + b, ea[1..] + eb, engine(a[0], st, ea[0]).state).requests,
                       RunWith(engine, a[1..] + b, ea[1..] + eb, engine(a[0], st, ea[0]).state).halted)
  {
    assert !IsFatal(engine(a[0], st, ea[0]).commission);
    HeadTailOfAppend(a, b);
    HeadTailOfAppend(ea, eb);
  }

  lemma AppendAssociates<T>(x: seq<T>, y: seq<T>, z: seq<T>)
    ensures x + (y + z) == (x + y) + z
  {
  }

  lemma HeadTailOfAppend<T>(a: seq<T>, b: seq<T>)
    requires a != []
    ensures (a + b)[0] == a[0]
    ensures (a + b)[1..] == a[1..] + b
  {
  }

  /** Private withdrawals in `log` booked under `key`. */
  function WeekOperations(log: seq<Transaction>, key: WeekKey): (n: nat)
    ensures n <= |log|
  {
    if log == [] then 0
    else (if IsPrivateWithdraw(log[0]) && KeyFor(log[0].userId, log[0].date) == key then 1 else 0)
         + WeekOperations(log[1..], key)
  }

  /** Total amount of the private withdrawals in `log` booked under `key`. */
  function WeekAmount(log: seq<Transaction>, key: WeekKey): real {
    if log == [] then 0.0
    else (if IsPrivateWithdraw(log[0]) && KeyFor(log[0].userId, log[0].date) == key then log[0].amount else 0.0)
         + WeekAmount(log[1..], key)
  }

  predicate AllInEur(log: seq<Transaction>) {
    forall i :: 0 <= i < |log| ==> log[i].currency == "EUR"
  }

  /** After replaying a log of EUR transactions, every week's entry has gained
      exactly the number and the total of that week's private withdrawals in
      the log, whatever else the log holds and whatever the rows were charged. */
  lemma {:induction false} LedgerCountsWeeklyWithdrawals(log: seq<Transaction>, envs: seq<Env>, st: State)
    requires |envs| == |log|
    requires AllInEur(log)
    ensures forall k :: Lookup(Run(log, envs, st).state.ledger, k)
                        == Bucket(Lookup(st.ledger, k).operations + WeekOperations(log, k),
                                  Lookup(st.ledger, k).amountEur + WeekAmount(log, k))
    decreases |log|
  {
    if log != [] {
      var tx := log[0];
      var s := Calculate(tx, st, envs[0]);
      assert tx.currency == "EUR";
      EurRowIsNotFatal(tx, st, envs[0]);
      RunUnfolds(log, envs, st);
      BookOneRow(tx, st, envs[0]);
      assert AllInEur(log[1..]) by {
        forall i | 0 <= i < |log[1..]| ensures log[1..][i].currency == "EUR" {
          assert log[1..][i] == log[i + 1];
        }
      }
      LedgerCountsWeeklyWithdrawals(log[1..], envs[1..], s.state);
    }
  }

  /** One EUR row: a private withdrawal books itself under its week, any other
      row leaves the ledger alone. */
  lemma BookOneRow(tx: Transaction, st: State, env: Env)
    requires tx.currency == "EUR"
    ensures forall k :: Lookup(Calculate(tx, st, env).state.ledger, k)
                        == Bucket(Lookup(st.ledger, k).operations
                                    + (if IsPrivateWithdraw(tx) && KeyFor(tx.userId, tx.date) == k then 1 else 0),
                                  Lookup(st.ledger, k).amountEur
                                    + (if IsPrivateWithdraw(tx) && KeyFor(tx.userId, tx.date) == k then tx.amount else 0.0))
  {
    if IsPrivateWithdraw(tx) {
      PrivateWithdrawBookkeeping(tx, st, env);
    }
  }

  /** A log of EUR transactions never reaches the rate cache or the provider. */
  lemma {:induction false} EurLogNeverAsksProvider(log: seq<Transaction>, envs: seq<Env>, st: State)
    requires |envs| == |log|
    requires AllInEur(log)
    ensures Run(log, envs, st).state.cache == st.cache
    ensures Run(log, envs, st).requests == []
    decreases |log|
  {
    if log != [] {
      assert log[0].currency == "EUR";
      EurRowIsNotFatal(log[0], st, envs[0]);
      RunUnfolds(log, envs, st);
      EurTransactionLeavesCacheAlone(log[0], st, envs[0]);
      assert AllInEur(log[1..]) by {
        forall i | 0 <= i < |log[1..]| ensures log[1..][i].currency == "EUR" {
          assert log[1..][i] == log[i + 1];
        }
      }
      EurLogNeverAsksProvider(log[1..], envs[1..], Calculate(log[0], st, envs[0]).state);
    }
  }

  /** A transaction in EUR never divides by a rate, so it cannot end the
      run. */
  lemma EurRowIsNotFatal(tx: Transaction, st: State, env: Env)
    requires tx.currency == "EUR"
    ensures !IsFatal(Calculate(tx, st, env).commission)
  {
    if IsPrivateWithdraw(tx) {
      PrivateWithdrawFailsOnlyOnConversion(tx, st, env);
    }
  }
}
