/** The weekly withdrawal ledger of `CommissionCalculator`
    (`$weeklyWithdrawals`): for each user and ISO week, how many private
    withdrawals were made and how many EUR they amounted to.
 */
module Ledger {
  import opened Calendar

  /** `$userId . '-' . $date->format('oW')`: the ISO week-year is written
      with all its digits and the week with exactly two, so distinct
      (user, week-year, week) triples never produce the same string key. */
  datatype WeekKey = WeekKey(userId: int, week: IsoWeek)

  /** One ledger entry: `['operations' => …, 'amount_eur' => …]`. */
  datatype Bucket = Bucket(operations: int, amountEur: real)

  type Ledger = map<WeekKey, Bucket>

  /** The entry a week starts with. */
  const EmptyBucket: Bucket := Bucket(0, 0.0)

  /** The ledger key of a withdrawal: its user and the ISO week of its date,
      whose week-year is within one of the calendar year. */
  function KeyFor(userId: int, date: ValidDate): (k: WeekKey)
    ensures k.userId == userId
    ensures 1 <= k.week.week <= 53
    ensures date.year - 1 <= k.week.year <= date.year + 1
  {
    WeekKey(userId, IsoWeekOf(date))
  }

  /** Two withdrawals share a ledger entry exactly when they belong to the same
      user and fall in the same Monday-to-Sunday week, across year ends too. */
  lemma SameKeyIffSameUserAndWeek(u1: int, d1: ValidDate, u2: int, d2: ValidDate)
    ensures KeyFor(u1, d1) == KeyFor(u2, d2) <==> u1 == u2 && MondayOf(d1) == MondayOf(d2)
  {
    SameIsoWeekIffSameWeek(d1, d2);
  }

  /** The entry for `key`; a week never seen counts as empty. */
  function Lookup(ledger: Ledger, key: WeekKey): Bucket {
    if key in ledger then ledger[key] else EmptyBucket
  }

  /** Initialise the entry for `key` if it is missing. */
  function Open(ledger: Ledger, key: WeekKey): (l: Ledger)
    ensures key in l
    ensures forall k :: Lookup(l, k) == Lookup(ledger, k)
  {
    if key in ledger then ledger else ledger[key := EmptyBucket]
  }

  /** Two ledgers agree everywhere except possibly at `key`. */
  ghost predicate AgreeExcept(a: Ledger, b: Ledger, key: WeekKey) {
    forall k :: k != key ==> Lookup(a, k) == Lookup(b, k)
  }

  /** Two ledgers that agree at every key behave identically. */
  ghost predicate SameEntries(a: Ledger, b: Ledger) {
    forall k :: Lookup(a, k) == Lookup(b, k)
  }
}
