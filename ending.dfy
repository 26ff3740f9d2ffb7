/**
 * The end screen: the defaults applied to the data it is started with, and
 * the classification of the final snapshot into one of four outcomes,
 * checked in the priority order bankrupt, unicorn, funded, survived.
 */
module Ending {
  import opened Wrappers

  /** The `snapshot` object `gotoEnd` builds; a scene started otherwise may lack keys. */
  datatype Snapshot = Snapshot(funds: Option<int>, product: Option<int>, morale: Option<int>,
                               hype: Option<int>, week: Option<int>, weeksTotal: Option<int>)

  /** The `data` argument of the scene start: `{ ending, snapshot }`, either part possibly missing. */
  datatype EndData = EndData(ending: Option<string>, snapshot: Option<Snapshot>)

  datatype Outcome = Bankrupt | Unicorn | Funded | Survived

  /** The values the outcome decision reads, after defaults. */
  datatype Final = Final(funds: int, product: int, morale: int, hype: int,
                         week: int, weeksTotal: int, ending: string)

  const EmptySnapshot: Snapshot := Snapshot(None, None, None, None, None, None)

  /** Unicorn thresholds: a million in the bank, or 85/85 with $200k. */
  const UnicornFunds: int := 1_000_000
  const UnicornScore: int := 85
  const UnicornMinFunds: int := 200_000
  /** Funded threshold on Product and Hype. */
  const FundedScore: int := 60

  /**
   * `init(data)` and the destructuring at the top of `create`: a missing
   * snapshot is `{}`, a missing or empty ending is "final", a missing stat
   * is 0, a missing week 1 and a missing week total 12.
   */
  function Init(data: Option<EndData>): (f: Final)
    ensures var s := if data.Some? && data.value.snapshot.Some? then data.value.snapshot.value else EmptySnapshot;
            && f.funds == s.funds.GetOr(0) && f.product == s.product.GetOr(0)
            && f.morale == s.morale.GetOr(0) && f.hype == s.hype.GetOr(0)
            && f.week == s.week.GetOr(1) && f.weeksTotal == s.weeksTotal.GetOr(12)
    ensures f.ending == "final" <==> data.None? || data.value.ending.None? || data.value.ending.value in {"", "final"}
    ensures data.Some? && data.value.ending.Some? && data.value.ending.value != "" ==> f.ending == data.value.ending.value
  {
    var s := if data.Some? && data.value.snapshot.Some? then data.value.snapshot.value else EmptySnapshot;
    var ending := if data.Some? && data.value.ending.Some? && data.value.ending.value != ""
                  then data.value.ending.value else "final";
    Final(s.funds.GetOr(0), s.product.GetOr(0), s.morale.GetOr(0), s.hype.GetOr(0),
          s.week.GetOr(1), s.weeksTotal.GetOr(12), ending)
  }

  predicate IsBankrupt(f: Final) {
    f.funds <= 0 || f.ending == "bankrupt"
  }

  predicate IsUnicorn(f: Final) {
    f.funds >= UnicornFunds || (f.product >= UnicornScore && f.hype >= UnicornScore && f.funds >= UnicornMinFunds)
  }

  predicate IsFunded(f: Final) {
    f.product >= FundedScore && f.hype >= FundedScore
  }

  /**
   * The outcome `create` chooses. Exactly one outcome holds (it is a
   * function onto a four-valued type), each one characterised by its
   * own condition together with the failure of every earlier one.
   */
  function Classify(f: Final): (o: Outcome)
    ensures o == Bankrupt <==> IsBankrupt(f)
    ensures o == Unicorn <==> !IsBankrupt(f) && IsUnicorn(f)
    ensures o == Funded <==> !IsBankrupt(f) && !IsUnicorn(f) && IsFunded(f)
    ensures o == Survived <==> !IsBankrupt(f) && !IsUnicorn(f) && !IsFunded(f)
  {
    if IsBankrupt(f) then Bankrupt
    else if IsUnicorn(f) then Unicorn
    else if IsFunded(f) then Funded
    else Survived
  }

  /** The outcome of an end screen started with `data`. */
  function OutcomeOf(data: Option<EndData>): Outcome {
    Classify(Init(data))
  }

  /** Morale, the week and the week total never influence the outcome. */
  lemma OutcomeIgnoresMoraleAndWeeks(f: Final, morale: int, week: int, weeksTotal: int)
    ensures Classify(f.(morale := morale, week := week, weeksTotal := weeksTotal)) == Classify(f)
  {
  }

  /** Any snapshot whose Funds is missing or not positive ends as bankrupt, whatever else it holds. */
  lemma NoFundsIsBankrupt(data: Option<EndData>)
    requires data.Some? && data.value.snapshot.Some?
    requires data.value.snapshot.value.funds.GetOr(0) <= 0
    ensures OutcomeOf(data) == Bankrupt
  {
  }

  /** Starting the end screen with no data at all gives a bankrupt outcome (Funds defaults to 0). */
  lemma NoDataIsBankrupt()
    ensures OutcomeOf(None) == Bankrupt
  {
  }
}
