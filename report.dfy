/**
  The weekly report (`getWeeklyReport`): how many of the week's actions ended
  in each status, the rewards won, and the rewards won per day. The week's
  actions and the list of days are inputs: the calendar arithmetic that picks
  them is not part of this model.
*/
module Report {
  import opened Wrappers
  import opened Actions

  /** An action whose reward counts: a victory with a numeric `reward.total`. */
  predicate Rewarded(a: Action) {
    a.status == Victory && a.reward.Some? && a.reward.value.total.Some?
  }

  /** What an action adds to the totals. */
  function RewardOf(a: Action): int {
    if Rewarded(a) then a.reward.value.total.value else 0
  }

  /** `actions.filter(a => a.status === status).length`. */
  function Count(actions: seq<Action>, status: string): (n: nat)
    ensures n <= |actions|
  {
    if actions == [] then 0
    else Count(actions[..|actions| - 1], status) + (if actions[|actions| - 1].status == status then 1 else 0)
  }

  /** The rewards of all the actions. */
  function TotalRewards(actions: seq<Action>): int {
    if actions == [] then 0 else TotalRewards(actions[..|actions| - 1]) + RewardOf(actions[|actions| - 1])
  }

  /** The rewards of the actions of day `d`. */
  function DayTotal(actions: seq<Action>, d: string): int {
    if actions == [] then 0
    else
      var a := actions[|actions| - 1];
      DayTotal(actions[..|actions| - 1], d) + (if a.date == d then RewardOf(a) else 0)
  }

  /** The days on which some reward was won. */
  function RewardedDates(actions: seq<Action>): set<string> {
    set a | a in actions && Rewarded(a) :: a.date
  }

  /** The object `getWeeklyReport` returns. */
  datatype WeeklyReport = WeeklyReport(
    total: nat, victories: nat, defeats: nat, canceled: nat, inProgress: nat,
    totalRewards: int, dailyEarnings: map<string, int>, daysInRange: seq<string>)

  /**
    `getWeeklyReport` over the week's actions: the counts per status, the sum of
    the rewards, and for every day of the range and every day with a reward,
    the rewards of that day (a day of the range without any is `0`).
  */
  method GetWeeklyReport(weekly: seq<Action>, days: seq<string>) returns (report: WeeklyReport)
    ensures report.total == |weekly| && report.daysInRange == days
    ensures report.victories == Count(weekly, Victory) && report.defeats == Count(weekly, Defeat)
    ensures report.canceled == Count(weekly, Cancelled) && report.inProgress == Count(weekly, InProgress)
    ensures report.totalRewards == TotalRewards(weekly)
    ensures report.dailyEarnings.Keys == (set d | d in days) + RewardedDates(weekly)
    ensures forall d :: d in report.dailyEarnings ==> report.dailyEarnings[d] == DayTotal(weekly, d)
  {
    var daily: map<string, int> := map[];
    for i := 0 to |days|
      invariant daily.Keys == set d | d in days[..i]
      invariant forall d :: d in daily ==> daily[d] == 0
    {
      assert days[..i + 1] == days[..i] + [days[i]];
      daily := daily[days[i] := 0];
    }
    assert days[..|days|] == days;
    forall d | d in daily
      ensures daily[d] == DayTotal([], d)
    {
    }
    var totalRewards := 0;
    for i := 0 to |weekly|
      invariant totalRewards == TotalRewards(weekly[..i])
      invariant daily.Keys == (set d | d in days) + RewardedDates(weekly[..i])
      invariant forall d :: d in daily ==> daily[d] == DayTotal(weekly[..i], d)
    {
      var a := weekly[i];
      RewardStep(weekly, i);
      if a.status == Victory && a.reward.Some? && a.reward.value.total.Some? {
        totalRewards := totalRewards + a.reward.value.total.value;
        if a.date in daily {
          daily := daily[a.date := daily[a.date] + a.reward.value.total.value];
        } else {
          DayTotalAbsent(weekly[..i], a.date);
          daily := daily[a.date := a.reward.value.total.value];
        }
      }
    }
    assert weekly[..|weekly|] == weekly;
    report := WeeklyReport(|weekly|, Count(weekly, Victory), Count(weekly, Defeat), Count(weekly, Cancelled),
                           Count(weekly, InProgress), totalRewards, daily, days);
  }

  /** What one more action adds to the totals, the rewarded days and each day's rewards. */
  lemma RewardStep(actions: seq<Action>, i: nat)
    requires i < |actions|
    ensures var a := actions[i];
      && TotalRewards(actions[..i + 1]) == TotalRewards(actions[..i]) + RewardOf(a)
      && RewardedDates(actions[..i + 1]) == RewardedDates(actions[..i]) + (if Rewarded(a) then {a.date} else {})
      && forall d :: DayTotal(actions[..i + 1], d) == DayTotal(actions[..i], d) + (if a.date == d then RewardOf(a) else 0)
  {
    assert actions[..i + 1][..i] == actions[..i] && actions[..i + 1][i] == actions[i];
    assert actions[..i + 1] == actions[..i] + [actions[i]];
  }

  /** A day without a rewarded action has no rewards. */
  lemma {:induction false} DayTotalAbsent(actions: seq<Action>, d: string)
    requires d !in RewardedDates(actions)
    ensures DayTotal(actions, d) == 0
  {
    if actions != [] {
      var init := actions[..|actions| - 1];
      assert RewardedDates(init) <= RewardedDates(actions) by {
        forall x | x in RewardedDates(init)
          ensures x in RewardedDates(actions)
        {
          var a :| a in init && Rewarded(a) && a.date == x;
          assert a in actions;
        }
      }
      DayTotalAbsent(init, d);
      var last := actions[|actions| - 1];
      assert last in actions;
    }
  }

  /**
    Every action is counted under at most one status: the victories, defeats,
    cancellations and actions in progress add up to at most the number of actions.
  */
  lemma {:induction false} CountsBounded(actions: seq<Action>)
    ensures Count(actions, Victory) + Count(actions, Defeat) + Count(actions, Cancelled)
      + Count(actions, InProgress) <= |actions|
  {
    if actions != [] {
      CountsBounded(actions[..|actions| - 1]);
      assert Victory != Defeat && Victory != Cancelled && Victory != InProgress;
      assert Defeat != Cancelled && Defeat != InProgress && Cancelled != InProgress;
    }
  }

  /** The rewards of the days `ds`, summed. */
  function SumDays(actions: seq<Action>, ds: seq<string>): int {
    if ds == [] then 0 else SumDays(actions, ds[..|ds| - 1]) + DayTotal(actions, ds[|ds| - 1])
  }

  predicate Distinct(ds: seq<string>) {
    forall i, j :: 0 <= i < j < |ds| ==> ds[i] != ds[j]
  }

  /** Adding one action to the list adds its reward to its own day, if that day is listed, and to no other. */
  lemma {:induction false} SumDaysStep(actions: seq<Action>, a: Action, ds: seq<string>)
    requires Distinct(ds)
    ensures SumDays(actions + [a], ds) == SumDays(actions, ds) + (if a.date in ds then RewardOf(a) else 0)
  {
    if ds != [] {
      var init := ds[..|ds| - 1];
      var last := ds[|ds| - 1];
      SumDaysStep(actions, a, init);
      assert (actions + [a])[..|actions|] == actions;
      assert a.date in ds <==> a.date in init || a.date == last;
      assert a.date == last ==> a.date !in init;
    }
  }

  /**
    The per-day rewards add up to the total: summed over any list of distinct
    days that includes every day with a reward, they give `totalRewards`.
  */
  lemma {:induction false} DailySumsToTotal(actions: seq<Action>, ds: seq<string>)
    requires Distinct(ds)
    requires RewardedDates(actions) <= set d | d in ds
    ensures SumDays(actions, ds) == TotalRewards(actions)
    decreases |actions|
  {
    if actions == [] {
      SumDaysEmpty(ds);
    } else {
      var init := actions[..|actions| - 1];
      var a := actions[|actions| - 1];
      assert actions == init + [a];
      assert RewardedDates(init) <= RewardedDates(actions) by {
        forall x | x in RewardedDates(init)
          ensures x in RewardedDates(actions)
        {
          var b :| b in init && Rewarded(b) && b.date == x;
          assert b in actions;
        }
      }
      DailySumsToTotal(init, ds);
      SumDaysStep(init, a, ds);
      if Rewarded(a) {
        assert a.date in RewardedDates(actions);
      }
    }
  }

  lemma {:induction false} SumDaysEmpty(ds: seq<string>)
    ensures SumDays([], ds) == 0
  {
    if ds != [] {
      SumDaysEmpty(ds[..|ds| - 1]);
    }
  }
}
