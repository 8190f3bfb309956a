/**
 * Billing arithmetic and expiry rules of a tracked subscription.
 *
 * Dates are day numbers and "today" is a parameter (the source reads the wall
 * clock); costs and multipliers are real numbers (the source uses floats).
 */
module Subscriptions {
  import opened Options
  import opened Calendar

  /** The billing-relevant columns of a subscription row. */
  datatype Subscription = Subscription(
    cost: real,
    billingCycle: string,   // "daily", "weekly", ..., "yearly", "custom" or anything else
    customDays: Option<int>, // length of a custom cycle in days
    endDate: Option<Day>)    // None means the subscription never ends
  {
    /** Python's truthiness of `custom_days`: present and non-zero. */
    predicate HasCustomDays() {
      customDays.Some? && customDays.value != 0
    }

    function WithCost(c: real): Subscription {
      this.(cost := c)
    }
  }

  /** Default look-ahead of `is_expiring_soon`, in days. */
  const DefaultDaysAhead := 7

  /** The cost normalised to one month, by billing cycle; 0 for a cycle it does not know. */
  function MonthlyCost(s: Subscription): (m: real)
    ensures s.cost == 0.0 ==> m == 0.0
    ensures !IsFixedCycle(s.billingCycle) && (s.billingCycle != "custom" || !s.HasCustomDays()) ==> m == 0.0
  {
    if s.billingCycle == "daily" then s.cost * 30.0
    else if s.billingCycle == "weekly" then s.cost * 4.33
    else if s.billingCycle == "bi-weekly" then s.cost * 2.17
    else if s.billingCycle == "monthly" then s.cost
    else if s.billingCycle == "bi-monthly" then s.cost / 2.0
    else if s.billingCycle == "quarterly" then s.cost / 3.0
    else if s.billingCycle == "semi-annually" then s.cost / 6.0
    else if s.billingCycle == "yearly" then s.cost / 12.0
    else if s.billingCycle == "custom" && s.HasCustomDays() then s.cost / (s.customDays.value as real) * 30.44
    else 0.0
  }

  /** The cost normalised to one year: twelve normalised months. */
  function YearlyCost(s: Subscription): (y: real)
    ensures s.billingCycle == "yearly" ==> y == s.cost
    ensures s.billingCycle == "monthly" ==> y == 12.0 * s.cost
  {
    MonthlyCost(s) * 12.0
  }

  /** The cycles whose bill covers a whole number of months, and that number. */
  function MonthsPerBill(cycle: string): Option<nat> {
    if cycle == "monthly" then Some(1)
    else if cycle == "bi-monthly" then Some(2)
    else if cycle == "quarterly" then Some(3)
    else if cycle == "semi-annually" then Some(6)
    else if cycle == "yearly" then Some(12)
    else None
  }

  /** The cycles the monthly normalisation recognises without further data. */
  predicate IsFixedCycle(cycle: string) {
    cycle in {"daily", "weekly", "bi-weekly", "monthly", "bi-monthly", "quarterly", "semi-annually", "yearly"}
  }

  /** The multiplier applied per cycle, as the billing table states it. */
  lemma MonthlyCostByCycle(s: Subscription)
    ensures s.billingCycle == "daily" ==> MonthlyCost(s) == 30.0 * s.cost
    ensures s.billingCycle == "weekly" ==> MonthlyCost(s) == 4.33 * s.cost
    ensures s.billingCycle == "bi-weekly" ==> MonthlyCost(s) == 2.17 * s.cost
    ensures s.billingCycle == "monthly" ==> MonthlyCost(s) == s.cost
    ensures s.billingCycle == "custom" && s.HasCustomDays() ==>
              MonthlyCost(s) == 30.44 * s.cost / (s.customDays.value as real)
  {
  }

  /** A bill covering k whole months spreads to exactly one k-th per month: k monthly amounts give the bill back. */
  lemma WholeMonthCyclesRoundTrip(s: Subscription)
    requires MonthsPerBill(s.billingCycle).Some?
    ensures MonthlyCost(s) * (MonthsPerBill(s.billingCycle).value as real) == s.cost
  {
  }

  /** A custom cycle without a (non-zero) length, and any unknown cycle, costs nothing per month. */
  lemma UnknownCycleCostsNothing(s: Subscription)
    requires !IsFixedCycle(s.billingCycle)
    requires s.billingCycle != "custom" || !s.HasCustomDays()
    ensures MonthlyCost(s) == 0.0
    ensures YearlyCost(s) == 0.0
  {
  }

  /** The normalised cost is proportional to the cost: the cycle alone fixes the multiplier. */
  lemma MonthlyCostProportional(s: Subscription, k: real)
    ensures MonthlyCost(s.WithCost(k * s.cost)) == k * MonthlyCost(s)
  {
    // One case per group of cycles, so that each case settles the multiplier on its own.
    var c := s.billingCycle;
    if c == "daily" || c == "weekly" || c == "bi-weekly" || c == "monthly" {
    } else if c == "bi-monthly" || c == "quarterly" || c == "semi-annually" || c == "yearly" {
    } else if c == "custom" && s.HasCustomDays() {
      CustomScales(s.cost, k, s.customDays.value as real);
    }
  }

  /** Normalising the sum of two costs on the same cycle gives the sum of the normalised costs. */
  lemma MonthlyCostAdditive(s: Subscription, a: real, b: real)
    ensures MonthlyCost(s.WithCost(a + b)) == MonthlyCost(s.WithCost(a)) + MonthlyCost(s.WithCost(b))
  {
    // One case per group of cycles, so that each case settles the multiplier on its own.
    var c := s.billingCycle;
    if c == "daily" || c == "weekly" || c == "bi-weekly" || c == "monthly" {
    } else if c == "bi-monthly" || c == "quarterly" || c == "semi-annually" || c == "yearly" {
    } else if c == "custom" && s.HasCustomDays() {
      CustomAdds(a, b, s.customDays.value as real);
    }
  }

  /** Scaling a custom-cycle cost scales its monthly amount. */
  lemma CustomScales(x: real, k: real, n: real)
    requires n != 0.0
    ensures k * x / n * 30.44 == k * (x / n * 30.44)
  {
  }

  /** The monthly amounts of two custom-cycle costs add up. */
  lemma CustomAdds(a: real, b: real, n: real)
    requires n != 0.0
    ensures (a + b) / n * 30.44 == a / n * 30.44 + b / n * 30.44
  {
  }

  /** A non-negative cost never normalises to a negative amount, unless a custom cycle has a negative length. */
  lemma MonthlyCostNonNegative(s: Subscription)
    requires s.cost >= 0.0
    requires s.customDays.Some? ==> s.customDays.value >= 0
    ensures MonthlyCost(s) >= 0.0
    ensures YearlyCost(s) >= 0.0
  {
  }

  /** The yearly cost per cycle: a daily bill counts 360 times a year, a yearly one once. */
  lemma YearlyCostByCycle(s: Subscription)
    ensures s.billingCycle == "daily" ==> YearlyCost(s) == 360.0 * s.cost
    ensures s.billingCycle == "weekly" ==> YearlyCost(s) == 51.96 * s.cost
    ensures s.billingCycle == "bi-weekly" ==> YearlyCost(s) == 26.04 * s.cost
    ensures s.billingCycle == "monthly" ==> YearlyCost(s) == 12.0 * s.cost
    ensures MonthsPerBill(s.billingCycle).Some? ==>
              YearlyCost(s) * (MonthsPerBill(s.billingCycle).value as real) == 12.0 * s.cost
    ensures s.billingCycle == "yearly" ==> YearlyCost(s) == s.cost
  {
    if MonthsPerBill(s.billingCycle).Some? {
      WholeMonthCyclesRoundTrip(s);
    }
  }

  // ----- expiry ------------------------------------------------------------

  /** Whether the subscription ends between today and `daysAhead` days from now, both included. */
  function IsExpiringSoon(s: Subscription, today: Day, daysAhead: int := DefaultDaysAhead): (soon: bool)
    ensures soon ==> DaysUntilExpiry(s, today).Some? && DaysUntilExpiry(s, today).value <= daysAhead
    ensures soon ==> s.endDate.value >= today
  {
    match s.endDate
    case None => false
    case Some(end) => end <= today + daysAhead && end >= today
  }

  /** Whole days left until the end date, clamped at 0; None without an end date. */
  function DaysUntilExpiry(s: Subscription, today: Day): (d: Option<nat>)
    ensures d.None? <==> s.endDate.None?
    ensures d.Some? ==> s.endDate.value <= today + d.value
    ensures d.Some? && d.value > 0 ==> s.endDate.value == today + d.value
  {
    match s.endDate
    case None => None
    case Some(end) => Some(if end - today >= 0 then end - today else 0)
  }

  /** The expiry window, in terms of the end date. */
  lemma ExpiringSoonWindow(s: Subscription, today: Day, daysAhead: int)
    ensures IsExpiringSoon(s, today, daysAhead) <==>
              s.endDate.Some? && today <= s.endDate.value <= today + daysAhead
    ensures IsExpiringSoon(s, today) <==>
              s.endDate.Some? && today <= s.endDate.value <= today + 7
  {
  }

  /** The day count is absent exactly when the end date is, and otherwise never negative. */
  lemma DaysUntilExpiryShape(s: Subscription, today: Day)
    ensures DaysUntilExpiry(s, today).None? <==> s.endDate.None?
    ensures s.endDate.Some? && s.endDate.value >= today ==>
              DaysUntilExpiry(s, today) == Some(s.endDate.value - today)
  {
  }

  /** A subscription already past its end date shows 0 days left but is not "expiring soon", whatever the window. */
  lemma ExpiredIsZeroButNotExpiring(s: Subscription, today: Day, daysAhead: int)
    requires s.endDate.Some? && s.endDate.value < today
    ensures DaysUntilExpiry(s, today) == Some(0)
    ensures !IsExpiringSoon(s, today, daysAhead)
  {
  }

  /** 0 days left means the end date is today or already past. */
  lemma NoDaysLeftIff(s: Subscription, today: Day)
    ensures DaysUntilExpiry(s, today) == Some(0) <==> s.endDate.Some? && s.endDate.value <= today
  {
  }

  /** The two rules agree: expiring soon means not yet past the end, with at most `daysAhead` days left. */
  lemma ExpiringSoonByDaysLeft(s: Subscription, today: Day, daysAhead: int)
    ensures IsExpiringSoon(s, today, daysAhead) <==>
              s.endDate.Some? && s.endDate.value >= today && DaysUntilExpiry(s, today).value <= daysAhead
  {
  }

  /** Widening the look-ahead never drops a subscription from the window. */
  lemma ExpiringSoonMonotone(s: Subscription, today: Day, k1: int, k2: int)
    requires k1 <= k2
    requires IsExpiringSoon(s, today, k1)
    ensures IsExpiringSoon(s, today, k2)
  {
  }

  /** Each passing day takes one day off the count, down to 0. */
  lemma DaysLeftCountDown(s: Subscription, today: Day)
    requires s.endDate.Some?
    ensures DaysUntilExpiry(s, today + 1).value ==
              if DaysUntilExpiry(s, today).value > 0 then DaysUntilExpiry(s, today).value - 1 else 0
  {
  }
}
