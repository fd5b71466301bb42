/**
 * The statistics derived from the quit date and the consumption settings:
 * whole days since quitting, cigarettes not smoked and money saved.
 *
 * Time is an integer clock in seconds; a day is a fixed 86400 seconds.
 */
module Statistics {

  const SecondsPerDay: int := 86400

  /** The three published statistics. */
  datatype Stats = Stats(days: int, cigarettes: int, money: real)

  /**
   * Whole days from `from` to `to`, truncated toward zero like a calendar day
   * difference: negative when `to` is more than a day before `from`.
   */
  function DayDifference(from: int, to: int): int {
    if from <= to then (to - from) / SecondsPerDay else -((from - to) / SecondsPerDay)
  }

  /** The day difference counts the whole days that fit between the two times. */
  lemma DayDifferenceBounds(from: int, to: int)
    ensures var d := DayDifference(from, to);
            (from <= to ==> 0 <= d && d * SecondsPerDay <= to - from < (d + 1) * SecondsPerDay) &&
            (to < from ==> d <= 0 && -d * SecondsPerDay <= from - to < (-d + 1) * SecondsPerDay)
  {
  }

  /** Days since quitting, clamped so that a quit date in the future gives 0. */
  function DaysSinceQuit(quitDate: int, now: int): (d: nat)
    ensures now < quitDate + SecondsPerDay ==> d == 0
  {
    DayDifferenceBounds(quitDate, now);
    var diff := DayDifference(quitDate, now);
    if diff > 0 then diff else 0
  }

  /** From the quit date on, the day count is the number of whole days elapsed. */
  lemma DaysSinceQuitIsWholeDays(quitDate: int, now: int)
    requires quitDate <= now
    ensures var d := DaysSinceQuit(quitDate, now);
            d * SecondsPerDay <= now - quitDate < (d + 1) * SecondsPerDay
  {
    DayDifferenceBounds(quitDate, now);
  }

  /** Money saved: the cigarettes not smoked at the price of one cigarette. */
  function MoneySaved(cigarettes: int, pricePerPack: real, cigarettesPerPack: int): real
    requires cigarettesPerPack >= 1
  {
    cigarettes as real * (pricePerPack / cigarettesPerPack as real)
  }

  /** The money saved is the product of the cigarettes and the pack price, divided by the pack size. */
  lemma MoneySavedIsPerPackShare(cigarettes: int, pricePerPack: real, cigarettesPerPack: int)
    requires cigarettesPerPack >= 1
    ensures MoneySaved(cigarettes, pricePerPack, cigarettesPerPack) * cigarettesPerPack as real
            == cigarettes as real * pricePerPack
    ensures MoneySaved(cigarettes, pricePerPack, cigarettesPerPack)
            == cigarettes as real * pricePerPack / cigarettesPerPack as real
  {
    var m := MoneySaved(cigarettes, pricePerPack, cigarettesPerPack);
    var n := cigarettesPerPack as real;
    var c := cigarettes as real;
    assert m == c * (pricePerPack / n);
    assert m * n == c * ((pricePerPack / n) * n);
    assert (pricePerPack / n) * n == pricePerPack;
    assert m == (m * n) / n;
  }

  /** The cigarettes not smoked over `days` days at `perDay` a day, counted day by day. */
  function CigarettesOver(days: nat, perDay: int): int {
    if days == 0 then 0 else CigarettesOver(days - 1, perDay) + perDay
  }

  /** Counting day by day gives the product of the day count and the daily consumption. */
  lemma {:induction false} CigarettesOverIsProduct(days: nat, perDay: int)
    ensures CigarettesOver(days, perDay) == days * perDay
  {
    if days > 0 {
      CigarettesOverIsProduct(days - 1, perDay);
    }
  }

  /** Everything the statistics step computes from the settings at time `now`. */
  function StatisticsAt(quitDate: int, cigarettesPerDay: int, pricePerPack: real, cigarettesPerPack: int, now: int): (s: Stats)
    requires cigarettesPerPack >= 1
    ensures s.days >= 0
  {
    var days := DaysSinceQuit(quitDate, now);
    var cigarettes := CigarettesOver(days, cigarettesPerDay);
    Stats(days, cigarettes, MoneySaved(cigarettes, pricePerPack, cigarettesPerPack))
  }

  /**
   * The statistics as published: the day count, that many days of the daily
   * consumption, and the cigarettes' share of the pack price.
   */
  lemma StatisticsAtIsProducts(quitDate: int, cigarettesPerDay: int, pricePerPack: real, cigarettesPerPack: int, now: int)
    requires cigarettesPerPack >= 1
    ensures var s := StatisticsAt(quitDate, cigarettesPerDay, pricePerPack, cigarettesPerPack, now);
            s.days == DaysSinceQuit(quitDate, now) &&
            s.cigarettes == s.days * cigarettesPerDay &&
            s.money == s.cigarettes as real * pricePerPack / cigarettesPerPack as real
  {
    var s := StatisticsAt(quitDate, cigarettesPerDay, pricePerPack, cigarettesPerPack, now);
    CigarettesOverIsProduct(s.days, cigarettesPerDay);
    MoneySavedIsPerPackShare(s.cigarettes, pricePerPack, cigarettesPerPack);
  }

  /** At the quit moment itself every statistic is zero, whatever the settings. */
  lemma StatisticsAtQuitMoment(quitDate: int, cigarettesPerDay: int, pricePerPack: real, cigarettesPerPack: int)
    requires cigarettesPerPack >= 1
    ensures StatisticsAt(quitDate, cigarettesPerDay, pricePerPack, cigarettesPerPack, quitDate) == Stats(0, 0, 0.0)
  {
  }

  /** The day count never decreases as the clock advances. */
  lemma {:induction false} DaysSinceQuitMonotone(quitDate: int, now: int, later: int)
    requires now <= later
    ensures DaysSinceQuit(quitDate, now) <= DaysSinceQuit(quitDate, later)
  {
    var d1 := DaysSinceQuit(quitDate, now);
    var d2 := DaysSinceQuit(quitDate, later);
    if d1 > 0 {
      DaysSinceQuitIsWholeDays(quitDate, now);
      DaysSinceQuitIsWholeDays(quitDate, later);
      assert d1 * SecondsPerDay <= now - quitDate;
      assert later - quitDate < (d2 + 1) * SecondsPerDay;
    }
  }

  /** Moving the quit date later never increases the day count. */
  lemma {:induction false} LaterQuitDateFewerDays(quitDate: int, laterQuitDate: int, now: int)
    requires quitDate <= laterQuitDate
    ensures DaysSinceQuit(laterQuitDate, now) <= DaysSinceQuit(quitDate, now)
  {
    var d1 := DaysSinceQuit(laterQuitDate, now);
    var d2 := DaysSinceQuit(quitDate, now);
    if d1 > 0 {
      DaysSinceQuitIsWholeDays(laterQuitDate, now);
      DaysSinceQuitIsWholeDays(quitDate, now);
      assert d1 * SecondsPerDay <= now - laterQuitDate;
      assert now - quitDate < (d2 + 1) * SecondsPerDay;
    }
  }

  /**
   * With non-negative settings every statistic grows with time: the metrics
   * the milestone ladders watch only move upwards while the settings stand.
   */
  lemma {:induction false} StatisticsMonotone(quitDate: int, cigarettesPerDay: int, pricePerPack: real, cigarettesPerPack: int, now: int, later: int)
    requires cigarettesPerPack >= 1 && cigarettesPerDay >= 0 && pricePerPack >= 0.0
    requires now <= later
    ensures var s := StatisticsAt(quitDate, cigarettesPerDay, pricePerPack, cigarettesPerPack, now);
            var t := StatisticsAt(quitDate, cigarettesPerDay, pricePerPack, cigarettesPerPack, later);
            s.days <= t.days && s.cigarettes <= t.cigarettes && s.money <= t.money
  {
    var s := StatisticsAt(quitDate, cigarettesPerDay, pricePerPack, cigarettesPerPack, now);
    var t := StatisticsAt(quitDate, cigarettesPerDay, pricePerPack, cigarettesPerPack, later);
    DaysSinceQuitMonotone(quitDate, now, later);
    CigarettesOverMonotone(s.days, t.days, cigarettesPerDay);
    MoneySavedMonotone(s.cigarettes, t.cigarettes, pricePerPack, cigarettesPerPack);
  }

  /** More days at a non-negative daily consumption never means fewer cigarettes. */
  lemma {:induction false} CigarettesOverMonotone(days: nat, moreDays: nat, perDay: int)
    requires days <= moreDays && perDay >= 0
    ensures CigarettesOver(days, perDay) <= CigarettesOver(moreDays, perDay)
    decreases moreDays
  {
    if days < moreDays {
      CigarettesOverMonotone(days, moreDays - 1, perDay);
    }
  }

  /** At a non-negative price, more cigarettes not smoked never means less money saved. */
  lemma MoneySavedMonotone(cigarettes: int, moreCigarettes: int, pricePerPack: real, cigarettesPerPack: int)
    requires cigarettes <= moreCigarettes && pricePerPack >= 0.0 && cigarettesPerPack >= 1
    ensures MoneySaved(cigarettes, pricePerPack, cigarettesPerPack) <= MoneySaved(moreCigarettes, pricePerPack, cigarettesPerPack)
  {
    var price := pricePerPack / cigarettesPerPack as real;
    assert price >= 0.0;
    assert (moreCigarettes - cigarettes) as real * price >= 0.0;
  }

  /**
   * Eight days at 20 cigarettes a day, 500 a pack of 20: 160 cigarettes not
   * smoked and 4000 saved.
   */
  lemma EightDayExample(quitDate: int, now: int)
    requires now == quitDate + 8 * SecondsPerDay + 3600
    ensures StatisticsAt(quitDate, 20, 500.0, 20, now) == Stats(8, 160, 4000.0)
  {
    assert DayDifference(quitDate, now) == 8;
    CigarettesOverIsProduct(8, 20);
  }
}
