/**
 * The quit-smoking view model: the settings the user edits, the statistics
 * published from them, the append-only achievement list, the record store and
 * the pending motivational reminders.
 *
 * The wall clock is the parameter `now` (integer seconds). The persistent
 * record store is the field `records`; the notification centre is the set of
 * pending reminders.
 */
module ViewModel {
  import opened Statistics
  import opened Achievements

  /** The stored quit record. */
  datatype QuitRecord = QuitRecord(
    startDate: int,
    cigarettesPerDay: int,
    pricePerPack: real,
    cigarettesPerPack: int,
    currency: string,
    goal: string,
    createdAt: int,
    updatedAt: int)

  /** The two motivational reminders, by identifier. */
  datatype ReminderId = OneDay | OneWeek

  /** A pending reminder and the time it fires. */
  datatype Reminder = Reminder(id: ReminderId, triggerAt: int)

  const DefaultCigarettesPerDay: int := 20
  const DefaultPricePerPack: real := 500.0
  const DefaultCigarettesPerPack: int := 20
  const DefaultGoal: string := "健康的な生活を取り戻す"

  /** The range the settings steppers allow for both cigarette counts. */
  predicate StepperRange(n: int) {
    1 <= n <= 100
  }

  /** The reminders that scheduling leaves pending: only those still in the future. */
  function RemindersFor(quitDate: int, now: int): (p: set<Reminder>)
    ensures Reminder(OneDay, quitDate + SecondsPerDay) in p <==> quitDate + SecondsPerDay > now
    ensures Reminder(OneWeek, quitDate + 7 * SecondsPerDay) in p <==> quitDate + 7 * SecondsPerDay > now
    ensures forall r :: r in p ==>
              r == Reminder(OneDay, quitDate + SecondsPerDay) || r == Reminder(OneWeek, quitDate + 7 * SecondsPerDay)
  {
    (if quitDate + SecondsPerDay > now then {Reminder(OneDay, quitDate + SecondsPerDay)} else {}) +
    (if quitDate + 7 * SecondsPerDay > now then {Reminder(OneWeek, quitDate + 7 * SecondsPerDay)} else {})
  }

  /** Only the two reminders can be pending, and only for times still ahead. */
  lemma RemindersAreFewAndAhead(quitDate: int, now: int)
    ensures forall r :: r in RemindersFor(quitDate, now) ==> r.triggerAt > now
    ensures |RemindersFor(quitDate, now)| <= 2
  {
  }

  /** A pending one-day reminder always comes with the one-week reminder. */
  lemma OneDayImpliesOneWeek(quitDate: int, now: int)
    requires Reminder(OneDay, quitDate + SecondsPerDay) in RemindersFor(quitDate, now)
    ensures Reminder(OneWeek, quitDate + 7 * SecondsPerDay) in RemindersFor(quitDate, now)
  {
  }

  class QuitSmokingViewModel {
    // settings
    var quitDate: int
    var cigarettesPerDay: int
    var pricePerPack: real
    var cigarettesPerPack: int
    const currency: string
    var goal: string

    // published statistics
    var daysSinceQuit: int
    var moneySaved: real
    var cigarettesNotSmoked: int
    var achievements: seq<Achievement>

    var isFirstLaunch: bool

    /** The persistent quit records; the first one is the active record. */
    var records: seq<QuitRecord>

    /** The reminders pending in the notification centre. */
    ghost var pendingReminders: set<Reminder>

    /** The object invariant: settings within the steppers' range and no title twice. */
    ghost predicate Valid()
      reads this`cigarettesPerDay, this`cigarettesPerPack, this`achievements
    {
      StepperRange(cigarettesPerDay) && StepperRange(cigarettesPerPack) && TitlesDistinct(achievements)
    }

    /** The published statistics as one value. */
    function CurrentStats(): Stats
      reads this`daysSinceQuit, this`cigarettesNotSmoked, this`moneySaved
    {
      Stats(daysSinceQuit, cigarettesNotSmoked, moneySaved)
    }

    /** The statistics are those the settings give at time `now`. */
    ghost predicate StatisticsCurrent(now: int)
      reads this`quitDate, this`cigarettesPerDay, this`pricePerPack, this`cigarettesPerPack
      reads this`daysSinceQuit, this`cigarettesNotSmoked, this`moneySaved
      requires cigarettesPerPack >= 1
    {
      CurrentStats() == StatisticsAt(quitDate, cigarettesPerDay, pricePerPack, cigarettesPerPack, now)
    }

    /** The record the current settings describe, created at `createdAt` and touched at `now`. */
    function RecordFromSettings(createdAt: int, now: int): QuitRecord
      reads this`quitDate, this`cigarettesPerDay, this`pricePerPack, this`cigarettesPerPack, this`goal
    {
      QuitRecord(quitDate, cigarettesPerDay, pricePerPack, cigarettesPerPack, currency, goal, createdAt, now)
    }

    /**
     * First launch with nothing stored: default settings, quit date now, and
     * statistics computed once.
     */
    constructor (now: int)
      ensures Valid()
      ensures quitDate == now && cigarettesPerDay == DefaultCigarettesPerDay
      ensures pricePerPack == DefaultPricePerPack && cigarettesPerPack == DefaultCigarettesPerPack
      ensures currency == Currency && goal == DefaultGoal
      ensures isFirstLaunch && records == [] && pendingReminders == {}
      ensures CurrentStats() == Stats(0, 0, 0.0) && achievements == []
    {
      quitDate := now;
      cigarettesPerDay := DefaultCigarettesPerDay;
      pricePerPack := DefaultPricePerPack;
      cigarettesPerPack := DefaultCigarettesPerPack;
      currency := Currency;
      goal := DefaultGoal;
      daysSinceQuit, moneySaved, cigarettesNotSmoked := 0, 0.0, 0;
      achievements := [];
      isFirstLaunch := true;
      records := [];
      pendingReminders := {};
      new;
      ghost var before := achievements;
      UpdateStatistics(now);
      StatisticsAtQuitMoment(now, DefaultCigarettesPerDay, DefaultPricePerPack, DefaultCigarettesPerPack);
      assert CurrentStats() == Stats(0, 0, 0.0);
      NothingBelowLowestRungs(before, CurrentStats(), now);
    }

    /** Whether an achievement with `title` has already been earned. */
    method HasAchievement(title: string) returns (b: bool)
      ensures b <==> exists k :: 0 <= k < |achievements| && achievements[k].title == title
    {
      b := false;
      var i := 0;
      while i < |achievements| && !b
        invariant 0 <= i <= |achievements|
        invariant b <==> exists k :: 0 <= k < i && achievements[k].title == title
      {
        b := achievements[i].title == title;
        i := i + 1;
      }
    }

    /** Records a new achievement at the front of the list. */
    method CreateAchievement(kind: AchievementType, title: string, detail: string, iconName: string, now: int)
      modifies this`achievements
      ensures achievements == [Achievement(kind, title, detail, iconName, now)] + old(achievements)
    {
      achievements := [Achievement(kind, title, detail, iconName, now)] + achievements;
    }

    /** Walks one ladder, lowest threshold first, awarding each reached milestone whose title is new. */
    method CheckLadderInPlace(ladder: seq<Milestone>, now: int)
      modifies this`achievements
      ensures achievements == CheckLadder(old(achievements), ladder, CurrentStats(), now)
    {
      ghost var start := achievements;
      for i := 0 to |ladder|
        invariant achievements == CheckLadder(start, ladder[..i], CurrentStats(), now)
      {
        var m := ladder[i];
        assert ladder[..i + 1][..i] == ladder[..i];
        var reached := match m.kind
          case Time => daysSinceQuit >= m.threshold
          case Money => moneySaved >= m.threshold as real
          case Cigarettes => cigarettesNotSmoked >= m.threshold;
        var present := HasAchievement(m.title);
        if reached && !present {
          CreateAchievement(m.kind, m.title, m.detail, m.icon, now);
        }
      }
      assert ladder[..|ladder|] == ladder;
    }

    /** The day-count ladder: 1, 3, 7 and 30 days. */
    method CheckTimeBasedAchievements(now: int)
      modifies this`achievements
      ensures achievements == CheckLadder(old(achievements), TimeMilestones, CurrentStats(), now)
    {
      CheckLadderInPlace(TimeMilestones, now);
    }

    /** The money ladder: 1,000 to 100,000 yen saved. */
    method CheckMoneySavedAchievements(now: int)
      modifies this`achievements
      ensures achievements == CheckLadder(old(achievements), MoneyMilestones, CurrentStats(), now)
    {
      CheckLadderInPlace(MoneyMilestones, now);
    }

    /** The cigarette ladder: 100 and 500 cigarettes not smoked. */
    method CheckCigarettesNotSmokedAchievements(now: int)
      modifies this`achievements
      ensures achievements == CheckLadder(old(achievements), CigaretteMilestones, CurrentStats(), now)
    {
      CheckLadderInPlace(CigaretteMilestones, now);
    }

    /** The three ladders in order. */
    method CheckAndCreateAchievements(now: int)
      modifies this`achievements
      ensures achievements == CheckAllMilestones(old(achievements), CurrentStats(), now)
    {
      CheckTimeBasedAchievements(now);
      CheckMoneySavedAchievements(now);
      CheckCigarettesNotSmokedAchievements(now);
    }

    /** The arithmetic half of the recomputation: days, cigarettes and money. */
    method ComputeStatistics(now: int)
      requires cigarettesPerPack >= 1
      modifies this`daysSinceQuit, this`cigarettesNotSmoked, this`moneySaved
      ensures StatisticsCurrent(now)
      ensures daysSinceQuit >= 0 && cigarettesNotSmoked == daysSinceQuit * cigarettesPerDay
      ensures moneySaved == cigarettesNotSmoked as real * pricePerPack / cigarettesPerPack as real
    {
      daysSinceQuit := DaysSinceQuit(quitDate, now);
      cigarettesNotSmoked := daysSinceQuit * cigarettesPerDay;
      var packPrice := pricePerPack / cigarettesPerPack as real;
      moneySaved := cigarettesNotSmoked as real * packPrice;
      StatisticsAtIsProducts(quitDate, cigarettesPerDay, pricePerPack, cigarettesPerPack, now);
    }

    /**
     * Recomputes the statistics from the settings at time `now`, then walks
     * the ladders. Old achievements are never removed, each reached milestone
     * ends up with exactly one achievement, and titles stay distinct.
     */
    method UpdateStatistics(now: int)
      requires cigarettesPerPack >= 1
      modifies this`daysSinceQuit, this`cigarettesNotSmoked, this`moneySaved, this`achievements
      ensures old(Valid()) ==> Valid()
      ensures StatisticsCurrent(now)
      ensures achievements == CheckAllMilestones(old(achievements), CurrentStats(), now)
    {
      ghost var before := achievements;
      ComputeStatistics(now);
      CheckAndCreateAchievements(now);
      if TitlesDistinct(before) {
        CheckAllKeepsTitlesDistinct(before, CurrentStats(), now);
      }
    }

    /**
     * Cancels every pending reminder, then schedules the one-day and one-week
     * reminders whose time is still in the future.
     */
    method ScheduleMotivationalNotifications(now: int)
      modifies this`pendingReminders
      ensures pendingReminders == RemindersFor(quitDate, now)
    {
      pendingReminders := {};
      var oneDayDate := quitDate + SecondsPerDay;
      if oneDayDate > now {
        pendingReminders := pendingReminders + {Reminder(OneDay, oneDayDate)};
      }
      var oneWeekDate := quitDate + 7 * SecondsPerDay;
      if oneWeekDate > now {
        pendingReminders := pendingReminders + {Reminder(OneWeek, oneWeekDate)};
      }
    }

    /** Appends a record built from the settings, created and touched at `now`. */
    method StoreNewRecord(now: int)
      modifies this`records
      ensures records == old(records) + [RecordFromSettings(now, now)]
    {
      records := records + [RecordFromSettings(now, now)];
    }

    /**
     * Stores a new record built from the settings, leaves first launch, then
     * recomputes the statistics and reschedules the reminders.
     */
    method SaveNewRecord(now: int)
      requires Valid()
      modifies this`records, this`isFirstLaunch, this`daysSinceQuit, this`cigarettesNotSmoked, this`moneySaved,
               this`achievements, this`pendingReminders
      ensures Valid()
      ensures records == old(records) + [RecordFromSettings(now, now)]
      ensures !isFirstLaunch
      ensures StatisticsCurrent(now)
      ensures achievements == CheckAllMilestones(old(achievements), CurrentStats(), now)
      ensures pendingReminders == RemindersFor(quitDate, now)
    {
      StoreNewRecord(now);
      isFirstLaunch := false;
      UpdateStatistics(now);
      ScheduleMotivationalNotifications(now);
    }

    /**
     * Writes the settings into the first stored record, or saves a new record
     * when the store is empty; then recomputes and reschedules.
     */
    method UpdateRecord(now: int)
      requires Valid()
      modifies this`records, this`isFirstLaunch, this`daysSinceQuit, this`cigarettesNotSmoked, this`moneySaved,
               this`achievements, this`pendingReminders
      ensures Valid()
      ensures old(records) == [] ==> records == [RecordFromSettings(now, now)] && !isFirstLaunch
      ensures old(records) != [] ==>
                |records| == |old(records)| &&
                records[0] == RecordFromSettings(old(records)[0].createdAt, now) &&
                records[1..] == old(records)[1..] &&
                isFirstLaunch == old(isFirstLaunch)
      ensures StatisticsCurrent(now)
      ensures achievements == CheckAllMilestones(old(achievements), CurrentStats(), now)
      ensures pendingReminders == RemindersFor(quitDate, now)
    {
      if records == [] {
        SaveNewRecord(now);
        return;
      }
      var record := records[0];
      records := [RecordFromSettings(record.createdAt, now)] + records[1..];
      UpdateStatistics(now);
      ScheduleMotivationalNotifications(now);
    }

    /**
     * The settings screen writing the edited quit date, consumption and
     * price, followed by the recomputation their subscriptions trigger.
     */
    method EditSettings(newQuitDate: int, newCigarettesPerDay: int, newPricePerPack: real, newCigarettesPerPack: int, now: int)
      requires Valid()
      requires StepperRange(newCigarettesPerDay) && StepperRange(newCigarettesPerPack)
      modifies this`quitDate, this`cigarettesPerDay, this`pricePerPack, this`cigarettesPerPack,
               this`daysSinceQuit, this`cigarettesNotSmoked, this`moneySaved, this`achievements
      ensures Valid()
      ensures quitDate == newQuitDate && cigarettesPerDay == newCigarettesPerDay && pricePerPack == newPricePerPack
      ensures cigarettesPerPack == newCigarettesPerPack
      ensures StatisticsCurrent(now)
      ensures achievements == CheckAllMilestones(old(achievements), CurrentStats(), now)
    {
      quitDate, cigarettesPerDay, pricePerPack, cigarettesPerPack :=
        newQuitDate, newCigarettesPerDay, newPricePerPack, newCigarettesPerPack;
      UpdateStatistics(now);
    }

    /**
     * The settings screen writing the edited goal. No subscription watches
     * the goal, so nothing is recomputed until the next tick or save.
     */
    method EditGoal(newGoal: string)
      requires Valid()
      modifies this`goal
      ensures Valid() && goal == newGoal
    {
      goal := newGoal;
    }

    /** The settings and statistics a first launch starts from, with the quit date at `now`. */
    ghost predicate IsFreshStart(now: int)
      reads this
    {
      quitDate == now && cigarettesPerDay == DefaultCigarettesPerDay &&
      pricePerPack == DefaultPricePerPack && cigarettesPerPack == DefaultCigarettesPerPack &&
      goal == DefaultGoal && isFirstLaunch && pendingReminders == {} &&
      CurrentStats() == Stats(0, 0, 0.0) && achievements == []
    }

    /** Writes the default settings, clears the statistics and the list, and cancels every reminder. */
    method ClearState(now: int)
      modifies this`quitDate, this`cigarettesPerDay, this`pricePerPack, this`cigarettesPerPack, this`goal,
               this`daysSinceQuit, this`cigarettesNotSmoked, this`moneySaved, this`achievements,
               this`isFirstLaunch, this`pendingReminders
      ensures quitDate == now && cigarettesPerDay == DefaultCigarettesPerDay
      ensures pricePerPack == DefaultPricePerPack && cigarettesPerPack == DefaultCigarettesPerPack
      ensures goal == DefaultGoal && isFirstLaunch && pendingReminders == {}
      ensures CurrentStats() == Stats(0, 0, 0.0) && achievements == []
    {
      quitDate, cigarettesPerDay, pricePerPack, cigarettesPerPack, goal :=
        now, DefaultCigarettesPerDay, DefaultPricePerPack, DefaultCigarettesPerPack, DefaultGoal;
      daysSinceQuit, moneySaved, cigarettesNotSmoked, achievements := 0, 0.0, 0, [];
      isFirstLaunch := true;
      pendingReminders := {};
    }

    /**
     * The in-memory half of a successful reset: default settings, quit date
     * now, cleared statistics and list, first launch, no reminders, and the
     * recomputation that follows, which awards nothing.
     */
    method RestoreDefaults(now: int)
      modifies this`quitDate, this`cigarettesPerDay, this`pricePerPack, this`cigarettesPerPack, this`goal,
               this`daysSinceQuit, this`cigarettesNotSmoked, this`moneySaved, this`achievements,
               this`isFirstLaunch, this`pendingReminders
      ensures Valid() && IsFreshStart(now)
    {
      ClearState(now);
      UpdateStatistics(now);
      StatisticsAtQuitMoment(now, DefaultCigarettesPerDay, DefaultPricePerPack, DefaultCigarettesPerPack);
      assert CurrentStats() == Stats(0, 0, 0.0);
      NothingBelowLowestRungs([], CurrentStats(), now);
    }

    /**
     * Deletes every record and achievement; when the store reports success,
     * also restores the defaults in memory. When the store fails, nothing in
     * memory changes.
     */
    method ResetAllData(storeSucceeds: bool, now: int)
      requires Valid()
      modifies this
      ensures Valid()
      ensures !storeSucceeds ==> unchanged(this)
      ensures storeSucceeds ==> records == [] && IsFreshStart(now)
    {
      if !storeSucceeds {
        return;
      }
      records := [];
      RestoreDefaults(now);
    }
  }

  /**
   * Recomputing twice at the same time with unchanged settings: the second
   * call awards nothing and leaves the list as the first call left it.
   */
  method RecomputeTwice(vm: QuitSmokingViewModel, now: int) returns (first: seq<Achievement>)
    requires vm.cigarettesPerPack >= 1
    modifies vm`daysSinceQuit, vm`cigarettesNotSmoked, vm`moneySaved, vm`achievements
    ensures first == CheckAllMilestones(old(vm.achievements), vm.CurrentStats(), now)
    ensures vm.achievements == first
  {
    vm.UpdateStatistics(now);
    first := vm.achievements;
    var stats := vm.CurrentStats();
    vm.UpdateStatistics(now);
    assert vm.CurrentStats() == stats;
    CheckAllIdempotent(old(vm.achievements), stats, now, now);
  }
}
