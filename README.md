# QuitSmoking statistics and achievement engine in Dafny

This project models the core of the QuitSmoking iOS app.

The first part is the view model `QuitSmokingViewModel`. From a quit date and the smoker's
consumption settings it computes three statistics:
- the whole days since quitting;
- the cigarettes not smoked;
- the money saved.

It then walks three hard-coded milestone ladders:
- days: 1, 3, 7 and 30;
- yen saved: 1,000, 5,000, 10,000, 50,000 and 100,000;
- cigarettes not smoked: 100 and 500.

A reached milestone earns an achievement, prepended to the list, unless an achievement with the
same title is already there.

Around this engine the view model also:
- keeps a store of quit records;
- schedules two motivational reminders, at one day and one week after the quit date;
- can reset everything to the first-launch defaults.

The second part is the pure logic of the health timeline. It is a table of ten recovery
milestones measured in minutes, hours or days. Two helpers go with it: one decides whether a
milestone is complete, the other computes how much time is left until it is.

Modules, one file each:
- `HealthTimeline` (`health_timeline.dfy`): the milestone table.
  - `IsTimeIntervalCompleted` and `TimeLeftForMilestone`. The text the app displays is modelled as the datatype `TimeLeft`: minutes, hours, days-and-hours, or days.
  - Lemmas on clamping, on reconstructing the hour split by div/mod, on monotonicity, and on the shape of the table.
- `Statistics` (`statistics.dfy`): the specification of the statistics step as functions on an integer clock in seconds.
  - `DaysSinceQuit` gives the clamped whole days.
  - `CigarettesOver` gives the cigarettes not smoked, counted day by day and proved equal to the product.
  - `MoneySaved` gives the money saved, in exact reals.
  - Lemmas: bounds, monotonicity, the quit moment, and the eight-day example.
- `Achievements` (`achievements.dfy`): the three ladders as constant tables.
  - `CheckLadder` and `CheckAllMilestones` specify walking the ladders as a fold.
  - The lemmas prove:
    - titles stay distinct;
    - every reached milestone ends with exactly one achievement;
    - the old list survives intact at the end, and additions are stamped `now` and come from reached milestones;
    - a second walk changes nothing;
    - the eight-day example.
- `ViewModel` (`view_model.dfy`): the class `QuitSmokingViewModel` with the source's fields.
  - Its methods update those fields in place. The ladder walks are `for` loops proved against `CheckLadder`.
  - The record store is the field `records`.
  - The pending reminders are the ghost field `pendingReminders`.
  - The wall clock is the parameter `now`, in integer seconds.

## Model

| member | source | states |
|---|---|---|
| HealthTimeline.TimeLeftForMilestone | QuitSmoking/Views/EnhancedHealthTimelineView.swift:93-105 | The result variant follows the unit. "minute" gives minutes. "hour" gives hours, or days and hours once 24 or more are left. Any other unit gives days. The count left is never negative. When it is positive, counter + left == interval. It is zero exactly when the milestone is completed. Hours are below 24 in both hour forms. |
| HealthTimeline.IsTimeIntervalCompleted | QuitSmoking/Views/EnhancedHealthTimelineView.swift:81-90 | A milestone is completed exactly when the counter of its unit has reached the interval. The minutes count for "minute", the hours for "hour", and the days for any other unit. `TimeLeftForMilestone` ties it to the remaining time: nothing is left exactly when it holds. |
| HealthTimeline.StatusOf | QuitSmoking/Views/EnhancedHealthTimelineView.swift:28-71 | A row shows "achieved" exactly when `IsTimeIntervalCompleted` holds. Otherwise it shows `TimeLeftForMilestone` of the milestone, in the form its unit takes: a positive remaining time that closes the gap to the interval. |
| HealthTimeline.HourSplitReconstructs | QuitSmoking/Views/EnhancedHealthTimelineView.swift:98-100 | In the hour unit, with `hoursLeft = max(0, interval - hours)`: 24 or more is split into `hoursLeft / 24` days and `hoursLeft % 24` hours, with 24*d + h == hoursLeft and 0 <= h < 24. Fewer than 24 is plain hours. |
| HealthTimeline.ProgressIsMonotone | QuitSmoking/Views/EnhancedHealthTimelineView.swift:81-105 | When no counter goes back, a completed milestone stays completed and the time left never grows. |
| HealthTimeline.HealthMilestonesTable | QuitSmoking/Views/EnhancedHealthTimelineView.swift:8-20 | The table has ten rows. Units are only minute, hour and day. Within one unit the intervals strictly increase. |
| HealthTimeline.TimelineCompletesInOrder | QuitSmoking/Views/EnhancedHealthTimelineView.swift:8-20 | Within one unit, a completed row implies every earlier row of that unit is completed. |
| Statistics.DayDifferenceBounds | QuitSmoking/ViewModels/QuitSmokingViewModel.swift:120-121 | The day difference, truncated toward zero, counts the whole 86400-second days between the two times, in either direction. |
| Statistics.DaysSinceQuit | QuitSmoking/ViewModels/QuitSmokingViewModel.swift:120-122 | The day count is a natural number: `max(0, …)` clamps a future quit date to 0. It is 0 until a full day has passed. |
| Statistics.DaysSinceQuitIsWholeDays | QuitSmoking/ViewModels/QuitSmokingViewModel.swift:120-122 | From the quit date on, d*86400 <= now - quitDate < (d+1)*86400. |
| Statistics.MoneySavedIsPerPackShare | QuitSmoking/ViewModels/QuitSmokingViewModel.swift:127-129 | With at least one cigarette per pack, the money saved times the pack size equals cigarettes times pack price. So it equals cigarettes * pricePerPack / cigarettesPerPack. |
| Statistics.CigarettesOverIsProduct | QuitSmoking/ViewModels/QuitSmokingViewModel.swift:125 | Counting the daily consumption day by day gives daysSinceQuit * cigarettesPerDay. |
| Statistics.StatisticsAtIsProducts | QuitSmoking/ViewModels/QuitSmokingViewModel.swift:116-129 | The statistics specification gives the clamped day count, cigarettes == days * cigarettesPerDay, and money == cigarettes * pricePerPack / cigarettesPerPack. |
| Statistics.StatisticsAtQuitMoment | QuitSmoking/ViewModels/QuitSmokingViewModel.swift:116-129 | At the quit moment all three statistics are zero, whatever the settings. |
| Statistics.DaysSinceQuitMonotone | QuitSmoking/ViewModels/QuitSmokingViewModel.swift:120-122 | The day count never decreases as the clock advances. |
| Statistics.LaterQuitDateFewerDays | QuitSmoking/ViewModels/QuitSmokingViewModel.swift:120-122 | Moving the quit date later never increases the day count. |
| Statistics.CigarettesOverMonotone | QuitSmoking/ViewModels/QuitSmokingViewModel.swift:125 | More days at a non-negative daily consumption never give fewer cigarettes. |
| Statistics.MoneySavedMonotone | QuitSmoking/ViewModels/QuitSmokingViewModel.swift:127-129 | At a non-negative price, more cigarettes never give less money. |
| Statistics.StatisticsMonotone | QuitSmoking/ViewModels/QuitSmokingViewModel.swift:116-129 | With the settings fixed and non-negative, days, cigarettes and money all grow with time. |
| Statistics.EightDayExample | QuitSmoking/ViewModels/QuitSmokingViewModel.swift:116-129 | Eight days and an hour at 20 a day, 500 for a pack of 20, give Stats(8, 160, 4000.0). |
| Achievements.Award | QuitSmoking/ViewModels/QuitSmokingViewModel.swift:335-349 | A created achievement carries the milestone's kind and title, stamped with `now`. |
| Achievements.CheckLadder | QuitSmoking/ViewModels/QuitSmokingViewModel.swift:272-329 | Walking one ladder rung by rung, lowest threshold first, only adds achievements, and at most one per rung. The `for` loops of the three check methods are proved equal to this walk. |
| Achievements.CheckAllMilestones | QuitSmoking/ViewModels/QuitSmokingViewModel.swift:261-270 | Walking the time, money and cigarette ladders in that order only adds achievements, and at most one per milestone of the eleven. `CheckAndCreateAchievements` is proved equal to this walk. |
| Achievements.CheckLadderPrepends | QuitSmoking/ViewModels/QuitSmokingViewModel.swift:272-329 | Walking a ladder keeps the old list intact as a suffix. Every entry in front of it was stamped `now`, has a title the old list lacked, and is the award of a reached milestone of that ladder. |
| Achievements.NotInSuffix | QuitSmoking/ViewModels/QuitSmokingViewModel.swift:331-333 | A title absent from a list is absent from every suffix of it. |
| Achievements.InSuffix | QuitSmoking/ViewModels/QuitSmokingViewModel.swift:331-333 | A title present in a suffix is present in the whole list. |
| Achievements.CheckLadderKeepsTitlesDistinct | QuitSmoking/ViewModels/QuitSmokingViewModel.swift:272-333 | Walking a ladder never gives two achievements the same title. |
| Achievements.CheckLadderCovers | QuitSmoking/ViewModels/QuitSmokingViewModel.swift:272-329 | After a ladder walk, every reached milestone of that ladder has an achievement with its title. |
| Achievements.CheckLadderFixpoint | QuitSmoking/ViewModels/QuitSmokingViewModel.swift:280-333 | When every reached milestone's title is already present, a ladder walk leaves the list unchanged. |
| Achievements.CheckLadderAppend | QuitSmoking/ViewModels/QuitSmokingViewModel.swift:261-270 | Walking ladder a and then ladder b is the same as walking a + b. |
| Achievements.CheckAllIsOneLadder | QuitSmoking/ViewModels/QuitSmokingViewModel.swift:261-270 | The time, money and cigarette walks in order equal one walk over the combined eleven milestones. |
| Achievements.DistinctPresentOnce | QuitSmoking/ViewModels/QuitSmokingViewModel.swift:331-333 | In a list with distinct titles, a title occurs once if present and otherwise not at all. |
| Achievements.ReachedMilestonesAwardedOnce | QuitSmoking/ViewModels/QuitSmokingViewModel.swift:272-329 | Starting from distinct titles, after the walk the titles are still distinct. Every milestone whose threshold is met has exactly one achievement with its title. |
| Achievements.CheckAllIdempotent | QuitSmoking/ViewModels/QuitSmokingViewModel.swift:280-333 | Walking the ladders a second time with the same statistics adds nothing, at any clock. |
| Achievements.CheckAllRatchet | QuitSmoking/ViewModels/QuitSmokingViewModel.swift:335-350 | For any statistics, including lower ones after an edit, the old list survives as a suffix. Only reached milestones with new titles are added in front, each stamped `now`. |
| Achievements.CheckAllKeepsTitlesDistinct | QuitSmoking/ViewModels/QuitSmokingViewModel.swift:272-333 | A recomputation keeps titles pairwise distinct. |
| Achievements.MoneyTitles | QuitSmoking/ViewModels/QuitSmokingViewModel.swift:292-299 | The money titles built from the yen currency read 1,000円節約, 5,000円節約, 1万円節約, 5万円節約 and 10万円節約. |
| Achievements.LowestRungs | QuitSmoking/ViewModels/QuitSmokingViewModel.swift:273-317 | Every day threshold is at least 1, every money threshold at least 1000, and every cigarette threshold at least 100. |
| Achievements.NothingBelowLowestRungs | QuitSmoking/ViewModels/QuitSmokingViewModel.swift:261-329 | Below all three lowest rungs, and so with zero statistics, a recomputation adds nothing. |
| Achievements.EightDayReached | QuitSmoking/ViewModels/QuitSmokingViewModel.swift:273-316 | At 8 days, 160 cigarettes and 4000 saved, a milestone is reached exactly when its title is one of 1日達成, 3日達成, 1週間達成, 1,000円節約 or 100本達成. |
| Achievements.EightDayEarned | QuitSmoking/ViewModels/QuitSmokingViewModel.swift:273-316 | On an empty list the eight-day statistics earn 1日達成, 3日達成, 1週間達成, 1,000円節約 and 100本達成. |
| Achievements.EightDayNotEarned | QuitSmoking/ViewModels/QuitSmokingViewModel.swift:273-316 | The eight-day statistics earn nothing else. In particular they do not earn 1ヶ月達成, 5,000円節約 or 500本達成. |
| ViewModel.RemindersFor | QuitSmoking/ViewModels/QuitSmokingViewModel.swift:146-172 | The one-day reminder is pending exactly when quitDate + 1 day is after now. The one-week reminder is pending exactly when quitDate + 7 days is after now. Nothing else is pending. |
| ViewModel.RemindersAreFewAndAhead | QuitSmoking/ViewModels/QuitSmokingViewModel.swift:146-172 | At most two reminders are pending, and each fires after `now`. |
| ViewModel.OneDayImpliesOneWeek | QuitSmoking/ViewModels/QuitSmokingViewModel.swift:146-172 | A pending one-day reminder always comes with the one-week reminder. |
| ViewModel.QuitSmokingViewModel.constructor | QuitSmoking/ViewModels/QuitSmokingViewModel.swift:8-23 | A first launch with nothing stored gives the default settings and the quit date now. Statistics are zero, with no achievements, no records, no reminders, and the first-launch flag set. |
| ViewModel.QuitSmokingViewModel.HasAchievement | QuitSmoking/ViewModels/QuitSmokingViewModel.swift:331-333 | The loop returns true exactly when some achievement in the list carries the title. |
| ViewModel.QuitSmokingViewModel.CreateAchievement | QuitSmoking/ViewModels/QuitSmokingViewModel.swift:335-349 | The new achievement, stamped `now`, is inserted at index 0 and the rest of the list is kept. |
| ViewModel.QuitSmokingViewModel.CheckLadderInPlace | QuitSmoking/ViewModels/QuitSmokingViewModel.swift:272-329 | The in-place loop over a ladder leaves exactly the list the `CheckLadder` specification gives. |
| ViewModel.QuitSmokingViewModel.CheckTimeBasedAchievements | QuitSmoking/ViewModels/QuitSmokingViewModel.swift:272-290 | The day ladder walked in place equals `CheckLadder` over the 1/3/7/30-day milestones. |
| ViewModel.QuitSmokingViewModel.CheckMoneySavedAchievements | QuitSmoking/ViewModels/QuitSmokingViewModel.swift:292-311 | The money ladder walked in place equals `CheckLadder` over the five money milestones. |
| ViewModel.QuitSmokingViewModel.CheckCigarettesNotSmokedAchievements | QuitSmoking/ViewModels/QuitSmokingViewModel.swift:313-329 | The cigarette ladder walked in place equals `CheckLadder` over the 100/500 milestones. |
| ViewModel.QuitSmokingViewModel.CheckAndCreateAchievements | QuitSmoking/ViewModels/QuitSmokingViewModel.swift:261-270 | The three ladders in order give `CheckAllMilestones` of the old list. |
| ViewModel.QuitSmokingViewModel.ComputeStatistics | QuitSmoking/ViewModels/QuitSmokingViewModel.swift:118-129 | The statistics match the specification at `now`: daysSinceQuit >= 0, cigarettesNotSmoked == daysSinceQuit * cigarettesPerDay, and moneySaved == cigarettesNotSmoked * pricePerPack / cigarettesPerPack. |
| ViewModel.QuitSmokingViewModel.UpdateStatistics | QuitSmoking/ViewModels/QuitSmokingViewModel.swift:116-139 | The statistics equal `StatisticsAt` of the settings at `now`. The list equals `CheckAllMilestones` of the old list, and a valid object stays valid. The ratchet, distinctness, exactly-once and idempotence lemmas above apply to that value. |
| ViewModel.QuitSmokingViewModel.ScheduleMotivationalNotifications | QuitSmoking/ViewModels/QuitSmokingViewModel.swift:142-172 | After cancelling everything, exactly `RemindersFor(quitDate, now)` is pending. |
| ViewModel.QuitSmokingViewModel.StoreNewRecord | QuitSmoking/ViewModels/QuitSmokingViewModel.swift:65-77 | One record is appended. It carries the current settings and the currency, with creation and update times set to now. |
| ViewModel.QuitSmokingViewModel.SaveNewRecord | QuitSmoking/ViewModels/QuitSmokingViewModel.swift:64-87 | One record built from the settings is appended and first launch ends. The statistics and list are recomputed and the reminders rescheduled. Settings stay in the stepper range and titles stay distinct. |
| ViewModel.QuitSmokingViewModel.UpdateRecord | QuitSmoking/ViewModels/QuitSmokingViewModel.swift:90-113 | On an empty store it saves one new record. Otherwise it overwrites the first record with the settings, keeps its creation time, sets the update time to now, and keeps the count and the other records. Either way it recomputes and reschedules. |
| ViewModel.QuitSmokingViewModel.EditSettings | QuitSmoking/ViewModels/QuitSmokingViewModel.swift:33-54 | After an edit of the quit date, the daily consumption or the pack price and size, within the stepper range, the recomputation makes the statistics current for the new settings. The list becomes `CheckAllMilestones` of the old one, so it only grows and its titles stay distinct. |
| ViewModel.QuitSmokingViewModel.EditGoal | QuitSmoking/ViewModels/QuitSmokingViewModel.swift:14-54 | A goal edit writes only the goal and keeps `Valid()`. No subscription watches the goal, so the statistics and the list are not recomputed. |
| ViewModel.QuitSmokingViewModel.ClearState | QuitSmoking/ViewModels/QuitSmokingViewModel.swift:193-209 | Writes the default settings, the quit date now, zero statistics, an empty list, the first-launch flag and no pending reminders. |
| ViewModel.QuitSmokingViewModel.RestoreDefaults | QuitSmoking/ViewModels/QuitSmokingViewModel.swift:193-212 | After the defaults are written, the recomputation at `now` leaves the statistics at zero and the list empty. |
| ViewModel.QuitSmokingViewModel.ResetAllData | QuitSmoking/ViewModels/QuitSmokingViewModel.swift:176-216 | If the store fails, nothing changes. If it succeeds, there are no records and the object is in the fresh first-launch state at `now`. |
| ViewModel.RecomputeTwice | QuitSmoking/ViewModels/QuitSmokingViewModel.swift:116-139 | A second `UpdateStatistics` at the same time with the same settings leaves the list exactly as the first left it. |

## Left out

- Core Data persistence is not modelled: the store is the in-memory sequence `records`, and the persisted copies of achievements and the batch deletes are not modelled. Record and achievement UUIDs are not modelled (randomness).
- `loadData`, the UserDefaults first-launch flag, and `loadAchievements` are not modelled (platform I/O). The constructor is the first launch with nothing stored.
- The minute `Timer`, the Combine debounce subscriptions and the `DispatchQueue.main.async` block are not modelled. The timer and the subscriptions only call `updateStatistics`: the model calls `UpdateStatistics` explicitly, and `EditSettings` stands for an edit of the quit date, consumption or price followed by its debounced recomputation. The `DispatchQueue.main.async` block only sends `objectWillChange`, a view refresh that changes no state.
- `Calendar` and `Date` are not modelled. Time is an integer count of seconds and a day is a fixed 86400 seconds, so daylight-saving and calendar irregularities are out. "+1 day" and "+7 days" add fixed constants.
- Floating point is not modelled: money is an exact `real`, without IEEE rounding. The `Int16` conversions of the stored counts cannot overflow, because the stepper range 1...100 is part of the object invariant `Valid`.
- NotificationService is modelled only as the set of pending reminders. The notification titles and bodies, and the asynchronous completion handlers, are not modelled.
- ResetAllData: the store is modelled as failing or succeeding as a whole. If the first batch delete succeeds and a later step fails, the records are already gone from the real store. The model instead leaves everything unchanged on failure.
- The SwiftUI views other than the health timeline helpers are not modelled. Neither is the rendering of the remaining time as text: the model returns the `TimeLeft` value the text is made from.
- Statistics.StatisticsAt: its own contract states only that the day count is non-negative. The products are stated by `StatisticsAtIsProducts`, which keeps the multiplications out of the proofs about the object.
