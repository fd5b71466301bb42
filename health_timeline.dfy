/**
 * The health timeline: a fixed table of recovery milestones, each measured in
 * minutes, hours or days since quitting, and the two pure helpers that decide
 * whether a milestone is complete and how much time is left until it is.
 */
module HealthTimeline {

  /** One row of the timeline: `timeInterval` units of `unit` after quitting. */
  datatype HealthMilestone = HealthMilestone(
    timeInterval: int,
    unit: string,
    title: string,
    description: string,
    icon: string)

  /**
   * The counters the timeline is built with. They are independent whole-unit
   * counts since the quit date (hours is not "hours past the last full day").
   */
  datatype Elapsed = Elapsed(days: int, hours: int, minutes: int)

  /** The remaining time shown under a milestone that is not yet complete. */
  datatype TimeLeft =
    | MinutesLeft(minutes: nat)
    | HoursLeft(hours: nat)
    | DaysHoursLeft(days: nat, hours: nat)
    | DaysLeft(days: nat)

  /** What the timeline shows under one milestone. */
  datatype Status = Achieved | Remaining(left: TimeLeft)

  const HealthMilestones: seq<HealthMilestone> := [
    HealthMilestone(20, "minute", "20分後", "血圧と脈拍が通常のレベルに戻ります。", "heart.fill"),
    HealthMilestone(12, "hour", "12時間後", "血液中の一酸化炭素レベルが正常値に戻ります。", "lungs.fill"),
    HealthMilestone(24, "hour", "24時間後", "心臓発作のリスクが低下し始めます。", "heart.circle.fill"),
    HealthMilestone(48, "hour", "48時間後", "味覚と嗅覚が改善し始めます。", "nose.fill"),
    HealthMilestone(72, "hour", "72時間後", "気管支が緩み、呼吸が楽になります。エネルギーレベルが上昇します。", "bolt.fill"),
    HealthMilestone(14, "day", "2週間後", "循環が改善し、歩行が楽になります。", "figure.walk"),
    HealthMilestone(30, "day", "1ヶ月後", "肺機能が30%改善します。咳や息切れが減少します。", "lungs"),
    HealthMilestone(90, "day", "3ヶ月後", "循環が改善し、肺機能が大幅に向上します。", "arrow.up.heart.fill"),
    HealthMilestone(180, "day", "6ヶ月後", "ストレスに対処しやすくなり、感染症のリスクが減少します。", "shield.fill"),
    HealthMilestone(365, "day", "1年後", "冠動脈疾患のリスクが半分に減少します。", "heart.text.square.fill")
  ]

  /**
   * The counter a unit is measured against: "minute" and "hour" select their
   * own counter, and every other unit string falls back to days.
   */
  function CounterFor(e: Elapsed, unit: string): int {
    if unit == "minute" then e.minutes
    else if unit == "hour" then e.hours
    else e.days
  }

  /** The remaining time as one number in the milestone's own unit. */
  function Amount(t: TimeLeft): nat {
    match t
    case MinutesLeft(m) => m
    case HoursLeft(h) => h
    case DaysHoursLeft(d, h) => 24 * d + h
    case DaysLeft(d) => d
  }

  /** True when the milestone's interval has been reached in its unit. */
  predicate IsTimeIntervalCompleted(e: Elapsed, interval: int, unit: string): (done: bool)
    ensures done <==> CounterFor(e, unit) >= interval
  {
    if unit == "minute" then e.minutes >= interval
    else if unit == "hour" then e.hours >= interval
    else e.days >= interval
  }

  /**
   * The time still to go, clamped at zero; an hour count of a day or more is
   * shown split into whole days and the hours left over.
   */
  function TimeLeftForMilestone(e: Elapsed, interval: int, unit: string): (r: TimeLeft)
    ensures unit == "minute" ==> r.MinutesLeft?
    ensures unit == "hour" ==> r.HoursLeft? || r.DaysHoursLeft?
    ensures unit != "minute" && unit != "hour" ==> r.DaysLeft?
    ensures r.HoursLeft? ==> r.hours < 24
    ensures r.DaysHoursLeft? ==> 1 <= r.days && r.hours < 24
    ensures Amount(r) >= interval - CounterFor(e, unit)
    ensures Amount(r) == 0 || CounterFor(e, unit) + Amount(r) == interval
    ensures Amount(r) == 0 <==> IsTimeIntervalCompleted(e, interval, unit)
  {
    if unit == "minute" then
      MinutesLeft(if interval - e.minutes > 0 then interval - e.minutes else 0)
    else if unit == "hour" then
      var hoursLeft := if interval - e.hours > 0 then interval - e.hours else 0;
      if hoursLeft >= 24 then DaysHoursLeft(hoursLeft / 24, hoursLeft % 24) else HoursLeft(hoursLeft)
    else
      DaysLeft(if interval - e.days > 0 then interval - e.days else 0)
  }

  /** The line under a milestone: "achieved", or the time still to go. */
  function StatusOf(e: Elapsed, m: HealthMilestone): (s: Status)
    ensures s.Achieved? <==> IsTimeIntervalCompleted(e, m.timeInterval, m.unit)
    ensures s.Remaining? ==> Amount(s.left) > 0 && CounterFor(e, m.unit) + Amount(s.left) == m.timeInterval
    ensures s.Remaining? ==> s.left == TimeLeftForMilestone(e, m.timeInterval, m.unit)
  {
    if IsTimeIntervalCompleted(e, m.timeInterval, m.unit) then Achieved
    else Remaining(TimeLeftForMilestone(e, m.timeInterval, m.unit))
  }

  /** `later` is at least as far from the quit date as `earlier` on every counter. */
  predicate NotBehind(earlier: Elapsed, later: Elapsed) {
    earlier.days <= later.days && earlier.hours <= later.hours && earlier.minutes <= later.minutes
  }

  /** In the hour unit, a split result reconstructs the clamped hour count. */
  lemma HourSplitReconstructs(e: Elapsed, interval: int)
    ensures var r := TimeLeftForMilestone(e, interval, "hour");
            var hoursLeft := if interval - e.hours > 0 then interval - e.hours else 0;
            (hoursLeft >= 24 ==> r == DaysHoursLeft(hoursLeft / 24, hoursLeft % 24)
                                 && 24 * r.days + r.hours == hoursLeft && 0 <= r.hours < 24) &&
            (hoursLeft < 24 ==> r == HoursLeft(hoursLeft))
  {
  }

  /**
   * As time passes a completed milestone stays completed, and the time left
   * never grows.
   */
  lemma {:induction false} ProgressIsMonotone(earlier: Elapsed, later: Elapsed, interval: int, unit: string)
    requires NotBehind(earlier, later)
    ensures IsTimeIntervalCompleted(earlier, interval, unit) ==> IsTimeIntervalCompleted(later, interval, unit)
    ensures Amount(TimeLeftForMilestone(later, interval, unit)) <= Amount(TimeLeftForMilestone(earlier, interval, unit))
  {
    var a := TimeLeftForMilestone(earlier, interval, unit);
    var b := TimeLeftForMilestone(later, interval, unit);
    assert CounterFor(earlier, unit) <= CounterFor(later, unit);
    if Amount(b) > 0 {
      assert CounterFor(later, unit) + Amount(b) == interval;
      assert Amount(a) >= interval - CounterFor(earlier, unit);
    }
  }

  /** The table's units are only "minute", "hour" and "day". */
  predicate KnownUnit(unit: string) {
    unit == "minute" || unit == "hour" || unit == "day"
  }

  /** The shape of the table: ten rows, known units, strictly increasing intervals per unit. */
  lemma HealthMilestonesTable()
    ensures |HealthMilestones| == 10
    ensures forall i :: 0 <= i < |HealthMilestones| ==> KnownUnit(HealthMilestones[i].unit)
    ensures forall i, j :: 0 <= i < j < |HealthMilestones| && HealthMilestones[i].unit == HealthMilestones[j].unit
              ==> HealthMilestones[i].timeInterval < HealthMilestones[j].timeInterval
  {
  }

  /**
   * Within one unit the timeline completes in table order: a completed row
   * implies every earlier row of the same unit is completed.
   */
  lemma {:induction false} TimelineCompletesInOrder(e: Elapsed, i: nat, j: nat)
    requires i < j < |HealthMilestones|
    requires HealthMilestones[i].unit == HealthMilestones[j].unit
    requires IsTimeIntervalCompleted(e, HealthMilestones[j].timeInterval, HealthMilestones[j].unit)
    ensures IsTimeIntervalCompleted(e, HealthMilestones[i].timeInterval, HealthMilestones[i].unit)
  {
    HealthMilestonesTable();
  }
}
