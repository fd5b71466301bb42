/**
 * The achievement ladders and what walking them does to the achievement list.
 *
 * Three hard-coded ladders (days, money saved, cigarettes not smoked) are
 * checked in order; a milestone whose threshold is met earns an achievement
 * unless one with the same title is already in the list, and the new
 * achievement is put at the front. The title is the only identity a
 * milestone has.
 */
module Achievements {
  import opened Statistics

  datatype AchievementType = Time | Money | Cigarettes

  /** A milestone reached at `achievedDate`. */
  datatype Achievement = Achievement(
    kind: AchievementType,
    title: string,
    detail: string,
    iconName: string,
    achievedDate: int)

  /** One rung of a ladder: reached when the metric of `kind` is at least `threshold`. */
  datatype Milestone = Milestone(
    kind: AchievementType,
    threshold: int,
    title: string,
    detail: string,
    icon: string)

  /** The currency is fixed to yen; the money titles are built with it. */
  const Currency: string := "円"

  const TimeMilestones: seq<Milestone> := [
    Milestone(Time, 1, "1日達成", "禁煙を1日続けました", "clock.badge.checkmark"),
    Milestone(Time, 3, "3日達成", "禁煙を3日続けました", "clock.badge.checkmark.fill"),
    Milestone(Time, 7, "1週間達成", "禁煙を1週間続けました", "calendar.badge.checkmark"),
    Milestone(Time, 30, "1ヶ月達成", "禁煙を1ヶ月続けました", "calendar.badge.clock")
  ]

  const MoneyMilestones: seq<Milestone> := [
    Milestone(Money, 1000, "1,000" + Currency + "節約", "タバコを我慢して1,000" + Currency + "節約しました", "yensign.circle"),
    Milestone(Money, 5000, "5,000" + Currency + "節約", "タバコを我慢して5,000" + Currency + "節約しました", "yensign.circle.fill"),
    Milestone(Money, 10000, "1万" + Currency + "節約", "タバコを我慢して1万" + Currency + "節約しました", "banknote"),
    Milestone(Money, 50000, "5万" + Currency + "節約", "タバコを我慢して5万" + Currency + "節約しました", "banknote.fill"),
    Milestone(Money, 100000, "10万" + Currency + "節約", "タバコを我慢して10万" + Currency + "節約しました", "creditcard")
  ]

  const CigaretteMilestones: seq<Milestone> := [
    Milestone(Cigarettes, 100, "100本達成", "100本のタバコを吸わずに済みました", "lungs"),
    Milestone(Cigarettes, 500, "500本達成", "500本のタバコを吸わずに済みました", "lungs.fill")
  ]

  /** The three ladders in the order they are checked. */
  const AllMilestones: seq<Milestone> := TimeMilestones + MoneyMilestones + CigaretteMilestones

  /** Whether the statistics meet a milestone's threshold. */
  predicate Reached(m: Milestone, s: Stats) {
    match m.kind
    case Time => s.days >= m.threshold
    case Money => s.money >= m.threshold as real
    case Cigarettes => s.cigarettes >= m.threshold
  }

  /** Whether some achievement in the list carries `title`. */
  predicate HasAchievement(list: seq<Achievement>, title: string) {
    exists k :: 0 <= k < |list| && list[k].title == title
  }

  /** The achievement recorded for milestone `m` at time `now`. */
  function Award(m: Milestone, now: int): (a: Achievement)
    ensures a.kind == m.kind && a.title == m.title && a.achievedDate == now
  {
    Achievement(m.kind, m.title, m.detail, m.icon, now)
  }

  /** One rung: prepend the award when the milestone is reached and its title is new. */
  function Check(list: seq<Achievement>, m: Milestone, s: Stats, now: int): seq<Achievement> {
    if Reached(m, s) && !HasAchievement(list, m.title) then [Award(m, now)] + list else list
  }

  /** Walking a ladder rung by rung, lowest threshold first. */
  function CheckLadder(list: seq<Achievement>, ladder: seq<Milestone>, s: Stats, now: int): (r: seq<Achievement>)
    ensures |list| <= |r| <= |list| + |ladder|
    decreases |ladder|
  {
    if ladder == [] then list
    else Check(CheckLadder(list, ladder[..|ladder| - 1], s, now), ladder[|ladder| - 1], s, now)
  }

  /** The achievement list after the time, money and cigarette ladders have been walked. */
  function CheckAllMilestones(list: seq<Achievement>, s: Stats, now: int): (r: seq<Achievement>)
    ensures |list| <= |r| <= |list| + |AllMilestones|
  {
    CheckLadder(CheckLadder(CheckLadder(list, TimeMilestones, s, now), MoneyMilestones, s, now), CigaretteMilestones, s, now)
  }

  /** No two achievements share a title. */
  predicate TitlesDistinct(list: seq<Achievement>) {
    forall i, j :: 0 <= i < j < |list| ==> list[i].title != list[j].title
  }

  /** How many achievements carry `title`. */
  function CountTitle(list: seq<Achievement>, title: string): nat {
    if list == [] then 0
    else (if list[0].title == title then 1 else 0) + CountTitle(list[1..], title)
  }

  /** `list` ends with `tail`: nothing of `tail` was removed or reordered. */
  predicate EndsWith(list: seq<Achievement>, tail: seq<Achievement>) {
    |tail| <= |list| && forall k :: 0 <= k < |tail| ==> list[|list| - |tail| + k] == tail[k]
  }

  /**
   * Every achievement added in front of `tail` was awarded at `now` for a
   * milestone of `ladder` that is reached and whose title `tail` lacked.
   */
  predicate AddedFor(list: seq<Achievement>, tail: seq<Achievement>, ladder: seq<Milestone>, s: Stats, now: int)
    requires EndsWith(list, tail)
  {
    forall k :: 0 <= k < |list| - |tail| ==>
      list[k].achievedDate == now && !HasAchievement(tail, list[k].title) &&
      exists m :: m in ladder && Reached(m, s) && Award(m, now) == list[k]
  }

  /**
   * Ratchet: walking a ladder only adds achievements in front of the old
   * list, each stamped `now` and earned by a reached milestone with a new title.
   */
  lemma {:induction false} CheckLadderPrepends(list: seq<Achievement>, ladder: seq<Milestone>, s: Stats, now: int)
    ensures EndsWith(CheckLadder(list, ladder, s, now), list)
    ensures AddedFor(CheckLadder(list, ladder, s, now), list, ladder, s, now)
    decreases |ladder|
  {
    if ladder != [] {
      var front := ladder[..|ladder| - 1];
      var m := ladder[|ladder| - 1];
      var mid := CheckLadder(list, front, s, now);
      CheckLadderPrepends(list, front, s, now);
      var r := CheckLadder(list, ladder, s, now);
      assert r == Check(mid, m, s, now);
      if r != mid {
        assert r == [Award(m, now)] + mid;
        forall k | 0 <= k < |list| ensures r[|r| - |list| + k] == list[k] {
          assert r[|r| - |list| + k] == mid[|mid| - |list| + k];
        }
        forall k | 0 <= k < |r| - |list|
          ensures r[k].achievedDate == now && !HasAchievement(list, r[k].title)
          ensures exists m' :: m' in ladder && Reached(m', s) && Award(m', now) == r[k]
        {
          if k == 0 {
            assert m in ladder;
            NotInSuffix(mid, list, m.title);
          } else {
            assert r[k] == mid[k - 1];
            var m' :| m' in front && Reached(m', s) && Award(m', now) == mid[k - 1];
            assert m' in ladder;
          }
        }
      } else {
        assert r == mid;
        assert AddedFor(mid, list, front, s, now);
        forall k | 0 <= k < |r| - |list|
          ensures r[k].achievedDate == now && !HasAchievement(list, r[k].title)
          ensures exists m' :: m' in ladder && Reached(m', s) && Award(m', now) == r[k]
        {
          assert k < |mid| - |list|;
          assert mid[k].achievedDate == now && !HasAchievement(list, mid[k].title);
          var m' :| m' in front && Reached(m', s) && Award(m', now) == mid[k];
          assert m' in ladder;
        }
      }
    }
  }

  /** A title absent from a list is absent from every tail of it. */
  lemma NotInSuffix(list: seq<Achievement>, tail: seq<Achievement>, title: string)
    requires EndsWith(list, tail)
    requires !HasAchievement(list, title)
    ensures !HasAchievement(tail, title)
  {
    forall k | 0 <= k < |tail| ensures tail[k].title != title {
      assert tail[k] == list[|list| - |tail| + k];
    }
  }

  /** A title present in a tail is present in the whole list. */
  lemma InSuffix(list: seq<Achievement>, tail: seq<Achievement>, title: string)
    requires EndsWith(list, tail)
    requires HasAchievement(tail, title)
    ensures HasAchievement(list, title)
  {
    var k :| 0 <= k < |tail| && tail[k].title == title;
    assert list[|list| - |tail| + k] == tail[k];
  }

  /** Walking a ladder never creates two achievements with one title. */
  lemma {:induction false} CheckLadderKeepsTitlesDistinct(list: seq<Achievement>, ladder: seq<Milestone>, s: Stats, now: int)
    requires TitlesDistinct(list)
    ensures TitlesDistinct(CheckLadder(list, ladder, s, now))
    decreases |ladder|
  {
    if ladder != [] {
      var front := ladder[..|ladder| - 1];
      var m := ladder[|ladder| - 1];
      var mid := CheckLadder(list, front, s, now);
      CheckLadderKeepsTitlesDistinct(list, front, s, now);
      var r := Check(mid, m, s, now);
      if r != mid {
        forall i, j | 0 <= i < j < |r| ensures r[i].title != r[j].title {
          if i == 0 {
            assert r[j] == mid[j - 1];
          } else {
            assert r[i] == mid[i - 1] && r[j] == mid[j - 1];
          }
        }
      }
    }
  }

  /** After walking a ladder, every reached milestone of it has an achievement with its title. */
  lemma {:induction false} CheckLadderCovers(list: seq<Achievement>, ladder: seq<Milestone>, s: Stats, now: int)
    ensures forall m :: m in ladder && Reached(m, s) ==> HasAchievement(CheckLadder(list, ladder, s, now), m.title)
    decreases |ladder|
  {
    if ladder != [] {
      var front := ladder[..|ladder| - 1];
      var last := ladder[|ladder| - 1];
      var mid := CheckLadder(list, front, s, now);
      var r := Check(mid, last, s, now);
      CheckLadderCovers(list, front, s, now);
      assert EndsWith(r, mid) by {
        if r != mid { assert r == [Award(last, now)] + mid; }
      }
      forall m | m in ladder && Reached(m, s) ensures HasAchievement(r, m.title) {
        if m == last {
          if r != mid { assert r[0].title == m.title; }
        } else {
          assert m in front;
          InSuffix(r, mid, m.title);
        }
      }
    }
  }

  /** A ladder whose reached titles are all present already changes nothing. */
  lemma {:induction false} CheckLadderFixpoint(list: seq<Achievement>, ladder: seq<Milestone>, s: Stats, now: int)
    requires forall m :: m in ladder && Reached(m, s) ==> HasAchievement(list, m.title)
    ensures CheckLadder(list, ladder, s, now) == list
    decreases |ladder|
  {
    if ladder != [] {
      var front := ladder[..|ladder| - 1];
      assert forall m :: m in front ==> m in ladder;
      CheckLadderFixpoint(list, front, s, now);
    }
  }

  /** Walking `a` then `b` is walking their concatenation. */
  lemma {:induction false} CheckLadderAppend(list: seq<Achievement>, a: seq<Milestone>, b: seq<Milestone>, s: Stats, now: int)
    ensures CheckLadder(CheckLadder(list, a, s, now), b, s, now) == CheckLadder(list, a + b, s, now)
    decreases |b|
  {
    if b != [] {
      var ab := a + b;
      assert ab[..|ab| - 1] == a + b[..|b| - 1];
      assert ab[|ab| - 1] == b[|b| - 1];
      CheckLadderAppend(list, a, b[..|b| - 1], s, now);
    } else {
      assert a + b == a;
    }
  }

  /** The three ladders walked one after another are the combined ladder. */
  lemma CheckAllIsOneLadder(list: seq<Achievement>, s: Stats, now: int)
    ensures CheckAllMilestones(list, s, now) == CheckLadder(list, AllMilestones, s, now)
  {
    CheckLadderAppend(list, TimeMilestones, MoneyMilestones, s, now);
    CheckLadderAppend(list, TimeMilestones + MoneyMilestones, CigaretteMilestones, s, now);
  }

  /** With distinct titles, a present title occurs exactly once. */
  lemma {:induction false} DistinctPresentOnce(list: seq<Achievement>, title: string)
    requires TitlesDistinct(list)
    ensures CountTitle(list, title) == if HasAchievement(list, title) then 1 else 0
    decreases |list|
  {
    if list != [] {
      var rest := list[1..];
      assert TitlesDistinct(rest) by {
        forall i, j | 0 <= i < j < |rest| ensures rest[i].title != rest[j].title {
          assert rest[i] == list[i + 1] && rest[j] == list[j + 1];
        }
      }
      DistinctPresentOnce(rest, title);
      if list[0].title == title {
        forall k | 0 <= k < |rest| ensures rest[k].title != title {
          assert rest[k] == list[k + 1];
        }
      } else {
        if HasAchievement(list, title) {
          var k :| 0 <= k < |list| && list[k].title == title;
          assert rest[k - 1] == list[k];
        }
      }
    }
  }

  /**
   * After the ladders are walked, every milestone whose threshold is met has
   * exactly one achievement with its title, provided the titles were distinct
   * before; and they stay distinct.
   */
  lemma ReachedMilestonesAwardedOnce(list: seq<Achievement>, s: Stats, now: int)
    requires TitlesDistinct(list)
    ensures TitlesDistinct(CheckAllMilestones(list, s, now))
    ensures forall m :: m in AllMilestones && Reached(m, s) ==> CountTitle(CheckAllMilestones(list, s, now), m.title) == 1
  {
    CheckAllIsOneLadder(list, s, now);
    var r := CheckAllMilestones(list, s, now);
    CheckLadderKeepsTitlesDistinct(list, AllMilestones, s, now);
    CheckLadderCovers(list, AllMilestones, s, now);
    forall m | m in AllMilestones && Reached(m, s) ensures CountTitle(r, m.title) == 1 {
      DistinctPresentOnce(r, m.title);
    }
  }

  /**
   * Idempotence: walking the ladders again with the same statistics adds
   * nothing, whatever the clock says the second time.
   */
  lemma CheckAllIdempotent(list: seq<Achievement>, s: Stats, now: int, again: int)
    ensures CheckAllMilestones(CheckAllMilestones(list, s, now), s, again) == CheckAllMilestones(list, s, now)
  {
    var r := CheckAllMilestones(list, s, now);
    CheckAllIsOneLadder(list, s, now);
    CheckAllIsOneLadder(r, s, again);
    CheckLadderCovers(list, AllMilestones, s, now);
    CheckLadderFixpoint(r, AllMilestones, s, again);
  }

  /**
   * Ratchet across edits: whatever the statistics (even lower ones after the
   * quit date moved later), the old list survives intact at the end and only
   * new, reached milestones stamped `now` are added in front.
   */
  lemma CheckAllRatchet(list: seq<Achievement>, s: Stats, now: int)
    ensures EndsWith(CheckAllMilestones(list, s, now), list)
    ensures AddedFor(CheckAllMilestones(list, s, now), list, AllMilestones, s, now)
  {
    CheckAllIsOneLadder(list, s, now);
    CheckLadderPrepends(list, AllMilestones, s, now);
  }

  /** The money titles spelled out with the yen currency. */
  lemma MoneyTitles()
    ensures MoneyMilestones[0].title == "1,000円節約"
    ensures MoneyMilestones[1].title == "5,000円節約"
    ensures MoneyMilestones[2].title == "1万円節約"
    ensures MoneyMilestones[3].title == "5万円節約"
    ensures MoneyMilestones[4].title == "10万円節約"
  {
  }

  /** A recomputation never gives two achievements the same title. */
  lemma CheckAllKeepsTitlesDistinct(list: seq<Achievement>, s: Stats, now: int)
    requires TitlesDistinct(list)
    ensures TitlesDistinct(CheckAllMilestones(list, s, now))
  {
    CheckAllIsOneLadder(list, s, now);
    CheckLadderKeepsTitlesDistinct(list, AllMilestones, s, now);
  }

  /** The lowest rung of each ladder: 1 day, 1000 saved, 100 cigarettes. */
  lemma {:induction false} LowestRungs(m: Milestone)
    requires m in AllMilestones
    ensures m.kind == Time ==> m.threshold >= 1
    ensures m.kind == Money ==> m.threshold >= 1000
    ensures m.kind == Cigarettes ==> m.threshold >= 100
  {
    var i :| 0 <= i < |AllMilestones| && AllMilestones[i] == m;
    if i < 4 {
      assert m == TimeMilestones[i];
    } else if i < 9 {
      assert m == MoneyMilestones[i - 4];
    } else {
      assert m == CigaretteMilestones[i - 9];
    }
  }

  /**
   * Below the lowest rung of every ladder (in particular with all statistics
   * at zero, as right after a reset) a recomputation adds nothing.
   */
  lemma NothingBelowLowestRungs(list: seq<Achievement>, s: Stats, now: int)
    requires s.days < 1 && s.money < 1000.0 && s.cigarettes < 100
    ensures CheckAllMilestones(list, s, now) == list
  {
    forall m | m in AllMilestones ensures !Reached(m, s) {
      LowestRungs(m);
    }
    CheckAllIsOneLadder(list, s, now);
    CheckLadderFixpoint(list, AllMilestones, s, now);
  }

  /** The titles earned at eight days, 160 cigarettes and 4000 saved. */
  predicate EightDayTitle(t: string) {
    t == "1日達成" || t == "3日達成" || t == "1週間達成" || t == "1,000円節約" || t == "100本達成"
  }

  /** At eight days, 160 cigarettes and 4000 saved, exactly five milestones are reached. */
  lemma EightDayReached(m: Milestone)
    requires m in AllMilestones
    ensures Reached(m, Stats(8, 160, 4000.0)) <==> EightDayTitle(m.title)
  {
    var i :| 0 <= i < |AllMilestones| && AllMilestones[i] == m;
    assert |AllMilestones| == 11;
    if i < 4 {
      assert m == TimeMilestones[i];
    } else if i < 9 {
      MoneyTitles();
      assert m == MoneyMilestones[i - 4];
    } else {
      assert m == CigaretteMilestones[i - 9];
    }
  }

  /**
   * The eight-day example (8 days, 160 cigarettes, 4000 saved) on an empty
   * list earns the first three day milestones, the first money milestone and
   * the first cigarette milestone.
   */
  lemma EightDayEarned(list: seq<Achievement>, s: Stats, now: int)
    requires list == [] && s == Stats(8, 160, 4000.0)
    ensures var r := CheckAllMilestones(list, s, now);
            HasAchievement(r, "1日達成") && HasAchievement(r, "3日達成") && HasAchievement(r, "1週間達成") &&
            HasAchievement(r, "1,000円節約") && HasAchievement(r, "100本達成")
  {
    CheckAllIsOneLadder(list, s, now);
    CheckLadderCovers(list, AllMilestones, s, now);
    MoneyTitles();
    var r := CheckAllMilestones(list, s, now);
    assert |AllMilestones| == 11;
    assert AllMilestones[0] == TimeMilestones[0] && AllMilestones[1] == TimeMilestones[1];
    assert AllMilestones[2] == TimeMilestones[2];
    assert AllMilestones[4] == MoneyMilestones[0] && AllMilestones[9] == CigaretteMilestones[0];
    assert HasAchievement(r, TimeMilestones[0].title);
    assert HasAchievement(r, TimeMilestones[1].title);
    assert HasAchievement(r, TimeMilestones[2].title);
    assert HasAchievement(r, MoneyMilestones[0].title);
    assert HasAchievement(r, CigaretteMilestones[0].title);
  }

  /** ... and nothing else: in particular not the month, 5,000 or 500-cigarette milestones. */
  lemma EightDayNotEarned(list: seq<Achievement>, s: Stats, now: int)
    requires list == [] && s == Stats(8, 160, 4000.0)
    ensures var r := CheckAllMilestones(list, s, now);
            forall k :: 0 <= k < |r| ==> EightDayTitle(r[k].title)
    ensures var r := CheckAllMilestones(list, s, now);
            !HasAchievement(r, "1ヶ月達成") && !HasAchievement(r, "5,000円節約") && !HasAchievement(r, "500本達成")
  {
    var r := CheckAllMilestones(list, s, now);
    CheckAllIsOneLadder(list, s, now);
    CheckLadderPrepends(list, AllMilestones, s, now);
    forall k | 0 <= k < |r| ensures EightDayTitle(r[k].title) {
      var m :| m in AllMilestones && Reached(m, s) && Award(m, now) == r[k];
      EightDayReached(m);
    }
  }
}
