/**
 * The gamification engine: the points table, the level function, and the
 * per-completion update of a user's xp, total points, level and daily streak.
 *
 * Dates are day numbers: a timestamp already normalised to local midnight and
 * counted in whole days, so the day difference of two dates is an integer.
 */
module Gamification {

  type UserId = nat

  /** A calendar day, after normalisation to midnight. */
  type Day = int

  /** Base reward per task type, keyed by the type's name as stored on a task. */
  const BasePointsTable: map<string, nat> := map["daily" := 10, "weekly" := 30, "monthly" := 100]

  const PointsPerLevel: nat := 500
  const StreakBonusPoints: nat := 50
  const StreakBonusPeriod: nat := 7

  /**
   * The lookup `basePoints[type] || 0`: every entry of the table is non-zero,
   * so a missing entry (and only a missing entry) gives 0.
   */
  function BasePoints(taskType: string): (points: nat)
    ensures taskType in BasePointsTable ==> points == BasePointsTable[taskType]
    ensures points == 0 <==> taskType !in BasePointsTable
  {
    if taskType in BasePointsTable then BasePointsTable[taskType] else 0
  }

  lemma BasePointsValues(other: string)
    requires other != "daily" && other != "weekly" && other != "monthly"
    ensures BasePoints("daily") == 10
    ensures BasePoints("weekly") == 30
    ensures BasePoints("monthly") == 100
    ensures BasePoints(other) == 0
  {
  }

  /**
   * `Math.floor(totalPoints / 500) + 1`. Dafny's division by a positive divisor
   * rounds toward negative infinity, as Math.floor does.
   * The result is the unique level whose 500-point band contains the total.
   */
  function CalculateLevel(totalPoints: int): (level: int)
    ensures (level - 1) * PointsPerLevel <= totalPoints < level * PointsPerLevel
    ensures totalPoints >= 0 ==> level >= 1
  {
    totalPoints / PointsPerLevel + 1
  }

  lemma LevelMonotone(a: int, b: int)
    requires a <= b
    ensures CalculateLevel(a) <= CalculateLevel(b)
  {
  }

  /** Level 1 spans exactly the totals 0 to 499. */
  lemma FirstLevelBand(totalPoints: int)
    ensures CalculateLevel(totalPoints) == 1 <==> 0 <= totalPoints < PointsPerLevel
  {
  }

  function Max(a: int, b: int): int
  {
    if a < b then b else a
  }

  /** Whole days between two normalised dates, as an absolute value. */
  function DiffDays(today: Day, lastActive: Day): (diff: nat)
    ensures diff == today - lastActive || diff == lastActive - today
  {
    if today < lastActive then lastActive - today else today - lastActive
  }

  lemma DiffDaysSymmetric(today: Day, lastActive: Day)
    ensures DiffDays(today, lastActive) == DiffDays(lastActive, today)
    ensures DiffDays(today, lastActive) == 0 <==> today == lastActive
  {
  }

  /** The four branches of the streak state machine. */
  datatype StreakBranch = Consecutive | Gap | FirstEver | SameDay

  /** Exactly one branch fires for every day difference and streak. */
  function StreakBranchOf(diff: nat, streak: int): (b: StreakBranch)
    ensures b == Consecutive <==> diff == 1
    ensures b == Gap <==> diff > 1
    ensures b == FirstEver <==> diff == 0 && streak == 0
    ensures b == SameDay <==> diff == 0 && streak != 0
  {
    if diff == 1 then Consecutive
    else if diff > 1 then Gap
    else if streak == 0 then FirstEver
    else SameDay
  }

  /** The streak after one completion, given the day difference to the last active day. */
  function NextStreak(streak: int, diff: nat): (s: int)
    ensures diff == 1 ==> s == streak + 1
    ensures diff > 1 ==> s == 1
    ensures diff == 0 ==> s == (if streak == 0 then 1 else streak)
  {
    match StreakBranchOf(diff, streak)
    case Consecutive => streak + 1
    case Gap => 1
    case FirstEver => 1
    case SameDay => streak
  }

  /**
   * The bonus awarded by the streak engine. `x % 7 == 0` means "7 divides x"
   * under both JavaScript's truncating and Dafny's Euclidean remainder.
   */
  function StreakBonus(streak: int, diff: nat): (bonus: nat)
    ensures bonus == 0 || bonus == StreakBonusPoints
    ensures bonus == StreakBonusPoints <==> diff == 1 && (streak + 1) % StreakBonusPeriod == 0
  {
    if StreakBranchOf(diff, streak) == Consecutive && NextStreak(streak, diff) % StreakBonusPeriod == 0
    then StreakBonusPoints
    else 0
  }

  /** The gamification fields of a user record. */
  datatype Profile = Profile(xp: int, totalPoints: int, level: int, streak: int, lastActiveDay: Day)

  /** A fresh account: level 1, no points, no streak, last active on the day it was created. */
  function NewProfile(created: Day): (p: Profile)
    ensures p.level == CalculateLevel(p.totalPoints)
    ensures p.xp == 0 && p.totalPoints == 0 && p.streak == 0 && p.lastActiveDay == created
  {
    Profile(0, 0, 1, 0, created)
  }

  /** Points one completion adds: the base points of the task type plus any streak bonus. */
  function Award(p: Profile, taskType: string, today: Day): (award: nat)
    ensures award == BasePoints(taskType) || award == BasePoints(taskType) + StreakBonusPoints
  {
    BasePoints(taskType) + StreakBonus(p.streak, DiffDays(today, p.lastActiveDay))
  }

  /**
   * The profile after one completion of a task of type `taskType` on day `today`:
   * the specification of User.UpdateGamification.
   */
  function AfterCompletion(p: Profile, taskType: string, today: Day): (q: Profile)
    ensures q.xp - q.totalPoints == p.xp - p.totalPoints
    ensures q.totalPoints >= p.totalPoints
    ensures q.level >= p.level
    ensures q.lastActiveDay == today
  {
    var diff := DiffDays(today, p.lastActiveDay);
    var total := p.totalPoints + Award(p, taskType, today);
    Profile(
      xp := p.xp + Award(p, taskType, today),
      totalPoints := total,
      level := Max(p.level, CalculateLevel(total)),
      streak := NextStreak(p.streak, diff),
      lastActiveDay := today)
  }

  /** xp and totalPoints grow by the same amount: the base points, or the base points and the bonus. */
  lemma AwardIsBaseOrBonus(p: Profile, taskType: string, today: Day)
    ensures var q := AfterCompletion(p, taskType, today);
      && q.xp - p.xp == q.totalPoints - p.totalPoints
      && (q.totalPoints - p.totalPoints == BasePoints(taskType)
          || q.totalPoints - p.totalPoints == BasePoints(taskType) + StreakBonusPoints)
  {
  }

  /** The level is raised to the level of the new total when that is higher, and never lowered. */
  lemma LevelOnlyRises(p: Profile, taskType: string, today: Day)
    ensures var q := AfterCompletion(p, taskType, today);
      && q.level >= p.level
      && q.level >= CalculateLevel(q.totalPoints)
      && (q.level == p.level || q.level == CalculateLevel(q.totalPoints))
  {
  }

  /** A profile whose level agrees with its total keeps that agreement after a completion. */
  lemma LevelStaysDerived(p: Profile, taskType: string, today: Day)
    requires p.level == CalculateLevel(p.totalPoints)
    ensures var q := AfterCompletion(p, taskType, today); q.level == CalculateLevel(q.totalPoints)
  {
    LevelMonotone(p.totalPoints, AfterCompletion(p, taskType, today).totalPoints);
  }

  /** Active on the previous (or next) day: the streak grows by one, with a bonus on every 7th day. */
  lemma ConsecutiveDayStreak(p: Profile, taskType: string, today: Day)
    requires DiffDays(today, p.lastActiveDay) == 1
    ensures var q := AfterCompletion(p, taskType, today);
      && q.streak == p.streak + 1
      && (q.totalPoints - p.totalPoints == BasePoints(taskType) + StreakBonusPoints
          <==> q.streak % StreakBonusPeriod == 0)
  {
  }

  /** A gap of more than one day restarts the streak at 1 and gives no bonus. */
  lemma GapResetsStreak(p: Profile, taskType: string, today: Day)
    requires DiffDays(today, p.lastActiveDay) > 1
    ensures var q := AfterCompletion(p, taskType, today);
      && q.streak == 1
      && q.totalPoints - p.totalPoints == BasePoints(taskType)
  {
  }

  /** A second completion on the same day starts a zero streak and leaves any other streak alone. */
  lemma SameDayStreak(p: Profile, taskType: string, today: Day)
    requires today == p.lastActiveDay
    ensures var q := AfterCompletion(p, taskType, today);
      && q.streak == (if p.streak == 0 then 1 else p.streak)
      && q.totalPoints - p.totalPoints == BasePoints(taskType)
  {
  }

  /** The engine only sees the distance between the two days, not which one is later. */
  lemma DirectionIgnored(p: Profile, taskType: string, today: Day)
    ensures var back := p.(lastActiveDay := 2 * today - p.lastActiveDay);
      && AfterCompletion(back, taskType, today) == AfterCompletion(p, taskType, today)
  {
    DiffDaysSymmetric(today, p.lastActiveDay);
  }

  /** Worked cases: a first daily task, a 7th consecutive day, and a level-up. */
  lemma WorkedExamples()
    ensures AfterCompletion(NewProfile(0), "daily", 0) == Profile(10, 10, 1, 1, 0)
    ensures AfterCompletion(Profile(10, 10, 1, 1, 0), "daily", 0) == Profile(20, 20, 1, 1, 0)
    ensures AfterCompletion(Profile(60, 60, 1, 6, 0), "daily", 1) == Profile(120, 120, 1, 7, 1)
    ensures AfterCompletion(Profile(60, 60, 1, 3, 0), "daily", 1) == Profile(70, 70, 1, 4, 1)
    ensures AfterCompletion(Profile(90, 90, 1, 10, 0), "weekly", 5) == Profile(120, 120, 1, 1, 5)
    ensures AfterCompletion(Profile(495, 495, 1, 2, 3), "monthly", 3) == Profile(595, 595, 2, 2, 3)
  {
    BasePointsValues("");
    assert CalculateLevel(595) == 2;
  }

  /** A user record, updated in place by the engine. */
  class User {
    const id: UserId
    var xp: int
    var totalPoints: int
    var level: int
    var streak: int
    var lastActiveDay: Day

    function Snapshot(): Profile
      reads this
    {
      Profile(xp, totalPoints, level, streak, lastActiveDay)
    }

    /** A new account with the schema defaults. */
    constructor (id: UserId, created: Day)
      ensures this.id == id
      ensures Snapshot() == NewProfile(created)
    {
      this.id := id;
      xp, totalPoints, level, streak := 0, 0, 1, 0;
      lastActiveDay := created;
    }

    /**
     * Applies one completion of a task of type `taskType` on day `today` and
     * returns the same record it changed.
     */
    method UpdateGamification(taskType: string, today: Day) returns (updated: User)
      modifies this
      ensures updated == this
      ensures Snapshot() == AfterCompletion(old(Snapshot()), taskType, today)
    {
      var points := BasePoints(taskType);
      xp := xp + points;
      totalPoints := totalPoints + points;

      var newLevel := CalculateLevel(totalPoints);
      if newLevel > level {
        level := newLevel;
      }

      var diffDays := DiffDays(today, lastActiveDay);
      if diffDays == 1 {
        streak := streak + 1;
        if streak % StreakBonusPeriod == 0 {
          xp := xp + StreakBonusPoints;
          totalPoints := totalPoints + StreakBonusPoints;
        }
      } else if diffDays > 1 {
        streak := 1;
      } else if diffDays == 0 && streak == 0 {
        streak := 1;
      }

      lastActiveDay := today;

      LevelMonotone(old(totalPoints) + points, totalPoints);
      var levelAfterBonus := CalculateLevel(totalPoints);
      if levelAfterBonus > level {
        level := levelAfterBonus;
      }

      updated := this;
    }
  }
}
