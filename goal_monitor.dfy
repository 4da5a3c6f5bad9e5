/** The goal card of `GoalMonitor.tsx`: the ±5 progress buttons, building a
    new goal from the form, and the days-left label. */
module GoalMonitor {
  import opened Types

  /** `handleProgressChange`: progress capped at 100 but not floored, and the
      status recomputed from the requested value every time. */
  function HandleProgressChange(goal: Goal, requested: int): (g: Goal)
    ensures g.progress <= 100
    ensures g.progress == requested || (requested > 100 && g.progress == 100)
    ensures g.status == Completed <==> requested >= 100
    ensures g.status == Completed <==> g.progress == 100
    ensures g.status != Paused
    ensures g.(progress := goal.progress, status := goal.status) == goal
  {
    goal.(progress := if requested < 100 then requested else 100,
          status := if requested >= 100 then Completed else Active)
  }

  /** The two buttons. */
  function Increase(goal: Goal): Goal { HandleProgressChange(goal, goal.progress + 5) }
  function Decrease(goal: Goal): Goal { HandleProgressChange(goal, goal.progress - 5) }

  /** Below the cap, a step down undoes a step up, except that the status is
      then active whatever it was; near the cap the clamp loses progress. */
  lemma IncreaseThenDecrease(goal: Goal)
    ensures goal.progress <= 95 ==> Decrease(Increase(goal)) == goal.(status := Active)
    ensures 95 < goal.progress < 100 ==> Decrease(Increase(goal)).progress == 95 < goal.progress
  {
  }

  /** Completion is not sticky, and nothing stops progress going below zero. */
  lemma StatusNotSticky(goal: Goal)
    ensures goal.progress == 100 ==> Increase(goal).status == Completed && Decrease(goal) == goal.(progress := 95, status := Active)
    ensures goal.progress == 0 ==> Decrease(goal).progress == -5 && !AnnotatedGoal(Decrease(goal))
    ensures goal.progress == 95 ==> Increase(goal).status == Completed
  {
  }

  /** The digits of `n`, most significant first. */
  function Digits(n: nat): (s: string)
    ensures |s| >= 1 && forall i :: 0 <= i < |s| ==> '0' <= s[i] <= '9'
  {
    var d := ['0' + (n % 10) as char];
    if n < 10 then d else Digits(n / 10) + d
  }

  /** `toString` of an integer. */
  function IntText(n: int): string
  {
    if n < 0 then "-" + Digits(-n) else Digits(n)
  }

  /** `handleAddGoal`: id from the clock, no progress, active, created now, due
      `daysToComplete` calendar days later (one fixed offset, so a day is
      always 24 hours). */
  function NewGoal(title: string, description: string, category: Category, daysToComplete: int, now: Millis): (g: Goal)
    ensures g.progress == 0 && g.status == Active && g.createdAt == now && AnnotatedGoal(g)
    ensures g.targetDate - g.createdAt == daysToComplete * MsPerDay
    ensures g.title == title && g.description == description && g.category == category
  {
    Goal(IntText(now), title, description, now + daysToComplete * MsPerDay, 0, category, Active, now)
  }

  /** `daysLeft`: whole days to the target, rounded up. */
  function DaysLeft(targetDate: Millis, now: Millis): (d: int)
    ensures (d - 1) * MsPerDay < targetDate - now <= d * MsPerDay
  {
    -((now - targetDate) / MsPerDay)
  }

  /** What the card shows: a number of days, or the done label. */
  datatype Remaining = Days(n: int) | Done

  function DaysLeftLabel(targetDate: Millis, now: Millis): (r: Remaining)
    ensures r == Done <==> targetDate <= now
    ensures r.Days? ==> r.n >= 1 && r.n == DaysLeft(targetDate, now)
  {
    var d := DaysLeft(targetDate, now);
    if d > 0 then Days(d) else Done
  }

  /** A goal made today for n days shows n days left today, and is done only
      when n is not positive. */
  lemma NewGoalDaysLeft(title: string, description: string, category: Category, n: int, now: Millis)
    ensures DaysLeft(NewGoal(title, description, category, n, now).targetDate, now) == n
    ensures DaysLeftLabel(NewGoal(title, description, category, n, now).targetDate, now) == if n > 0 then Days(n) else Done
  {
    var d := DaysLeft(now + n * MsPerDay, now);
    assert (d - 1 - n) * MsPerDay < 0 <= (d - n) * MsPerDay;
  }
}
