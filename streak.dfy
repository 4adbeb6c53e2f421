// src/components/growth/StreakTracker.tsx: the learning-streak card. It picks
// the next achievement to work towards, colours the last 30 days of a calendar
// by activity, and shows the weekly goal. The calendar's activity comes from
// `Math.random`, here two oracle sequences of values in [0, 1).

module Streak {

  import opened Common
  import opened Text

  datatype StreakData = StreakData(
    currentStreak: nat,
    longestStreak: nat,
    todayComplete: bool,
    weeklyGoal: nat,
    weeklyProgress: nat,
    totalDays: nat)

  const InitialStreak := StreakData(12, 25, true, 5, 4, 67)

  datatype Achievement = Achievement(
    id: string,
    title: string,
    description: string,
    icon: string,
    unlocked: bool,
    streakRequired: nat)

  const Achievements: seq<Achievement> := [
    Achievement("first-day", "First Step", "Complete your first day", "\U{1F3AF}", true, 1),
    Achievement("week-warrior", "Week Warrior", "7-day learning streak", "\U{1F525}", true, 7),
    Achievement("dedication", "Dedication", "15-day learning streak", "\U{1F4AA}", false, 15),
    Achievement("unstoppable", "Unstoppable", "30-day learning streak", "\U{1F680}", false, 30),
    Achievement("legend", "Legend", "100-day learning streak", "\U{1F451}", false, 100)
  ]

  /** Still to earn, and beyond the current streak. */
  predicate Pending(a: Achievement, streak: nat)
  {
    !a.unlocked && a.streakRequired > streak
  }

  /** `getNextAchievement`: the position of the first pending achievement. */
  function NextAchievement(achievements: seq<Achievement>, streak: nat): (r: Option<nat>)
    ensures r.Some? ==> r.value < |achievements| && Pending(achievements[r.value], streak)
    ensures r.Some? ==> forall j :: 0 <= j < r.value ==> !Pending(achievements[j], streak)
    ensures r.None? <==> forall j :: 0 <= j < |achievements| ==> !Pending(achievements[j], streak)
  {
    if achievements == [] then None
    else if Pending(achievements[0], streak) then Some(0)
    else
      match NextAchievement(achievements[1..], streak)
      case None => None
      case Some(i) => Some(i + 1)
  }

  /** The progress bar towards the next achievement never reaches 100%. */
  lemma NextAchievementIncomplete(achievements: seq<Achievement>, streak: nat)
    requires NextAchievement(achievements, streak).Some?
    ensures (streak as real / achievements[NextAchievement(achievements, streak).value].streakRequired as real) * 100.0 < 100.0
  {
    var a := achievements[NextAchievement(achievements, streak).value];
    assert streak as real < a.streakRequired as real;
    assert streak as real / a.streakRequired as real < 1.0;
  }

  /** With a 12-day streak the card points at "Dedication" (15 days). */
  lemma BundledNextAchievement()
    ensures NextAchievement(Achievements, InitialStreak.currentStreak) == Some(2)
    ensures Achievements[2].title == "Dedication" && Achievements[2].streakRequired == 15
  {
    assert !Pending(Achievements[0], 12) && !Pending(Achievements[1], 12) && Pending(Achievements[2], 12);
  }

  /** A streak past every locked achievement hides the card. */
  lemma NoCardPastLegend(streak: nat)
    requires streak >= 100
    ensures NextAchievement(Achievements, streak).None?
  {
    assert forall j :: 0 <= j < |Achievements| ==> !Pending(Achievements[j], streak);
  }

  /** `getIntensityColor`. */
  function IntensityColor(intensity: int): string
  {
    match intensity
    case 1 => "bg-primary/30"
    case 2 => "bg-primary/60"
    case 3 => "bg-primary"
    case _ => "bg-muted"
  }

  /** The primary opacity a colour class stands for, 0 for the muted one. */
  function PrimaryOpacity(color: string): nat
  {
    if color == "bg-primary/30" then 30
    else if color == "bg-primary/60" then 60
    else if color == "bg-primary" then 100
    else 0
  }

  /** Intensities 1 to 3 get ever stronger shades of the primary colour;
      anything else gets no primary shade at all. */
  lemma IntensityShades(i: int, j: int)
    ensures 1 <= i < j <= 3 ==> 0 < PrimaryOpacity(IntensityColor(i)) < PrimaryOpacity(IntensityColor(j))
    ensures PrimaryOpacity(IntensityColor(i)) == 0 <==> !(1 <= i <= 3)
  {
  }

  /** One calendar square, `daysAgo` days before today. */
  datatype CalendarDay = CalendarDay(daysAgo: nat, hasActivity: bool, intensity: nat, isToday: bool)

  predicate IsRandom(r: real) { 0.0 <= r < 1.0 }

  /** The square built at loop step `k`, from the two random draws of that step. */
  function DayAt(k: nat, activityDraw: real, intensityDraw: real): (d: CalendarDay)
    requires k < 30 && IsRandom(intensityDraw)
    ensures d.daysAgo == 29 - k
    ensures d.hasActivity <==> activityDraw > 0.3
    ensures d.hasActivity ==> 1 <= d.intensity <= 3
    ensures !d.hasActivity ==> d.intensity == 0
  {
    var hasActivity := activityDraw > 0.3;
    var intensity := if hasActivity then (intensityDraw * 3.0).Floor + 1 else 0;
    CalendarDay(29 - k, hasActivity, intensity, 29 - k == 0)
  }

  /** `generateCalendarData`: 30 squares, oldest first, only the last is today. */
  method GenerateCalendar(activityDraws: seq<real>, intensityDraws: seq<real>) returns (days: seq<CalendarDay>)
    requires |activityDraws| == 30 && |intensityDraws| == 30
    requires forall k :: 0 <= k < 30 ==> IsRandom(intensityDraws[k])
    ensures |days| == 30
    ensures forall k :: 0 <= k < 30 ==> days[k] == DayAt(k, activityDraws[k], intensityDraws[k])
    ensures forall k :: 0 <= k < 30 ==> (days[k].isToday <==> k == 29)
    ensures forall k :: 0 <= k < 29 ==> days[k].daysAgo == days[k + 1].daysAgo + 1
  {
    days := [];
    var i := 29;
    while i >= 0
      invariant -1 <= i <= 29
      invariant |days| == 29 - i
      invariant forall k :: 0 <= k < |days| ==> days[k] == DayAt(k, activityDraws[k], intensityDraws[k])
    {
      var k := 29 - i;
      var hasActivity := activityDraws[k] > 0.3;
      var intensity := if hasActivity then (intensityDraws[k] * 3.0).Floor + 1 else 0;
      days := days + [CalendarDay(i, hasActivity, intensity, i == 0)];
      i := i - 1;
    }
  }

  /** "n days to go": the goal minus the progress, negative once the goal is passed. */
  function DaysToGo(s: StreakData): (r: int)
    ensures r < 0 <==> s.weeklyProgress > s.weeklyGoal
    ensures s.weeklyProgress + r == s.weeklyGoal
  {
    s.weeklyGoal - s.weeklyProgress
  }

  /** The weekly bar: progress over goal, in percent. */
  ghost function WeeklyPercentage(s: StreakData): real
    requires s.weeklyGoal > 0
  {
    (s.weeklyProgress as real / s.weeklyGoal as real) * 100.0
  }

  /** The bundled week: 4 of 5 days, 80%, one day to go. */
  lemma BundledWeek()
    ensures WeeklyPercentage(InitialStreak) == 80.0
    ensures DaysToGo(InitialStreak) == 1
  {
  }

  const ShareTail := "day learning streak on Syntax! Join me in learning to code! #SyntaxApp #CodingStreak"

  /** The text shared for a streak. */
  function ShareText(streak: nat): (r: string)
    ensures |r| > 2 && r[..2] == "\U{1F525} "
  {
    "\U{1F525} " + NatToString(streak) + "-" + ShareTail
  }

  /** The shared text names the streak: cut at the first '-', the rest after
      the flame reads back as the number. */
  lemma ShareTextReadsBack(streak: nat)
    ensures Number(Split(ShareText(streak)[2..], '-')[0]) == Some(streak)
  {
    var digits := NatToString(streak);
    var tail := ShareTail;
    var flame := "\U{1F525} ";
    assert ShareText(streak) == flame + (digits + ['-'] + tail);
    assert |flame| == 2;
    assert ShareText(streak)[2..] == digits + ['-'] + tail;
    SplitAfterPiece(digits, tail, '-');
    NumberOfRendering(streak);
  }
}
