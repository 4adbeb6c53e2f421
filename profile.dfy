// src/pages/Profile.tsx: the profile page. Over constant data it shows the XP
// bar, an avatar letter, and three tabs (saved lessons, learning history,
// achievements) that list at most three entries each, with a "See More"
// button counting the rest.

module Profile {

  import opened Common
  import opened Text
  import CourseInfo

  datatype UserStats = UserStats(
    username: string,
    level: string,
    xp: nat,
    nextLevelXp: nat,
    streak: nat,
    totalLessons: nat,
    quizAccuracy: nat,
    favoriteLanguage: string)

  const Stats := UserStats("codingWizard", "Intermediate", 2450, 3000, 7, 342, 87, "Python")

  datatype Achievement = Achievement(id: string, name: string, description: string, icon: string, earned: bool)
  datatype SavedLesson = SavedLesson(id: string, title: string, language: string, savedAt: string)
  datatype HistoryItem = HistoryItem(id: string, title: string, completed: bool, score: nat, completedAt: string)

  const Achievements: seq<Achievement> := [
    Achievement("1", "First Steps", "Completed your first lesson", "\U{1F680}", true),
    Achievement("2", "Python Master", "Completed 50 Python lessons", "\U{1F40D}", true),
    Achievement("3", "Quiz Champion", "Scored 90%+ on 10 quizzes", "\U{1F3C6}", false),
    Achievement("4", "Week Warrior", "7-day learning streak", "\U{1F525}", true),
    Achievement("5", "Social Learner", "Shared 5 lessons", "\U{1F91D}", false)
  ]

  const SavedLessons: seq<SavedLesson> := [
    SavedLesson("1", "Python List Comprehensions", "Python", "2 hours ago"),
    SavedLesson("2", "React useEffect Hook", "React", "1 day ago"),
    SavedLesson("3", "JavaScript Array Methods", "JavaScript", "3 days ago")
  ]

  const LearningHistory: seq<HistoryItem> := [
    HistoryItem("1", "C++ Pointers Basics", true, 95, "Today"),
    HistoryItem("2", "JavaScript Promises", true, 88, "Yesterday"),
    HistoryItem("3", "Python Functions", true, 92, "2 days ago")
  ]

  /** The bundled XP bar stands at 2450 / 3000 * 100 = 81 2/3 percent: past
      four fifths of the level, short of its end. */
  lemma BundledXpPercentage()
    ensures CourseInfo.Percentage(Stats.xp, Stats.nextLevelXp) == 245.0 / 3.0
    ensures 81.0 < CourseInfo.Percentage(Stats.xp, Stats.nextLevelXp) < 100.0
  {
    assert CourseInfo.Percentage(2450, 3000) == (2450.0 / 3000.0) * 100.0;
  }

  /** The bar's width times the XP needed for the level is a hundred times the
      XP earned, so the bar is full exactly when the level is reached. */
  lemma XpBarScales(xp: nat, nextLevelXp: nat)
    requires nextLevelXp > 0
    ensures CourseInfo.Percentage(xp, nextLevelXp) * nextLevelXp as real == 100.0 * xp as real
    ensures CourseInfo.Percentage(xp, nextLevelXp) == 100.0 <==> xp == nextLevelXp
  {
    var x, n := xp as real, nextLevelXp as real;
    var q := x / n;
    assert q * n == x;
    var p := CourseInfo.Percentage(xp, nextLevelXp);
    assert p == q * 100.0;
    assert p * n == (q * n) * 100.0;
    if p == 100.0 {
      assert 100.0 * n == 100.0 * x;
    }
    if xp == nextLevelXp {
      assert x == n;
      assert x / n == 1.0;
    }
  }

  /** `username.charAt(0).toUpperCase()`: empty for an empty name, otherwise
      the first character with an ASCII lower-case letter raised. */
  function AvatarLetter(username: string): (r: string)
    ensures username == "" <==> r == ""
    ensures username != "" ==> |r| == 1 && !IsLowerAscii(r[0]) && LowerChar(r[0]) == LowerChar(username[0])
  {
    Upper(username[..Min(1, |username|)])
  }

  /** The bundled user "codingWizard" gets the letter "C". */
  lemma BundledAvatarLetter()
    ensures AvatarLetter(Stats.username) == "C"
  {
    assert Stats.username[..1] == "c";
  }

  /** `lesson.language.slice(0, 2)`: the first two characters of the language. */
  function LanguageTag(language: string): (r: string)
    ensures |r| == Min(2, |language|)
    ensures language == r + language[|r|..]
  {
    language[..Min(2, |language|)]
  }

  /** `list.slice(0, 3)`: the entries a tab lists. */
  function FirstThree<T>(s: seq<T>): (r: seq<T>)
    ensures |r| == Min(3, |s|)
    ensures s == r + s[|r|..]
  {
    s[..Min(3, |s|)]
  }

  /** `list.length > 3 && "See More (" + (list.length - 3) + " more)"`. */
  function SeeMoreLabel(n: nat): (r: Option<string>)
    ensures r.Some? <==> n > 3
  {
    if n > 3 then Some("See More (" + NatToString(n - 3) + " more)") else None
  }

  /** Every entry of a tab is either listed or counted by its button: the
      listed entries and the number the caption reads back add up to the list. */
  lemma {:induction false} ListedPlusCountedIsAll<T>(s: seq<T>)
    ensures SeeMoreLabel(|s|).None? ==> FirstThree(s) == s
    ensures SeeMoreLabel(|s|).Some? ==>
      var caption := SeeMoreLabel(|s|).value;
      var count := caption[|"See More ("|..|caption| - |" more)"|];
      Number(count).Some? && |FirstThree(s)| + Number(count).value == |s|
  {
    if |s| > 3 {
      var digits := NatToString(|s| - 3);
      var caption := "See More (" + digits + " more)";
      assert caption[|"See More ("|..|caption| - |" more)"|] == digits;
      NumberOfRendering(|s| - 3);
    }
  }

  /** With the bundled data the saved and history tabs list everything, and
      only the achievements tab has the button, reading "See More (2 more)". */
  lemma BundledSeeMore()
    ensures SeeMoreLabel(|SavedLessons|) == None && FirstThree(SavedLessons) == SavedLessons
    ensures SeeMoreLabel(|LearningHistory|) == None && FirstThree(LearningHistory) == LearningHistory
    ensures SeeMoreLabel(|Achievements|) == Some("See More (2 more)")
    ensures FirstThree(Achievements) == Achievements[..3]
  {
    assert |Achievements| == 5;
    assert NatToString(2) == "2";
    assert "See More (" + "2" + " more)" == "See More (2 more)";
  }
}
