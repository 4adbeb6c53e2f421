// src/pages/MyCourses.tsx: the learner's enrolled courses. A search query
// narrows the list, a sort mode orders a copy of it, and an overview counts
// completed and in-progress courses and sums their estimated minutes over the
// whole list.

module MyCourses {

  import opened Common
  import opened Text

  datatype Course = Course(
    id: string,
    title: string,
    description: string,
    progress: int,
    totalLessons: nat,
    completedLessons: nat,
    level: string,
    estimatedTime: string,
    lastAccessed: string)

  const Courses: seq<Course> := [
    Course("1", "Python Fundamentals", "Master the basics of Python programming", 75, 12, 9, "Beginner", "45 min", "2 hours ago"),
    Course("2", "JavaScript ES6+", "Modern JavaScript features and best practices", 45, 8, 4, "Intermediate", "30 min", "1 day ago"),
    Course("3", "React Hooks Deep Dive", "Master all React hooks with practical examples", 20, 15, 3, "Advanced", "60 min", "3 days ago"),
    Course("4", "Data Structures & Algorithms", "Essential DSA concepts for interviews", 100, 20, 20, "Intermediate", "90 min", "1 week ago")
  ]

  // ---------------------------------------------------------------------------
  // Search

  predicate MatchesSearch(c: Course, query: string)
  {
    Includes(Lower(c.title), Lower(query)) || Includes(Lower(c.description), Lower(query))
  }

  /** `filteredCourses`. */
  function FilterCourses(cs: seq<Course>, query: string): (r: seq<Course>)
    ensures |r| <= |cs|
  {
    Filter(cs, c => MatchesSearch(c, query))
  }

  /** A course passes the search exactly when the lower-cased query occurs in
      its lower-cased title or description. */
  lemma ShownIff(cs: seq<Course>, query: string, c: Course)
    ensures c in FilterCourses(cs, query) <==>
      c in cs &&
      ((exists i :: OccursAt(Lower(c.title), Lower(query), i)) ||
       (exists i :: OccursAt(Lower(c.description), Lower(query), i)))
  {
    IncludesIff(Lower(c.title), Lower(query));
    IncludesIff(Lower(c.description), Lower(query));
  }

  /** An empty query keeps every course in order. */
  lemma EmptyQueryShowsAll(cs: seq<Course>)
    ensures FilterCourses(cs, "") == cs
  {
    forall c | c in cs ensures MatchesSearch(c, "") {
      IncludesEmpty(Lower(c.title));
    }
    FilterKeepsAll(cs, c => MatchesSearch(c, ""));
  }

  // ---------------------------------------------------------------------------
  // Sorting a copy

  /** `Array.prototype.sort` is stable: `x` goes before the first element that
      does not strictly precede it. */
  function Insert<T>(x: T, s: seq<T>, before: (T, T) -> bool): (r: seq<T>)
    ensures multiset(r) == multiset(s) + multiset{x}
    ensures |r| == |s| + 1
  {
    if s != [] && before(s[0], x) then
      assert s == [s[0]] + s[1..];
      [s[0]] + Insert(x, s[1..], before)
    else
      assert multiset([x] + s) == multiset{x} + multiset(s);
      [x] + s
  }

  /** The sort on the copy: a stable insertion sort under `before`. */
  function Sort<T>(s: seq<T>, before: (T, T) -> bool): (r: seq<T>)
    ensures multiset(r) == multiset(s)
    ensures |r| == |s|
  {
    if s == [] then []
    else
      assert s == [s[0]] + s[1..];
      Insert(s[0], Sort(s[1..], before), before)
  }

  /** `before` is a strict weak order: asymmetric, and "not before" is transitive. */
  ghost predicate StrictWeakOrder<T(!new)>(before: (T, T) -> bool)
  {
    && (forall a, b :: before(a, b) ==> !before(b, a))
    && (forall a, b, c :: !before(a, b) && !before(b, c) ==> !before(a, c))
  }

  /** No element precedes an earlier one. */
  ghost predicate Sorted<T>(s: seq<T>, before: (T, T) -> bool)
  {
    forall i, j :: 0 <= i < j < |s| ==> !before(s[j], s[i])
  }

  lemma {:induction false} InsertSorted<T(!new)>(x: T, s: seq<T>, before: (T, T) -> bool)
    requires StrictWeakOrder(before) && Sorted(s, before)
    ensures Sorted(Insert(x, s, before), before)
  {
    var r := Insert(x, s, before);
    if s != [] && before(s[0], x) {
      InsertSorted(x, s[1..], before);
      var tail := Insert(x, s[1..], before);
      assert multiset(tail) == multiset(s[1..]) + multiset{x};
      forall j | 0 < j < |r| ensures !before(r[j], r[0]) {
        var y := tail[j - 1];
        assert y in multiset(tail);
        if y != x {
          assert y in multiset(s[1..]);
          var k :| 0 <= k < |s[1..]| && s[1..][k] == y;
          assert s[k + 1] == y;
        }
      }
    } else {
      forall j | 0 < j < |r| ensures !before(r[j], r[0]) {
        assert r[j] == s[j - 1];
        assert !before(s[j - 1], s[0]) || j - 1 == 0;
      }
    }
  }

  /** The sorted copy is ordered, whatever the order of the input. */
  lemma {:induction false} SortSorted<T(!new)>(s: seq<T>, before: (T, T) -> bool)
    requires StrictWeakOrder(before)
    ensures Sorted(Sort(s, before), before)
  {
    if s != [] {
      SortSorted(s[1..], before);
      InsertSorted(s[0], Sort(s[1..], before), before);
    }
  }

  /** A comparator that never separates two elements keeps the input order. */
  lemma {:induction false} SortKeepsOrderWhenTied<T>(s: seq<T>, before: (T, T) -> bool)
    requires forall a, b :: !before(a, b)
    ensures Sort(s, before) == s
  {
    if s != [] {
      SortKeepsOrderWhenTied(s[1..], before);
      assert s == [s[0]] + s[1..];
    }
  }

  /** `a.title.localeCompare(b.title) < 0`, read as code-point order. */
  predicate LexLess(a: string, b: string)
  {
    if b == [] then false
    else if a == [] then true
    else if a[0] != b[0] then a[0] < b[0]
    else LexLess(a[1..], b[1..])
  }

  lemma {:induction false} LexAsymmetric(a: string, b: string)
    ensures LexLess(a, b) ==> !LexLess(b, a)
  {
    if a != [] && b != [] && a[0] == b[0] {
      LexAsymmetric(a[1..], b[1..]);
    }
  }

  lemma {:induction false} LexTrichotomy(a: string, b: string)
    ensures LexLess(a, b) || LexLess(b, a) || a == b
  {
    if a != [] && b != [] && a[0] == b[0] {
      LexTrichotomy(a[1..], b[1..]);
      assert a == [a[0]] + a[1..] && b == [b[0]] + b[1..];
    }
  }

  lemma {:induction false} LexTransitive(a: string, b: string, c: string)
    requires LexLess(a, b) && LexLess(b, c)
    ensures LexLess(a, c)
  {
    if a != [] && a[0] == b[0] && b[0] == c[0] {
      LexTransitive(a[1..], b[1..], c[1..]);
    }
  }

  lemma LexIsStrictWeakOrder()
    ensures StrictWeakOrder((x: Course, y: Course) => LexLess(x.title, y.title))
  {
    forall a: Course, b: Course
      ensures LexLess(a.title, b.title) ==> !LexLess(b.title, a.title)
    {
      LexAsymmetric(a.title, b.title);
    }
    forall a: Course, b: Course, c: Course
      | !LexLess(a.title, b.title) && !LexLess(b.title, c.title)
      ensures !LexLess(a.title, c.title)
    {
      LexTrichotomy(a.title, b.title);
      LexTrichotomy(b.title, c.title);
      if LexLess(a.title, c.title) {
        if LexLess(b.title, a.title) && LexLess(c.title, b.title) {
          LexTransitive(c.title, b.title, a.title);
          LexAsymmetric(a.title, c.title);
        } else if LexLess(b.title, a.title) {
          LexAsymmetric(a.title, c.title);
        } else {
          LexAsymmetric(b.title, c.title);
        }
      }
    }
  }

  /** The comparator of each sort mode as a "goes before" relation. */
  function Before(mode: string): (Course, Course) -> bool
  {
    if mode == "progress" then (a: Course, b: Course) => a.progress > b.progress
    else if mode == "alphabetical" then (a: Course, b: Course) => LexLess(a.title, b.title)
    else (a: Course, b: Course) => false
  }

  /** `sortedCourses`. */
  function SortCourses(cs: seq<Course>, mode: string): (r: seq<Course>)
    ensures multiset(r) == multiset(cs)
  {
    Sort(cs, Before(mode))
  }

  /** "progress" puts higher progress first, "alphabetical" orders titles, and
      any other mode keeps the filtered order; every mode only permutes. */
  lemma SortModes(cs: seq<Course>)
    ensures var r := SortCourses(cs, "progress");
      forall i, j :: 0 <= i < j < |r| ==> r[i].progress >= r[j].progress
    ensures var r := SortCourses(cs, "alphabetical");
      forall i, j :: 0 <= i < j < |r| ==> !LexLess(r[j].title, r[i].title)
    ensures forall mode :: mode != "progress" && mode != "alphabetical" ==> SortCourses(cs, mode) == cs
  {
    SortSorted(cs, Before("progress"));
    LexIsStrictWeakOrder();
    SortSorted(cs, Before("alphabetical"));
    forall mode | mode != "progress" && mode != "alphabetical"
      ensures SortCourses(cs, mode) == cs
    {
      SortKeepsOrderWhenTied(cs, Before(mode));
    }
  }

  // ---------------------------------------------------------------------------
  // Overview

  /** The "Completed" card: no course counts exactly when none is at 100%,
      and every course exactly when all are. */
  function CompletedCount(cs: seq<Course>): (n: nat)
    ensures n <= |cs|
    ensures n == 0 <==> forall c :: c in cs ==> c.progress != 100
    ensures n == |cs| <==> forall c :: c in cs ==> c.progress == 100
  {
    CountExtremes(cs, (c: Course) => c.progress == 100);
    Count(cs, (c: Course) => c.progress == 100)
  }

  /** The "In Progress" card: it counts the courses strictly between 0% and
      100%, so it is zero exactly when every course is unstarted or finished
      (or out of range). */
  function InProgressCount(cs: seq<Course>): (n: nat)
    ensures n <= |cs|
    ensures n == 0 <==> forall c :: c in cs ==> c.progress <= 0 || c.progress >= 100
    ensures n == |cs| <==> forall c :: c in cs ==> 0 < c.progress < 100
  {
    CountExtremes(cs, (c: Course) => 0 < c.progress < 100);
    Count(cs, (c: Course) => 0 < c.progress < 100)
  }

  /** No course is both completed and in progress. */
  lemma OverviewCountsDisjoint(cs: seq<Course>)
    ensures CompletedCount(cs) + InProgressCount(cs) <= |cs|
  {
    if cs != [] {
      OverviewCountsDisjoint(cs[1..]);
      assert cs == [cs[0]] + cs[1..];
      CountAppend([cs[0]], cs[1..], (c: Course) => c.progress == 100);
      CountAppend([cs[0]], cs[1..], (c: Course) => 0 < c.progress < 100);
    }
  }

  /** The white space `parseInt` skips: `r` is `s` without its leading run of
      white space. */
  function TrimStart(s: string): (r: string)
    ensures r == [] || !IsSpace(r[0])
    ensures |r| <= |s| && r == s[|s| - |r|..]
    ensures forall i :: 0 <= i < |s| - |r| ==> IsSpace(s[i])
  {
    if s != [] && IsSpace(s[0]) then TrimStart(s[1..]) else s
  }

  /** The longest run of digits at the start of `s`. */
  function LeadingDigits(s: string): (r: string)
    ensures AllDigits(r) && |r| <= |s| && r == s[..|r|]
  {
    if s != [] && IsDigit(s[0]) then [s[0]] + LeadingDigits(s[1..]) else ""
  }

  /** `parseInt(s)`: optional leading blanks and sign, then the longest digit
      run; no digits is NaN (None). A string opening with a digit is a number,
      a blank one is not, and only a '-' after the blanks makes it negative. */
  function ParseInt(s: string): (r: Option<int>)
    ensures s != [] && IsDigit(s[0]) ==> r.Some?
    ensures (forall i :: 0 <= i < |s| ==> IsSpace(s[i])) ==> r.None?
    ensures r.Some? && r.value < 0 ==> TrimStart(s) != [] && TrimStart(s)[0] == '-'
  {
    var t := TrimStart(s);
    var negative := t != [] && t[0] == '-';
    var body := if t != [] && (t[0] == '-' || t[0] == '+') then t[1..] else t;
    var digits := LeadingDigits(body);
    var value: int := DigitsValue(digits);
    if digits == "" then None else Some(if negative then -value else value)
  }

  lemma {:induction false} LeadingDigitsOfRun(digits: string, rest: string)
    requires AllDigits(digits)
    requires rest == [] || !IsDigit(rest[0])
    ensures LeadingDigits(digits + rest) == digits
  {
    if digits != [] {
      assert (digits + rest)[1..] == digits[1..] + rest;
      LeadingDigitsOfRun(digits[1..], rest);
    } else {
      assert digits + rest == rest;
    }
  }

  /** `parseInt` reads back the minutes of an "N min" estimate. */
  lemma ParseMinutes(n: nat)
    ensures ParseInt(NatToString(n) + " min") == Some(n)
  {
    var s := NatToString(n) + " min";
    assert !IsSpace(s[0]) && s[0] != '-' && s[0] != '+';
    LeadingDigitsOfRun(NatToString(n), " min");
    NatToStringRoundTrip(n);
  }

  /** `courses.reduce((acc, c) => acc + parseInt(c.estimatedTime), 0)`: NaN
      (None) as soon as one estimate has no leading number. */
  function TotalMinutes(cs: seq<Course>): Option<int>
  {
    if cs == [] then Some(0)
    else
      var head := ParseInt(cs[0].estimatedTime);
      var rest := TotalMinutes(cs[1..]);
      if head.Some? && rest.Some? then Some(head.value + rest.value) else None
  }

  /** The total is a number exactly when every estimate parses: one NaN
      makes the whole sum NaN. */
  lemma {:induction false} TotalIsNumberIff(cs: seq<Course>)
    ensures TotalMinutes(cs).Some? <==> forall k :: 0 <= k < |cs| ==> ParseInt(cs[k].estimatedTime).Some?
  {
    if TotalMinutes(cs).Some? {
      NumberTotalParsesAll(cs);
    } else {
      NaNTotalHasNaN(cs);
    }
  }

  lemma {:induction false} NumberTotalParsesAll(cs: seq<Course>)
    requires TotalMinutes(cs).Some?
    ensures forall k :: 0 <= k < |cs| ==> ParseInt(cs[k].estimatedTime).Some?
  {
    if cs != [] {
      var tail := cs[1..];
      assert ParseInt(cs[0].estimatedTime).Some? && TotalMinutes(tail).Some?;
      NumberTotalParsesAll(tail);
      forall k | 1 <= k < |cs| ensures ParseInt(cs[k].estimatedTime).Some? {
        assert cs[k] == tail[k - 1];
      }
    }
  }

  lemma {:induction false} NaNTotalHasNaN(cs: seq<Course>)
    requires TotalMinutes(cs).None?
    ensures exists k :: 0 <= k < |cs| && ParseInt(cs[k].estimatedTime).None?
  {
    var tail := cs[1..];
    if ParseInt(cs[0].estimatedTime).Some? {
      NaNTotalHasNaN(tail);
      var j :| 0 <= j < |tail| && ParseInt(tail[j].estimatedTime).None?;
      assert cs[j + 1] == tail[j];
    }
  }

  /** The bundled overview counts 4 courses, 1 completed and 3 in progress. */
  lemma BundledCounts()
    ensures |Courses| == 4 && CompletedCount(Courses) == 1 && InProgressCount(Courses) == 3
  {
    BundledCompleted();
    BundledInProgress();
  }

  lemma BundledCompleted()
    ensures CompletedCount(Courses) == 1
  {
    var c0, c1, c2, c3 := Courses[0], Courses[1], Courses[2], Courses[3];
    assert Courses == [c0, c1, c2, c3];
    var done := (c: Course) => c.progress == 100;
    assert Filter([c3], done) == [c3];
    assert Filter([c2, c3], done) == [c3];
    assert Filter([c1, c2, c3], done) == [c3];
    assert Filter([c0, c1, c2, c3], done) == [c3];
  }

  lemma BundledInProgress()
    ensures InProgressCount(Courses) == 3
  {
    var c0, c1, c2, c3 := Courses[0], Courses[1], Courses[2], Courses[3];
    assert Courses == [c0, c1, c2, c3];
    var going := (c: Course) => 0 < c.progress < 100;
    assert Filter([c3], going) == [];
    assert Filter([c2, c3], going) == [c2];
    assert Filter([c1, c2, c3], going) == [c1, c2];
    assert Filter([c0, c1, c2, c3], going) == [c0, c1, c2];
  }

  lemma {:induction false} ParseEstimate(n: nat, estimate: string)
    requires estimate == NatToString(n) + " min"
    ensures ParseInt(estimate) == Some(n)
  {
    ParseMinutes(n);
  }

  function Sum(ns: seq<int>): int
  {
    if ns == [] then 0 else ns[0] + Sum(ns[1..])
  }

  /** When every estimate parses, the total is the sum of the parsed minutes. */
  lemma {:induction false} TotalOfParsed(cs: seq<Course>, ns: seq<int>)
    requires |cs| == |ns|
    requires forall k :: 0 <= k < |cs| ==> ParseInt(cs[k].estimatedTime) == Some(ns[k])
    ensures TotalMinutes(cs) == Some(Sum(ns))
  {
    if cs != [] {
      TotalOfParsed(cs[1..], ns[1..]);
    }
  }

  /** The bundled estimates add up to 225 minutes. */
  lemma BundledMinutes()
    ensures TotalMinutes(Courses) == Some(225)
  {
    var ns := [45, 30, 60, 90];
    BundledEstimates(ns);
    forall k | 0 <= k < |Courses| ensures ParseInt(Courses[k].estimatedTime) == Some(ns[k]) {
      ParseMinutes(ns[k]);
    }
    TotalOfParsed(Courses, ns);
    BundledSum(ns);
  }

  /** Every bundled estimate is a rendered number of minutes. */
  lemma BundledEstimates(ns: seq<nat>)
    requires ns == [45, 30, 60, 90]
    ensures |Courses| == |ns|
    ensures forall k :: 0 <= k < |Courses| ==> Courses[k].estimatedTime == NatToString(ns[k]) + " min"
  {
    var cs := Courses;
    assert cs[0].estimatedTime == "45 min" && cs[1].estimatedTime == "30 min";
    assert cs[2].estimatedTime == "60 min" && cs[3].estimatedTime == "90 min";
    BundledRenderings();
  }

  lemma BundledSum(ns: seq<int>)
    requires ns == [45, 30, 60, 90]
    ensures Sum(ns) == 225
  {
    assert Sum(ns[3..]) == 90;
    assert Sum(ns[2..]) == 150;
    assert Sum(ns[1..]) == 180;
  }

  lemma BundledRenderings()
    ensures NatToString(45) == "45" && NatToString(30) == "30"
    ensures NatToString(60) == "60" && NatToString(90) == "90"
  {
    assert NatToString(45) == NatToString(4) + [DigitChar(5)];
    assert NatToString(30) == NatToString(3) + [DigitChar(0)];
    assert NatToString(60) == NatToString(6) + [DigitChar(0)];
    assert NatToString(90) == NatToString(9) + [DigitChar(0)];
  }

  /** A course card's button. A card offering "Start" is counted neither as
      completed nor as in progress, while a finished course still offers
      "Continue". */
  function ActionLabel(c: Course): (r: string)
    ensures r == "Start" <==> c.progress == 0
    ensures r == "Continue" <==> c.progress != 0
    ensures r == "Start" ==> CompletedCount([c]) == 0 && InProgressCount([c]) == 0
    ensures InProgressCount([c]) == 1 || CompletedCount([c]) == 1 ==> r == "Continue"
  {
    if c.progress == 0 then "Start" else "Continue"
  }

  /** The "No courses found" view. */
  predicate EmptyViewShown(cs: seq<Course>, query: string)
  {
    |FilterCourses(cs, query)| == 0
  }

  /** The empty view cannot show with an empty query unless there are no courses. */
  lemma EmptyViewNeedsQuery(cs: seq<Course>)
    requires |cs| > 0
    ensures !EmptyViewShown(cs, "")
  {
    EmptyQueryShowsAll(cs);
  }
}
