// src/pages/CourseDetail.tsx: the detail page of a course from My Courses.
// An unknown id shows "Course not found"; otherwise the page shows the
// collapsible description, the progress block when something is completed,
// the start button's label, the curriculum badges and the instructor's initials.

module CourseDetail {

  import opened Common
  import opened Text
  import opened CourseInfo

  datatype Course = Course(
    title: string,
    description: string,
    instructor: string,
    instructorBio: string,
    level: string,
    estimatedTime: string,
    lessons: nat,
    students: nat,
    rating: real,
    thumbnail: string,
    skills: seq<string>,
    curriculum: seq<Entry>)

  const Course1 := Course(
    "Python Fundamentals",
    "Master the basics of Python programming with hands-on exercises and real-world projects. This comprehensive course covers variables, data types, control structures, functions, and object-oriented programming concepts.",
    "Dr. Sarah Chen",
    "Senior Software Engineer at Google with 8+ years in Python development",
    "Beginner",
    "45 min",
    12,
    15420,
    4.8, "\U{1F40D}",
    ["Variables & Data Types", "Control Flow", "Functions", "OOP Basics", "File Handling"],
    [
      Entry(1, "Introduction to Python", "3 min", true),
      Entry(2, "Variables and Data Types", "4 min", true),
      Entry(3, "Working with Strings", "3 min", false),
      Entry(4, "Lists and Dictionaries", "5 min", false),
      Entry(5, "Control Flow - If Statements", "4 min", false),
      Entry(6, "Loops in Python", "5 min", false),
      Entry(7, "Functions Basics", "4 min", false),
      Entry(8, "Advanced Functions", "3 min", false),
      Entry(9, "Classes and Objects", "6 min", false),
      Entry(10, "File Operations", "4 min", false),
      Entry(11, "Error Handling", "3 min", false),
      Entry(12, "Final Project", "6 min", false)
    ])

  const Course2 := Course(
    "JavaScript ES6+",
    "Dive deep into modern JavaScript features and best practices. Learn ES6+ syntax, async programming, and advanced concepts that every JavaScript developer should know.",
    "Alex Rodriguez",
    "Full-stack developer and JavaScript evangelist with 6+ years experience",
    "Intermediate",
    "30 min",
    8,
    12890,
    4.7, "\U{26A1}",
    ["ES6 Syntax", "Arrow Functions", "Destructuring", "Async/Await", "Modules"],
    [
      Entry(1, "ES6 Overview", "3 min", false),
      Entry(2, "Arrow Functions", "4 min", false),
      Entry(3, "Destructuring", "4 min", false),
      Entry(4, "Template Literals", "3 min", false),
      Entry(5, "Promises and Async/Await", "6 min", false),
      Entry(6, "Modules", "4 min", false),
      Entry(7, "Classes", "3 min", false),
      Entry(8, "Advanced Patterns", "3 min", false)
    ])

  const Course3 := Course(
    "React Hooks Deep Dive",
    "Master all React hooks with practical examples and advanced patterns. From useState to custom hooks, become a React hooks expert.",
    "Emma Thompson",
    "React core team contributor and frontend architect",
    "Advanced",
    "60 min",
    15,
    8750,
    4.9, "\U{269B}\U{FE0F}",
    ["useState", "useEffect", "useContext", "Custom Hooks", "Performance Optimization"],
    [
      Entry(1, "Introduction to Hooks", "4 min", false),
      Entry(2, "useState Deep Dive", "5 min", false),
      Entry(3, "useEffect Mastery", "6 min", false),
      Entry(4, "useContext", "4 min", false),
      Entry(5, "useReducer", "5 min", false),
      Entry(6, "useMemo", "3 min", false),
      Entry(7, "useCallback", "3 min", false),
      Entry(8, "useRef", "3 min", false),
      Entry(9, "Custom Hooks Basics", "4 min", false),
      Entry(10, "Advanced Custom Hooks", "5 min", false),
      Entry(11, "Hook Patterns", "4 min", false),
      Entry(12, "Performance Optimization", "5 min", false),
      Entry(13, "Testing Hooks", "4 min", false),
      Entry(14, "Hooks Best Practices", "3 min", false),
      Entry(15, "Final Project", "7 min", false)
    ])

  const Course4 := Course(
    "Data Structures & Algorithms",
    "Essential DSA concepts for technical interviews and competitive programming. Master arrays, linked lists, trees, graphs, and dynamic programming.",
    "Prof. David Kim",
    "Computer Science professor and competitive programming coach",
    "Intermediate",
    "90 min",
    20,
    22100,
    4.6, "\U{1F517}",
    ["Arrays", "Linked Lists", "Trees", "Graphs", "Dynamic Programming"],
    [
      Entry(1, "Big O Notation", "5 min", false),
      Entry(2, "Arrays and Strings", "4 min", false),
      Entry(3, "Two Pointers Technique", "4 min", false),
      Entry(4, "Sliding Window", "5 min", false),
      Entry(5, "Linked Lists", "5 min", false),
      Entry(6, "Stacks and Queues", "4 min", false),
      Entry(7, "Binary Trees", "5 min", false),
      Entry(8, "Binary Search Trees", "4 min", false),
      Entry(9, "Tree Traversals", "4 min", false),
      Entry(10, "Heaps", "4 min", false),
      Entry(11, "Graphs Introduction", "5 min", false),
      Entry(12, "BFS and DFS", "5 min", false),
      Entry(13, "Dynamic Programming Basics", "6 min", false),
      Entry(14, "DP Patterns", "5 min", false),
      Entry(15, "Recursion and Backtracking", "5 min", false),
      Entry(16, "Sorting Algorithms", "4 min", false),
      Entry(17, "Binary Search", "4 min", false),
      Entry(18, "Hash Tables", "4 min", false),
      Entry(19, "Interview Strategies", "4 min", false),
      Entry(20, "Practice Problems", "8 min", false)
    ])

  /** `courseData`. */
  const CourseData: map<string, Course> := map["1" := Course1, "2" := Course2, "3" := Course3, "4" := Course4]

  /** `courseData[courseId]`: None renders "Course not found". Only the ids
      "1" to "4" have a detail page, each with a curriculum that numbers as
      many lessons as its `lessons` field. */
  function Lookup(courseId: string): (r: Option<Course>)
    ensures r.Some? <==> courseId in CourseData
    ensures r.Some? <==> courseId == "1" || courseId == "2" || courseId == "3" || courseId == "4"
    ensures r.Some? ==> r.value == CourseData[courseId] && r.value.lessons == |r.value.curriculum|
  {
    if courseId in CourseData then Some(CourseData[courseId]) else None
  }

  /** The progress block: shown when the completed lessons give a positive
      percentage of the `lessons` field. */
  function ProgressBlockShown(c: Course): (r: bool)
    ensures r <==> CompletedCount(c.curriculum) > 0
    ensures c.lessons > 0 ==> (r <==> Percentage(CompletedCount(c.curriculum), c.lessons) > 0.0)
  {
    ProgressShown(CompletedCount(c.curriculum), c.lessons)
  }

  /** The start button's label follows the progress block. */
  function StartLabel(c: Course): (r: string)
    ensures r == "Continue Learning" <==> ProgressBlockShown(c)
    ensures r == "Start Course" <==> !ProgressBlockShown(c)
  {
    if ProgressShown(CompletedCount(c.curriculum), c.lessons) then "Continue Learning" else "Start Course"
  }

  /** The circle of a curriculum row. */
  datatype RowBadge = Check | Position(n: nat)

  /** A completed lesson shows a check, any other its 1-based position. */
  function RowBadgeAt(curriculum: seq<Entry>, index: nat): (r: RowBadge)
    requires index < |curriculum|
    ensures r == Check <==> curriculum[index].completed
    ensures r.Position? ==> r.n == index + 1 && r.n <= |curriculum|
  {
    if curriculum[index].completed then Check else Position(index + 1)
  }

  /** No two unfinished rows show the same number. */
  lemma RowPositionsDistinct(curriculum: seq<Entry>, i: nat, j: nat)
    requires i < j < |curriculum| && !curriculum[i].completed && !curriculum[j].completed
    ensures RowBadgeAt(curriculum, i) != RowBadgeAt(curriculum, j)
  {
  }

  /** In the bundled data every course counts as many lessons as its
      curriculum lists, so no progress exceeds 100. */
  lemma BundledLessonCounts(courseId: string)
    requires courseId in CourseData
    ensures CourseData[courseId].lessons == |CourseData[courseId].curriculum|
    ensures 0.0 <= Percentage(CompletedCount(CourseData[courseId].curriculum), CourseData[courseId].lessons) <= 100.0
  {
    var c := CourseData[courseId];
    PercentageAtMostHundred(CompletedCount(c.curriculum), c.lessons);
  }

  /** Two of the Python course's twelve lessons are done, so it shows progress. */
  lemma BundledPythonProgress()
    ensures CompletedCount(Course1.curriculum) == 2
    ensures StartLabel(Course1) == "Continue Learning"
  {
    var cur := Course1.curriculum;
    assert cur[0].completed && cur[1].completed;
    assert forall k :: 2 <= k < |cur| ==> !cur[k].completed;
    CompletedPrefixCount(cur, 2);
  }

  /** The other three courses have nothing completed and offer "Start Course". */
  lemma BundledUnstarted(c: Course)
    requires c == Course2 || c == Course3 || c == Course4
    ensures CompletedCount(c.curriculum) == 0
    ensures StartLabel(c) == "Start Course"
  {
    if c == Course2 {
      NothingCompleted(Course2.curriculum);
    } else if c == Course3 {
      NothingCompleted(Course3.curriculum);
    } else {
      NothingCompleted(Course4.curriculum);
    }
  }

  /** One of the bundled curricula that has no lesson completed. */
  lemma NothingCompleted(cur: seq<Entry>)
    requires cur == Course2.curriculum || cur == Course3.curriculum || cur == Course4.curriculum
    ensures CompletedCount(cur) == 0
  {
    assert forall k :: 0 <= k < |cur| ==> !cur[k].completed;
    CompletedPrefixCount(cur, 0);
  }

  /** Initials of the Python course's instructor. */
  lemma BundledInitials()
    ensures Initials(Course1.instructor) == "DSC"
  {
    var words := ["Dr.", "Sarah", "Chen"];
    assert Join(words, " ") == Course1.instructor;
    InitialsOfWords(words);
  }

  /** The Python course's description is cut to 120 characters before "...". */
  lemma BundledCollapsed()
    ensures |Course1.description| > 120
    ensures Collapsed(Course1.description) == Course1.description[..120] + "..."
  {
  }

  /** "See more" / "Show less" flips `showFullDescription`: two clicks
      restore the shown text, and one click from the collapsed text shows the
      whole description. */
  lemma ToggleDescriptionTwice(c: Course, showFull: bool)
    ensures DescriptionText(c.description, Flip(Flip(showFull))) == DescriptionText(c.description, showFull)
    ensures DescriptionText(c.description, Flip(false)) == c.description
  {
  }
}
