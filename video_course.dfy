// src/pages/VideoCoursePage.tsx: the video series opened from Explore. Only
// two series exist; any other id shows "Video course not found". The page
// derives its progress block, button label, collapsed description and
// initials like the course detail page, and every playlist row starts the video.

module VideoCourse {

  import opened Common
  import opened Text
  import opened CourseInfo
  import Explore
  import Router

  datatype VideoSeries = Course(
    title: string,
    description: string,
    instructor: string,
    level: string,
    estimatedTime: string,
    videos: nat,
    students: nat,
    rating: real,
    thumbnail: string,
    skills: seq<string>,
    videoList: seq<Entry>)

  const Course1 := Course(
    "Python Fundamentals Video Series",
    "Watch comprehensive video tutorials covering Python programming from basics to advanced concepts.",
    "Dr. Sarah Chen",
    "Beginner",
    "2 hours",
    15,
    18500,
    4.9, "\U{1F40D}",
    ["Variables", "Functions", "OOP", "Data Structures", "Error Handling"],
    [
      Entry(1, "Python Installation & Setup", "8 min", true),
      Entry(2, "Variables and Data Types", "12 min", true),
      Entry(3, "Working with Strings", "10 min", false),
      Entry(4, "Lists and Tuples", "15 min", false),
      Entry(5, "Dictionaries and Sets", "12 min", false),
      Entry(6, "Conditional Statements", "10 min", false),
      Entry(7, "Loops and Iteration", "14 min", false),
      Entry(8, "Functions Basics", "16 min", false),
      Entry(9, "Advanced Functions", "12 min", false),
      Entry(10, "Classes and Objects", "18 min", false),
      Entry(11, "Inheritance", "14 min", false),
      Entry(12, "File Handling", "12 min", false),
      Entry(13, "Exception Handling", "10 min", false),
      Entry(14, "Libraries and Modules", "15 min", false),
      Entry(15, "Final Project Walkthrough", "20 min", false)
    ])

  const Course2 := Course(
    "JavaScript ES6+ Video Course",
    "Master modern JavaScript with practical video examples and real-world applications.",
    "Alex Rodriguez",
    "Intermediate",
    "1.5 hours",
    12,
    14200,
    4.8, "\U{26A1}",
    ["ES6 Syntax", "Async Programming", "Modules", "Advanced Patterns"],
    [
      Entry(1, "ES6 Introduction", "6 min", false),
      Entry(2, "Arrow Functions Explained", "8 min", false),
      Entry(3, "Destructuring in Detail", "10 min", false),
      Entry(4, "Template Literals", "7 min", false),
      Entry(5, "Promises Deep Dive", "12 min", false),
      Entry(6, "Async/Await Mastery", "10 min", false),
      Entry(7, "ES6 Modules", "9 min", false),
      Entry(8, "Classes in JavaScript", "11 min", false),
      Entry(9, "Map and Set Objects", "8 min", false),
      Entry(10, "Symbols and Iterators", "9 min", false),
      Entry(11, "Advanced ES6 Patterns", "13 min", false),
      Entry(12, "Building a Modern JS App", "15 min", false)
    ])

  /** `videoCourseData`. */
  const VideoCourseData: map<string, VideoSeries> := map["1" := Course1, "2" := Course2]

  /** `videoCourseData[courseId]`: None renders "Video course not found".
      Only the ids "1" and "2" have a series, each counting as many videos as
      its playlist lists. */
  function Lookup(courseId: string): (r: Option<VideoSeries>)
    ensures r.Some? <==> courseId in VideoCourseData
    ensures r.Some? <==> courseId == "1" || courseId == "2"
    ensures r.Some? ==> r.value == VideoCourseData[courseId] && r.value.videos == |r.value.videoList|
  {
    if courseId in VideoCourseData then Some(VideoCourseData[courseId]) else None
  }

  /** Explore opens this page with a collection's id, but only the first two
      collections have a video series: "3" and "4" reach the not-found view. */
  lemma ExploreCollectionsFound(k: nat)
    requires k < |Explore.Collections|
    ensures Lookup(Explore.Collections[k].id).Some? <==> k < 2
    ensures Router.Render(Router.Navigate(Router.ExploreScreen, Router.OpenCourse(Explore.Collections[k].id)).value, true)
            == Router.VideoCourseScreen(Some(Explore.Collections[k].id))
  {
  }

  function ProgressBlockShown(c: VideoSeries): (r: bool)
    ensures r <==> CompletedCount(c.videoList) > 0
    ensures c.videos > 0 ==> (r <==> Percentage(CompletedCount(c.videoList), c.videos) > 0.0)
  {
    ProgressShown(CompletedCount(c.videoList), c.videos)
  }

  function StartLabel(c: VideoSeries): (r: string)
    ensures r == "Continue Watching" <==> ProgressBlockShown(c)
    ensures r == "Start Videos" <==> !ProgressBlockShown(c)
  {
    if ProgressShown(CompletedCount(c.videoList), c.videos) then "Continue Watching" else "Start Videos"
  }

  /** A click on any playlist row calls `onStartVideo`, which the shell
      answers by going Home. */
  function RowClick(c: VideoSeries, index: nat): (a: Router.Action)
    requires index < |c.videoList|
    ensures Router.Navigate(Router.VideoCourseScreen(None), a) == Some(Router.Go("home"))
  {
    Router.StartVideo
  }

  /** The Python series counts as many videos as its playlist lists and has
      two of them done, so it shows progress. */
  lemma BundledPythonProgress()
    ensures Course1.videos == |Course1.videoList|
    ensures CompletedCount(Course1.videoList) == 2 && StartLabel(Course1) == "Continue Watching"
  {
    var v := Course1.videoList;
    assert v[0].completed && v[1].completed;
    assert forall k :: 2 <= k < |v| ==> !v[k].completed;
    CompletedPrefixCount(v, 2);
  }

  /** The JavaScript series has nothing done and offers "Start Videos". */
  lemma BundledJavaScriptProgress()
    ensures Course2.videos == |Course2.videoList|
    ensures CompletedCount(Course2.videoList) == 0 && StartLabel(Course2) == "Start Videos"
  {
    var v := Course2.videoList;
    assert forall k :: 0 <= k < |v| ==> !v[k].completed;
  }

  /** Both bundled descriptions are shorter than 120 characters, so the
      collapsed text is the whole description followed by "...". */
  lemma BundledCollapsed()
    ensures Collapsed(Course1.description) == Course1.description + "..."
    ensures Collapsed(Course2.description) == Course2.description + "..."
  {
  }
}
