// src/pages/LessonViewer.tsx: one lesson of a course from the course catalogue
// (src/data/coursesData.ts, a fixture that is not part of this model, so the
// catalogue is a parameter). The lesson is found by numeric id; the page shows
// its position, a Previous button when a lesson precedes it and Next or "Back
// to Course" after it, and every one of these buttons calls `onBack`.

module LessonViewer {

  import opened Common
  import opened Text

  datatype LessonKind = Video | Notes

  datatype CourseLesson = CourseLesson(id: nat, title: string, duration: string, kind: LessonKind, completed: bool)

  datatype CatalogCourse = CatalogCourse(id: string, title: string, curriculum: seq<CourseLesson>)

  /** `findIndex(l => l.id === id)`: the first position holding that id. */
  function FindIndex(curriculum: seq<CourseLesson>, id: nat): (r: Option<nat>)
    ensures r.Some? ==> r.value < |curriculum| && curriculum[r.value].id == id &&
                        forall j :: 0 <= j < r.value ==> curriculum[j].id != id
    ensures r.None? ==> forall j :: 0 <= j < |curriculum| ==> curriculum[j].id != id
  {
    if curriculum == [] then None
    else if curriculum[0].id == id then Some(0)
    else
      match FindIndex(curriculum[1..], id)
      case None => None
      case Some(i) => Some(i + 1)
  }

  datatype Page = NotFound | Showing(course: CatalogCourse, index: nat)

  /** The course by key, then the first lesson whose id is `Number(lessonId)`;
      `findIndex` on that lesson's id lands on the same position. */
  function Open(catalog: map<string, CatalogCourse>, courseId: string, lessonId: string): (p: Page)
    ensures p.NotFound? <==>
      courseId !in catalog || Number(lessonId).None? ||
      forall j :: 0 <= j < |catalog[courseId].curriculum| ==> catalog[courseId].curriculum[j].id != Number(lessonId).value
    ensures p.Showing? ==>
      p.course == catalog[courseId] && p.index < |p.course.curriculum| &&
      p.course.curriculum[p.index].id == Number(lessonId).value
    ensures p.Showing? ==>
      forall j :: 0 <= j < p.index ==> p.course.curriculum[j].id != Number(lessonId).value
  {
    if courseId !in catalog then NotFound
    else
      match Number(lessonId)
      case None => NotFound
      case Some(n) =>
        match FindIndex(catalog[courseId].curriculum, n)
        case None => NotFound
        case Some(i) => Showing(catalog[courseId], i)
  }

  /** The decimal rendering of a lesson's id opens that lesson, or an earlier
      one carrying the same id. */
  lemma OpenByRenderedId(catalog: map<string, CatalogCourse>, courseId: string, k: nat)
    requires courseId in catalog && k < |catalog[courseId].curriculum|
    ensures Open(catalog, courseId, NatToString(catalog[courseId].curriculum[k].id)).Showing?
    ensures Open(catalog, courseId, NatToString(catalog[courseId].curriculum[k].id)).index <= k
  {
    var cur := catalog[courseId].curriculum;
    NumberOfRendering(cur[k].id);
  }

  /** `prevLesson`. */
  function Previous(curriculum: seq<CourseLesson>, index: nat): (r: Option<CourseLesson>)
    requires index < |curriculum|
    ensures r.Some? <==> index > 0
    ensures r.Some? ==> r.value == curriculum[index - 1]
  {
    if index > 0 then Some(curriculum[index - 1]) else None
  }

  /** `nextLesson`: on the next lesson's page, this one is the previous. */
  function Next(curriculum: seq<CourseLesson>, index: nat): (r: Option<CourseLesson>)
    requires index < |curriculum|
    ensures r.Some? <==> index < |curriculum| - 1
    ensures r.Some? ==> r.value == curriculum[index + 1]
    ensures r.Some? ==> Previous(curriculum, index + 1) == Some(curriculum[index])
  {
    if index < |curriculum| - 1 then Some(curriculum[index + 1]) else None
  }

  /** The neighbours are inverse: the page before has this lesson as its
      next, the page after has it as its previous, and with two or more
      lessons every page has at least one neighbour. */
  lemma NeighboursInverse(curriculum: seq<CourseLesson>, index: nat)
    requires index < |curriculum|
    ensures Previous(curriculum, index).Some? ==> Next(curriculum, index - 1) == Some(curriculum[index])
    ensures Next(curriculum, index).Some? ==> Previous(curriculum, index + 1) == Some(curriculum[index])
    ensures |curriculum| >= 2 ==> Previous(curriculum, index).Some? || Next(curriculum, index).Some?
  {
  }

  /** The first lesson has no predecessor, the last no successor, and a
      one-lesson course has neither. */
  lemma Ends(curriculum: seq<CourseLesson>)
    requires |curriculum| > 0
    ensures Previous(curriculum, 0).None?
    ensures Next(curriculum, |curriculum| - 1).None?
    ensures |curriculum| == 1 ==> Previous(curriculum, 0).None? && Next(curriculum, 0).None?
  {
  }

  /** The header "Lesson k of n". */
  function Header(curriculum: seq<CourseLesson>, index: nat): string
    requires index < |curriculum|
  {
    "Lesson " + NatToString(index + 1) + " of " + NatToString(|curriculum|)
  }

  /** Read back word by word, the header names a position from 1 to the
      number of lessons. */
  lemma HeaderReadsBack(curriculum: seq<CourseLesson>, index: nat)
    requires index < |curriculum|
    ensures |Split(Header(curriculum, index), ' ')| == 4
    ensures Number(Split(Header(curriculum, index), ' ')[1]) == Some(index + 1)
    ensures Number(Split(Header(curriculum, index), ' ')[3]) == Some(|curriculum|)
    ensures 1 <= index + 1 <= |curriculum|
  {
    var a, b := NatToString(index + 1), NatToString(|curriculum|);
    var words := ["Lesson", a, "of", b];
    assert ' ' !in a && ' ' !in b;
    assert words[1..] == [a, "of", b] && words[1..][1..] == ["of", b] && words[1..][1..][1..] == [b];
    assert Join(["of", b], " ") == "of" + " " + b;
    assert Join([a, "of", b], " ") == a + " " + ("of" + " " + b);
    assert Join(words, " ") == Header(curriculum, index);
    SplitJoinRoundTrip(words, ' ');
    NumberOfRendering(index + 1);
    NumberOfRendering(|curriculum|);
  }

  datatype Button = BackArrow | PlayPause | PreviousButton | NextButton | BackToCourse | GoBack

  datatype Event = CallOnBack | TogglePlaying

  /** The buttons on the page. */
  function Buttons(p: Page): (r: seq<Button>)
    requires p.Showing? ==> p.index < |p.course.curriculum|
    ensures p.NotFound? ==> r == [GoBack]
    ensures p.Showing? ==> BackArrow in r
    ensures p.Showing? ==> (PreviousButton in r <==> Previous(p.course.curriculum, p.index).Some?)
    ensures p.Showing? ==> (NextButton in r <==> Next(p.course.curriculum, p.index).Some?)
    ensures p.Showing? ==> (BackToCourse in r <==> Next(p.course.curriculum, p.index).None?)
    ensures p.Showing? ==> (PlayPause in r <==> p.course.curriculum[p.index].kind == Video)
  {
    match p
    case NotFound => [GoBack]
    case Showing(c, i) =>
      var lesson := c.curriculum[i];
      [BackArrow]
      + (if lesson.kind == Video then [PlayPause] else [])
      + (if i > 0 then [PreviousButton] else [])
      + (if i < |c.curriculum| - 1 then [NextButton] else [BackToCourse])
  }

  /** What a button does: only the play button stays on the page; Previous
      and Next do not move to the neighbouring lesson but call `onBack`. */
  function Press(b: Button): (e: Event)
    ensures e == TogglePlaying <==> b == PlayPause
  {
    if b == PlayPause then TogglePlaying else CallOnBack
  }
}
