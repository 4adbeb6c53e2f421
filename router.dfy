// src/App.tsx: the application shell. Three state fields decide what is on
// screen: `currentView` (a page name with optional data), `activeTab` and
// `hasCompletedOnboarding`. Five pages render before the onboarding gate;
// every other page shows the onboarding flow until it completes, and then the
// page named by `currentView`, with Home for any unknown name.

module Router {

  import opened Common

  /** `currentView.data`: absent, or the lesson or course a page was opened for. */
  datatype ViewData = NoData | LessonRef(lessonId: string) | CourseRef(courseId: string)

  datatype View = View(page: string, data: ViewData)

  datatype Screen =
    | LandingScreen | WorkshopsScreen | WorkshopRegisterScreen | WorkshopScheduleScreen | PolicyScreen
    | OnboardingScreen
    | HomeScreen | ExploreScreen | PracticeScreen | ProfileScreen
    | NotesScreen(lessonId: Option<string>)
    | SettingsScreen | MyCoursesScreen
    | CourseDetailScreen(courseId: Option<string>)
    | VideoCourseScreen(courseId: Option<string>)

  /** The callbacks the pages are given. */
  datatype Action =
    | GetStarted | OpenWorkshops | GoBack | Register | Schedule
    | OpenNotes(lessonId: string) | OpenMyCourses | OpenCourse(courseId: string)
    | OpenSettings | OpenPolicy | StartCourse | StartVideo

  /** The pages rendered before the onboarding gate. */
  predicate Ungated(page: string)
  {
    page == "landing" || page == "workshops" || page == "workshop-register" ||
    page == "workshop-schedule" || page == "policy"
  }

  function LessonIdOf(d: ViewData): Option<string>
  {
    if d.LessonRef? then Some(d.lessonId) else None
  }

  function CourseIdOf(d: ViewData): Option<string>
  {
    if d.CourseRef? then Some(d.courseId) else None
  }

  /** `renderContent`: the page behind the onboarding gate. */
  function Content(v: View): (s: Screen)
    ensures s != OnboardingScreen
  {
    match v.page
    case "home" => HomeScreen
    case "explore" => ExploreScreen
    case "practice" => PracticeScreen
    case "profile" => ProfileScreen
    case "notes" => NotesScreen(LessonIdOf(v.data))
    case "settings" => SettingsScreen
    case "my-courses" => MyCoursesScreen
    case "course-detail" => CourseDetailScreen(CourseIdOf(v.data))
    case "video-course" => VideoCourseScreen(CourseIdOf(v.data))
    case _ => HomeScreen
  }

  /** What the shell shows for a view. */
  function Render(v: View, onboarded: bool): (s: Screen)
    ensures !Ungated(v.page) ==> (s == OnboardingScreen <==> !onboarded)
    ensures Ungated(v.page) ==> s != OnboardingScreen
  {
    match v.page
    case "landing" => LandingScreen
    case "workshops" => WorkshopsScreen
    case "workshop-register" => WorkshopRegisterScreen
    case "workshop-schedule" => WorkshopScheduleScreen
    case "policy" => PolicyScreen
    case _ => if !onboarded then OnboardingScreen else Content(v)
  }

  function Go(page: string): View
  {
    View(page, NoData)
  }

  /** The view a screen's callback sets; None when that screen offers no such callback. */
  function Navigate(s: Screen, a: Action): Option<View>
  {
    match s
    case LandingScreen =>
      if a == GetStarted then Some(Go("app"))
      else if a == OpenWorkshops then Some(Go("workshops"))
      else None
    case WorkshopsScreen =>
      if a == GoBack then Some(Go("landing"))
      else if a == Register then Some(Go("workshop-register"))
      else if a == Schedule then Some(Go("workshop-schedule"))
      else None
    case WorkshopRegisterScreen =>
      if a == GoBack then Some(Go("workshops")) else None
    case WorkshopScheduleScreen =>
      if a == GoBack then Some(Go("workshops"))
      else if a == Register then Some(Go("workshop-register"))
      else None
    case PolicyScreen =>
      if a == GoBack then Some(Go("profile")) else None
    case HomeScreen =>
      if a.OpenNotes? then Some(View("notes", LessonRef(a.lessonId))) else None
    case ExploreScreen =>
      if a == OpenMyCourses then Some(Go("my-courses"))
      else if a.OpenCourse? then Some(View("video-course", CourseRef(a.courseId)))
      else None
    case ProfileScreen =>
      if a == OpenSettings then Some(Go("settings"))
      else if a == OpenPolicy then Some(Go("policy"))
      else None
    case NotesScreen(_) =>
      if a == GoBack then Some(Go("home")) else None
    case SettingsScreen =>
      if a == GoBack then Some(Go("profile")) else None
    case MyCoursesScreen =>
      if a.OpenCourse? then Some(View("course-detail", CourseRef(a.courseId))) else None
    case CourseDetailScreen(_) =>
      if a == GoBack then Some(Go("my-courses"))
      else if a == StartCourse then Some(Go("home"))
      else None
    case VideoCourseScreen(_) =>
      if a == GoBack then Some(Go("explore"))
      else if a == StartVideo then Some(Go("home"))
      else None
    case PracticeScreen => None
    case OnboardingScreen => None
  }

  /** The onboarding flow offers no navigation callback, and only the two
      "open" callbacks carry an id, the one they were given. */
  lemma CallbackData(s: Screen, a: Action)
    ensures s == OnboardingScreen ==> Navigate(s, a).None?
    ensures Navigate(s, a).Some? && a.OpenNotes? ==> Navigate(s, a).value.data == LessonRef(a.lessonId)
    ensures Navigate(s, a).Some? && a.OpenCourse? ==> Navigate(s, a).value.data == CourseRef(a.courseId)
    ensures Navigate(s, a).Some? && !a.OpenNotes? && !a.OpenCourse? ==> Navigate(s, a).value.data == NoData
  {
  }

  /** Each page's back button returns to its fixed parent page. */
  lemma BackTargets(lesson: Option<string>, course: Option<string>)
    ensures Navigate(WorkshopsScreen, GoBack) == Some(Go("landing"))
    ensures Navigate(WorkshopRegisterScreen, GoBack) == Some(Go("workshops"))
    ensures Navigate(WorkshopScheduleScreen, GoBack) == Some(Go("workshops"))
    ensures Navigate(PolicyScreen, GoBack) == Some(Go("profile"))
    ensures Navigate(NotesScreen(lesson), GoBack) == Some(Go("home"))
    ensures Navigate(SettingsScreen, GoBack) == Some(Go("profile"))
    ensures Navigate(CourseDetailScreen(course), GoBack) == Some(Go("my-courses"))
    ensures Navigate(VideoCourseScreen(course), GoBack) == Some(Go("explore"))
  {
  }

  /** Following callback `a` on screen `s` sets a view that renders as `target`. */
  predicate LeadsTo(s: Screen, a: Action, onboarded: bool, target: Screen)
  {
    Navigate(s, a).Some? && Render(Navigate(s, a).value, onboarded) == target
  }

  /** Once onboarded, following a back button shows the parent screen. */
  lemma BackShowsParent(lesson: Option<string>, course: Option<string>)
    ensures LeadsTo(NotesScreen(lesson), GoBack, true, HomeScreen)
    ensures LeadsTo(SettingsScreen, GoBack, true, ProfileScreen)
    ensures LeadsTo(PolicyScreen, GoBack, true, ProfileScreen)
    ensures LeadsTo(CourseDetailScreen(course), GoBack, true, MyCoursesScreen)
    ensures LeadsTo(VideoCourseScreen(course), GoBack, true, ExploreScreen)
    ensures LeadsTo(WorkshopsScreen, GoBack, true, LandingScreen)
  {
    BackTargets(lesson, course);
    assert Render(Go("home"), true) == HomeScreen;
    assert Render(Go("profile"), true) == ProfileScreen;
    assert Render(Go("my-courses"), true) == MyCoursesScreen;
    assert Render(Go("explore"), true) == ExploreScreen;
    assert Render(Go("landing"), true) == LandingScreen;
  }

  /** Opening notes or a course carries the chosen id to the page that is shown. */
  lemma NavigationCarriesIds(lessonId: string, courseId: string)
    ensures LeadsTo(HomeScreen, OpenNotes(lessonId), true, NotesScreen(Some(lessonId)))
    ensures LeadsTo(ExploreScreen, OpenCourse(courseId), true, VideoCourseScreen(Some(courseId)))
    ensures LeadsTo(MyCoursesScreen, OpenCourse(courseId), true, CourseDetailScreen(Some(courseId)))
  {
  }

  /** A page name with no case of its own, such as "app", renders Home once onboarded. */
  lemma UnknownPageIsHome(page: string, d: ViewData)
    requires !Ungated(page)
    requires page !in {"home", "explore", "practice", "profile", "notes", "settings",
                        "my-courses", "course-detail", "video-course"}
    ensures Render(View(page, d), true) == HomeScreen
  {
  }

  /** Getting started from the landing page leads to onboarding first, then Home. */
  lemma GetStartedFlow()
    ensures LeadsTo(LandingScreen, GetStarted, false, OnboardingScreen)
    ensures LeadsTo(LandingScreen, GetStarted, true, HomeScreen)
  {
  }

  /** The shell's state fields. */
  class App {
    var activeTab: string
    var onboarded: bool
    var currentView: View

    constructor ()
      ensures activeTab == "home" && !onboarded && currentView == Go("landing")
      ensures Screen() == LandingScreen
    {
      activeTab := "home";
      onboarded := false;
      currentView := Go("landing");
    }

    function Screen(): Screen
      reads this
    {
      Render(currentView, onboarded)
    }

    /** `handleOnboardingComplete`, offered only by the onboarding screen. */
    method CompleteOnboarding()
      requires Screen() == OnboardingScreen
      modifies this
      ensures onboarded
      ensures activeTab == old(activeTab) && currentView == old(currentView)
      ensures Screen() == Content(currentView)
    {
      onboarded := true;
    }

    /** A navigation callback of the screen on display. */
    method Dispatch(a: Action) returns (handled: bool)
      modifies this
      ensures handled <==> Navigate(old(Screen()), a).Some?
      ensures currentView == if handled then Navigate(old(Screen()), a).value else old(currentView)
      ensures activeTab == old(activeTab) && onboarded == old(onboarded)
    {
      var target := Navigate(Screen(), a);
      handled := target.Some?;
      if handled {
        currentView := target.value;
      }
    }

    /**
     * `handleTabChange`: the tab and the page become the same id. The nav bars
     * that call it are rendered only behind the onboarding gate, below the
     * pages that return early.
     */
    method TabChange(tab: string)
      requires onboarded && !Ungated(currentView.page)
      modifies this
      ensures activeTab == tab && currentView == Go(tab)
      ensures onboarded == old(onboarded)
      ensures !Ungated(tab) ==> Screen() == Content(Go(tab))
    {
      activeTab := tab;
      currentView := Go(tab);
    }
  }

  /** Onboarding, once completed, stays completed through any navigation. */
  method OnboardingIsPermanent(app: App, a: Action, tab: string)
    requires app.onboarded
    modifies app
    ensures app.onboarded
  {
    var _ := app.Dispatch(a);
    if !Ungated(app.currentView.page) {
      app.TabChange(tab);
    }
  }

  /** A tab change shows that tab's page once onboarded. */
  lemma TabShowsItsPage(tab: string)
    requires tab in {"home", "explore", "practice", "profile"}
    ensures Render(Go(tab), true) ==
      match tab
      case "home" => HomeScreen
      case "explore" => ExploreScreen
      case "practice" => PracticeScreen
      case _ => ProfileScreen
  {
  }
}
