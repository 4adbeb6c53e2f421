# syntax-snap-learn in Dafny

This project models the page logic of syntax-snap-learn, a React learning
app. The app has:

- a scrolling feed of lessons with a quiz after every fifth lesson and an ad
  after every fifteenth;
- a three-step onboarding wizard;
- a shell (`App.tsx`) that routes between pages;
- catalogue, course, video-series and lesson pages;
- study notes with a plain-text export;
- a practice page with a code editor;
- a streak tracker, a profile page, a friends tab, settings;
- the workshop schedule and the workshop registration form.

Each core file is modelled in the form it takes in the source:

- Components whose handlers change state step by step are classes. Their
  fields are the `useState` fields, and each handler is a method with a
  `modifies` clause that states the whole new state. The feed's like, save
  and answer-timer handlers state the corrected behaviour of the findings
  below, and how the code as written differs from it:
  `Feed.FeedView`, `QuizCard.QuizCardState`, `Onboarding.OnboardingFlow`,
  `Router.App`, `Explore.ExplorePage`, `MonacoEditor.Editor`,
  `Practice.PracticePage` and `WorkshopRegister.RegisterForm`.
- The feed builder and the streak calendar are loops in the source, so they
  are methods with loop invariants, proved against recursive specification
  functions.
- Filters, sorts, lookups, labels and string builders are functions. Lemmas
  prove what the pages promise about them:
  - the set of shown items (both directions);
  - round trips, where a rendered number reads back as itself;
  - toggle-twice laws;
  - the bundled data's concrete outcomes.

The shared JavaScript behaviour lives in three modules:

- `Common` (Option, filter, count);
- `Text`: ASCII `toLowerCase`/`toUpperCase`, `includes`, decimal rendering,
  `Number`, `split`/`join`, and the `/\s+/g` replacement;
- `Selection`, the "remove if present, else append" toggle used by three
  pages.

Modelling choices:

- Timers become explicit later steps, for example `FireAnswerTimer` and
  `FireSubmitTimer`.
- `Math.random` draws become parameters.
- Percentages are stated over the reals as ghost functions, and decided in
  the code by integer cross-multiplication.

## Model

| member | source | states |
|---|---|---|
| Feed.PromoAd | src/components/feed/Feed.tsx:37-46 | the ad pushed after lesson i has id "ad-" followed by i in decimal, title "Upgrade to Pro" and CTA "Start Free Trial" |
| Feed.BuildFeed | src/components/feed/Feed.tsx:20-51 | the `forEach` loop pushing into `items` yields exactly the recursive feed specification over all lessons |
| Feed.FeedLength | src/components/feed/Feed.tsx:24-48 | after n lessons the feed has n lessons, min(n/5, #quizzes) quizzes and n/15 ads |
| Feed.FeedPrefix | src/components/feed/Feed.tsx:24-48 | the feed after m lessons is a prefix of the feed after any n ≥ m lessons |
| Feed.SegmentInFeed | src/components/feed/Feed.tsx:24-48 | lesson i, its quiz and its ad sit contiguously at lesson i's position in the finished feed |
| Feed.LastSegmentEndsFeed | src/components/feed/Feed.tsx:24-48 | the position after the last lesson's items is the end of the feed |
| Feed.QuizPlacement | src/components/feed/Feed.tsx:28-33 | the item after lesson i is quiz i/5 exactly when (i+1) % 5 == 0 and that quiz exists |
| Feed.AdPlacement | src/components/feed/Feed.tsx:36-47 | the item after lesson i and its quiz (if any) is ad "ad-i" exactly when (i+1) % 15 == 0 |
| Feed.LessonsOf | src/components/feed/Feed.tsx:24-25 | the lessons of an item list are at most as many as the items |
| Feed.LessonsOfAppend | src/components/feed/Feed.tsx:24-25 | extracting lessons distributes over concatenation |
| Feed.LessonsInOrder | src/components/feed/Feed.tsx:24-25 | the lessons of the built feed are exactly the source lessons, each once, in order |
| Feed.LessonsOfNone | src/components/feed/Feed.tsx:28-47 | quiz and ad items contribute no lessons |
| Feed.BundledFeed | src/components/feed/Feed.tsx:24-47 | 20 lessons and 10 quizzes give 25 items, with quizzes after lessons 4, 9, 14 and 19 and one ad after the quiz following lesson 14 |
| Feed.ToggleLike | src/components/feed/Feed.tsx:56-63 | liking flips isLiked and moves likes by +1 when it becomes liked, -1 otherwise, and changes nothing else |
| Feed.ToggleSave | src/components/feed/Feed.tsx:80-86 | saving flips isSaved and changes nothing else |
| Feed.Like | src/components/feed/Feed.tsx:53-67 | only lesson items with the id are toggled; every other item is untouched and the length is kept |
| Feed.Save | src/components/feed/Feed.tsx:77-90 | only lesson items with the id are toggled; every other item is untouched and the length is kept |
| Feed.LikeTwice | src/components/feed/Feed.tsx:53-67 | liking twice restores every item, flag and count |
| Feed.SaveTwice | src/components/feed/Feed.tsx:77-90 | saving twice restores every item |
| Feed.SaveKeepsLikes | src/components/feed/Feed.tsx:77-90 | saving never changes a like flag, a like count or an item kind |
| Feed.LikeKeepsShape | src/components/feed/Feed.tsx:53-67 | liking keeps the kind of every position |
| Feed.FindLesson | src/components/feed/Feed.tsx:69 | `find` returns the first lesson item with the id, or nothing when there is none |
| Feed.FindAfterLike | src/components/feed/Feed.tsx:53-69 | after a like, `find` returns the toggled version of the lesson it returned before |
| Feed.FindAfterSave | src/components/feed/Feed.tsx:77-92 | after a save, `find` returns the toggled version of the lesson it returned before |
| Feed.LikeToastAsWrittenInverted | src/components/feed/Feed.tsx:69-74 | as written, "Added to your liked lessons!" is shown exactly when the click unliked the lesson |
| Feed.SaveToastAsWrittenInverted | src/components/feed/Feed.tsx:92-97 | as written, "Saved for later!" is shown exactly when the click unsaved the lesson |
| Feed.LikeToastMatchesClick | src/components/feed/Feed.tsx:69-74 | corrected: "Added" is shown exactly when a lesson that was not liked became liked |
| Feed.SaveToastMatchesClick | src/components/feed/Feed.tsx:92-97 | corrected: "Saved" is shown exactly when a lesson that was not saved became saved |
| Feed.Advance | src/components/feed/Feed.tsx:120-125 | the index moves one step only while below length-1, so it stays in 0..max(0, length-1) |
| Feed.StaleAnswerTimerLeavesFeed | src/components/feed/Feed.tsx:113-117 | as written, answering at length-2 and skipping before the timer fires moves the index to length, past the last item |
| Feed.AdvancesStayInRange | src/components/feed/Feed.tsx:113-125 | any number of guarded advances keeps the index in range |
| Feed.FeedUpTo | src/components/feed/Feed.tsx:24-48 | specification of the `forEach` loop: the items after n lessons, each lesson followed by its quiz and ad; `BuildFeed` proves the loop builds it, `FeedLength` and `FeedPrefix` state its shape |
| Feed.LikeToast | src/components/feed/Feed.tsx:69-74 | corrected like toast, read from the list after the toggle; `LikeToastMatchesClick` proves it announces what the click did |
| Feed.SaveToast | src/components/feed/Feed.tsx:92-97 | corrected save toast, read from the list after the toggle; `SaveToastMatchesClick` proves it announces what the click did |
| Feed.LikeToastAsWritten | src/components/feed/Feed.tsx:69-74 | the like toast as written, read from the list captured before the toggle; `LikeToastAsWrittenInverted` proves it is inverted |
| Feed.SaveToastAsWritten | src/components/feed/Feed.tsx:92-97 | the save toast as written, read from the list captured before the toggle; `SaveToastAsWrittenInverted` proves it is inverted |
| Feed.AnswerTimerAsWritten | src/components/feed/Feed.tsx:113-117 | the answer timer as written: guarded on the captured index and length, it increments the current index; `StaleAnswerTimerLeavesFeed` shows it can leave the feed |
| Feed.FeedView.constructor | src/components/feed/Feed.tsx:17-18 | the feed starts empty, showing the loading view, at index 0 |
| Feed.FeedView.Load | src/components/feed/Feed.tsx:20-51 | the mount effect stores the built feed and keeps the index |
| Feed.FeedView.HandleLike | src/components/feed/Feed.tsx:53-75 | corrected: the items become `Like(items, id)`; the toast reads "Added to your liked lessons!" exactly when a found lesson was not liked, so for a found lesson it is never the toast the code as written shows |
| Feed.FeedView.HandleSave | src/components/feed/Feed.tsx:77-98 | corrected: the items become `Save(items, id)`; the toast reads "Saved for later!" exactly when a found lesson was not saved, so for a found lesson it is never the toast the code as written shows |
| Feed.FeedView.HandleQuizAnswer | src/components/feed/Feed.tsx:105-118 | the verdict toast is returned and one advance timer is started, capturing the index and the feed length at the time of the answer; the index itself is unchanged for now |
| Feed.FeedView.FireAnswerTimer | src/components/feed/Feed.tsx:113-117 | corrected: the oldest timer advances the index, guarded on the index it moves, so it stays in range; whenever that guard agrees with the guard on the captured index, the result is what the code as written computes |
| Feed.FeedView.HandleQuizSkip | src/components/feed/Feed.tsx:120-125 | "Quiz skipped" and one guarded advance |
| QuizCard.Verdict | src/components/feed/QuizCard.tsx:31 | correct exactly when the quiz has a key equal to the selected option; a quiz without a key is never correct, and a correct option rules out every other option as the key |
| QuizCard.NoKeyNeverCorrect | src/components/feed/QuizCard.tsx:14-31 | a quiz without `correctAnswer` is never judged correct |
| QuizCard.OneCorrectOption | src/components/feed/QuizCard.tsx:31 | at most one option of a keyed quiz is judged correct |
| QuizCard.QuizCardState.constructor | src/components/feed/QuizCard.tsx:24-26 | nothing selected, no result, not correct |
| QuizCard.QuizCardState.ClickOption | src/components/feed/QuizCard.tsx:82-83 | selects the option only while no result shows |
| QuizCard.QuizCardState.ClickSubmit | src/components/feed/QuizCard.tsx:28-38 | without a selection, or after submitting, nothing changes; otherwise the verdict is recorded, the result shows and one `onAnswer` is scheduled, at most once per card |
| QuizCard.QuizCardState.FireAnswerTimer | src/components/feed/QuizCard.tsx:35-37 | `onAnswer` receives the verdict captured at submission, once |
| QuizCard.SubmitOnceScenario | src/components/feed/QuizCard.tsx:28-38 | picking the key of a quiz, submitting, then picking another option and submitting again: the first timer reports a correct answer and the second reports nothing |
| Onboarding.CanProceed | src/components/onboarding/OnboardingFlow.tsx:81-88 | step 1 needs a skill level, step 2 a language, step 3 a goal; with all three answers given exactly steps 1 to 3 proceed, and with none given no step does |
| Onboarding.OnboardingFlow.constructor | src/components/onboarding/OnboardingFlow.tsx:45-48 | step 1 with empty choices |
| Onboarding.OnboardingFlow.ChooseSkill | src/components/onboarding/OnboardingFlow.tsx:116 | the skill level is replaced and nothing else changes |
| Onboarding.OnboardingFlow.ClickLanguage | src/components/onboarding/OnboardingFlow.tsx:53-59 | the languages are toggled and stay duplicate-free |
| Onboarding.OnboardingFlow.ClickGoal | src/components/onboarding/OnboardingFlow.tsx:61-67 | the goals are toggled and stay duplicate-free |
| Onboarding.NextLabel | src/components/onboarding/OnboardingFlow.tsx:210 | the forward button reads "Get Started!" exactly on the last step, otherwise "Next"; `ClickNext`'s contract ties that label to completion |
| Onboarding.OnboardingFlow.ClickNext | src/components/onboarding/OnboardingFlow.tsx:69-79 | disabled unless the step can proceed; otherwise one step on, or on step 3 completion with the answers, which then hold a level, a language and a goal; completion happens exactly on an enabled click while the button reads "Get Started!" |
| Onboarding.OnboardingFlow.ClickBack | src/components/onboarding/OnboardingFlow.tsx:199-200 | disabled on step 1, otherwise one step back, never below 1 |
| Router.Content | src/App.tsx:113-150 | `renderContent` never yields the onboarding screen, whatever the page |
| Router.Render | src/App.tsx:39-111 | the five ungated pages render regardless of onboarding; every other page shows onboarding exactly when it is not completed |
| Router.Ungated | src/App.tsx:39-111 | the five pages that return before the onboarding gate: landing, workshops, workshop-register, workshop-schedule and policy; `Render` states what the gate does for every other page |
| Router.Navigate | src/App.tsx:39-150 | the view each screen's callbacks set, one case per callback a page is given; `CallbackData`, `BackTargets` and `NavigationCarriesIds` state the targets |
| Router.CallbackData | src/App.tsx:39-150 | the onboarding screen offers no navigation callback, and only opening notes or a course carries an id, the one chosen |
| Router.BackTargets | src/App.tsx:58-144 | each back button targets its fixed parent page: workshops→landing, register→workshops, schedule→workshops, policy→profile, notes→home, settings→profile, course-detail→my-courses, video-course→explore |
| Router.BackShowsParent | src/App.tsx:58-144 | once onboarded, following a back button shows the parent screen |
| Router.NavigationCarriesIds | src/App.tsx:116-134 | opening notes, a video course or a course detail shows that page for the chosen id |
| Router.UnknownPageIsHome | src/App.tsx:147-148 | a page name without a case renders Home once onboarded |
| Router.GetStartedFlow | src/App.tsx:44-107 | "Get started" leads to onboarding first and to Home after it |
| Router.App.constructor | src/App.tsx:28-30 | tab "home", not onboarded, view "landing" |
| Router.App.CompleteOnboarding | src/App.tsx:33-37 | onboarding becomes completed and the current view's content shows |
| Router.App.Dispatch | src/App.tsx:39-150 | a callback offered by the screen on display sets the view it names; any other leaves the state as it is |
| Router.App.TabChange | src/App.tsx:152-170 | reachable only from the nav bars behind the onboarding gate; the tab and the page become the chosen tab, whose content then shows |
| Router.OnboardingIsPermanent | src/App.tsx:33-37 | no navigation undoes a completed onboarding |
| Router.TabShowsItsPage | src/App.tsx:115-128 | each main tab shows its own page once onboarded |
| Selection.Toggle | src/pages/Explore.tsx:67-73 | the toggled id's membership flips, every other id's membership is kept; an absent id is appended at the end, and a present one is filtered out, every other id keeping its order, so the list gets shorter |
| Selection.ToggleTwiceMembership | src/components/onboarding/OnboardingFlow.tsx:53-67 | toggling twice restores whether each id is selected |
| Selection.ToggleTwiceRestores | src/pages/Settings.tsx:24-30 | toggling an unselected id twice restores the very list |
| Selection.ToggleKeepsNoDups | src/pages/Explore.tsx:67-73 | a duplicate-free selection stays duplicate-free |
| Explore.FilterCollections | src/pages/Explore.tsx:75-81 | the filtered list is no longer than the catalogue |
| Explore.ShownIff | src/pages/Explore.tsx:75-81 | a collection is shown exactly when the lower-cased query occurs in its lower-cased title or description and no level, or its own level, is selected |
| Explore.UnfilteredShowsAll | src/pages/Explore.tsx:75-81 | an empty query with no level shows every collection, in order |
| Explore.IntermediateCollections | src/pages/Explore.tsx:17-81 | the "Intermediate" badge alone leaves the JavaScript and the data-structures collections |
| Explore.ClickLevel | src/pages/Explore.tsx:160 | clicking the selected level clears it, so every level shows again; clicking another selects it, so a collection then passes exactly when it has that level |
| Explore.LevelClickTwice | src/pages/Explore.tsx:160 | two clicks on a level restore an empty or equal selection, and clear a different one |
| Explore.SeeMore | src/pages/Explore.tsx:136-140 | "See more" appends `topics.slice(6)`, i.e. "Algorithms", "Web Development" and "Mobile", after the current selection |
| Explore.SeeMoreTwiceRepeats | src/pages/Explore.tsx:136-140 | pressing "See more" twice selects "Algorithms" twice |
| Explore.SeeMoreLabel | src/pages/Explore.tsx:142 | the button reads "See more +3" for the nine topics |
| Explore.ExplorePage.constructor | src/pages/Explore.tsx:62-65 | over its catalogue: empty query, topics and level, filters hidden, every collection visible |
| Explore.ExplorePage.SetQuery | src/pages/Explore.tsx:98 | only the query changes |
| Explore.ExplorePage.ClickFilterButton | src/pages/Explore.tsx:104 | only the filter panel flag flips |
| Explore.ExplorePage.ClickTopic | src/pages/Explore.tsx:127 | the topic is toggled and the visible collections do not change |
| Explore.ExplorePage.ClickSeeMore | src/pages/Explore.tsx:136-140 | the remaining topics are appended and the visible collections do not change |
| Explore.ExplorePage.ClickLevelBadge | src/pages/Explore.tsx:160 | only the level changes, as `ClickLevel` says |
| Explore.ExplorePage.ClearAll | src/pages/Explore.tsx:173-177 | topics, level and query are emptied, so every collection shows |
| MyCourses.FilterCourses | src/pages/MyCourses.tsx:69-72 | the filtered list is no longer than the course list |
| MyCourses.ShownIff | src/pages/MyCourses.tsx:69-72 | a course passes exactly when the lower-cased query occurs in its lower-cased title or description |
| MyCourses.EmptyQueryShowsAll | src/pages/MyCourses.tsx:69-72 | an empty query keeps every course in order |
| MyCourses.Insert | src/pages/MyCourses.tsx:74 | inserting adds exactly the one element to the multiset |
| MyCourses.Sort | src/pages/MyCourses.tsx:74 | the sorted copy is a permutation of the filtered list, of the same length |
| MyCourses.InsertSorted | src/pages/MyCourses.tsx:74 | insertion into a sorted list under a strict weak order keeps it sorted |
| MyCourses.SortSorted | src/pages/MyCourses.tsx:74-78 | the result is sorted under any strict weak order |
| MyCourses.SortKeepsOrderWhenTied | src/pages/MyCourses.tsx:74-78 | a comparator that ties every pair, as the "recent" mode does, keeps the filtered order |
| MyCourses.LexAsymmetric | src/pages/MyCourses.tsx:76 | the title order is asymmetric |
| MyCourses.LexTrichotomy | src/pages/MyCourses.tsx:76 | two different titles are ordered one way or the other |
| MyCourses.LexTransitive | src/pages/MyCourses.tsx:76 | the title order is transitive |
| MyCourses.LexIsStrictWeakOrder | src/pages/MyCourses.tsx:76 | the title order is a strict weak order, so the alphabetical sort is sorted |
| MyCourses.SortCourses | src/pages/MyCourses.tsx:74-78 | the sorted courses are a permutation of the filtered ones |
| MyCourses.SortModes | src/pages/MyCourses.tsx:74-78 | "progress" orders by progress descending, "alphabetical" by title ascending, and any other mode keeps the filtered order |
| MyCourses.Before | src/pages/MyCourses.tsx:74-78 | the comparator for each sort mode; `SortModes` states the order each mode yields |
| MyCourses.CompletedCount | src/pages/MyCourses.tsx:121 | counts the courses at 100% progress: zero exactly when none is, all exactly when every one is |
| MyCourses.InProgressCount | src/pages/MyCourses.tsx:127 | counts the courses strictly between 0% and 100%: zero exactly when none is, all exactly when every one is |
| MyCourses.OverviewCountsDisjoint | src/pages/MyCourses.tsx:115-127 | completed and in-progress courses together are at most all courses |
| MyCourses.TrimStart | src/pages/MyCourses.tsx:133 | `parseInt` skips the leading run of JavaScript white space: the result is a suffix, everything cut is white space, and it does not start with white space |
| MyCourses.LeadingDigits | src/pages/MyCourses.tsx:133 | the longest digit prefix is a prefix made of digits only |
| MyCourses.LeadingDigitsOfRun | src/pages/MyCourses.tsx:133 | digits followed by a non-digit read back as exactly those digits |
| MyCourses.ParseInt | src/pages/MyCourses.tsx:133 | `parseInt`: a string opening with a digit is a number, a blank string is NaN, and a negative result needs a '-' after the leading blanks |
| MyCourses.ParseMinutes | src/pages/MyCourses.tsx:133 | `parseInt` of "N min" is N |
| MyCourses.BundledCounts | src/pages/MyCourses.tsx:10-127 | the bundled overview counts 4 courses, 1 completed and 3 in progress |
| MyCourses.ParseEstimate | src/pages/MyCourses.tsx:133 | an estimate rendered as "N min" parses to N |
| MyCourses.TotalMinutes | src/pages/MyCourses.tsx:133 | the `reduce` total of the parsed estimates; `TotalIsNumberIff` and `TotalOfParsed` state its value |
| MyCourses.TotalIsNumberIff | src/pages/MyCourses.tsx:133 | the total is a number exactly when every estimate parses, and NaN as soon as one does not |
| MyCourses.TotalOfParsed | src/pages/MyCourses.tsx:133 | when every estimate parses, the `reduce` total is the sum of the parsed minutes |
| MyCourses.BundledMinutes | src/pages/MyCourses.tsx:10-133 | the bundled estimates add up to 225 minutes |
| MyCourses.ActionLabel | src/pages/MyCourses.tsx:199 | "Start" exactly at 0% progress, "Continue" otherwise, so every course the overview counts as completed or in progress reads "Continue" |
| MyCourses.EmptyViewNeedsQuery | src/pages/MyCourses.tsx:208 | "No courses found" cannot appear under an empty query unless there are no courses |
| Settings.Highlighted | src/pages/Settings.tsx:158 | a badge is highlighted exactly when clicking it would remove the language, and otherwise a click appends it |
| Settings.ClickLanguage | src/pages/Settings.tsx:24-30 | a click flips the clicked badge's highlight and keeps every other badge's |
| Settings.InitialHighlights | src/pages/Settings.tsx:22 | Python and JavaScript, and nothing else, start highlighted |
| Settings.ClickTwice | src/pages/Settings.tsx:24-30 | two clicks on a badge restore every highlight, and from the initial selection the very list |
| Settings.ThemeFor | src/pages/Settings.tsx:131 | the switch sets "dark" or "light", and reads back as the position it was set to |
| Settings.ThemeRoundTrip | src/pages/Settings.tsx:130-131 | the switch is checked exactly for "dark", and switch position and theme are inverse for the two themes the switch sets |
| Friends.FilterFriends | src/components/community/FriendsTab.tsx:94-96 | the filtered list is no longer than the friend list |
| Friends.ShownIff | src/components/community/FriendsTab.tsx:94-96 | a friend is listed exactly when the lower-cased term occurs in the lower-cased user name |
| Friends.EmptyTermShowsAll | src/components/community/FriendsTab.tsx:94-96 | an empty term lists every friend |
| Friends.TabLabel | src/components/community/FriendsTab.tsx:134-144 | a tab reads "name (n)", and the number between the parentheses reads back as the length of the whole list the tab counts |
| Friends.BundledTabLabels | src/components/community/FriendsTab.tsx:134-144 | the tabs read "My Friends (4)" and "Suggestions (3)", whatever the term |
| Friends.EmptyStateFor | src/components/community/FriendsTab.tsx:151-170 | "No friends found" under a term, "No friends yet" without one, and the Find Friends button only without one |
| Friends.ClickFindFriends | src/components/community/FriendsTab.tsx:151-170 | the "Find Friends" button exists, and switches to the suggestions tab, exactly when nothing is listed under an empty term, which happens only for an empty friend list |
| Friends.EmptyStateNeedsTerm | src/components/community/FriendsTab.tsx:151 | with some friend present, an empty term lists someone |
| Friends.AvatarInitials | src/components/community/FriendsTab.tsx:185 | the first two characters of the user name, upper-cased |
| Friends.MutualLabel | src/components/community/FriendsTab.tsx:272 | "friend" takes an "s" unless the count is exactly 1 |
| Friends.BundledLabels | src/components/community/FriendsTab.tsx:22-272 | "alexDev" gets "AL"; the suggestions read "3 mutual friends" and "1 mutual friend" |
| LessonCard.FormatLikes | src/components/feed/LessonCard.tsx:129 | counts above 999 show the whole thousands followed by "k", and the number before the "k" reads back as likes / 1000; a count from 0 to 999 reads back as itself |
| LessonCard.LargeLikesReadBack | src/components/feed/LessonCard.tsx:199 | the thousands an abbreviated count shows under-state it by less than a thousand |
| LessonCard.FormatLikesExample | src/components/feed/LessonCard.tsx:129 | 1999 shows as "1k", 999 as "999" |
| LessonCard.TakeawaysShown | src/components/feed/LessonCard.tsx:235-270 | the takeaways sit inside the code overlay: they show only with the overlay open and a takeaways list, even an empty one, and never for a lesson without a snippet |
| LessonCard.CodeToggleRoundTrip | src/components/feed/LessonCard.tsx:147-270 | two clicks on the code button restore the flag; closed, neither the overlay nor the takeaways show; one click opens the overlay exactly for a present, non-empty snippet, with the takeaways exactly when the lesson has them |
| CourseInfo.CompletedCount | src/pages/CourseDetail.tsx:148 | the completed entries are at most all entries |
| CourseInfo.CompletingRaisesCount | src/pages/CourseDetail.tsx:148 | marking an unfinished entry completed raises the count by one |
| CourseInfo.CompletedPrefixCount | src/pages/CourseDetail.tsx:148 | a list whose first n entries are the completed ones counts n |
| CourseInfo.ProgressShown | src/pages/CourseDetail.tsx:149-207 | `progressPercentage > 0` holds exactly when something is completed, for a positive total and for the Infinity/NaN of a zero one |
| CourseInfo.PercentageAtMostHundred | src/pages/CourseDetail.tsx:149 | the percentage is within 0..100 when the total counts the completed entries |
| CourseInfo.Collapsed | src/pages/CourseDetail.tsx:174 | at most the first 120 characters, then "...", which is appended even when nothing was cut |
| CourseInfo.FirstChar | src/pages/CourseDetail.tsx:299 | `n[0]` is the first character of a non-empty word, and an empty word (from a double space) contributes nothing |
| CourseInfo.InitialsOf | src/pages/CourseDetail.tsx:299 | one initial per non-empty word, in order |
| CourseInfo.InitialsOfWords | src/pages/CourseDetail.tsx:299 | a name of words joined by single spaces gets each word's first letter, in order |
| CourseInfo.Initials | src/pages/CourseDetail.tsx:299 | split at spaces, mapped to first characters and joined; `InitialsOf` and `InitialsOfWords` state the result |
| CourseInfo.DescriptionText | src/pages/CourseDetail.tsx:174 | the full description or its collapsed form; `CourseDetail.ToggleDescriptionTwice` states how the button moves between them |
| CourseDetail.Lookup | src/pages/CourseDetail.tsx:135-146 | a course is found exactly for the keys of `courseData`, which are "1" to "4", and each found course counts as many lessons as its curriculum lists |
| CourseDetail.ProgressBlockShown | src/pages/CourseDetail.tsx:148-207 | the progress block shows exactly when some lesson is completed, which for a positive total is a positive percentage |
| CourseDetail.StartLabel | src/pages/CourseDetail.tsx:223 | "Continue Learning" exactly when the progress block shows, "Start Course" otherwise |
| CourseDetail.RowBadgeAt | src/pages/CourseDetail.tsx:272-275 | a completed lesson shows a check, any other its 1-based position |
| CourseDetail.RowPositionsDistinct | src/pages/CourseDetail.tsx:272-275 | no two unfinished rows show the same number |
| CourseDetail.BundledLessonCounts | src/pages/CourseDetail.tsx:15-149 | each bundled course counts as many lessons as its curriculum lists, so progress stays within 0..100 |
| CourseDetail.BundledPythonProgress | src/pages/CourseDetail.tsx:15-223 | two Python lessons are done, so it offers "Continue Learning" |
| CourseDetail.BundledUnstarted | src/pages/CourseDetail.tsx:15-223 | the other three courses have nothing done and offer "Start Course" |
| CourseDetail.NothingCompleted | src/pages/CourseDetail.tsx:15-148 | the JavaScript, machine-learning and React curricula have no completed lesson |
| CourseDetail.BundledInitials | src/pages/CourseDetail.tsx:299 | "Dr. Sarah Chen" gives "DSC" |
| CourseDetail.BundledCollapsed | src/pages/CourseDetail.tsx:174 | the Python description is cut at 120 characters before "..." |
| CourseDetail.ToggleDescriptionTwice | src/pages/CourseDetail.tsx:172-180 | "See more" / "Show less" flips the flag: two clicks restore the shown text, and one click from collapsed shows the full description |
| VideoCourse.Lookup | src/pages/VideoCoursePage.tsx:75-86 | a series is found exactly for the keys of `videoCourseData`, which are "1" and "2", and each found series counts as many videos as its list holds |
| VideoCourse.ExploreCollectionsFound | src/pages/VideoCoursePage.tsx:15-77 | of the four Explore collections only the first two reach a video series; all four open the video page with their id |
| VideoCourse.ProgressBlockShown | src/pages/VideoCoursePage.tsx:88-147 | the progress block shows exactly when some video is completed |
| VideoCourse.StartLabel | src/pages/VideoCoursePage.tsx:163 | "Continue Watching" exactly when the progress block shows, "Start Videos" otherwise |
| VideoCourse.RowClick | src/pages/VideoCoursePage.tsx:200 | every playlist row calls `onStartVideo`, which leads Home |
| VideoCourse.BundledPythonProgress | src/pages/VideoCoursePage.tsx:15-163 | the Python series has two videos done and offers "Continue Watching" |
| VideoCourse.BundledJavaScriptProgress | src/pages/VideoCoursePage.tsx:15-163 | the JavaScript series has nothing done and offers "Start Videos" |
| VideoCourse.BundledCollapsed | src/pages/VideoCoursePage.tsx:114 | both descriptions are under 120 characters, so the collapsed text is the whole description and "..." |
| LessonViewer.FindIndex | src/pages/LessonViewer.tsx:34 | `findIndex` returns the first position holding the id, or none when no position does |
| LessonViewer.Open | src/pages/LessonViewer.tsx:19-34 | "Lesson not found" exactly when the course is unknown, `Number(lessonId)` is not a number, or no lesson has that id; otherwise the first match |
| LessonViewer.OpenByRenderedId | src/pages/LessonViewer.tsx:19-34 | a lesson's id rendered in decimal opens that lesson or an earlier one with the same id |
| LessonViewer.NeighboursInverse | src/pages/LessonViewer.tsx:35-36 | the previous lesson's next is this lesson and the next lesson's previous is this lesson; with two or more lessons every page has a neighbour |
| LessonViewer.Next | src/pages/LessonViewer.tsx:36 | a next lesson exists exactly before the last position, it is the one after, and that lesson's previous is this one |
| LessonViewer.Ends | src/pages/LessonViewer.tsx:35-36 | the first lesson has no predecessor and the last no successor |
| LessonViewer.Header | src/pages/LessonViewer.tsx:51 | the "Lesson k of n" header; `HeaderReadsBack` reads it back |
| LessonViewer.HeaderReadsBack | src/pages/LessonViewer.tsx:51 | "Lesson k of n" reads back as the position from 1 and the curriculum length |
| LessonViewer.Buttons | src/pages/LessonViewer.tsx:23-132 | the not-found view has Go Back only; a lesson has Previous exactly when there is one, Next or Back to Course, and Play only for a video |
| LessonViewer.Press | src/pages/LessonViewer.tsx:74-128 | only the play button stays on the page; every other button calls `onBack` |
| Notes.LookupNotes | src/pages/NotesPage.tsx:113-124 | lessons "1" and "2" get their own notes, and every other id the default notes |
| Notes.UnknownLessonGetsDefault | src/pages/NotesPage.tsx:14-124 | any id but "1" and "2" gets the default "Lesson Notes" |
| Notes.SectionsText | src/pages/NotesPage.tsx:192 | the sections of the export, each heading followed by its content, separated by blank lines |
| Notes.ExportText | src/pages/NotesPage.tsx:192 | the exported text; `ExportOpening`, `ExportClosing` and `ClosingLinesSplit` state its lines |
| Notes.ExportOpening | src/pages/NotesPage.tsx:192 | the export's first four lines are the title, a blank line, the overview and a blank line |
| Notes.ClosingText | src/pages/NotesPage.tsx:192 | the closing lines, joined, are the key-points and exercises part of the template |
| Notes.ExportClosing | src/pages/NotesPage.tsx:192 | after the sections and a blank line the export ends with the closing lines |
| Notes.ClosingLinesSplit | src/pages/NotesPage.tsx:192 | when no key point or exercise holds a newline, splitting the joined closing lines at newlines gives the lines back |
| Notes.ExerciseNumberReadsBack | src/pages/NotesPage.tsx:192 | cut at its first '.', exercise line k reads back as k+1 |
| Notes.DownloadName | src/pages/NotesPage.tsx:197 | the file name has no JavaScript white space |
| Notes.DownloadNameOfWords | src/pages/NotesPage.tsx:197 | a title of single-space-separated words gets them joined by "_" |
| Notes.BundledDownloadName | src/pages/NotesPage.tsx:14-197 | "Python For Loops" downloads as "Python_For_Loops_notes.txt" |
| Notes.SavedAfterClicks | src/pages/NotesPage.tsx:167 | each bookmark click flips the flag, so it is saved exactly after an odd number of clicks, and two more clicks change nothing |
| Streak.NextAchievement | src/components/growth/StreakTracker.tsx:109-113 | the first achievement that is locked and needs more than the current streak, or none when no achievement does |
| Streak.NextAchievementIncomplete | src/components/growth/StreakTracker.tsx:261 | the bar towards the next achievement stays below 100% |
| Streak.BundledNextAchievement | src/components/growth/StreakTracker.tsx:27-113 | with a 12-day streak the card shows "Dedication" at 15 days |
| Streak.NoCardPastLegend | src/components/growth/StreakTracker.tsx:27-115 | a streak past every locked achievement hides the card |
| Streak.IntensityColor | src/components/growth/StreakTracker.tsx:133-140 | the colour class of a calendar square; `IntensityShades` compares the shades |
| Streak.IntensityShades | src/components/growth/StreakTracker.tsx:133-140 | intensities 1 to 3 get ever stronger primary shades, and any other intensity the muted colour |
| Streak.DayAt | src/components/growth/StreakTracker.tsx:88-100 | the square of step k is 29-k days ago, active exactly when its draw exceeds 0.3, with intensity 1..3 when active and 0 otherwise |
| Streak.GenerateCalendar | src/components/growth/StreakTracker.tsx:83-104 | the loop yields 30 squares, oldest first and one day apart, with only the last marked today |
| Streak.DaysToGo | src/components/growth/StreakTracker.tsx:208 | progress plus the days to go is the goal; negative exactly past the goal |
| Streak.BundledWeek | src/components/growth/StreakTracker.tsx:71-107 | 4 of 5 days: 80% and one day to go |
| Streak.ShareText | src/components/growth/StreakTracker.tsx:118 | the shared text starts with the flame and a space |
| Streak.ShareTextReadsBack | src/components/growth/StreakTracker.tsx:118 | cut at the first '-', the shared text reads back as the streak |
| WorkshopSchedule.LevelColor | src/pages/WorkshopSchedule.tsx:92-103 | the badge colour of a level; `LevelColorDefault` states which levels have their own |
| WorkshopSchedule.LevelColorDefault | src/pages/WorkshopSchedule.tsx:92-103 | only "Beginner", "Intermediate" and "Advanced" get a colour of their own |
| WorkshopSchedule.PercentageAbove | src/pages/WorkshopSchedule.tsx:106-108 | comparing the real percentage with a threshold is comparing spots*100 with threshold*total |
| WorkshopSchedule.AvailabilityColor | src/pages/WorkshopSchedule.tsx:105-110 | success above 50%, warning above 20% up to 50%, destructive at 20% or less; for a zero total, success exactly when spots remain |
| WorkshopSchedule.RegisterButtonFor | src/pages/WorkshopSchedule.tsx:196-201 | the button is disabled and reads "Fully Booked" exactly when no spot is left, "Register Now" otherwise |
| WorkshopSchedule.BundledNoneFullyBooked | src/pages/WorkshopSchedule.tsx:11-90 | every bundled workshop has spots left, so every button is enabled |
| WorkshopSchedule.BundledAvailability | src/pages/WorkshopSchedule.tsx:11-109 | the six bundled colours; 5 of 10 spots is exactly 50% and so a warning |
| WorkshopRegister.With | src/pages/WorkshopRegister.tsx:105-176 | `{ ...formData, field: value }` sets that field and keeps every other field and the terms box |
| WorkshopRegister.WithOldValueRestores | src/pages/WorkshopRegister.tsx:105-176 | typing a field's earlier value back restores the whole record |
| WorkshopRegister.EditsOfDifferentFieldsCommute | src/pages/WorkshopRegister.tsx:105-176 | edits of two different fields can happen in either order |
| WorkshopRegister.SuccessMessage | src/pages/WorkshopRegister.tsx:50 | the success text embeds the address between its fixed head and tail |
| WorkshopRegister.SuccessMessageInjective | src/pages/WorkshopRegister.tsx:50 | different addresses give different success texts |
| WorkshopRegister.SuccessButtonTarget | src/pages/WorkshopRegister.tsx:53-58 | both success buttons call `onBack`, which leads to the workshops page |
| WorkshopRegister.RegisterForm.constructor | src/pages/WorkshopRegister.tsx:15-24 | every field empty, terms unticked, not submitted |
| WorkshopRegister.RegisterForm.Shown | src/pages/WorkshopRegister.tsx:41-63 | the success screen, echoing the entered address, exactly once submitted |
| WorkshopRegister.RegisterForm.Edit | src/pages/WorkshopRegister.tsx:105-176 | an input or select replaces only its own field |
| WorkshopRegister.RegisterForm.SetAgreeTerms | src/pages/WorkshopRegister.tsx:197-198 | the checkbox replaces only `agreeTerms` |
| WorkshopRegister.RegisterForm.Submit | src/pages/WorkshopRegister.tsx:26-39 | without the terms ticked: the error "Please agree to the terms and conditions" and no timer; with them: one timer; never submitted at once |
| WorkshopRegister.RegisterForm.FireSubmitTimer | src/pages/WorkshopRegister.tsx:35-38 | the timer sets `isSubmitted` and the success screen shows |
| WorkshopRegister.RegisterFlow | src/pages/WorkshopRegister.tsx:26-63 | ticking the box and submitting reaches the success screen with the typed address; without the box the form stays |
| Profile.BundledXpPercentage | src/pages/Profile.tsx:48 | 2450 of 3000 XP puts the bar at 81 2/3 percent |
| Profile.XpBarScales | src/pages/Profile.tsx:48 | the width times the level's XP is 100 times the XP earned; the bar is full exactly at the level's XP |
| Profile.AvatarLetter | src/pages/Profile.tsx:58 | the first character of the name with a lower-case letter raised, or nothing for an empty name |
| Profile.BundledAvatarLetter | src/pages/Profile.tsx:58 | "codingWizard" gets "C" |
| Profile.LanguageTag | src/pages/Profile.tsx:184 | the first two characters of the language, a prefix of it |
| Profile.FirstThree | src/pages/Profile.tsx:180 | a tab lists at most its first three entries, a prefix of the list |
| Profile.SeeMoreLabel | src/pages/Profile.tsx:194-203 | the "See More" button exists exactly for more than three entries |
| Profile.ListedPlusCountedIsAll | src/pages/Profile.tsx:213-237 | the entries listed plus the number the button reads back are the whole list |
| Profile.BundledSeeMore | src/pages/Profile.tsx:20-279 | only the achievements tab has the button, reading "See More (2 more)" |
| MonacoEditor.ShapeResults | src/components/practice/MonacoEditor.tsx:56-61 | result k reports the random verdict k and the test's expected value and description, one result per test |
| MonacoEditor.OutputsNumbered | src/components/practice/MonacoEditor.tsx:58 | result k reads "Mock output k+1", so no two results share an output |
| MonacoEditor.CompletionIff | src/components/practice/MonacoEditor.tsx:67-69 | `onComplete` fires exactly when every verdict passed, also for an exercise without tests |
| MonacoEditor.BannerShown | src/components/practice/MonacoEditor.tsx:179-218 | "All tests passed!" shows exactly for a non-empty run where every result passed |
| MonacoEditor.DifficultyColor | src/components/practice/MonacoEditor.tsx:79-86 | the badge colour of each of the three difficulties the exercise type allows (success, warning, destructive), so the `default` case is never reached |
| MonacoEditor.GetHintAsWritten | src/components/practice/MonacoEditor.tsx:72-77 | `getHint` as written: advance while a further hint exists, then show the hints |
| MonacoEditor.HintAfterClicksAsWritten | src/components/practice/MonacoEditor.tsx:72-77 | the hint index after c clicks as written |
| MonacoEditor.HintAfterClicksAsWrittenIs | src/components/practice/MonacoEditor.tsx:72-77 | as written, after c clicks the hint index is min(c, n-1) |
| MonacoEditor.FirstHintNeverShownAsWritten | src/components/practice/MonacoEditor.tsx:72-77 | as written, with two or more hints the first click already shows hint 2, and hint 1 never shows |
| MonacoEditor.GetHint | src/components/practice/MonacoEditor.tsx:72-77 | corrected: the first press shows the current hint; later presses advance while a further hint exists |
| MonacoEditor.HintsShownInOrder | src/components/practice/MonacoEditor.tsx:160-171 | corrected: press k shows hint k until the last hint, which then stays |
| MonacoEditor.HintAfterClicks | src/components/practice/MonacoEditor.tsx:72-77 | corrected: the hint state after c clicks, with `GetHint` in place of the code as written |
| MonacoEditor.Editor.constructor | src/components/practice/MonacoEditor.tsx:31-40 | starter code, no results, hints hidden, hint index 0 |
| MonacoEditor.Editor.HintButtonDisabledIff | src/components/practice/MonacoEditor.tsx:116 | the hint button is disabled exactly for an exercise without hints |
| MonacoEditor.Editor.SelectExercise | src/components/practice/MonacoEditor.tsx:42-47 | a new exercise resets the code, results, hints and hint index |
| MonacoEditor.Editor.EditCode | src/components/practice/MonacoEditor.tsx:31 | only the code changes |
| MonacoEditor.Editor.ClickHint | src/components/practice/MonacoEditor.tsx:72-77 | the hint state follows the corrected `GetHint` and stays valid |
| MonacoEditor.Editor.StartRun | src/components/practice/MonacoEditor.tsx:49-53 | the run starts and captures the exercise's tests |
| MonacoEditor.Editor.FinishRun | src/components/practice/MonacoEditor.tsx:53-70 | the results are the shaped verdicts, and completion is reported exactly when all passed |
| Practice.ProblemsFor | src/pages/Practice.tsx:120 | exactly the three tab values "Python", "React" and "ML" have problems, two each; any other topic has none |
| Practice.TopicsWithProblems | src/pages/Practice.tsx:10-120 | only "Python", "React" and "ML" have problems |
| Practice.IdsDistinctWithinTopic | src/pages/Practice.tsx:10-120 | no two problems of a tab share an id |
| Practice.PracticePage.constructor | src/pages/Practice.tsx:112-117 | the Python tab with its first problem and starter code, hints hidden, not running, no result |
| Practice.PracticePage.SelectProblem | src/pages/Practice.tsx:133-138 | the chosen card's problem and starter code are loaded, the result cleared, the hints hidden, and only that card is highlighted |
| Practice.PracticePage.SetTopic | src/pages/Practice.tsx:176 | only the active topic changes |
| Practice.PracticePage.EditCode | src/pages/Practice.tsx:309-310 | only the code changes |
| Practice.PracticePage.ToggleHints | src/pages/Practice.tsx:233 | only the hint panel flag flips |
| Practice.PracticePage.StartRun | src/pages/Practice.tsx:122-124 | the result is cleared and the run starts |
| Practice.PracticePage.FinishRun | src/pages/Practice.tsx:127-130 | the fixed success text, whatever the code or problem, and the run ends |
| Text.Lower | src/pages/Explore.tsx:76-77 | `toLowerCase` keeps the length and folds every ASCII capital |
| Text.Upper | src/pages/Profile.tsx:58 | `toUpperCase` keeps the length and raises every ASCII lower-case letter |
| Text.Includes | src/pages/Explore.tsx:76-77 | `includes`, tried at each position; `IncludesIff` states when it holds |
| Text.IncludesIff | src/pages/Explore.tsx:76-77 | `includes` holds exactly when the needle occurs at some position |
| Text.IncludesEmpty | src/pages/Explore.tsx:76-77 | every string includes the empty string |
| Text.NatToString | src/pages/Profile.tsx:202 | the decimal rendering is a non-empty string of digits |
| Text.NatToStringRoundTrip | src/pages/Profile.tsx:202 | the decimal rendering reads back as the number |
| Text.IntToString | src/components/feed/LessonCard.tsx:129 | an integer in decimal: a leading '-' exactly for a negative one, and the digits read back as its magnitude |
| Text.Number | src/pages/LessonViewer.tsx:20 | `Number` of "" is 0, and a non-empty string holding a non-digit is no number |
| Text.NumberOfRendering | src/pages/LessonViewer.tsx:20 | `Number` of a rendered number is that number |
| Text.Split | src/pages/CourseDetail.tsx:299 | `split` yields at least one piece, none containing the separator |
| Text.Join | src/pages/NotesPage.tsx:192 | `join`; `SplitJoinRoundTrip` proves `split` inverts it |
| Text.SplitJoinRoundTrip | src/pages/CourseDetail.tsx:299 | splitting a join of separator-free pieces gives the pieces back |
| Text.ReplaceSpaceRuns | src/pages/NotesPage.tsx:197 | `replace(/\s+/g, rep)` over the JavaScript white-space set; `ReplaceLeavesNoSpace` and `ReplaceJoinedWords` state the result |
| Text.ReplaceJoinedWords | src/pages/NotesPage.tsx:197 | replacing the single spaces between words free of white space joins them with the replacement |
| Text.ReplaceLeavesNoSpace | src/pages/NotesPage.tsx:197 | with a replacement free of white space, no JavaScript white space is left |

## Left out

- Rendering: JSX, CSS classes other than the colour-choosing functions, animations, the Monaco widget, Markdown, and the tab and select widgets.
- Randomness: `Math.random` in `runCode` and in the calendar becomes parameters (the verdicts and the draws). The ads of `src/data/adContent.ts` are not used by the core.
- Timers: each `setTimeout` and `await` delay is a separate later step, e.g. `FireAnswerTimer`, `FinishRun`, `FireSubmitTimer`. The share toast's 2000 ms hide and the 1500 ms Practice delay have no state worth stating.
- Browser calls: clipboard, `navigator.share`, `alert`, `toast` and the Blob download. Only the strings they receive are modelled.
- Form submission in `WorkshopRegister`: the browser's own `required` and `type="email"` checks, which run before `handleSubmit`, are not modelled.
- Text.Lower: folds ASCII letters only, not the full Unicode case mapping of `toLowerCase`.
- Text.Upper: raises ASCII letters only.
- MyCourses.ParseInt: does not read a "0x" prefix as hexadecimal as `parseInt` does; every estimate the page parses is decimal ("45 min").
- Text.Number: covers the empty string and plain decimal digits. `Number` also trims white space and reads signs, decimals, exponents and hex; none occur in the ids the pages parse.
- MyCourses.SortCourses: `localeCompare` is read as code-point order on titles, not the locale's collation.
- MyCourses.LexIsStrictWeakOrder: the same code-point order stands in for `localeCompare`.
- LessonViewer.Open: the course catalogue `src/data/coursesData.ts` is not part of this model, so it is a parameter.
- The feed's bundled lessons and quizzes from `src/data/expandedContent.ts` are modelled by their count only.
- Streak.GenerateCalendar: `Date` arithmetic is out; each square carries its distance from today instead.
- Streak.ShareText: the choice between `navigator.share` and the clipboard is left out.
- Floating point: ratios are exact reals, not IEEE doubles. Ratios with a zero total are stated separately, as Infinity or NaN compared with a threshold.
- Pages with no logic of their own (landing, workshops, policy, home, the navigation bars) and the settings switches other than dark mode are not modelled.
- The Practice page's mobile example box and `difficultyColors` table are presentation only.

## Findings

| source | as written | input that shows it | evidently intended | confidence | as-written member | corrected member |
|---|---|---|---|---|---|---|
| src/components/feed/Feed.tsx:69-74, 92-97 | the like/save toast is chosen from `feedItems` as captured before the toggle | liking a lesson that is not liked announces "Removed from liked lessons!" | announce the state the click produced | high, not executed | Feed.LikeToastAsWrittenInverted, Feed.SaveToastAsWrittenInverted | Feed.LikeToastMatchesClick, Feed.SaveToastMatchesClick |
| src/components/feed/Feed.tsx:113-117 | the answer timer checks the `currentIndex` captured when the answer was given, then increments the index as it is 1500 ms later | answer the quiz at position length-2, then skip within 1500 ms: the index reaches length | advance only while the index being moved is below the last item | medium, not executed | Feed.StaleAnswerTimerLeavesFeed | Feed.AdvancesStayInRange |
| src/components/practice/MonacoEditor.tsx:72-77 | `getHint` advances before the first reveal | with two hints, the first click shows "Hint 2" and hint 1 never appears | the first click shows hint 1 | high, not executed | MonacoEditor.FirstHintNeverShownAsWritten | MonacoEditor.HintsShownInOrder |
