// src/components/feed/Feed.tsx: the home feed. On mount a loop walks the
// lessons and pushes each lesson, a quiz after every fifth lesson while quizzes
// remain, and a promotional ad after every fifteenth lesson. Like and save
// rewrite the matching lesson items; answering or skipping a quiz moves
// `currentIndex`, the item that plays, one step on without passing the last item.

module Feed {

  import opened Common
  import opened Text
  import opened LessonCard
  import opened QuizCard

  datatype Ad = Ad(id: string, title: string, description: string, cta: string, image: string)

  datatype FeedItem = LessonItem(lesson: Lesson) | QuizItem(quiz: Quiz) | AdItem(ad: Ad)

  /** The promotional ad pushed after lesson `index`. */
  function PromoAd(index: nat): (a: Ad)
    ensures a.id == "ad-" + NatToString(index)
    ensures a.title == "Upgrade to Pro" && a.cta == "Start Free Trial"
  {
    Ad("ad-" + NatToString(index), "Upgrade to Pro", "Unlock advanced courses and coding challenges",
       "Start Free Trial", "\U{1F680}")
  }

  // ---------------------------------------------------------------------------
  // Building the feed

  /** A quiz follows lesson `i` when `(i + 1) % 5 == 0` and quiz `i / 5` exists. */
  predicate QuizDue(i: nat, quizzes: seq<Quiz>)
  {
    (i + 1) % 5 == 0 && i / 5 < |quizzes|
  }

  /** An ad follows lesson `i` when `(i + 1) % 15 == 0`. */
  predicate AdDue(i: nat)
  {
    (i + 1) % 15 == 0
  }

  /** The items one turn of the builder pushes for lesson `i`. */
  function Segment(lessons: seq<Lesson>, quizzes: seq<Quiz>, i: nat): seq<FeedItem>
    requires i < |lessons|
  {
    [LessonItem(lessons[i])]
      + (if QuizDue(i, quizzes) then [QuizItem(quizzes[i / 5])] else [])
      + (if AdDue(i) then [AdItem(PromoAd(i))] else [])
  }

  /** The feed after the builder has handled the first `n` lessons. */
  function FeedUpTo(lessons: seq<Lesson>, quizzes: seq<Quiz>, n: nat): seq<FeedItem>
    requires n <= |lessons|
  {
    if n == 0 then [] else FeedUpTo(lessons, quizzes, n - 1) + Segment(lessons, quizzes, n - 1)
  }

  /** The position of lesson `i` in the feed. */
  function LessonPos(lessons: seq<Lesson>, quizzes: seq<Quiz>, i: nat): nat
    requires i <= |lessons|
  {
    |FeedUpTo(lessons, quizzes, i)|
  }

  /** The mount effect: one pass over the lessons pushing into `items`. */
  method BuildFeed(lessons: seq<Lesson>, quizzes: seq<Quiz>) returns (items: seq<FeedItem>)
    ensures items == FeedUpTo(lessons, quizzes, |lessons|)
  {
    items := [];
    var index := 0;
    while index < |lessons|
      invariant 0 <= index <= |lessons|
      invariant items == FeedUpTo(lessons, quizzes, index)
    {
      items := items + [LessonItem(lessons[index])];
      if (index + 1) % 5 == 0 && index / 5 < |quizzes| {
        items := items + [QuizItem(quizzes[index / 5])];
      }
      if (index + 1) % 15 == 0 {
        items := items + [AdItem(PromoAd(index))];
      }
      index := index + 1;
    }
  }

  /** The feed's length: every lesson, one quiz per five lessons while quizzes
      last, one ad per fifteen lessons. */
  lemma {:induction false} FeedLength(lessons: seq<Lesson>, quizzes: seq<Quiz>, n: nat)
    requires n <= |lessons|
    ensures |FeedUpTo(lessons, quizzes, n)| == n + Min(n / 5, |quizzes|) + n / 15
  {
    if n > 0 {
      FeedLength(lessons, quizzes, n - 1);
      var i := n - 1;
      assert n / 5 == i / 5 + (if n % 5 == 0 then 1 else 0);
      assert n / 15 == i / 15 + (if n % 15 == 0 then 1 else 0);
    }
  }

  /** The feed after `m` lessons is a prefix of the feed after `n >= m` lessons. */
  lemma {:induction false} FeedPrefix(lessons: seq<Lesson>, quizzes: seq<Quiz>, m: nat, n: nat)
    requires m <= n <= |lessons|
    ensures |FeedUpTo(lessons, quizzes, m)| <= |FeedUpTo(lessons, quizzes, n)|
    ensures FeedUpTo(lessons, quizzes, n)[..|FeedUpTo(lessons, quizzes, m)|] == FeedUpTo(lessons, quizzes, m)
  {
    if m < n {
      FeedPrefix(lessons, quizzes, m, n - 1);
      var a := FeedUpTo(lessons, quizzes, n - 1);
      assert FeedUpTo(lessons, quizzes, n) == a + Segment(lessons, quizzes, n - 1);
    }
  }

  /** In the finished feed, the items pushed for lesson `i` sit at lesson `i`'s position. */
  lemma SegmentInFeed(lessons: seq<Lesson>, quizzes: seq<Quiz>, i: nat)
    requires i < |lessons|
    ensures var feed := FeedUpTo(lessons, quizzes, |lessons|);
      var p := LessonPos(lessons, quizzes, i);
      LessonPos(lessons, quizzes, i + 1) == p + |Segment(lessons, quizzes, i)| <= |feed| &&
      feed[p..p + |Segment(lessons, quizzes, i)|] == Segment(lessons, quizzes, i)
  {
    FeedPrefix(lessons, quizzes, i + 1, |lessons|);
    var before := FeedUpTo(lessons, quizzes, i);
    var seg := Segment(lessons, quizzes, i);
    var feed := FeedUpTo(lessons, quizzes, |lessons|);
    assert FeedUpTo(lessons, quizzes, i + 1) == before + seg;
    assert feed[|before|..|before| + |seg|] == (before + seg)[|before|..];
  }

  /** The last lesson's items close the feed. */
  lemma LastSegmentEndsFeed(lessons: seq<Lesson>, quizzes: seq<Quiz>)
    requires |lessons| > 0
    ensures LessonPos(lessons, quizzes, |lessons|) == |FeedUpTo(lessons, quizzes, |lessons|)|
  {
  }

  /** Lesson `i` opens its own segment, and the quiz, when due, comes second. */
  lemma SegmentShape(lessons: seq<Lesson>, quizzes: seq<Quiz>, i: nat)
    requires i < |lessons|
    ensures var seg := Segment(lessons, quizzes, i);
      seg[0] == LessonItem(lessons[i]) &&
      ((|seg| > 1 && seg[1].QuizItem?) <==> QuizDue(i, quizzes)) &&
      (QuizDue(i, quizzes) ==> seg[1] == QuizItem(quizzes[i / 5]))
  {
  }

  /** A segment holds the lesson, the quiz when due and the ad when due, the ad last. */
  lemma SegmentTail(lessons: seq<Lesson>, quizzes: seq<Quiz>, i: nat)
    requires i < |lessons|
    ensures var seg := Segment(lessons, quizzes, i);
      |seg| == 1 + (if QuizDue(i, quizzes) then 1 else 0) + (if AdDue(i) then 1 else 0) &&
      (AdDue(i) ==> seg[|seg| - 1] == AdItem(PromoAd(i)))
  {
  }

  /** Lesson `i` sits at its position in the finished feed. */
  lemma LessonAtPos(lessons: seq<Lesson>, quizzes: seq<Quiz>, i: nat)
    requires i < |lessons|
    ensures var feed := FeedUpTo(lessons, quizzes, |lessons|);
      LessonPos(lessons, quizzes, i) < |feed| &&
      feed[LessonPos(lessons, quizzes, i)] == LessonItem(lessons[i])
  {
    var feed := FeedUpTo(lessons, quizzes, |lessons|);
    var seg := Segment(lessons, quizzes, i);
    SegmentInFeed(lessons, quizzes, i);
    SegmentShape(lessons, quizzes, i);
    assert feed[LessonPos(lessons, quizzes, i)] == seg[0];
  }

  /** The item right after lesson `i` is a quiz exactly when a quiz is due
      there, and then it is quiz `i / 5`. */
  lemma QuizPlacement(lessons: seq<Lesson>, quizzes: seq<Quiz>, i: nat)
    requires i < |lessons|
    ensures var feed := FeedUpTo(lessons, quizzes, |lessons|);
      var p := LessonPos(lessons, quizzes, i);
      p < |feed| && feed[p] == LessonItem(lessons[i]) &&
      ((p + 1 < |feed| && feed[p + 1].QuizItem?) <==> QuizDue(i, quizzes)) &&
      (QuizDue(i, quizzes) ==> feed[p + 1] == QuizItem(quizzes[i / 5]))
  {
    var feed := FeedUpTo(lessons, quizzes, |lessons|);
    var p := LessonPos(lessons, quizzes, i);
    var seg := Segment(lessons, quizzes, i);
    LessonAtPos(lessons, quizzes, i);
    SegmentInFeed(lessons, quizzes, i);
    SegmentShape(lessons, quizzes, i);
    if |seg| > 1 {
      assert feed[p + 1] == seg[1];
    } else if i + 1 < |lessons| {
      LessonAtPos(lessons, quizzes, i + 1);
      assert feed[p + 1].LessonItem?;
    } else {
      assert p + 1 == |feed|;
    }
  }

  /** The item after lesson `i` and its quiz (if any) is an ad exactly when an
      ad is due there, that ad is "ad-i", and the next lesson follows it: the
      builder inserts nothing else. */
  lemma AdPlacement(lessons: seq<Lesson>, quizzes: seq<Quiz>, i: nat)
    requires i < |lessons|
    ensures var feed := FeedUpTo(lessons, quizzes, |lessons|);
      var q := LessonPos(lessons, quizzes, i) + 1 + (if QuizDue(i, quizzes) then 1 else 0);
      ((q < |feed| && feed[q].AdItem?) <==> AdDue(i)) &&
      (AdDue(i) ==> feed[q] == AdItem(PromoAd(i))) &&
      LessonPos(lessons, quizzes, i + 1) == q + (if AdDue(i) then 1 else 0) &&
      (i + 1 < |lessons| ==> LessonPos(lessons, quizzes, i + 1) < |feed| &&
                             feed[LessonPos(lessons, quizzes, i + 1)] == LessonItem(lessons[i + 1]))
  {
    var feed := FeedUpTo(lessons, quizzes, |lessons|);
    var p := LessonPos(lessons, quizzes, i);
    var seg := Segment(lessons, quizzes, i);
    var q := p + 1 + (if QuizDue(i, quizzes) then 1 else 0);
    SegmentInFeed(lessons, quizzes, i);
    SegmentTail(lessons, quizzes, i);
    if i + 1 < |lessons| {
      LessonAtPos(lessons, quizzes, i + 1);
    }
    if AdDue(i) {
      assert feed[q] == seg[|seg| - 1];
    } else if i + 1 < |lessons| {
      assert feed[q].LessonItem?;
    } else {
      assert q == |feed|;
    }
  }

  /** The lessons of a list of items, in order. */
  function LessonsOf(items: seq<FeedItem>): (r: seq<Lesson>)
    ensures |r| <= |items|
  {
    if items == [] then []
    else (if items[0].LessonItem? then [items[0].lesson] else []) + LessonsOf(items[1..])
  }

  lemma {:induction false} LessonsOfAppend(a: seq<FeedItem>, b: seq<FeedItem>)
    ensures LessonsOf(a + b) == LessonsOf(a) + LessonsOf(b)
  {
    if a != [] {
      assert (a + b)[1..] == a[1..] + b;
      LessonsOfAppend(a[1..], b);
    } else {
      assert a + b == b;
    }
  }

  /** Every lesson appears in the feed exactly once, in its original order. */
  lemma {:induction false} LessonsInOrder(lessons: seq<Lesson>, quizzes: seq<Quiz>, n: nat)
    requires n <= |lessons|
    ensures LessonsOf(FeedUpTo(lessons, quizzes, n)) == lessons[..n]
  {
    if n > 0 {
      LessonsInOrder(lessons, quizzes, n - 1);
      var seg := Segment(lessons, quizzes, n - 1);
      LessonsOfAppend(FeedUpTo(lessons, quizzes, n - 1), seg);
      LessonsOfAppend([seg[0]], seg[1..]);
      assert seg == [seg[0]] + seg[1..];
      assert forall k :: 0 <= k < |seg[1..]| ==> !seg[1..][k].LessonItem?;
      LessonsOfNone(seg[1..]);
      assert lessons[..n] == lessons[..n - 1] + [lessons[n - 1]];
    }
  }

  lemma {:induction false} LessonsOfNone(items: seq<FeedItem>)
    requires forall k :: 0 <= k < |items| ==> !items[k].LessonItem?
    ensures LessonsOf(items) == []
  {
    if items != [] {
      LessonsOfNone(items[1..]);
    }
  }

  /** The bundled content (20 lessons, 10 quizzes) gives 25 items: quizzes
      after lessons 4, 9, 14 and 19 and one ad, "ad-14", after the quiz that
      follows lesson 14. */
  lemma BundledFeed(lessons: seq<Lesson>, quizzes: seq<Quiz>)
    requires |lessons| == 20 && |quizzes| == 10
    ensures var feed := FeedUpTo(lessons, quizzes, 20);
      |feed| == 25 &&
      feed[5] == QuizItem(quizzes[0]) && feed[11] == QuizItem(quizzes[1]) &&
      feed[17] == QuizItem(quizzes[2]) && feed[18] == AdItem(PromoAd(14)) &&
      feed[24] == QuizItem(quizzes[3]) && feed[18].ad.id == "ad-14"
  {
    FeedLength(lessons, quizzes, 20);
    FeedLength(lessons, quizzes, 4);
    FeedLength(lessons, quizzes, 9);
    FeedLength(lessons, quizzes, 14);
    FeedLength(lessons, quizzes, 19);
    QuizPlacement(lessons, quizzes, 4);
    QuizPlacement(lessons, quizzes, 9);
    QuizPlacement(lessons, quizzes, 14);
    QuizPlacement(lessons, quizzes, 19);
    AdPlacement(lessons, quizzes, 14);
    assert NatToString(14) == NatToString(1) + [DigitChar(4)];
  }

  // ---------------------------------------------------------------------------
  // Like and save

  /** `handleLike` on one lesson: the flag flips and the count follows it. */
  function ToggleLike(l: Lesson): (r: Lesson)
    ensures r.isLiked == !l.isLiked
    ensures r.likes == if r.isLiked then l.likes + 1 else l.likes - 1
    ensures r == l.(isLiked := r.isLiked, likes := r.likes)
  {
    var isLiked := !l.isLiked;
    l.(isLiked := isLiked, likes := l.likes + (if isLiked then 1 else -1))
  }

  /** `handleSave` on one lesson. */
  function ToggleSave(l: Lesson): (r: Lesson)
    ensures r.isSaved == !l.isSaved
    ensures r == l.(isSaved := r.isSaved)
  {
    l.(isSaved := !l.isSaved)
  }

  predicate IsLessonWithId(item: FeedItem, id: string)
  {
    item.LessonItem? && item.lesson.id == id
  }

  /** The `map` of `handleLike`: every lesson item with the id is toggled. */
  function Like(items: seq<FeedItem>, id: string): (r: seq<FeedItem>)
    ensures |r| == |items|
    ensures forall k :: 0 <= k < |items| && !IsLessonWithId(items[k], id) ==> r[k] == items[k]
    ensures forall k :: 0 <= k < |items| && IsLessonWithId(items[k], id) ==>
      r[k] == LessonItem(ToggleLike(items[k].lesson))
  {
    seq(|items|, k requires 0 <= k < |items| =>
      if IsLessonWithId(items[k], id) then LessonItem(ToggleLike(items[k].lesson)) else items[k])
  }

  /** The `map` of `handleSave`. */
  function Save(items: seq<FeedItem>, id: string): (r: seq<FeedItem>)
    ensures |r| == |items|
    ensures forall k :: 0 <= k < |items| && !IsLessonWithId(items[k], id) ==> r[k] == items[k]
    ensures forall k :: 0 <= k < |items| && IsLessonWithId(items[k], id) ==>
      r[k] == LessonItem(ToggleSave(items[k].lesson))
  {
    seq(|items|, k requires 0 <= k < |items| =>
      if IsLessonWithId(items[k], id) then LessonItem(ToggleSave(items[k].lesson)) else items[k])
  }

  /** Liking twice restores the flag and the count of every item. */
  lemma LikeTwice(items: seq<FeedItem>, id: string)
    ensures Like(Like(items, id), id) == items
  {
    var once := Like(items, id);
    var twice := Like(once, id);
    forall k | 0 <= k < |items| ensures twice[k] == items[k] {
      if IsLessonWithId(items[k], id) {
        assert IsLessonWithId(once[k], id);
      }
    }
  }

  /** Saving twice restores every item. */
  lemma SaveTwice(items: seq<FeedItem>, id: string)
    ensures Save(Save(items, id), id) == items
  {
    var once := Save(items, id);
    var twice := Save(once, id);
    forall k | 0 <= k < |items| ensures twice[k] == items[k] {
      if IsLessonWithId(items[k], id) {
        assert IsLessonWithId(once[k], id);
      }
    }
  }

  /** Saving never changes a like flag or a like count, nor the item kinds. */
  lemma SaveKeepsLikes(items: seq<FeedItem>, id: string)
    ensures var r := Save(items, id);
      forall k :: 0 <= k < |items| ==>
        r[k].LessonItem? == items[k].LessonItem? &&
        (r[k].LessonItem? ==> r[k].lesson.likes == items[k].lesson.likes &&
                              r[k].lesson.isLiked == items[k].lesson.isLiked &&
                              r[k].lesson.id == items[k].lesson.id)
  {
  }

  /** Liking keeps the feed's shape: the same kinds at the same positions, so
      lesson, quiz and ad positions proved for the built feed still hold. */
  lemma LikeKeepsShape(items: seq<FeedItem>, id: string)
    ensures var r := Like(items, id);
      forall k :: 0 <= k < |items| ==>
        r[k].LessonItem? == items[k].LessonItem? && r[k].QuizItem? == items[k].QuizItem? &&
        (r[k].LessonItem? ==> r[k].lesson.id == items[k].lesson.id && r[k].lesson.isSaved == items[k].lesson.isSaved)
  {
  }

  // ---------------------------------------------------------------------------
  // Toasts after like and save

  const LikedMessage := "Added to your liked lessons!"
  const UnlikedMessage := "Removed from liked lessons!"
  const SavedMessage := "Saved for later!"
  const UnsavedMessage := "Removed from saved lessons!"

  /** `items.find(item => item.type === "lesson" && item.data.id === id)?.data`. */
  function FindLesson(items: seq<FeedItem>, id: string): (r: Option<Lesson>)
    ensures r.None? <==> forall k :: 0 <= k < |items| ==> !IsLessonWithId(items[k], id)
    ensures r.Some? ==> r.value.id == id && LessonItem(r.value) in items
    ensures r.Some? ==> exists k :: 0 <= k < |items| && items[k] == LessonItem(r.value) &&
                          forall j :: 0 <= j < k ==> !IsLessonWithId(items[j], id)
  {
    if items == [] then None
    else if IsLessonWithId(items[0], id) then Some(items[0].lesson)
    else
      var r := FindLesson(items[1..], id);
      assert r.Some? ==> exists k :: 0 <= k < |items| && items[k] == LessonItem(r.value) &&
                          forall j :: 0 <= j < k ==> !IsLessonWithId(items[j], id) by {
        if r.Some? {
          var k :| 0 <= k < |items[1..]| && items[1..][k] == LessonItem(r.value) &&
                   forall j :: 0 <= j < k ==> !IsLessonWithId(items[1..][j], id);
          assert forall j :: 0 <= j < k + 1 ==> !IsLessonWithId(items[j], id) by {
            forall j | 0 <= j < k + 1 ensures !IsLessonWithId(items[j], id) {
              if j > 0 { assert items[j] == items[1..][j - 1]; }
            }
          }
        }
      }
      r
  }

  /** The lesson that `find` returns after a like is the toggled one it returned before. */
  lemma {:induction false} FindAfterLike(items: seq<FeedItem>, id: string)
    ensures FindLesson(Like(items, id), id) ==
      if FindLesson(items, id).Some? then Some(ToggleLike(FindLesson(items, id).value)) else None
  {
    if items != [] {
      assert Like(items, id)[1..] == Like(items[1..], id);
      FindAfterLike(items[1..], id);
      assert IsLessonWithId(Like(items, id)[0], id) <==> IsLessonWithId(items[0], id);
    }
  }

  /** The same for a save. */
  lemma {:induction false} FindAfterSave(items: seq<FeedItem>, id: string)
    ensures FindLesson(Save(items, id), id) ==
      if FindLesson(items, id).Some? then Some(ToggleSave(FindLesson(items, id).value)) else None
  {
    if items != [] {
      assert Save(items, id)[1..] == Save(items[1..], id);
      FindAfterSave(items[1..], id);
      assert IsLessonWithId(Save(items, id)[0], id) <==> IsLessonWithId(items[0], id);
    }
  }

  /** The like toast as written: chosen from the list captured before the
      toggle took effect. */
  function LikeToastAsWritten(items: seq<FeedItem>, id: string): string
  {
    var l := FindLesson(items, id);
    if l.Some? && l.value.isLiked then LikedMessage else UnlikedMessage
  }

  /** The save toast as written. */
  function SaveToastAsWritten(items: seq<FeedItem>, id: string): string
  {
    var l := FindLesson(items, id);
    if l.Some? && l.value.isSaved then SavedMessage else UnsavedMessage
  }

  /** As written, the like toast announces the opposite of what the click did. */
  lemma LikeToastAsWrittenInverted(items: seq<FeedItem>, id: string)
    requires FindLesson(items, id).Some?
    ensures var after := FindLesson(Like(items, id), id);
      after.Some? &&
      (LikeToastAsWritten(items, id) == LikedMessage <==> !after.value.isLiked)
  {
    FindAfterLike(items, id);
  }

  /** As written, the save toast announces the opposite of what the click did. */
  lemma SaveToastAsWrittenInverted(items: seq<FeedItem>, id: string)
    requires FindLesson(items, id).Some?
    ensures var after := FindLesson(Save(items, id), id);
      after.Some? &&
      (SaveToastAsWritten(items, id) == SavedMessage <==> !after.value.isSaved)
  {
    FindAfterSave(items, id);
  }

  /** The like toast read from the list after the toggle. */
  function LikeToast(items: seq<FeedItem>, id: string): string
  {
    var l := FindLesson(Like(items, id), id);
    if l.Some? && l.value.isLiked then LikedMessage else UnlikedMessage
  }

  /** The save toast read from the list after the toggle. */
  function SaveToast(items: seq<FeedItem>, id: string): string
  {
    var l := FindLesson(Save(items, id), id);
    if l.Some? && l.value.isSaved then SavedMessage else UnsavedMessage
  }

  /** "Added" is announced exactly when the click liked a lesson that was not liked. */
  lemma LikeToastMatchesClick(items: seq<FeedItem>, id: string)
    ensures LikeToast(items, id) == LikedMessage <==>
      FindLesson(items, id).Some? && !FindLesson(items, id).value.isLiked
  {
    FindAfterLike(items, id);
  }

  /** "Saved" is announced exactly when the click saved a lesson that was not saved. */
  lemma SaveToastMatchesClick(items: seq<FeedItem>, id: string)
    ensures SaveToast(items, id) == SavedMessage <==>
      FindLesson(items, id).Some? && !FindLesson(items, id).value.isSaved
  {
    FindAfterSave(items, id);
  }

  // ---------------------------------------------------------------------------
  // The playing index

  /** `currentIndex` lies in 0..max(0, length - 1). */
  predicate InRange(index: int, length: nat)
  {
    0 <= index && (index == 0 || index < length)
  }

  /** `if (currentIndex < feedItems.length - 1) setCurrentIndex(prev => prev + 1)`,
      read on the current index. */
  function Advance(index: int, length: nat): (r: int)
    ensures InRange(index, length) ==> InRange(r, length)
    ensures r == index || (r == index + 1 && r < length)
    ensures index < length - 1 ==> r == index + 1
  {
    if index < length - 1 then index + 1 else index
  }

  /** The answer timer as written: the guard reads the index and the length
      captured when the answer was given, while the increment applies to the
      index as it is when the timer fires. */
  function AnswerTimerAsWritten(capturedIndex: int, capturedLength: nat, index: int): int
  {
    if capturedIndex < capturedLength - 1 then index + 1 else index
  }

  /** Answering the quiz at position `length - 2` and skipping within the
      timer's delay moves the index past the last item. */
  lemma StaleAnswerTimerLeavesFeed(length: nat)
    requires length >= 2
    ensures var answeredAt := length - 2;
      var afterSkip := Advance(answeredAt, length);
      InRange(answeredAt, length) && afterSkip == length - 1 &&
      AnswerTimerAsWritten(answeredAt, length, afterSkip) == length &&
      !InRange(AnswerTimerAsWritten(answeredAt, length, afterSkip), length)
  {
  }

  /** Any run of skips and answer timers, each guarded on the index it moves,
      keeps the index in range. */
  lemma {:induction false} AdvancesStayInRange(index: int, length: nat, steps: nat)
    requires InRange(index, length)
    ensures InRange(AdvanceTimes(index, length, steps), length)
    decreases steps
  {
    if steps > 0 {
      AdvancesStayInRange(Advance(index, length), length, steps - 1);
    }
  }

  function AdvanceTimes(index: int, length: nat, steps: nat): int
    decreases steps
  {
    if steps == 0 then index else AdvanceTimes(Advance(index, length), length, steps - 1)
  }

  const QuizSkippedMessage := "Quiz skipped"
  const CorrectMessage := "Correct! Great job! \U{1F389}"
  const WrongMessage := "Not quite right. Keep learning! \U{1F4DA}"

  /** What an answer timer captured when it was started: the playing index
      and the feed's length at the time of the answer. */
  datatype Captured = Captured(index: int, length: nat)

  /** The feed component's state: the items and the playing index, plus the
      answer timers that have been started and not yet fired, in the order
      they fire. The handlers follow the corrected behaviour of the two
      findings (the toast read after the toggle, the timer guarded on the
      index it moves); their contracts also state how the code as written
      differs. */
  class FeedView {
    var items: seq<FeedItem>
    var currentIndex: int
    var pendingTimers: seq<Captured>

    ghost predicate Valid()
      reads this
    {
      InRange(currentIndex, |items|)
    }

    /** The first render: no items yet (the loading view) and index 0. */
    constructor ()
      ensures Valid()
      ensures items == [] && currentIndex == 0 && pendingTimers == []
    {
      items := [];
      currentIndex := 0;
      pendingTimers := [];
    }

    /** The loading view shows exactly while the list is empty. */
    predicate Loading()
      reads this
    {
      |items| == 0
    }

    /** `isPlaying={index === currentIndex}`. */
    predicate Playing(position: int)
      reads this
    {
      position == currentIndex
    }

    /** The mount effect stores the built feed. */
    method Load(lessons: seq<Lesson>, quizzes: seq<Quiz>)
      requires Valid() && items == []
      modifies this
      ensures Valid()
      ensures items == FeedUpTo(lessons, quizzes, |lessons|)
      ensures currentIndex == 0 && pendingTimers == old(pendingTimers)
    {
      items := BuildFeed(lessons, quizzes);
    }

    /** `handleLike`, corrected: the toast announces the state the click
        produced, which for a lesson in the feed is never the toast the code
        as written shows. */
    method HandleLike(id: string) returns (toast: string)
      requires Valid()
      modifies this
      ensures Valid()
      ensures items == Like(old(items), id) && toast == LikeToast(old(items), id)
      ensures toast == LikedMessage <==> FindLesson(old(items), id).Some? && !FindLesson(old(items), id).value.isLiked
      ensures FindLesson(old(items), id).Some? ==> toast != LikeToastAsWritten(old(items), id)
      ensures currentIndex == old(currentIndex) && pendingTimers == old(pendingTimers)
    {
      LikeToastMatchesClick(items, id);
      if FindLesson(items, id).Some? {
        LikeToastAsWrittenInverted(items, id);
      }
      toast := LikeToast(items, id);
      items := Like(items, id);
    }

    /** `handleSave`, corrected in the same way. */
    method HandleSave(id: string) returns (toast: string)
      requires Valid()
      modifies this
      ensures Valid()
      ensures items == Save(old(items), id) && toast == SaveToast(old(items), id)
      ensures toast == SavedMessage <==> FindLesson(old(items), id).Some? && !FindLesson(old(items), id).value.isSaved
      ensures FindLesson(old(items), id).Some? ==> toast != SaveToastAsWritten(old(items), id)
      ensures currentIndex == old(currentIndex) && pendingTimers == old(pendingTimers)
    {
      SaveToastMatchesClick(items, id);
      if FindLesson(items, id).Some? {
        SaveToastAsWrittenInverted(items, id);
      }
      toast := SaveToast(items, id);
      items := Save(items, id);
    }

    /** `handleQuizAnswer`: the verdict's toast now, and a 1500 ms timer that
        captures the current index and length. */
    method HandleQuizAnswer(correct: bool) returns (toast: string)
      requires Valid()
      modifies this
      ensures Valid()
      ensures toast == if correct then CorrectMessage else WrongMessage
      ensures pendingTimers == old(pendingTimers) + [Captured(old(currentIndex), |old(items)|)]
      ensures items == old(items) && currentIndex == old(currentIndex)
    {
      toast := if correct then CorrectMessage else WrongMessage;
      pendingTimers := pendingTimers + [Captured(currentIndex, |items|)];
    }

    /** The oldest answer timer fires, corrected: the guard reads the index it
        moves, so the index stays in range. Whenever the captured index and
        the current one give the guard the same answer, the code as written
        lands on the same index. */
    method FireAnswerTimer()
      requires Valid() && |pendingTimers| > 0
      modifies this
      ensures Valid()
      ensures currentIndex == Advance(old(currentIndex), |items|)
      ensures pendingTimers == old(pendingTimers)[1..] && items == old(items)
      ensures var t := old(pendingTimers)[0];
        (t.index < t.length - 1 <==> old(currentIndex) < |items| - 1) ==>
        AnswerTimerAsWritten(t.index, t.length, old(currentIndex)) == currentIndex
    {
      currentIndex := Advance(currentIndex, |items|);
      pendingTimers := pendingTimers[1..];
    }

    /** `handleQuizSkip`: a toast and one advance guarded on the current index. */
    method HandleQuizSkip() returns (toast: string)
      requires Valid()
      modifies this
      ensures Valid()
      ensures toast == QuizSkippedMessage
      ensures currentIndex == Advance(old(currentIndex), |items|)
      ensures items == old(items) && pendingTimers == old(pendingTimers)
    {
      toast := QuizSkippedMessage;
      currentIndex := Advance(currentIndex, |items|);
    }
  }
}
