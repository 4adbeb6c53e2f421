// src/components/feed/LessonCard.tsx: one lesson of the feed. The card
// abbreviates large like counts with a "k" suffix, and a `showCode` flag opens
// an overlay with the code snippet and the key takeaways.

module LessonCard {

  import opened Common
  import opened Text

  datatype Level = Beginner | Intermediate | Advanced

  datatype Lesson = Lesson(
    id: string,
    title: string,
    creator: string,
    language: string,
    topic: string,
    level: Level,
    duration: string,
    caption: string,
    codeSnippet: Option<string>,
    takeaways: Option<seq<string>>,
    likes: int,
    isLiked: bool,
    isSaved: bool)

  /** The like counter of both the mobile and the desktop action bar: counts
      up to 999 as they are, larger ones as whole thousands (rounded down)
      followed by "k". */
  function FormatLikes(likes: int): (r: string)
    ensures likes > 999 ==> |r| >= 2 && r[|r| - 1] == 'k' && r[..|r| - 1] == NatToString(likes / 1000)
    ensures likes <= 999 ==> r == IntToString(likes)
    ensures likes > 999 ==> Number(r[..|r| - 1]) == Some(likes / 1000)
    ensures 0 <= likes <= 999 ==> Number(r) == Some(likes)
  {
    if likes > 999 then
      NumberOfRendering(likes / 1000);
      var r := NatToString(likes / 1000) + "k";
      assert r[..|r| - 1] == NatToString(likes / 1000);
      r
    else IntToString(likes)
  }

  /** An abbreviated count reads back as the number of whole thousands, so it
      under-states the count by less than a thousand. */
  lemma LargeLikesReadBack(likes: int)
    requires likes > 999
    ensures var r := FormatLikes(likes);
      var shown := Number(r[..|r| - 1]).value;
      shown * 1000 <= likes < shown * 1000 + 1000
  {
  }

  /** 1999 likes are shown as "1k". */
  lemma FormatLikesExample()
    ensures FormatLikes(1999) == "1k" && FormatLikes(999) == "999"
  {
    assert NatToString(99) == NatToString(9) + [DigitChar(9)];
    assert NatToString(999) == NatToString(99) + [DigitChar(9)];
  }

  /** `showCode && lesson.codeSnippet`: an absent or empty snippet keeps the
      overlay closed. */
  function OverlayShown(showCode: bool, lesson: Lesson): (r: bool)
    ensures r <==> showCode && lesson.codeSnippet.Some? && |lesson.codeSnippet.value| > 0
  {
    showCode && lesson.codeSnippet.Some? && lesson.codeSnippet.value != ""
  }

  /** `lesson.takeaways && ...` inside the overlay: the takeaways are seen only
      with the code overlay open, and there even an empty list shows its
      heading. */
  function TakeawaysShown(showCode: bool, lesson: Lesson): (r: bool)
    ensures r ==> OverlayShown(showCode, lesson) && lesson.takeaways.Some?
    ensures OverlayShown(showCode, lesson) && lesson.takeaways == Some([]) ==> r
    ensures lesson.codeSnippet.None? ==> !r
  {
    OverlayShown(showCode, lesson) && lesson.takeaways.Some?
  }

  /** The code button flips `showCode` and the overlay's close button sets
      it to false: two presses of the code button restore the flag, closing
      always hides the overlay and its takeaways, and opening shows the
      overlay exactly for a non-empty snippet. */
  lemma CodeToggleRoundTrip(showCode: bool, lesson: Lesson)
    ensures Flip(Flip(showCode)) == showCode
    ensures !OverlayShown(false, lesson) && !TakeawaysShown(false, lesson)
    ensures OverlayShown(Flip(false), lesson) <==> lesson.codeSnippet.Some? && lesson.codeSnippet.value != ""
    ensures TakeawaysShown(Flip(false), lesson) <==> OverlayShown(Flip(false), lesson) && lesson.takeaways.Some?
  {
  }
}
