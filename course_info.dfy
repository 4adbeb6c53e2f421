// The numbers and strings the two course pages (src/pages/CourseDetail.tsx and
// src/pages/VideoCoursePage.tsx) derive from a course record in the same way:
// the count of completed entries, the progress percentage and whether it is
// positive, the collapsed description, and the instructor's initials.

module CourseInfo {

  import opened Common
  import opened Text

  /** A curriculum lesson or a playlist video. */
  datatype Entry = Entry(id: nat, title: string, duration: string, completed: bool)

  /** `list.filter(e => e.completed).length`. */
  function CompletedCount(entries: seq<Entry>): (n: nat)
    ensures n <= |entries|
    ensures n == 0 <==> forall e :: e in entries ==> !e.completed
  {
    CountExtremes(entries, (e: Entry) => e.completed);
    Count(entries, (e: Entry) => e.completed)
  }

  /** Marking one more entry completed raises the count by one. */
  lemma CompletingRaisesCount(before: seq<Entry>, e: Entry, after: seq<Entry>)
    requires !e.completed
    ensures CompletedCount(before + [e.(completed := true)] + after) ==
            CompletedCount(before + [e] + after) + 1
  {
    var p := (x: Entry) => x.completed;
    CountAppend(before + [e.(completed := true)], after, p);
    CountAppend(before, [e.(completed := true)], p);
    CountAppend(before + [e], after, p);
    CountAppend(before, [e], p);
    assert Filter([e], p) == [];
    assert Filter([e.(completed := true)], p) == [e.(completed := true)];
  }

  /** A list whose first `n` entries are completed and the rest not counts `n`. */
  lemma CompletedPrefixCount(entries: seq<Entry>, n: nat)
    requires n <= |entries|
    requires forall k :: 0 <= k < n ==> entries[k].completed
    requires forall k :: n <= k < |entries| ==> !entries[k].completed
    ensures CompletedCount(entries) == n
  {
    var p := (e: Entry) => e.completed;
    var done, rest := entries[..n], entries[n..];
    assert entries == done + rest;
    CountAppend(done, rest, p);
    FilterKeepsAll(done, p);
    assert forall e :: e in rest ==> !p(e);
    CountExtremes(rest, p);
  }

  /** `(completed / total) * 100` over the reals. */
  ghost function Percentage(completed: nat, total: nat): real
    requires total > 0
  {
    (completed as real / total as real) * 100.0
  }

  /** `progressPercentage > 0`. With a zero total JavaScript divides to
      Infinity when something is completed and to NaN otherwise, so the test
      again holds exactly when something is completed. */
  function ProgressShown(completed: nat, total: nat): (r: bool)
    ensures total > 0 ==> (r <==> Percentage(completed, total) > 0.0)
    ensures total == 0 ==> (r <==> completed > 0)
  {
    completed > 0
  }

  /** The percentage stays within 0..100 when the total counts at least the completed entries. */
  lemma PercentageAtMostHundred(completed: nat, total: nat)
    requires 0 < total && completed <= total
    ensures 0.0 <= Percentage(completed, total) <= 100.0
  {
    assert completed as real / total as real <= 1.0;
  }

  /** The collapsed description: at most the first 120 characters, then "...",
      which is appended even when nothing was cut. */
  function Collapsed(description: string): (r: string)
    ensures |r| == Min(120, |description|) + 3
    ensures r[..|r| - 3] <= description && r[|r| - 3..] == "..."
    ensures |description| <= 120 ==> r == description + "..."
  {
    description[..Min(120, |description|)] + "..."
  }

  function DescriptionText(description: string, showFull: bool): string
  {
    if showFull then description else Collapsed(description)
  }

  /** `n[0]` of a word, which is `undefined` for an empty word and then joins as nothing. */
  function FirstChar(word: string): (r: string)
    ensures |r| <= 1
    ensures word == "" ==> r == ""
    ensures word != "" ==> r == [word[0]]
  {
    if word == "" then "" else [word[0]]
  }

  /** The first characters of the words, concatenated. */
  function InitialsOf(words: seq<string>): (r: string)
    ensures |r| <= |words|
    ensures (forall k :: 0 <= k < |words| ==> words[k] != "") ==>
      |r| == |words| && forall k :: 0 <= k < |words| ==> r[k] == words[k][0]
  {
    if words == [] then "" else FirstChar(words[0]) + InitialsOf(words[1..])
  }

  /** `instructor.split(' ').map(n => n[0]).join('')`. */
  function Initials(name: string): string
  {
    InitialsOf(Split(name, ' '))
  }

  /** A name made of non-empty words joined by single spaces gets one initial
      per word: the first letter of each word, in order. */
  lemma InitialsOfWords(words: seq<string>)
    requires |words| >= 1
    requires forall k :: 0 <= k < |words| ==> words[k] != "" && ' ' !in words[k]
    ensures |Initials(Join(words, " "))| == |words|
    ensures forall k :: 0 <= k < |words| ==> Initials(Join(words, " "))[k] == words[k][0]
  {
    SplitJoinRoundTrip(words, ' ');
  }
}
