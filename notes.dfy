// src/pages/NotesPage.tsx: the study notes of a lesson. Two lessons have
// notes of their own and every other id gets a default. The download button
// builds a plain-text export and a file name from the title; the bookmark
// button flips the saved flag.

module Notes {

  import opened Common
  import opened Text

  datatype Section = Section(title: string, content: string, codeExample: string)

  datatype NotesContent = NotesContent(
    title: string,
    language: string,
    level: string,
    duration: string,
    overview: string,
    sections: seq<Section>,
    keyPoints: seq<string>,
    exercises: seq<string>)

  const Notes1 := NotesContent(
    "Python For Loops", "Python", "Beginner", "25 minutes",
    "Master the fundamentals of Python for loops and iteration patterns.",
    [
      Section("Basic For Loop Syntax",
        "The for loop in Python is used to iterate over sequences like lists, tuples, strings, and ranges.",
        "for item in sequence:\n    # do something with item\n    print(item)\n\n# Example with range\nfor i in range(5):\n    print(f\"Number: {i}\")"),
      Section("Iterating Over Lists",
        "The most common use case is iterating over list elements.",
        "fruits = ['apple', 'banana', 'cherry']\nfor fruit in fruits:\n    print(f\"I like {fruit}\")\n\n# With index using enumerate\nfor index, fruit in enumerate(fruits):\n    print(f\"{index}: {fruit}\")"),
      Section("Loop Control Statements",
        "Use break and continue to control loop execution.",
        "for i in range(10):\n    if i == 3:\n        continue  # Skip 3\n    if i == 7:\n        break     # Stop at 7\n    print(i)")
    ],
    [
      "For loops iterate over sequences automatically",
      "Use enumerate() to get both index and value",
      "break exits the loop, continue skips to next iteration",
      "range() generates number sequences for loops"
    ],
    [
      "Create a loop that prints numbers 1-10",
      "Iterate over a list of names and print greetings",
      "Use a loop to calculate the sum of numbers 1-100"
    ])

  const Notes2 := NotesContent(
    "Python List Comprehensions", "Python", "Intermediate", "30 minutes",
    "Learn to write concise and powerful list comprehensions in Python.",
    [
      Section("Basic List Comprehension",
        "List comprehensions provide a concise way to create lists based on existing sequences.",
        "# Traditional way\nsquares = []\nfor x in range(10):\n    squares.append(x**2)\n\n# List comprehension way\nsquares = [x**2 for x in range(10)]"),
      Section("Conditional List Comprehensions",
        "Add conditions to filter elements during list creation.",
        "# Only even squares\neven_squares = [x**2 for x in range(10) if x % 2 == 0]\n\n# With if-else\nnumbers = [x if x > 0 else 0 for x in range(-5, 6)]")
    ],
    [
      "List comprehensions are more concise than traditional loops",
      "They can include conditions for filtering",
      "Use if-else for transforming values conditionally",
      "They're generally faster than equivalent for loops"
    ],
    [
      "Create a list of squares for even numbers 1-20",
      "Filter a list of words to only include those longer than 5 characters",
      "Transform a list of temperatures from Celsius to Fahrenheit"
    ])

  /** `notesContent`. */
  const NotesData: map<string, NotesContent> := map["1" := Notes1, "2" := Notes2]

  /** The notes of a lesson without notes of its own. */
  const DefaultNotes := NotesContent(
    "Lesson Notes", "General", "Beginner", "20 minutes",
    "Comprehensive notes for this coding lesson.",
    [Section("Introduction",
       "This lesson covers fundamental programming concepts with practical examples.",
       "// Code examples will appear here\nconsole.log('Hello, World!');")],
    ["Understanding core concepts is essential",
     "Practice with real examples",
     "Apply knowledge in projects"],
    ["Complete the practice exercises",
     "Build a small project using these concepts"])

  /** `notesContent[lessonId] || default`: lessons "1" and "2" get their own
      notes, every other id the default. */
  function LookupNotes(lessonId: string): (r: NotesContent)
    ensures lessonId in NotesData ==> r == NotesData[lessonId]
    ensures lessonId !in NotesData ==> r == DefaultNotes
    ensures r == DefaultNotes <==> lessonId != "1" && lessonId != "2"
  {
    if lessonId in NotesData then NotesData[lessonId] else DefaultNotes
  }

  /** Any id but "1" and "2" gets the default "Lesson Notes". */
  lemma UnknownLessonGetsDefault(lessonId: string)
    ensures LookupNotes(lessonId).title == "Lesson Notes" <==> lessonId != "1" && lessonId != "2"
  {
  }

  function SectionText(s: Section): string
  {
    s.title + "\n" + s.content + "\n" + s.codeExample
  }

  /** A key point in the export. */
  function Bullet(point: string): string
  {
    "\U{2022} " + point
  }

  /** Exercise `k` (from 0) in the export, numbered from 1 like the page's `index + 1`. */
  function NumberedExercise(k: nat, exercise: string): string
  {
    NatToString(k + 1) + ". " + exercise
  }

  function Bullets(points: seq<string>): seq<string>
  {
    seq(|points|, k requires 0 <= k < |points| => Bullet(points[k]))
  }

  function NumberedExercises(exercises: seq<string>): seq<string>
  {
    seq(|exercises|, k requires 0 <= k < |exercises| => NumberedExercise(k, exercises[k]))
  }

  /** The sections, each as title, content and code on three lines, separated by blank lines. */
  function SectionsText(sections: seq<Section>): string
  {
    Join(seq(|sections|, k requires 0 <= k < |sections| => SectionText(sections[k])), "\n\n")
  }

  const KeyPointsHeading := "Key Points:"
  const ExercisesHeading := "Exercises:"

  /** The end of the export: the key points as bullets, then the exercises numbered from 1. */
  function ClosingTemplate(n: NotesContent): string
  {
    KeyPointsHeading + "\n" + Join(Bullets(n.keyPoints), "\n")
    + "\n\n" + ExercisesHeading + "\n" + Join(NumberedExercises(n.exercises), "\n")
  }

  /** The text the download button saves. */
  function ExportText(n: NotesContent): string
  {
    n.title + "\n\n" + n.overview + "\n\n" + SectionsText(n.sections) + "\n\n" + ClosingTemplate(n)
  }

  /** The export opens with the title, a blank line, the overview and a
      blank line: read line by line, those are its first four lines. */
  lemma ExportOpening(n: NotesContent)
    requires '\n' !in n.title && '\n' !in n.overview
    ensures |Split(ExportText(n), '\n')| >= 4
    ensures Split(ExportText(n), '\n')[..4] == [n.title, "", n.overview, ""]
  {
    var rest := SectionsText(n.sections) + "\n\n" + ClosingTemplate(n);
    assert ExportText(n) == n.title + "\n\n" + n.overview + "\n\n" + rest;
    OpeningLines(n.title, n.overview, rest);
  }

  /** The lines that close the export: the key points as bullets, a blank
      line, then the exercises numbered from 1. */
  function ClosingLines(n: NotesContent): seq<string>
  {
    [KeyPointsHeading] + Bullets(n.keyPoints) + ["", ExercisesHeading] + NumberedExercises(n.exercises)
  }

  /** Joined into one text, the closing lines are the export's closing template. */
  lemma ClosingText(n: NotesContent)
    requires |n.keyPoints| >= 1 && |n.exercises| >= 1
    ensures Join(ClosingLines(n), "\n") == ClosingTemplate(n)
  {
    var b, x := Bullets(n.keyPoints), NumberedExercises(n.exercises);
    var jb, jx := Join(b, "\n"), Join(x, "\n");
    var kp: seq<string> := [KeyPointsHeading];
    var ex: seq<string> := ["", ExercisesHeading];
    assert kp + b + (ex + x) == ClosingLines(n);
    JoinAppend(kp, b, "\n");
    JoinAppend(ex, x, "\n");
    JoinAppend(kp + b, ex + x, "\n");
    assert Join(ex, "\n") == "" + "\n" + ExercisesHeading;
    assert "\n" + ("" + "\n") == "\n\n";
    calc {
      Join(ClosingLines(n), "\n");
      (KeyPointsHeading + "\n" + jb) + "\n" + (("" + "\n" + ExercisesHeading) + "\n" + jx);
      KeyPointsHeading + "\n" + jb + ("\n" + ("" + "\n")) + ExercisesHeading + "\n" + jx;
      KeyPointsHeading + "\n" + jb + "\n\n" + ExercisesHeading + "\n" + jx;
    }
  }

  /** After the sections and a blank line the export ends with the closing lines. */
  lemma ExportClosing(n: NotesContent)
    requires |n.keyPoints| >= 1 && |n.exercises| >= 1
    ensures exists head :: ExportText(n) == head + "\n\n" + Join(ClosingLines(n), "\n")
  {
    var head := n.title + "\n\n" + n.overview + "\n\n" + SectionsText(n.sections);
    ClosingText(n);
    assert ExportText(n) == head + "\n\n" + Join(ClosingLines(n), "\n");
  }

  /** Read line by line, the closing lines come back one per key point, each
      after "• ", and one per exercise, each after its number. */
  lemma ClosingLinesSplit(n: NotesContent)
    requires forall k :: 0 <= k < |n.keyPoints| ==> '\n' !in n.keyPoints[k]
    requires forall k :: 0 <= k < |n.exercises| ==> '\n' !in n.exercises[k]
    ensures Split(Join(ClosingLines(n), "\n"), '\n') == ClosingLines(n)
  {
    var b := Bullets(n.keyPoints);
    var lines := ClosingLines(n);
    forall k | 0 <= k < |lines| ensures '\n' !in lines[k] {
      if 1 <= k < 1 + |b| {
        assert lines[k] == Bullet(n.keyPoints[k - 1]);
      } else if 3 + |b| <= k {
        var j := k - 3 - |b|;
        assert lines[k] == NatToString(j + 1) + ". " + n.exercises[j];
      }
    }
    SplitJoinRoundTrip(lines, '\n');
  }

  /** Cutting an exported exercise line at its first '.' gives back its
      on-screen number. */
  lemma ExerciseNumberReadsBack(exercises: seq<string>, k: nat)
    requires k < |exercises|
    ensures Number(Split(NumberedExercises(exercises)[k], '.')[0]) == Some(k + 1)
  {
    var digits := NatToString(k + 1);
    assert forall i :: 0 <= i < |digits| ==> IsDigit(digits[i]);
    assert NumberedExercises(exercises)[k] == digits + ['.'] + (" " + exercises[k]);
    SplitAfterPiece(digits, " " + exercises[k], '.');
    NumberOfRendering(k + 1);
  }

  /** The download name: each whitespace run of the title becomes "_", then "_notes.txt". */
  function DownloadName(title: string): (r: string)
    ensures NoSpace(r)
  {
    ReplaceLeavesNoSpace(title, "_");
    ReplaceSpaceRuns(title, "_") + "_notes.txt"
  }

  /** A title of words separated by single spaces gets them joined by "_". */
  lemma DownloadNameOfWords(words: seq<string>)
    requires forall k :: 0 <= k < |words| ==> words[k] != [] && NoSpace(words[k])
    ensures DownloadName(Join(words, " ")) == Join(words, "_") + "_notes.txt"
  {
    ReplaceJoinedWords(words, "_");
  }

  lemma BundledDownloadName()
    ensures DownloadName(Notes1.title) == "Python_For_Loops_notes.txt"
  {
    assert Notes1.title == "Python For Loops";
    ThreeWordName();
  }

  /** "Python For Loops" is saved as "Python_For_Loops_notes.txt". */
  lemma ThreeWordName()
    ensures DownloadName("Python For Loops") == "Python_For_Loops_notes.txt"
  {
    var words := ["Python", "For", "Loops"];
    ThreeWordsNoSpace(words);
    assert words[1..] == ["For", "Loops"] && words[1..][1..] == ["Loops"];
    assert Join(words, " ") == "Python For Loops";
    assert Join(words, "_") + "_notes.txt" == "Python_For_Loops_notes.txt";
    DownloadNameOfWords(words);
  }

  lemma ThreeWordsNoSpace(words: seq<string>)
    requires words == ["Python", "For", "Loops"]
    ensures forall k :: 0 <= k < |words| ==> words[k] != [] && NoSpace(words[k])
  {
    assert NoSpace("Python") && NoSpace("For") && NoSpace("Loops");
  }

  /** The bookmark after `clicks` clicks: `savedNotes` starts false and each
      click sets it to `!savedNotes`. */
  function SavedAfter(clicks: nat): bool
  {
    if clicks == 0 then false else Flip(SavedAfter(clicks - 1))
  }

  /** The bookmark is filled exactly after an odd number of clicks, so two
      more clicks always restore it. */
  lemma {:induction false} SavedAfterClicks(clicks: nat)
    ensures SavedAfter(clicks) <==> clicks % 2 == 1
    ensures SavedAfter(clicks + 2) == SavedAfter(clicks)
  {
    if clicks > 0 {
      SavedAfterClicks(clicks - 1);
    }
  }
}
