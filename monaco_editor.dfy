// src/components/practice/MonacoEditor.tsx: the exercise workspace. Choosing
// an exercise resets the editor; Run shapes one result per test after a delay
// (the pass/fail of each test comes from `Math.random`, here an input) and
// reports completion when all passed; the hint button reveals hints one by one.

module MonacoEditor {

  import opened Common
  import opened Text

  datatype Difficulty = Easy | Medium | Hard

  datatype Test = Test(input: string, expected: string, description: string)

  datatype Exercise = Exercise(
    id: string,
    title: string,
    description: string,
    language: string,
    difficulty: Difficulty,
    starterCode: string,
    solution: string,
    tests: seq<Test>,
    hints: seq<string>)

  datatype TestResult = TestResult(passed: bool, output: string, expected: string, description: string)

  /** The `map` of `runCode`: result `k` reports the random verdict `passes[k]`,
      the mock output "Mock output k+1", and test `k`'s expectation. */
  function ShapeResults(tests: seq<Test>, passes: seq<bool>): (r: seq<TestResult>)
    requires |passes| == |tests|
    ensures |r| == |tests|
    ensures forall k :: 0 <= k < |r| ==>
      r[k].passed == passes[k] && r[k].expected == tests[k].expected &&
      r[k].description == tests[k].description
  {
    seq(|tests|, k requires 0 <= k < |tests| =>
      TestResult(passes[k], "Mock output " + NatToString(k + 1), tests[k].expected, tests[k].description))
  }

  /** `results.every(r => r.passed)`. */
  predicate AllPassed(results: seq<TestResult>)
  {
    forall k :: 0 <= k < |results| ==> results[k].passed
  }

  /** The outputs are numbered from 1 and no two results share an output. */
  lemma OutputsNumbered(tests: seq<Test>, passes: seq<bool>, j: nat, k: nat)
    requires |passes| == |tests| && j < |tests| && k < |tests|
    ensures ShapeResults(tests, passes)[k].output == "Mock output " + NatToString(k + 1)
    ensures j != k ==> ShapeResults(tests, passes)[j].output != ShapeResults(tests, passes)[k].output
  {
    var r := ShapeResults(tests, passes);
    if j != k && r[j].output == r[k].output {
      var prefix := "Mock output ";
      assert r[j].output[|prefix|..] == NatToString(j + 1);
      assert r[k].output[|prefix|..] == NatToString(k + 1);
      NatToStringInjective(j + 1, k + 1);
    }
  }

  /** Completion follows exactly the random verdicts: every test passed. An
      exercise without tests completes on every run. */
  lemma CompletionIff(tests: seq<Test>, passes: seq<bool>)
    requires |passes| == |tests|
    ensures AllPassed(ShapeResults(tests, passes)) <==> forall k :: 0 <= k < |passes| ==> passes[k]
    ensures tests == [] ==> AllPassed(ShapeResults(tests, passes))
  {
  }

  /** The "All tests passed!" banner: inside the results panel, which needs results. */
  function BannerShown(results: seq<TestResult>): (r: bool)
    ensures r ==> |results| > 0
    ensures r <==> |results| > 0 && forall k :: 0 <= k < |results| ==> results[k].passed
  {
    |results| > 0 && AllPassed(results)
  }

  function DifficultyColor(d: Difficulty): string
  {
    match d
    case Easy => "bg-success/10 text-success border-success/20"
    case Medium => "bg-warning/10 text-warning border-warning/20"
    case Hard => "bg-destructive/10 text-destructive border-destructive/20"
  }

  // ---------------------------------------------------------------------------
  // The hint counter

  /** `getHint` as written: advance while below the last hint, then show. */
  function GetHintAsWritten(currentHint: nat, hintCount: nat): (r: (nat, bool))
  {
    (if currentHint < hintCount - 1 then currentHint + 1 else currentHint, true)
  }

  /** The hint index after `clicks` presses from the reset state, as written. */
  function HintAfterClicksAsWritten(hintCount: nat, clicks: nat): nat
  {
    if clicks == 0 then 0 else GetHintAsWritten(HintAfterClicksAsWritten(hintCount, clicks - 1), hintCount).0
  }

  lemma {:induction false} HintAfterClicksAsWrittenIs(hintCount: nat, clicks: nat)
    requires hintCount >= 1
    ensures HintAfterClicksAsWritten(hintCount, clicks) == Min(clicks, hintCount - 1)
  {
    if clicks > 0 {
      HintAfterClicksAsWrittenIs(hintCount, clicks - 1);
    }
  }

  /** As written, with two or more hints the first press already shows
      hint 2, and no number of presses ever shows hint 1. */
  lemma FirstHintNeverShownAsWritten(hintCount: nat, clicks: nat)
    requires hintCount >= 2 && clicks >= 1
    ensures HintAfterClicksAsWritten(hintCount, 1) == 1
    ensures HintAfterClicksAsWritten(hintCount, clicks) != 0
  {
    HintAfterClicksAsWrittenIs(hintCount, 1);
    HintAfterClicksAsWrittenIs(hintCount, clicks);
  }

  /** The hint button: the first press reveals the current hint, later presses
      advance while a further hint exists. */
  function GetHint(currentHint: nat, showHints: bool, hintCount: nat): (r: (nat, bool))
    ensures r.1
    ensures currentHint < hintCount ==> r.0 < hintCount
    ensures !showHints ==> r.0 == currentHint
  {
    if !showHints then (currentHint, true)
    else if currentHint < hintCount - 1 then (currentHint + 1, true)
    else (currentHint, true)
  }

  /** The hint shown after `clicks` presses from the reset state. */
  function HintAfterClicks(hintCount: nat, clicks: nat): (nat, bool)
  {
    if clicks == 0 then (0, false)
    else
      var prev := HintAfterClicks(hintCount, clicks - 1);
      GetHint(prev.0, prev.1, hintCount)
  }

  /** Press `k` shows hint `k` (counting from 1) until the last hint, which
      then stays; so every hint is shown, in order. */
  lemma {:induction false} HintsShownInOrder(hintCount: nat, clicks: nat)
    requires hintCount >= 1 && clicks >= 1
    ensures HintAfterClicks(hintCount, clicks) == (Min(clicks - 1, hintCount - 1), true)
  {
    if clicks > 1 {
      HintsShownInOrder(hintCount, clicks - 1);
    }
  }

  /** The editor's state fields, plus the tests a run in flight captured. */
  class Editor {
    var exercise: Exercise
    var code: string
    var isRunning: bool
    var results: seq<TestResult>
    var showHints: bool
    var currentHint: nat
    var runTests: seq<Test>

    /** The hint index names an existing hint (or is 0), and hints show only
        when there are some. */
    ghost predicate Valid()
      reads this
    {
      && (currentHint == 0 || currentHint < |exercise.hints|)
      && (showHints ==> currentHint < |exercise.hints|)
    }

    constructor (ex: Exercise)
      ensures Valid()
      ensures exercise == ex && code == ex.starterCode && !isRunning && results == []
      ensures !showHints && currentHint == 0
    {
      exercise := ex;
      code := ex.starterCode;
      isRunning := false;
      results := [];
      showHints := false;
      currentHint := 0;
      runTests := [];
    }

    /** The hint on display, if any. */
    function ShownHint(): Option<string>
      reads this
      requires Valid()
    {
      if showHints then Some(exercise.hints[currentHint]) else None
    }

    /** `disabled={currentHint >= exercise.hints.length}`. */
    predicate HintButtonEnabled()
      reads this
    {
      currentHint < |exercise.hints|
    }

    /** The hint button is disabled only on an exercise without hints. */
    lemma HintButtonDisabledIff()
      requires Valid()
      ensures !HintButtonEnabled() <==> |exercise.hints| == 0
    {
    }

    /** The reset effect when a different exercise is passed in. */
    method SelectExercise(ex: Exercise)
      requires Valid()
      modifies this
      ensures Valid()
      ensures exercise == ex && code == ex.starterCode && results == []
      ensures !showHints && currentHint == 0
      ensures isRunning == old(isRunning) && runTests == old(runTests)
    {
      exercise := ex;
      code := ex.starterCode;
      results := [];
      showHints := false;
      currentHint := 0;
    }

    method EditCode(text: string)
      requires Valid()
      modifies this
      ensures Valid()
      ensures code == text
      ensures exercise == old(exercise) && results == old(results) && isRunning == old(isRunning)
      ensures showHints == old(showHints) && currentHint == old(currentHint)
    {
      code := text;
    }

    method ClickHint()
      requires Valid() && HintButtonEnabled()
      modifies this
      ensures Valid()
      ensures (currentHint, showHints) == GetHint(old(currentHint), old(showHints), |exercise.hints|)
      ensures exercise == old(exercise) && code == old(code) && results == old(results)
      ensures isRunning == old(isRunning)
    {
      var next := GetHint(currentHint, showHints, |exercise.hints|);
      currentHint := next.0;
      showHints := next.1;
    }

    /** Run, disabled while a run is in flight: the run captures the current tests. */
    method StartRun()
      requires Valid() && !isRunning
      modifies this
      ensures Valid()
      ensures isRunning && runTests == old(exercise.tests)
      ensures exercise == old(exercise) && code == old(code) && results == old(results)
      ensures showHints == old(showHints) && currentHint == old(currentHint)
    {
      isRunning := true;
      runTests := exercise.tests;
    }

    /** The delay ends: the results are stored and `onComplete` fires when all passed. */
    method FinishRun(passes: seq<bool>) returns (completed: bool)
      requires Valid() && isRunning && |passes| == |runTests|
      modifies this
      ensures Valid()
      ensures results == ShapeResults(old(runTests), passes) && !isRunning
      ensures completed <==> forall k :: 0 <= k < |passes| ==> passes[k]
      ensures exercise == old(exercise) && code == old(code)
      ensures showHints == old(showHints) && currentHint == old(currentHint)
    {
      results := ShapeResults(runTests, passes);
      isRunning := false;
      completed := AllPassed(results);
    }
  }
}
