// src/pages/Practice.tsx: the desktop practice page. Topic tabs pick a list of
// problems, a problem card selects a problem and loads its starter code, and
// Run shows a fixed success text after a delay whatever the code is.

module Practice {

  import opened MonacoEditor

  datatype Problem = Problem(
    id: string,
    title: string,
    difficulty: Difficulty,
    topic: string,
    description: string,
    starterCode: string,
    hints: seq<string>)

  const Py1 := Problem("py1", "List Comprehensions", Easy, "Python",
    "Create a list comprehension that filters even numbers from a list and squares them.",
    "def filter_and_square(nums):\n    # Use list comprehension\n    pass",
    ["Use the syntax [expression for item in list if condition]",
     "Check if number % 2 == 0 for even numbers"])

  const Py2 := Problem("py2", "Dictionary Merging", Medium, "Python",
    "Write a function to merge two dictionaries, combining values for duplicate keys.",
    "def merge_dicts(dict1, dict2):\n    # Your code here\n    pass",
    ["Use the ** operator or dict.update()",
     "Handle duplicate keys by summing values"])

  const React1 := Problem("react1", "useState Hook", Easy, "React",
    "Create a counter component using the useState hook with increment and decrement buttons.",
    "import { useState } from 'react';\n\nfunction Counter() {\n  // Your code here\n}",
    ["Initialize state with useState(0)",
     "Create functions to update state with prevState => prevState + 1"])

  const React2 := Problem("react2", "useEffect Hook", Medium, "React",
    "Implement a component that fetches data when it mounts using useEffect.",
    "import { useState, useEffect } from 'react';\n\nfunction DataFetcher() {\n  // Your code here\n}",
    ["Use an empty dependency array [] to run only on mount",
     "Don't forget to handle loading and error states"])

  const Ml1 := Problem("ml1", "Linear Regression", Medium, "Machine Learning",
    "Implement a simple linear regression model using gradient descent.",
    "import numpy as np\n\ndef linear_regression(X, y, learning_rate, iterations):\n    # Your code here\n    pass",
    ["Initialize weights and bias to zeros",
     "Calculate gradients and update parameters iteratively"])

  const Ml2 := Problem("ml2", "K-Means Clustering", Hard, "Machine Learning",
    "Implement the K-means clustering algorithm from scratch.",
    "import numpy as np\n\ndef kmeans(X, k, max_iters):\n    # Your code here\n    pass",
    ["Randomly initialize k centroids",
     "Alternate between assigning points to clusters and updating centroids"])

  /** `problemsByTopic`, keyed by the tab values. */
  const ProblemsByTopic: map<string, seq<Problem>> :=
    map["Python" := [Py1, Py2], "React" := [React1, React2], "ML" := [Ml1, Ml2]]

  /** The text a run always ends with. */
  const RunOutput := "\U{2705} All test cases passed!\n\nOutput:\n[0, 1]\n\nExecution time: 42ms"

  /** `allProblems`: the topic's problems, or none for a topic without an
      entry. Exactly the three tab values have problems, two each. */
  function ProblemsFor(topic: string): (r: seq<Problem>)
    ensures topic !in ProblemsByTopic ==> r == []
    ensures topic in ProblemsByTopic ==> r == ProblemsByTopic[topic]
    ensures |r| > 0 <==> topic == "Python" || topic == "React" || topic == "ML"
    ensures |r| == 0 || |r| == 2
  {
    if topic in ProblemsByTopic then ProblemsByTopic[topic] else []
  }

  /** Only the three tab values have problems; the ML problems' own topic
      label "Machine Learning" is not a key. */
  lemma TopicsWithProblems(topic: string)
    ensures |ProblemsFor(topic)| > 0 <==> topic == "Python" || topic == "React" || topic == "ML"
    ensures ProblemsFor("Machine Learning") == []
  {
  }

  /** No two problems of a tab share an id. */
  lemma IdsDistinctWithinTopic(topic: string, i: nat, j: nat)
    requires i < j < |ProblemsFor(topic)|
    ensures ProblemsFor(topic)[i].id != ProblemsFor(topic)[j].id
  {
  }

  class PracticePage {
    var activeTopic: string
    var selectedProblem: Problem
    var code: string
    var showHints: bool
    var isRunning: bool
    var result: string

    constructor ()
      ensures activeTopic == "Python" && selectedProblem == Py1 && code == Py1.starterCode
      ensures !showHints && !isRunning && result == ""
      ensures AllProblems() == [Py1, Py2]
    {
      activeTopic := "Python";
      selectedProblem := Py1;
      code := Py1.starterCode;
      showHints := false;
      isRunning := false;
      result := "";
    }

    function AllProblems(): seq<Problem>
      reads this
    {
      ProblemsFor(activeTopic)
    }

    /** A card is highlighted when its id is the selected problem's id. */
    predicate Highlighted(p: Problem)
      reads this
    {
      selectedProblem.id == p.id
    }

    /** `handleProblemSelect` from a card of the active tab: the card's problem
        becomes the only highlighted card of the tab. */
    method SelectProblem(k: nat)
      requires k < |AllProblems()|
      modifies this
      ensures selectedProblem == old(AllProblems())[k] && code == selectedProblem.starterCode
      ensures result == "" && !showHints
      ensures activeTopic == old(activeTopic) && isRunning == old(isRunning)
      ensures forall j :: 0 <= j < |AllProblems()| ==> (Highlighted(AllProblems()[j]) <==> j == k)
    {
      selectedProblem := AllProblems()[k];
      code := selectedProblem.starterCode;
      result := "";
      showHints := false;
      forall j | 0 <= j < |AllProblems()| ensures Highlighted(AllProblems()[j]) <==> j == k {
        if j < k {
          IdsDistinctWithinTopic(activeTopic, j, k);
        } else if k < j {
          IdsDistinctWithinTopic(activeTopic, k, j);
        }
      }
    }

    /** A topic tab changes only the list; the open problem and its code stay. */
    method SetTopic(topic: string)
      modifies this
      ensures activeTopic == topic && AllProblems() == ProblemsFor(topic)
      ensures selectedProblem == old(selectedProblem) && code == old(code)
      ensures showHints == old(showHints) && isRunning == old(isRunning) && result == old(result)
    {
      activeTopic := topic;
    }

    method EditCode(text: string)
      modifies this
      ensures code == text
      ensures activeTopic == old(activeTopic) && selectedProblem == old(selectedProblem)
      ensures showHints == old(showHints) && isRunning == old(isRunning) && result == old(result)
    {
      code := text;
    }

    method ToggleHints()
      modifies this
      ensures showHints == !old(showHints)
      ensures activeTopic == old(activeTopic) && selectedProblem == old(selectedProblem) && code == old(code)
      ensures isRunning == old(isRunning) && result == old(result)
    {
      showHints := !showHints;
    }

    /** Run Code, disabled while running: clear the result and start running. */
    method StartRun()
      requires !isRunning
      modifies this
      ensures isRunning && result == ""
      ensures activeTopic == old(activeTopic) && selectedProblem == old(selectedProblem) && code == old(code)
      ensures showHints == old(showHints)
    {
      isRunning := true;
      result := "";
    }

    /** The delay ends: the fixed success text, whatever the code or problem. */
    method FinishRun()
      requires isRunning
      modifies this
      ensures !isRunning && result == RunOutput
      ensures activeTopic == old(activeTopic) && selectedProblem == old(selectedProblem) && code == old(code)
      ensures showHints == old(showHints)
    {
      result := RunOutput;
      isRunning := false;
    }
  }
}
