// src/pages/Explore.tsx: the catalogue of collections. A search box and a
// level badge narrow the list; topic badges can be selected but do not take
// part in the filtering.

module Explore {

  import opened Common
  import opened Text
  import opened Selection

  datatype Collection = Collection(
    id: string,
    title: string,
    description: string,
    itemCount: nat,
    level: string,
    estimatedTime: string)

  const Topics: seq<string> := ["Python", "JavaScript", "C++", "React", "Machine Learning",
                                "Data Structures", "Algorithms", "Web Development", "Mobile"]

  const Levels: seq<string> := ["Beginner", "Intermediate", "Advanced"]

  const Collections: seq<Collection> := [
    Collection("1", "Python Fundamentals", "Master the basics of Python programming", 12, "Beginner", "45 min"),
    Collection("2", "JavaScript ES6+", "Modern JavaScript features and best practices", 8, "Intermediate", "30 min"),
    Collection("3", "React Hooks Deep Dive", "Master all React hooks with practical examples", 15, "Advanced", "60 min"),
    Collection("4", "Data Structures & Algorithms", "Essential DSA concepts for interviews", 20, "Intermediate", "90 min")
  ]

  /** The search test: the lower-cased query occurs in the lower-cased title or description. */
  predicate MatchesSearch(c: Collection, query: string)
  {
    Includes(Lower(c.title), Lower(query)) || Includes(Lower(c.description), Lower(query))
  }

  /** `!selectedLevel || collection.level === selectedLevel`. */
  predicate MatchesLevel(c: Collection, level: string)
  {
    level == "" || c.level == level
  }

  /** `filteredCollections`. */
  function FilterCollections(cs: seq<Collection>, query: string, level: string): (r: seq<Collection>)
    ensures |r| <= |cs|
  {
    Filter(cs, c => MatchesSearch(c, query) && MatchesLevel(c, level))
  }

  /** A collection is shown exactly when the query occurs, case-insensitively, in
      its title or description and no level or its own level is selected. */
  lemma ShownIff(cs: seq<Collection>, query: string, level: string, c: Collection)
    ensures c in FilterCollections(cs, query, level) <==>
      c in cs &&
      ((exists i :: OccursAt(Lower(c.title), Lower(query), i)) ||
       (exists i :: OccursAt(Lower(c.description), Lower(query), i))) &&
      (level == "" || c.level == level)
  {
    IncludesIff(Lower(c.title), Lower(query));
    IncludesIff(Lower(c.description), Lower(query));
  }

  /** An empty query with no level shows every collection, in order. */
  lemma UnfilteredShowsAll(cs: seq<Collection>, query: string, level: string)
    requires query == "" && level == ""
    ensures FilterCollections(cs, query, level) == cs
  {
    forall c | c in cs ensures MatchesSearch(c, query) && MatchesLevel(c, level) {
      IncludesEmpty(Lower(c.title));
    }
    FilterKeepsAll(cs, c => MatchesSearch(c, query) && MatchesLevel(c, level));
  }

  /** The "Intermediate" badge alone leaves the two intermediate collections. */
  lemma IntermediateCollections()
    ensures FilterCollections(Collections, "", "Intermediate") == [Collections[1], Collections[3]]
  {
    var p := (c: Collection) => MatchesSearch(c, "") && MatchesLevel(c, "Intermediate");
    var c0, c1, c2, c3 := Collections[0], Collections[1], Collections[2], Collections[3];
    IncludesEmpty(Lower(c1.title));
    IncludesEmpty(Lower(c3.title));
    assert !p(c0) && p(c1) && !p(c2) && p(c3);
    assert Filter([c3], p) == [c3];
    assert Filter([c2, c3], p) == [c3];
    assert Filter([c1, c2, c3], p) == [c1, c3];
    assert Filter([c0, c1, c2, c3], p) == [c1, c3];
    assert Collections == [c0, c1, c2, c3];
  }

  /** The level badge: clicking the selected level clears it, any other
      selects it. After a click on a badge (whose level is never empty) every
      collection passes the level test when the click cleared the level, and
      otherwise exactly those at the clicked level. */
  function ClickLevel(selected: string, level: string): (r: string)
    ensures level == selected ==> r == ""
    ensures level != selected ==> r == level
    ensures level != "" ==> forall c :: MatchesLevel(c, r) <==> level == selected || c.level == level
  {
    if selected == level then "" else level
  }

  /** Clicking the same badge twice restores the selection when it was empty
      or that level; from a different level it ends with no level selected. */
  lemma LevelClickTwice(selected: string, level: string)
    requires level != ""
    ensures selected == "" || selected == level ==> ClickLevel(ClickLevel(selected, level), level) == selected
    ensures selected != "" && selected != level ==> ClickLevel(ClickLevel(selected, level), level) == ""
  {
  }

  /** "See more" appends the topics beyond the first six, without removing repeats. */
  function SeeMore(selected: seq<string>): (r: seq<string>)
    ensures |r| == |selected| + |Topics| - 6
    ensures r[..|selected|] == selected
    ensures r[|selected|..] == Topics[6..] == ["Algorithms", "Web Development", "Mobile"]
  {
    selected + Topics[6..]
  }

  /** Pressing "See more" twice selects "Algorithms" twice. */
  lemma SeeMoreTwiceRepeats(selected: seq<string>)
    ensures !NoDups(SeeMore(SeeMore(selected)))
  {
    var r := SeeMore(SeeMore(selected));
    var n := |selected|;
    assert r[n] == "Algorithms" && r[n + 3] == "Algorithms";
  }

  /** The "See more" label counts the hidden topics. */
  function SeeMoreLabel(): (r: string)
    ensures r == "See more +3"
  {
    "See more +" + NatToString(|Topics| - 6)
  }

  class ExplorePage {
    var searchQuery: string
    var selectedTopics: seq<string>
    var selectedLevel: string
    var showFilters: bool
    /** The page's `collections` array, fixed when the page is created. */
    const collections: seq<Collection>

    /** The page over its catalogue (the bundled one is `Collections`). */
    constructor (catalogue: seq<Collection>)
      ensures collections == catalogue
      ensures searchQuery == "" && selectedTopics == [] && selectedLevel == "" && !showFilters
      ensures Visible() == catalogue
    {
      collections := catalogue;
      searchQuery := "";
      selectedTopics := [];
      selectedLevel := "";
      showFilters := false;
      new;
      UnfilteredShowsAll(collections, searchQuery, selectedLevel);
    }

    function Visible(): seq<Collection>
      reads this
    {
      FilterCollections(collections, searchQuery, selectedLevel)
    }

    /** The "No collections found" view. */
    predicate EmptyViewShown()
      reads this
    {
      |Visible()| == 0
    }

    method SetQuery(q: string)
      modifies this
      ensures searchQuery == q
      ensures selectedTopics == old(selectedTopics) && selectedLevel == old(selectedLevel)
      ensures showFilters == old(showFilters)
    {
      searchQuery := q;
    }

    method ClickFilterButton()
      modifies this
      ensures showFilters == !old(showFilters)
      ensures searchQuery == old(searchQuery) && selectedTopics == old(selectedTopics)
      ensures selectedLevel == old(selectedLevel)
    {
      showFilters := !showFilters;
    }

    /** One of the first six topic badges. The visible list does not change. */
    method ClickTopic(topic: string)
      requires showFilters && topic in Topics[..6]
      modifies this
      ensures selectedTopics == Toggle(old(selectedTopics), topic)
      ensures searchQuery == old(searchQuery) && selectedLevel == old(selectedLevel)
      ensures showFilters == old(showFilters)
      ensures Visible() == old(Visible())
    {
      selectedTopics := Toggle(selectedTopics, topic);
    }

    method ClickSeeMore()
      requires showFilters
      modifies this
      ensures selectedTopics == SeeMore(old(selectedTopics))
      ensures searchQuery == old(searchQuery) && selectedLevel == old(selectedLevel)
      ensures showFilters == old(showFilters)
      ensures Visible() == old(Visible())
    {
      selectedTopics := SeeMore(selectedTopics);
    }

    method ClickLevelBadge(level: string)
      requires showFilters && level in Levels
      modifies this
      ensures selectedLevel == ClickLevel(old(selectedLevel), level)
      ensures searchQuery == old(searchQuery) && selectedTopics == old(selectedTopics)
      ensures showFilters == old(showFilters)
    {
      selectedLevel := ClickLevel(selectedLevel, level);
    }

    /** Clear All empties the topics, the level and the query, so every
        collection shows again. */
    method ClearAll()
      requires showFilters
      modifies this
      ensures selectedTopics == [] && selectedLevel == "" && searchQuery == ""
      ensures showFilters == old(showFilters)
      ensures Visible() == collections
    {
      selectedTopics := [];
      selectedLevel := "";
      searchQuery := "";
      UnfilteredShowsAll(collections, searchQuery, selectedLevel);
    }
  }
}
