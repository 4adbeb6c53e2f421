// src/components/community/FriendsTab.tsx: the community tab. A search term
// narrows the friend list by user name; an empty result explains itself and,
// without a search term, offers to switch to the suggestions tab.

module Friends {

  import opened Common
  import opened Text

  datatype Friend = Friend(
    id: string,
    username: string,
    level: string,
    streak: nat,
    xp: nat,
    isOnline: bool,
    currentActivity: Option<string>,
    recentAchievement: Option<string>,
    favoriteLanguage: string)

  datatype Suggestion = Suggestion(id: string, username: string, level: string, mutualFriends: nat, favoriteLanguage: string)

  datatype Tab = FriendsList | Suggestions

  const SampleFriends: seq<Friend> := [
    Friend("1", "alexDev", "Advanced", 15, 4250, true, Some("Learning React Hooks"), Some("Python Master"), "Python"),
    Friend("2", "codeNinja", "Intermediate", 8, 2800, false, None, Some("Quiz Champion"), "JavaScript"),
    Friend("3", "mlEnthusiast", "Advanced", 22, 5670, true, Some("ML Algorithms Quiz"), None, "Python"),
    Friend("4", "webMaster", "Intermediate", 5, 1950, true, Some("CSS Grid Layout"), None, "CSS")
  ]

  const SuggestedFriends: seq<Suggestion> := [
    Suggestion("s1", "reactGuru", "Advanced", 3, "React"),
    Suggestion("s2", "pythonPro", "Expert", 2, "Python"),
    Suggestion("s3", "jsWizard", "Intermediate", 1, "JavaScript")
  ]

  /** `filteredFriends`. */
  function FilterFriends(fs: seq<Friend>, term: string): (r: seq<Friend>)
    ensures |r| <= |fs|
  {
    Filter(fs, (f: Friend) => Includes(Lower(f.username), Lower(term)))
  }

  /** A friend is listed exactly when the lower-cased term occurs in the
      lower-cased user name. */
  lemma ShownIff(fs: seq<Friend>, term: string, f: Friend)
    ensures f in FilterFriends(fs, term) <==>
      f in fs && exists i :: OccursAt(Lower(f.username), Lower(term), i)
  {
    IncludesIff(Lower(f.username), Lower(term));
  }

  /** An empty term lists every friend. */
  lemma EmptyTermShowsAll(fs: seq<Friend>)
    ensures FilterFriends(fs, "") == fs
  {
    forall f | f in fs ensures Includes(Lower(f.username), Lower("")) {
      IncludesEmpty(Lower(f.username));
    }
    FilterKeepsAll(fs, (f: Friend) => Includes(Lower(f.username), Lower("")));
  }

  /** A tab's label, "name (count)"; both tabs count their whole list,
      whatever the search term, and the number between the parentheses reads
      back as that count. */
  function TabLabel(name: string, count: nat): (r: string)
    ensures |r| > |name| + 2 && r[..|name| + 2] == name + " (" && r[|r| - 1] == ')'
    ensures Number(r[|name| + 2..|r| - 1]) == Some(count)
  {
    NumberOfRendering(count);
    var r := name + " (" + NatToString(count) + ")";
    assert r[..|name| + 2] == name + " (";
    assert r[|name| + 2..|r| - 1] == NatToString(count);
    r
  }

  lemma BundledTabLabels()
    ensures TabLabel("My Friends", |SampleFriends|) == "My Friends (4)"
    ensures TabLabel("Suggestions", |SuggestedFriends|) == "Suggestions (3)"
  {
  }

  /** What the friends tab shows when no friend matches: a heading, a hint,
      and whether the "Find Friends" button is offered. */
  datatype EmptyState = EmptyState(heading: string, message: string, findFriendsButton: bool)

  function EmptyStateFor(term: string): (r: EmptyState)
    ensures r.heading == "No friends found" <==> term != ""
    ensures r.heading == "No friends yet" <==> term == ""
    ensures r.findFriendsButton <==> term == ""
  {
    if term != "" then EmptyState("No friends found", "Try a different search term", false)
    else EmptyState("No friends yet", "Start connecting with other learners", true)
  }

  /** The "Find Friends" button of the friends tab: it is there only in the
      empty state without a search term, and it switches to the suggestions
      tab (None: no such button to click). An empty term lists every friend,
      so only a learner without friends ever sees it. */
  function ClickFindFriends(fs: seq<Friend>, term: string): (r: Option<Tab>)
    ensures r.Some? <==> |FilterFriends(fs, term)| == 0 && term == ""
    ensures r.Some? ==> r.value == Suggestions && fs == []
  {
    EmptyTermShowsAll(fs);
    if |FilterFriends(fs, term)| == 0 && EmptyStateFor(term).findFriendsButton then Some(Suggestions) else None
  }

  /** The empty state shows only under a term when some friend exists. */
  lemma EmptyStateNeedsTerm(fs: seq<Friend>)
    requires |fs| > 0
    ensures |FilterFriends(fs, "")| > 0
  {
    EmptyTermShowsAll(fs);
  }

  /** Avatar initials: the first two characters of the user name, upper-cased. */
  function AvatarInitials(username: string): (r: string)
    ensures |r| == Min(2, |username|)
    ensures forall i :: 0 <= i < |r| ==> r[i] == UpperChar(username[i])
  {
    Upper(username[..Min(2, |username|)])
  }

  /** "friend" takes an "s" unless the count is exactly 1. */
  function MutualLabel(mutualFriends: nat): (r: string)
    ensures mutualFriends == 1 ==> r == "1 mutual friend"
    ensures mutualFriends != 1 ==> |r| > 0 && r[|r| - 1] == 's' && r[..|r| - 1] == NatToString(mutualFriends) + " mutual friend"
  {
    NatToString(mutualFriends) + " mutual friend" + (if mutualFriends != 1 then "s" else "")
  }

  lemma BundledLabels()
    ensures AvatarInitials("alexDev") == "AL"
    ensures MutualLabel(SuggestedFriends[2].mutualFriends) == "1 mutual friend"
    ensures MutualLabel(SuggestedFriends[0].mutualFriends) == "3 mutual friends"
  {
  }
}
