// Small value helpers shared by every page of the application: an optional
// value, the `Array.prototype.filter` and `filter(...).length` idioms the
// pages use for searching and counting, and duplicate-freedom of a list.

module Common {

  /** An optional value: TypeScript's `T | undefined` (a missing record key,
      an absent optional field, a `find` that matched nothing). */
  datatype Option<+T> = None | Some(value: T)

  function Min(a: int, b: int): (r: int)
    ensures r <= a && r <= b && (r == a || r == b)
  {
    if a <= b then a else b
  }

  /** `s.filter(p)`: the elements of `s` satisfying `p`, in their original order. */
  function Filter<T(!new)>(s: seq<T>, p: T -> bool): (r: seq<T>)
    ensures |r| <= |s|
    ensures forall x :: x in r <==> x in s && p(x)
  {
    if s == [] then [] else (if p(s[0]) then [s[0]] else []) + Filter(s[1..], p)
  }

  /** `s.filter(p).length`. */
  function Count<T(!new)>(s: seq<T>, p: T -> bool): (n: nat)
    ensures n <= |s|
  {
    |Filter(s, p)|
  }

  /** The count is zero exactly when no element satisfies `p`, and the whole
      length exactly when every element does. */
  lemma CountExtremes<T(!new)>(s: seq<T>, p: T -> bool)
    ensures Count(s, p) == 0 <==> forall x :: x in s ==> !p(x)
    ensures Count(s, p) == |s| <==> forall x :: x in s ==> p(x)
  {
    var r := Filter(s, p);
    assert |r| > 0 ==> r[0] in r;
    FilterFullIff(s, p);
  }

  /** The filter keeps its input's length exactly when it drops nothing. */
  lemma {:induction false} FilterFullIff<T(!new)>(s: seq<T>, p: T -> bool)
    ensures |Filter(s, p)| == |s| <==> forall x :: x in s ==> p(x)
  {
    if s != [] {
      FilterFullIff(s[1..], p);
      if !p(s[0]) {
        assert |Filter(s[1..], p)| <= |s[1..]|;
      } else if |Filter(s, p)| == |s| {
        forall x | x in s ensures p(x) {
          if x != s[0] { assert x in s[1..]; }
        }
      }
    }
  }

  /** A click on a two-state button (a code toggle, a bookmark, "See more"). */
  function Flip(b: bool): (r: bool)
    ensures r != b
  {
    !b
  }

  /** Filtering with a predicate every element satisfies gives the list back unchanged. */
  lemma {:induction false} FilterKeepsAll<T(!new)>(s: seq<T>, p: T -> bool)
    requires forall x :: x in s ==> p(x)
    ensures Filter(s, p) == s
  {
    if s != [] {
      FilterKeepsAll(s[1..], p);
    }
  }

  /** Filtering distributes over concatenation. */
  lemma {:induction false} FilterAppend<T(!new)>(s: seq<T>, t: seq<T>, p: T -> bool)
    ensures Filter(s + t, p) == Filter(s, p) + Filter(t, p)
  {
    if s == [] {
      assert s + t == t;
    } else {
      assert (s + t)[1..] == s[1..] + t;
      FilterAppend(s[1..], t, p);
    }
  }

  /** The count of the elements of `s + t` is the sum of the two counts. */
  lemma CountAppend<T(!new)>(s: seq<T>, t: seq<T>, p: T -> bool)
    ensures Count(s + t, p) == Count(s, p) + Count(t, p)
  {
    FilterAppend(s, t, p);
  }

  ghost predicate NoDups<T>(s: seq<T>)
  {
    forall i, j :: 0 <= i < j < |s| ==> s[i] != s[j]
  }

  lemma NoDupsCons<T>(a: T, t: seq<T>)
    ensures NoDups([a] + t) <==> a !in t && NoDups(t)
  {
    var s := [a] + t;
    if a !in t && NoDups(t) {
      forall i, j | 0 <= i < j < |s| ensures s[i] != s[j] {
        if i == 0 { assert s[j] == t[j - 1]; } else { assert s[i] == t[i - 1] && s[j] == t[j - 1]; }
      }
    }
    if NoDups(s) {
      forall k | 0 <= k < |t| ensures t[k] != a {
        assert s[0] == a && s[k + 1] == t[k];
      }
      forall i, j | 0 <= i < j < |t| ensures t[i] != t[j] {
        assert s[i + 1] == t[i] && s[j + 1] == t[j];
      }
    }
  }

  /** Filtering never introduces a duplicate. */
  lemma {:induction false} FilterKeepsNoDups<T(!new)>(s: seq<T>, p: T -> bool)
    requires NoDups(s)
    ensures NoDups(Filter(s, p))
  {
    if s != [] {
      assert s == [s[0]] + s[1..];
      NoDupsCons(s[0], s[1..]);
      FilterKeepsNoDups(s[1..], p);
      var rest := Filter(s[1..], p);
      if p(s[0]) {
        NoDupsCons(s[0], rest);
      }
    }
  }
}
