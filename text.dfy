// String operations the pages apply to titles, queries and user names:
// ASCII case folding (`toLowerCase`, `toUpperCase`), substring search
// (`includes`), decimal rendering of numbers (template strings) and parsing
// (`Number`), `join` / `split` on a separator, and the `/\s+/g` replacement.

module Text {

  import opened Common

  predicate IsUpperAscii(c: char) { 'A' <= c <= 'Z' }
  predicate IsLowerAscii(c: char) { 'a' <= c <= 'z' }

  function LowerChar(c: char): (d: char)
    ensures !IsUpperAscii(d)
    ensures IsUpperAscii(c) ==> d as int == c as int + 32
    ensures !IsUpperAscii(c) ==> d == c
  {
    if IsUpperAscii(c) then (c as int + 32) as char else c
  }

  function UpperChar(c: char): (d: char)
    ensures !IsLowerAscii(d)
    ensures IsLowerAscii(c) ==> d as int == c as int - 32
    ensures !IsLowerAscii(c) ==> d == c
  {
    if IsLowerAscii(c) then (c as int - 32) as char else c
  }

  /** `s.toLowerCase()`, restricted to the ASCII letters. */
  function Lower(s: string): (r: string)
    ensures |r| == |s|
    ensures forall i :: 0 <= i < |s| ==> r[i] == LowerChar(s[i])
  {
    seq(|s|, i requires 0 <= i < |s| => LowerChar(s[i]))
  }

  /** `s.toUpperCase()`, restricted to the ASCII letters. */
  function Upper(s: string): (r: string)
    ensures |r| == |s|
    ensures forall i :: 0 <= i < |s| ==> r[i] == UpperChar(s[i])
  {
    seq(|s|, i requires 0 <= i < |s| => UpperChar(s[i]))
  }

  /** Case folding twice is the same as once. */
  lemma LowerIdempotent(s: string)
    ensures Lower(Lower(s)) == Lower(s)
  {
  }

  predicate StartsWith(s: string, prefix: string)
  {
    |prefix| <= |s| && s[..|prefix|] == prefix
  }

  /** `haystack.includes(needle)`: some suffix of the haystack starts with the needle. */
  function Includes(haystack: string, needle: string): bool
  {
    StartsWith(haystack, needle) || (haystack != [] && Includes(haystack[1..], needle))
  }

  /** The reference reading of `includes`: the needle occurs at some offset. */
  ghost predicate OccursAt(haystack: string, needle: string, i: int)
  {
    0 <= i && i + |needle| <= |haystack| && haystack[i..i + |needle|] == needle
  }

  /** An `includes` that holds names an offset where the needle occurs. */
  lemma {:induction false} IncludesWitness(haystack: string, needle: string)
    requires Includes(haystack, needle)
    ensures exists i :: OccursAt(haystack, needle, i)
  {
    if StartsWith(haystack, needle) {
      assert OccursAt(haystack, needle, 0);
    } else {
      var tail := haystack[1..];
      IncludesWitness(tail, needle);
      var i :| OccursAt(tail, needle, i);
      assert haystack[i + 1..i + 1 + |needle|] == tail[i..i + |needle|];
      assert OccursAt(haystack, needle, i + 1);
    }
  }

  /** An occurrence at any offset makes `includes` hold. */
  lemma {:induction false} OccurrenceIncluded(haystack: string, needle: string, i: int)
    requires OccursAt(haystack, needle, i)
    ensures Includes(haystack, needle)
    decreases i
  {
    if i == 0 {
      assert StartsWith(haystack, needle);
    } else {
      var tail := haystack[1..];
      assert tail[i - 1..i - 1 + |needle|] == haystack[i..i + |needle|];
      OccurrenceIncluded(tail, needle, i - 1);
    }
  }

  /** `Includes` agrees with the reference reading, in both directions. */
  lemma IncludesIff(haystack: string, needle: string)
    ensures Includes(haystack, needle) <==> exists i :: OccursAt(haystack, needle, i)
  {
    if Includes(haystack, needle) {
      IncludesWitness(haystack, needle);
    }
    forall i | OccursAt(haystack, needle, i) ensures Includes(haystack, needle) {
      OccurrenceIncluded(haystack, needle, i);
    }
  }

  /** Every string includes the empty string, so an empty search matches everything. */
  lemma IncludesEmpty(haystack: string)
    ensures Includes(haystack, "")
  {
    assert StartsWith(haystack, "");
  }

  /** Every string includes itself. */
  lemma IncludesSelf(s: string)
    ensures Includes(s, s)
  {
    assert StartsWith(s, s);
  }

  // ---------------------------------------------------------------------------
  // Decimal numbers

  /** The regular-expression class `\s`, which is also the white space
      `parseInt` skips: tab, line feed, vertical tab, form feed, carriage
      return, the space separators of Unicode (U+0020, U+00A0, U+1680,
      U+2000 to U+200A, U+202F, U+205F, U+3000), the line and paragraph
      separators U+2028 and U+2029, and the byte order mark U+FEFF. */
  predicate IsSpace(c: char)
  {
    || c == '\t' || c == '\n' || c == '\U{B}' || c == '\U{C}' || c == '\r'
    || c == ' ' || c == '\U{A0}' || c == '\U{1680}' || ('\U{2000}' <= c <= '\U{200A}')
    || c == '\U{2028}' || c == '\U{2029}' || c == '\U{202F}' || c == '\U{205F}'
    || c == '\U{3000}' || c == '\U{FEFF}'
  }

  predicate NoSpace(s: string)
  {
    forall i :: 0 <= i < |s| ==> !IsSpace(s[i])
  }

  /** The whitespace run at the start of `s` removed. */
  function DropSpaces(s: string): (r: string)
    ensures |r| <= |s|
    ensures r == [] || !IsSpace(r[0])
  {
    if s != [] && IsSpace(s[0]) then DropSpaces(s[1..]) else s
  }

  /** `s.replace(/\s+/g, rep)`: every maximal whitespace run becomes one `rep`. */
  function ReplaceSpaceRuns(s: string, rep: string): string
    decreases |s|
  {
    if s == [] then []
    else if IsSpace(s[0]) then rep + ReplaceSpaceRuns(DropSpaces(s[1..]), rep)
    else [s[0]] + ReplaceSpaceRuns(s[1..], rep)
  }

  /** Text without whitespace is left as it is. */
  lemma {:induction false} ReplaceNoSpace(s: string, rep: string)
    requires NoSpace(s)
    ensures ReplaceSpaceRuns(s, rep) == s
  {
    if s != [] {
      ReplaceNoSpace(s[1..], rep);
      assert [s[0]] + s[1..] == s;
    }
  }

  /** A word, a whitespace run of any length, then text starting with no
      whitespace: the run becomes a single `rep`. */
  lemma {:induction false} ReplaceOneRun(x: string, run: string, y: string, rep: string)
    requires NoSpace(x) && |run| > 0 && forall i :: 0 <= i < |run| ==> IsSpace(run[i])
    requires y == [] || !IsSpace(y[0])
    ensures ReplaceSpaceRuns(x + run + y, rep) == x + rep + ReplaceSpaceRuns(y, rep)
  {
    var s := x + run + y;
    if x == [] {
      assert s == run + y;
      assert s[1..] == run[1..] + y;
      DropRun(run[1..], y);
      assert IsSpace(s[0]);
      assert ReplaceSpaceRuns(s, rep) == rep + ReplaceSpaceRuns(DropSpaces(s[1..]), rep);
    } else {
      assert s[1..] == x[1..] + run + y;
      ReplaceOneRun(x[1..], run, y, rep);
      assert !IsSpace(s[0]) && s[0] == x[0];
      assert ReplaceSpaceRuns(s, rep) == [x[0]] + ReplaceSpaceRuns(s[1..], rep);
      assert [x[0]] + x[1..] == x;
    }
  }

  lemma {:induction false} DropRun(run: string, y: string)
    requires forall i :: 0 <= i < |run| ==> IsSpace(run[i])
    requires y == [] || !IsSpace(y[0])
    ensures DropSpaces(run + y) == y
  {
    if run != [] {
      assert (run + y)[1..] == run[1..] + y;
      DropRun(run[1..], y);
    } else {
      assert run + y == y;
    }
  }

  /** Words joined by single spaces come out joined by `rep`. */
  lemma {:induction false} ReplaceJoinedWords(words: seq<string>, rep: string)
    requires forall k :: 0 <= k < |words| ==> words[k] != [] && NoSpace(words[k])
    ensures ReplaceSpaceRuns(Join(words, " "), rep) == Join(words, rep)
  {
    if |words| == 1 {
      ReplaceNoSpace(words[0], rep);
    } else if |words| > 1 {
      var rest := Join(words[1..], " ");
      ReplaceJoinedWords(words[1..], rep);
      assert rest == [] || !IsSpace(rest[0]) by {
        JoinStartsWithFirst(words[1..], " ");
      }
      ReplaceOneRun(words[0], " ", rest, rep);
    }
  }

  lemma {:induction false} JoinStartsWithFirst(xs: seq<string>, sep: string)
    requires |xs| >= 1 && xs[0] != []
    ensures |Join(xs, sep)| > 0 && Join(xs, sep)[0] == xs[0][0]
  {
  }

  predicate IsDigit(c: char) { '0' <= c <= '9' }

  function DigitChar(d: nat): (c: char)
    requires d < 10
    ensures IsDigit(c)
  {
    ('0' as int + d) as char
  }

  function DigitValue(c: char): (d: nat)
    requires IsDigit(c)
    ensures d < 10
  {
    c as int - '0' as int
  }

  /** The decimal rendering of a natural number, as a template string shows it. */
  function NatToString(n: nat): (r: string)
    ensures |r| >= 1
    ensures forall i :: 0 <= i < |r| ==> IsDigit(r[i])
    decreases n
  {
    if n < 10 then [DigitChar(n)] else NatToString(n / 10) + [DigitChar(n % 10)]
  }

  /** The decimal rendering of an integer, with a leading minus sign when
      negative; the digits after the sign read back as its magnitude. */
  function IntToString(i: int): (r: string)
    ensures |r| >= 1
    ensures i < 0 <==> r[0] == '-'
    ensures i >= 0 ==> Number(r) == Some(i)
    ensures i < 0 ==> Number(r[1..]) == Some(-i)
  {
    NumberOfRendering(if i < 0 then -i else i);
    if i < 0 then "-" + NatToString(-i) else NatToString(i)
  }

  predicate AllDigits(s: string)
  {
    forall i :: 0 <= i < |s| ==> IsDigit(s[i])
  }

  /** The value of a string of decimal digits, most significant first. */
  function DigitsValue(s: string): nat
    requires AllDigits(s)
  {
    if s == [] then 0 else DigitsValue(s[..|s| - 1]) * 10 + DigitValue(s[|s| - 1])
  }

  /** Reading back the rendering of `n` gives `n`. */
  lemma {:induction false} NatToStringRoundTrip(n: nat)
    ensures DigitsValue(NatToString(n)) == n
    decreases n
  {
    var r := NatToString(n);
    if n >= 10 {
      NatToStringRoundTrip(n / 10);
      assert r[..|r| - 1] == NatToString(n / 10);
    }
  }

  /** Two numbers render differently when they differ. */
  lemma NatToStringInjective(m: nat, n: nat)
    requires NatToString(m) == NatToString(n)
    ensures m == n
  {
    NatToStringRoundTrip(m);
    NatToStringRoundTrip(n);
  }

  /** JavaScript's `Number(s)` on the strings an id can hold: the empty string
      is 0, a run of decimal digits is its value, anything else is NaN (None). */
  function Number(s: string): (r: Option<nat>)
    ensures s == "" ==> r == Some(0)
    ensures s != "" && !AllDigits(s) ==> r == None
  {
    if s == "" then Some(0) else if AllDigits(s) then Some(DigitsValue(s)) else None
  }

  /** `Number` inverts the decimal rendering. */
  lemma NumberOfRendering(n: nat)
    ensures Number(NatToString(n)) == Some(n)
  {
    NatToStringRoundTrip(n);
  }

  // ---------------------------------------------------------------------------
  // join and split

  /** `xs.join(sep)`. */
  function Join(xs: seq<string>, sep: string): string
  {
    if |xs| == 0 then "" else if |xs| == 1 then xs[0] else xs[0] + sep + Join(xs[1..], sep)
  }

  /** Joining two non-empty lists puts one separator between their joins. */
  lemma {:induction false} JoinAppend(a: seq<string>, b: seq<string>, sep: string)
    requires |a| >= 1 && |b| >= 1
    ensures Join(a + b, sep) == Join(a, sep) + sep + Join(b, sep)
  {
    if |a| == 1 {
      assert (a + b)[1..] == b;
    } else {
      assert (a + b)[1..] == a[1..] + b;
      JoinAppend(a[1..], b, sep);
    }
  }

  /** The first four lines of `a`, a blank line, `b`, a blank line and more. */
  lemma OpeningLines(a: string, b: string, rest: string)
    requires '\n' !in a && '\n' !in b
    ensures |Split(a + "\n\n" + b + "\n\n" + rest, '\n')| >= 4
    ensures Split(a + "\n\n" + b + "\n\n" + rest, '\n')[..4] == [a, "", b, ""]
  {
    var r3 := "\n" + rest;
    var r2 := b + "\n" + r3;
    var r1 := "\n" + r2;
    assert a + "\n\n" + b + "\n\n" + rest == a + ['\n'] + r1;
    SplitAfterPiece(a, r1, '\n');
    assert r1 == "" + ['\n'] + r2;
    SplitAfterPiece("", r2, '\n');
    assert r2 == b + ['\n'] + r3;
    SplitAfterPiece(b, r3, '\n');
    assert r3 == "" + ['\n'] + rest;
    SplitAfterPiece("", rest, '\n');
  }

  /** The whitespace-run replacement leaves no whitespace when `rep` has none. */
  lemma {:induction false} ReplaceLeavesNoSpace(s: string, rep: string)
    requires NoSpace(rep)
    ensures NoSpace(ReplaceSpaceRuns(s, rep))
    decreases |s|
  {
    if s != [] {
      if IsSpace(s[0]) {
        ReplaceLeavesNoSpace(DropSpaces(s[1..]), rep);
      } else {
        ReplaceLeavesNoSpace(s[1..], rep);
      }
    }
  }

  /** `s.split(c)` for a one-character separator: the pieces between separators,
      always at least one (the empty string splits into `[""]`). */
  function Split(s: string, c: char): (r: seq<string>)
    ensures |r| >= 1
    ensures forall k :: 0 <= k < |r| ==> c !in r[k]
  {
    if s == [] then [""]
    else
      var rest := Split(s[1..], c);
      if s[0] == c then [""] + rest else [[s[0]] + rest[0]] + rest[1..]
  }

  lemma {:induction false} SplitNoSeparator(s: string, c: char)
    requires c !in s
    ensures Split(s, c) == [s]
  {
    if s != [] {
      SplitNoSeparator(s[1..], c);
      assert [s[0]] + s[1..] == s;
    }
  }

  lemma {:induction false} SplitAfterPiece(x: string, y: string, c: char)
    requires c !in x
    ensures Split(x + [c] + y, c) == [x] + Split(y, c)
  {
    if x == [] {
      assert x + [c] + y == [c] + y;
      assert ([c] + y)[1..] == y;
    } else {
      var s := x + [c] + y;
      assert s[1..] == x[1..] + [c] + y;
      SplitAfterPiece(x[1..], y, c);
      assert [x[0]] + x[1..] == x;
    }
  }

  /** Splitting the joined pieces on the separator gives the pieces back,
      provided none of them contains the separator. */
  lemma {:induction false} SplitJoinRoundTrip(xs: seq<string>, c: char)
    requires |xs| >= 1
    requires forall k :: 0 <= k < |xs| ==> c !in xs[k]
    ensures Split(Join(xs, [c]), c) == xs
  {
    if |xs| == 1 {
      SplitNoSeparator(xs[0], c);
    } else {
      SplitJoinRoundTrip(xs[1..], c);
      SplitAfterPiece(xs[0], Join(xs[1..], [c]), c);
      assert [xs[0]] + xs[1..] == xs;
    }
  }
}
