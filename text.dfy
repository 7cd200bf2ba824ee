/**
 * String helpers shared by the components: JavaScript's `a || b` on an optional
 * string, ASCII case mapping (`toUpperCase`/`toLowerCase` restricted to ASCII
 * letters), substring search (`includes`), and `split(" ")` / `join(" ")`.
 */
module Text {
  import opened Wrappers

  /** `s || fallback` for a nullable string: null and "" both fall back. */
  function OrElse(s: Option<string>, fallback: string): (r: string)
    ensures s.Some? && s.value != "" ==> r == s.value
    ensures s.None? || s.value == "" ==> r == fallback
  {
    if s.Some? && s.value != "" then s.value else fallback
  }

  // ---------------------------------------------------------------------------
  // Case mapping
  // ---------------------------------------------------------------------------

  predicate IsLower(c: char) { 'a' <= c <= 'z' }
  predicate IsUpper(c: char) { 'A' <= c <= 'Z' }

  function UpperChar(c: char): (r: char)
    ensures !IsLower(r)
    ensures IsLower(c) ==> IsUpper(r)
    ensures !IsLower(c) ==> r == c
  {
    if IsLower(c) then (c as int - 32) as char else c
  }

  function LowerChar(c: char): (r: char)
    ensures !IsUpper(r)
    ensures IsUpper(c) ==> IsLower(r)
    ensures !IsUpper(c) ==> r == c
  {
    if IsUpper(c) then (c as int + 32) as char else c
  }

  /** Upper-casing forgets a lower-casing done before it. */
  lemma UpperOfLower(c: char)
    ensures UpperChar(LowerChar(c)) == UpperChar(c)
  {
  }

  function Upper(s: string): (r: string)
    ensures |r| == |s|
    ensures forall i :: 0 <= i < |s| ==> r[i] == UpperChar(s[i])
  {
    seq(|s|, i requires 0 <= i < |s| => UpperChar(s[i]))
  }

  function Lower(s: string): (r: string)
    ensures |r| == |s|
    ensures forall i :: 0 <= i < |s| ==> r[i] == LowerChar(s[i])
  {
    seq(|s|, i requires 0 <= i < |s| => LowerChar(s[i]))
  }

  /** No ASCII lower-case letter occurs in `s`. */
  predicate NoLowercase(s: string)
  {
    forall i :: 0 <= i < |s| ==> !IsLower(s[i])
  }

  lemma UpperIsUppercase(s: string)
    ensures NoLowercase(Upper(s))
  {
  }

  // ---------------------------------------------------------------------------
  // Substring search
  // ---------------------------------------------------------------------------

  /** `s.includes(sub)`. */
  predicate Contains(s: string, sub: string)
    decreases |s|
  {
    sub <= s || (|s| > 0 && Contains(s[1..], sub))
  }

  /** An occurrence at position i is an occurrence. */
  lemma {:induction false} ContainsAt(s: string, sub: string, i: nat)
    requires i + |sub| <= |s| && s[i..i + |sub|] == sub
    ensures Contains(s, sub)
  {
    if i > 0 {
      assert s[1..][i - 1..i - 1 + |sub|] == s[i..i + |sub|];
      ContainsAt(s[1..], sub, i - 1);
    } else {
      assert sub <= s;
    }
  }

  /** An occurrence has a position. */
  lemma {:induction false} ContainsHasPosition(s: string, sub: string) returns (i: nat)
    requires Contains(s, sub)
    ensures i + |sub| <= |s| && s[i..i + |sub|] == sub
    decreases |s|
  {
    if sub <= s {
      i := 0;
    } else {
      var j := ContainsHasPosition(s[1..], sub);
      assert s[1..][j..j + |sub|] == s[j + 1..j + 1 + |sub|];
      i := j + 1;
    }
  }

  /** A suffix is contained in the whole string. */
  lemma ContainsSuffix(a: string, b: string)
    ensures Contains(a + b, b)
  {
    assert (a + b)[|a|..|a| + |b|] == b;
    ContainsAt(a + b, b, |a|);
  }

  /**
   * If the lower-cased string contains a lower-case word, the upper-cased string
   * contains that word upper-cased: `tag.toLowerCase().includes("course")` implies
   * `tag.toUpperCase().includes("COURSE")`.
   */
  lemma LowerMatchGivesUpperMatch(s: string, word: string)
    requires Contains(Lower(s), word)
    ensures Contains(Upper(s), Upper(word))
  {
    var i := ContainsHasPosition(Lower(s), word);
    forall k | 0 <= k < |word|
      ensures Upper(s)[i..i + |word|][k] == Upper(word)[k]
    {
      assert Lower(s)[i + k] == word[k];
      UpperOfLower(s[i + k]);
    }
    assert Upper(s)[i..i + |word|] == Upper(word);
    ContainsAt(Upper(s), Upper(word), i);
  }

  // ---------------------------------------------------------------------------
  // split(" ") and join(" ")
  // ---------------------------------------------------------------------------

  /** The number of spaces in `s`. */
  function CountSpaces(s: string): nat
  {
    if s == [] then 0 else (if s[0] == ' ' then 1 else 0) + CountSpaces(s[1..])
  }

  lemma {:induction false} CountSpacesAppend(a: string, b: string)
    ensures CountSpaces(a + b) == CountSpaces(a) + CountSpaces(b)
  {
    if a == [] {
      assert a + b == b;
    } else {
      assert (a + b)[0] == a[0];
      assert (a + b)[1..] == a[1..] + b;
      CountSpacesAppend(a[1..], b);
    }
  }

  lemma OneSpace(rest: string)
    ensures CountSpaces([' '] + rest) == 1 + CountSpaces(rest)
  {
    assert ([' '] + rest)[1..] == rest;
  }

  /** The position of the first space, if any. */
  function FirstSpace(s: string): (r: Option<nat>)
    ensures r.None? ==> forall k :: 0 <= k < |s| ==> s[k] != ' '
    ensures r.Some? ==> r.value < |s| && s[r.value] == ' ' && forall k :: 0 <= k < r.value ==> s[k] != ' '
  {
    if s == [] then None
    else if s[0] == ' ' then Some(0)
    else match FirstSpace(s[1..])
      case None => None
      case Some(i) => Some(i + 1)
  }

  lemma {:induction false} NoSpaceCount(s: string)
    requires forall k :: 0 <= k < |s| ==> s[k] != ' '
    ensures CountSpaces(s) == 0
  {
    if s != [] {
      NoSpaceCount(s[1..]);
    }
  }

  /** `s.split(" ")`: never empty; "" splits into [""]. */
  function Split(s: string): (r: seq<string>)
    ensures |r| >= 1
    decreases |s|
  {
    match FirstSpace(s)
    case None => [s]
    case Some(i) => [s[..i]] + Split(s[i + 1..])
  }

  /** `parts.join(" ")`. */
  function Join(parts: seq<string>): string
  {
    if |parts| == 0 then ""
    else if |parts| == 1 then parts[0]
    else parts[0] + " " + Join(parts[1..])
  }

  /** `parts.slice(0, k)`. */
  function Take<T>(parts: seq<T>, k: nat): (r: seq<T>)
    ensures |r| == if k < |parts| then k else |parts|
    ensures forall i :: 0 <= i < |r| ==> r[i] == parts[i]
  {
    if k < |parts| then parts[..k] else parts
  }

  /** Splitting at spaces and joining with spaces gives the string back. */
  lemma {:induction false} JoinSplit(s: string)
    ensures Join(Split(s)) == s
    decreases |s|
  {
    match FirstSpace(s)
    case None =>
    case Some(i) =>
      JoinSplit(s[i + 1..]);
      assert Split(s)[1..] == Split(s[i + 1..]);
      assert s == s[..i] + " " + s[i + 1..];
  }

  /** `split(" ")` yields one more piece than there are spaces, and no piece holds a space. */
  lemma {:induction false} SplitPieces(s: string)
    ensures |Split(s)| == CountSpaces(s) + 1
    ensures forall k, j :: 0 <= k < |Split(s)| && 0 <= j < |Split(s)[k]| ==> Split(s)[k][j] != ' '
    decreases |s|
  {
    match FirstSpace(s)
    case None =>
      NoSpaceCount(s);
    case Some(i) =>
      SplitAtFirstSpace(s, i);
      SplitPieces(s[i + 1..]);
      forall k, j | 0 <= k < |Split(s)| && 0 <= j < |Split(s)[k]|
        ensures Split(s)[k][j] != ' '
      {
        if k > 0 {
          assert Split(s)[k] == Split(s[i + 1..])[k - 1];
        }
      }
  }

  /** Splitting at the first space: one piece, then the split of the rest. */
  lemma SplitAtFirstSpace(s: string, i: nat)
    requires FirstSpace(s) == Some(i)
    ensures Split(s) == [s[..i]] + Split(s[i + 1..])
    ensures CountSpaces(s) == 1 + CountSpaces(s[i + 1..])
  {
    var rest := s[i + 1..];
    assert s == s[..i] + ([' '] + rest);
    NoSpaceCount(s[..i]);
    CountSpacesAppend(s[..i], [' '] + rest);
    OneSpace(rest);
  }

  /** Spaces before position p, counted through the first space i. */
  lemma SpacesBefore(s: string, i: nat, p: nat)
    requires FirstSpace(s) == Some(i)
    requires i < p <= |s|
    ensures CountSpaces(s[..p]) == 1 + CountSpaces(s[i + 1..][..p - i - 1])
  {
    assert s[..p] == s[..i] + ([' '] + s[i + 1..][..p - i - 1]);
    NoSpaceCount(s[..i]);
    CountSpacesAppend(s[..i], [' '] + s[i + 1..][..p - i - 1]);
    OneSpace(s[i + 1..][..p - i - 1]);
  }

  lemma TakeCons<T>(x: T, parts: seq<T>, k: nat)
    requires k >= 1
    ensures Take([x] + parts, k) == [x] + Take(parts, k - 1)
  {
    if k - 1 < |parts| {
      assert ([x] + parts)[..k] == [x] + parts[..k - 1];
    }
  }

  lemma JoinCons(x: string, parts: seq<string>)
    requires |parts| >= 1
    ensures Join([x] + parts) == x + " " + Join(parts)
  {
    assert ([x] + parts)[1..] == parts;
  }

  /** With fewer than k spaces (k >= 1), the first k pieces joined give back the whole string. */
  lemma {:induction false} JoinFirstPiecesWhole(s: string, k: nat)
    requires k >= 1 && CountSpaces(s) < k
    ensures Join(Take(Split(s), k)) == s
    decreases |s|
  {
    match FirstSpace(s)
    case None =>
    case Some(i) =>
      var rest := s[i + 1..];
      SplitAtFirstSpace(s, i);
      JoinFirstPiecesWhole(rest, k - 1);
      TakeCons(s[..i], Split(rest), k);
      JoinCons(s[..i], Take(Split(rest), k - 1));
      assert s == s[..i] + " " + rest;
  }

  /** When p is the k-th space (k >= 1), the first k pieces joined give the prefix before p. */
  lemma {:induction false} JoinFirstPiecesPrefix(s: string, k: nat, p: nat)
    requires k >= 1 && p < |s| && s[p] == ' ' && CountSpaces(s[..p]) == k - 1
    ensures Join(Take(Split(s), k)) == s[..p]
    decreases |s|
  {
    assert FirstSpace(s).Some?;
    var i := FirstSpace(s).value;
    var rest := s[i + 1..];
    SplitAtFirstSpace(s, i);
    TakeCons(s[..i], Split(rest), k);
    FirstPieceBound(s, i, p);
    if p == i {
      NoSpaceCount(s[..i]);
      assert k == 1;
      assert Take(Split(rest), 0) == [];
      assert [s[..i]] + [] == [s[..i]];
    } else {
      var q := p - i - 1;
      PrefixStep(s, i, k, p);
      var tail := Take(Split(rest), k - 1);
      calc {
        Join(Take(Split(s), k));
        Join([s[..i]] + tail);
        { JoinCons(s[..i], tail); }
        s[..i] + " " + Join(tail);
        { JoinFirstPiecesPrefix(rest, k - 1, q); }
        s[..i] + " " + rest[..q];
        { PrefixThroughSpace(s, i, p); }
        s[..p];
      }
    }
  }

  lemma PrefixThroughSpace(s: string, i: nat, p: nat)
    requires i < p <= |s| && s[i] == ' '
    ensures s[..p] == s[..i] + " " + s[i + 1..][..p - i - 1]
  {
    var r := s[..i] + " " + s[i + 1..][..p - i - 1];
    assert |r| == p;
    forall j | 0 <= j < p
      ensures r[j] == s[j]
    {
      if j < i {
      } else if j == i {
      } else {
        assert r[j] == s[i + 1..][j - i - 1];
      }
    }
  }

  /** The k-th space of s after its first space i is the (k-1)-th space of the rest. */
  lemma PrefixStep(s: string, i: nat, k: nat, p: nat)
    requires FirstSpace(s) == Some(i)
    requires i < p < |s| && s[p] == ' ' && CountSpaces(s[..p]) == k - 1
    ensures k >= 2
    ensures |Take(Split(s[i + 1..]), k - 1)| >= 1
    ensures s[i + 1..][p - i - 1] == ' ' && CountSpaces(s[i + 1..][..p - i - 1]) == k - 2
  {
    SpacesBefore(s, i, p);
  }

  /** A space at p lies at or after the first space i, and none lies strictly between position 0 and i. */
  lemma FirstPieceBound(s: string, i: nat, p: nat)
    requires FirstSpace(s) == Some(i)
    requires p < |s| && s[p] == ' '
    ensures i <= p
  {
  }
}
