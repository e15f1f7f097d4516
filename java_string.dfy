/**
 * `java.lang.String.trim()`, the one string operation the factory finder
 * relies on: it strips every character whose code is at most U+0020 from
 * both ends of a string. `Contains` is a specification predicate the lemmas
 * about error messages use; the finder itself never calls `contains`.
 */
module JavaString {

  /** The test `String.trim` applies to each end character: code <= U+0020. */
  predicate IsTrimmable(c: char) {
    c <= ' '
  }

  predicate AllTrimmable(s: string) {
    forall k :: 0 <= k < |s| ==> IsTrimmable(s[k])
  }

  /** Drops the trimmable characters at the front (the first loop of `trim`). */
  function TrimLeading(s: string): (r: string)
    ensures |r| <= |s| && r == s[|s| - |r|..]
    ensures forall k :: 0 <= k < |s| - |r| ==> IsTrimmable(s[k])
    ensures r != [] ==> !IsTrimmable(r[0])
  {
    if s != [] && IsTrimmable(s[0]) then TrimLeading(s[1..]) else s
  }

  /** Drops the trimmable characters at the back (the second loop of `trim`). */
  function TrimTrailing(s: string): (r: string)
    ensures |r| <= |s| && r == s[..|r|]
    ensures forall k :: |r| <= k < |s| ==> IsTrimmable(s[k])
    ensures r != [] ==> !IsTrimmable(r[|r| - 1])
  {
    if s != [] && IsTrimmable(s[|s| - 1]) then TrimTrailing(s[..|s| - 1]) else s
  }

  /** `String.trim()`. */
  function Trim(s: string): string {
    TrimTrailing(TrimLeading(s))
  }

  /**
   * Independent description of a trim: `s[i..j]` is what remains when
   * everything before `i` and from `j` on is trimmable, and the remainder
   * neither starts nor ends with a trimmable character.
   */
  ghost predicate TrimBounds(s: string, i: int, j: int) {
    && 0 <= i <= j <= |s|
    && (forall k :: 0 <= k < i ==> IsTrimmable(s[k]))
    && (forall k :: j <= k < |s| ==> IsTrimmable(s[k]))
    && (i < j ==> !IsTrimmable(s[i]) && !IsTrimmable(s[j - 1]))
  }

  ghost predicate IsTrimOf(r: string, s: string) {
    exists i, j :: TrimBounds(s, i, j) && r == s[i..j]
  }

  /** `Trim` meets the description. */
  lemma TrimIsTrimOf(s: string)
    ensures IsTrimOf(Trim(s), s)
  {
    var t := TrimLeading(s);
    var r := TrimTrailing(t);
    var i := |s| - |t|;
    CombineTrims(s, i, t, r);
    assert TrimBounds(s, i, i + |r|) && r == s[i..i + |r|];
  }

  /** The two halves of `Trim` together meet the description. */
  lemma CombineTrims(s: string, i: int, t: string, r: string)
    requires 0 <= i <= |s| && t == s[i..]
    requires forall k :: 0 <= k < i ==> IsTrimmable(s[k])
    requires t != [] ==> !IsTrimmable(t[0])
    requires |r| <= |t| && r == t[..|r|]
    requires forall k :: |r| <= k < |t| ==> IsTrimmable(t[k])
    requires r != [] ==> !IsTrimmable(r[|r| - 1])
    ensures TrimBounds(s, i, i + |r|) && r == s[i..i + |r|]
  {
    var j := i + |r|;
    forall k | j <= k < |s|
      ensures IsTrimmable(s[k])
    {
      assert s[k] == t[k - i];
    }
    if r != [] {
      assert s[i] == t[0];
      assert s[j - 1] == r[|r| - 1];
    }
  }

  /** Two remainders of the same string that both meet the description are equal. */
  lemma TrimBoundsUnique(s: string, i: int, j: int, i': int, j': int)
    requires TrimBounds(s, i, j) && TrimBounds(s, i', j')
    ensures s[i..j] == s[i'..j']
  {
  }

  /** The description determines the result: it is exactly `Trim`. */
  lemma IsTrimOfUnique(r: string, s: string)
    requires IsTrimOf(r, s)
    ensures r == Trim(s)
  {
    TrimIsTrimOf(s);
    var i, j :| TrimBounds(s, i, j) && r == s[i..j];
    var i', j' :| TrimBounds(s, i', j') && Trim(s) == s[i'..j'];
    TrimBoundsUnique(s, i, j, i', j');
  }

  /** A string trims to the empty string exactly when all its characters are trimmable. */
  lemma TrimEmptyIff(s: string)
    ensures Trim(s) == [] <==> AllTrimmable(s)
  {
    TrimIsTrimOf(s);
  }

  /** Trimming a trimmed string changes nothing. */
  lemma TrimIdempotent(s: string)
    ensures Trim(Trim(s)) == Trim(s)
  {
    var r := Trim(s);
    TrimIsTrimOf(s);
    var i, j :| TrimBounds(s, i, j) && r == s[i..j];
    assert TrimBounds(r, 0, |r|);
    assert r == r[0..|r|];
    IsTrimOfUnique(r, r);
  }

  /** A trimmed non-empty string begins and ends with a non-trimmable character. */
  lemma TrimEnds(s: string)
    ensures Trim(s) != [] ==> !IsTrimmable(Trim(s)[0]) && !IsTrimmable(Trim(s)[|Trim(s)| - 1])
  {
    TrimIsTrimOf(s);
  }

  /** Trimmable padding around a name with non-trimmable ends trims back to the name. */
  lemma TrimPadded(before: string, name: string, after: string)
    requires AllTrimmable(before) && AllTrimmable(after)
    requires name != [] && !IsTrimmable(name[0]) && !IsTrimmable(name[|name| - 1])
    ensures Trim(before + name + after) == name
  {
    var line := before + name + after;
    var i, j := |before|, |before| + |name|;
    assert line[i..j] == name;
    forall k | j <= k < |line|
      ensures IsTrimmable(line[k])
    {
      assert line[k] == after[k - j];
    }
    assert TrimBounds(line, i, j);
    IsTrimOfUnique(name, line);
  }

  /** Specification predicate: `sub` occurs in `s` as a contiguous piece. */
  ghost predicate Contains(s: string, sub: string) {
    exists i :: OccursAt(s, sub, i)
  }

  predicate OccursAt(s: string, sub: string, i: int) {
    0 <= i <= |s| - |sub| && s[i..i + |sub|] == sub
  }

  lemma ContainsInfix(a: string, b: string, c: string)
    ensures Contains(a + b + c, b)
  {
    var s := a + b + c;
    assert s[|a|..|a| + |b|] == b;
    assert OccursAt(s, b, |a|);
  }
}
