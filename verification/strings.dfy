/**
 The string operations the scaffolder relies on, with Python's meaning:
 `sub in s` (Contains), `s.split(sep)` (Split) and `sep.join(pieces)` (Join).
 */
module Strings {

  /** `sub` occurs in `s` starting at index `i`. */
  predicate OccursAt(s: string, sub: string, i: int) {
    0 <= i && i + |sub| <= |s| && s[i..i + |sub|] == sub
  }

  /** Python's `sub in s` for strings (the empty string occurs everywhere). */
  predicate Contains(s: string, sub: string)
    decreases |s|
  {
    |sub| <= |s| && (s[..|sub|] == sub || Contains(s[1..], sub))
  }

  /** `p` is the part of `s` before the first occurrence of `sep`, or all of `s` when there is none. */
  predicate PrefixBeforeFirst(s: string, sep: string, p: string) {
    && |p| <= |s| && s[..|p|] == p
    && (forall j :: 0 <= j < |p| ==> !OccursAt(s, sep, j))
    && (p == s || OccursAt(s, sep, |p|))
  }

  /** Python's `s.split(sep)` for a non-empty separator: scans left to right and cuts at
      every non-overlapping occurrence of `sep`. */
  function Split(s: string, sep: string): (pieces: seq<string>)
    requires sep != ""
    ensures |pieces| >= 1
    ensures |pieces| == 1 <==> !Contains(s, sep)
    decreases |s|
  {
    if |s| < |sep| then [s]
    else if s[..|sep|] == sep then [""] + Split(s[|sep|..], sep)
    else
      var rest := Split(s[1..], sep);
      [[s[0]] + rest[0]] + rest[1..]
  }

  /** Python's `sep.join(pieces)` for a non-empty list. */
  function Join(pieces: seq<string>, sep: string): string
    requires |pieces| >= 1
  {
    if |pieces| == 1 then pieces[0] else pieces[0] + sep + Join(pieces[1..], sep)
  }

  /** The recursive Contains agrees with the positional definition of an occurrence. */
  lemma {:induction false} ContainsOccurs(s: string, sub: string)
    ensures Contains(s, sub) <==> exists i :: OccursAt(s, sub, i)
    decreases |s|
  {
    if Contains(s, sub) {
      if s[..|sub|] == sub {
        assert OccursAt(s, sub, 0);
      } else {
        ContainsOccurs(s[1..], sub);
        var i :| OccursAt(s[1..], sub, i);
        assert s[i + 1..i + 1 + |sub|] == s[1..][i..i + |sub|];
        assert OccursAt(s, sub, i + 1);
      }
    } else if i :| OccursAt(s, sub, i) {
      if i > 0 {
        assert s[1..][i - 1..i - 1 + |sub|] == s[i..i + |sub|];
        assert OccursAt(s[1..], sub, i - 1);
        ContainsOccurs(s[1..], sub);
      }
      assert false;
    }
  }

  /** Splitting and joining again with the same separator gives back the string. */
  lemma {:induction false} JoinSplit(s: string, sep: string)
    requires sep != ""
    ensures Join(Split(s, sep), sep) == s
    decreases |s|
  {
    if |s| < |sep| {
    } else if s[..|sep|] == sep {
      JoinSplit(s[|sep|..], sep);
      SplitAtSeparator(s, sep);
      JoinEmptyFirst(Split(s[|sep|..], sep), sep);
      assert s == s[..|sep|] + s[|sep|..];
    } else {
      JoinSplit(s[1..], sep);
      SplitPastCharacter(s, sep);
      JoinExtendFirst(s[0], Split(s[1..], sep), sep);
      assert s == [s[0]] + s[1..];
    }
  }

  /** A string starting with the separator splits into an empty piece, then the rest's pieces. */
  lemma SplitAtSeparator(s: string, sep: string)
    requires sep != "" && |sep| <= |s| && s[..|sep|] == sep
    ensures Split(s, sep) == [""] + Split(s[|sep|..], sep)
  {
  }

  /** Any other string puts its first character in front of the rest's first piece. */
  lemma SplitPastCharacter(s: string, sep: string)
    requires sep != "" && |sep| <= |s| && s[..|sep|] != sep
    ensures Split(s, sep) == [[s[0]] + Split(s[1..], sep)[0]] + Split(s[1..], sep)[1..]
  {
  }

  /** An empty first piece contributes only the separator. */
  lemma JoinEmptyFirst(pieces: seq<string>, sep: string)
    requires |pieces| >= 1
    ensures Join([""] + pieces, sep) == sep + Join(pieces, sep)
  {
    assert ([""] + pieces)[1..] == pieces;
  }

  /** Prepending a character to the first piece prepends it to the joined string. */
  lemma JoinExtendFirst(c: char, pieces: seq<string>, sep: string)
    requires |pieces| >= 1
    ensures Join([[c] + pieces[0]] + pieces[1..], sep) == [c] + Join(pieces, sep)
  {
    var extended := [[c] + pieces[0]] + pieces[1..];
    assert extended[1..] == pieces[1..];
  }

  /** The first piece of a split is the part before the first occurrence of the separator. */
  lemma {:induction false} SplitFirstPiece(s: string, sep: string)
    requires sep != ""
    ensures PrefixBeforeFirst(s, sep, Split(s, sep)[0])
    ensures |Split(s, sep)| == 1 <==> Split(s, sep)[0] == s
    decreases |s|
  {
    if |s| < |sep| {
    } else if s[..|sep|] == sep {
      assert OccursAt(s, sep, 0);
    } else {
      var rest := Split(s[1..], sep);
      SplitFirstPiece(s[1..], sep);
      var q := rest[0];
      var p := [s[0]] + q;
      assert Split(s, sep)[0] == p;
      ShiftPrefix(s, q);
      forall j | 0 <= j < |p| ensures !OccursAt(s, sep, j) {
        if j > 0 {
          ShiftOccurs(s, sep, j - 1);
        }
      }
      if q != s[1..] {
        ShiftOccurs(s, sep, |q|);
      }
    }
  }

  /** Prepending one character to a prefix of `s[1..]` gives a prefix of `s`. */
  lemma ShiftPrefix(s: string, q: string)
    requires |s| > 0 && |q| <= |s| - 1 && s[1..][..|q|] == q
    ensures s[..|q| + 1] == [s[0]] + q
  {
    assert s[..|q| + 1] == [s[0]] + s[1..][..|q|];
  }

  /** An occurrence in `s[1..]` is an occurrence in `s` one position further on. */
  lemma ShiftOccurs(s: string, sub: string, j: nat)
    requires |s| > 0
    ensures OccursAt(s[1..], sub, j) <==> OccursAt(s, sub, j + 1)
  {
    if j + 1 + |sub| <= |s| {
      assert s[1..][j..j + |sub|] == s[j + 1..j + 1 + |sub|];
    }
  }

  /** At most one string is the part of `s` before the first `sep`. */
  lemma PrefixBeforeFirstUnique(s: string, sep: string, p: string, q: string)
    requires sep != ""
    requires PrefixBeforeFirst(s, sep, p) && PrefixBeforeFirst(s, sep, q)
    ensures p == q
  {
    assert |p| <= |q| || !OccursAt(s, sep, |q|);
    assert |q| <= |p| || !OccursAt(s, sep, |p|);
    assert p == s[..|p|] == q;
  }
}
