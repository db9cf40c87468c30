/**
 The two `java.lang.String` searches that kernel inference relies on,
 stated over Dafny strings (`seq<char>`): `lastIndexOf` for a single
 character and `indexOf` for a substring. Both return -1 when there is
 no occurrence, exactly as the Java methods do.

 The functions only compute; what their results mean is stated by the
 `...Spec` lemmas that follow each of them.
 */
module Strings {

  /** `pat` occurs in `text` starting at offset `i`. */
  predicate OccursAt(text: string, pat: string, i: int)
  {
    0 <= i && i + |pat| <= |text| && text[i..i + |pat|] == pat
  }

  /** `text` begins with `pat`. */
  predicate StartsWith(text: string, pat: string)
  {
    |pat| <= |text| && text[..|pat|] == pat
  }

  /** The index of the last `c` in `s`, or -1 when `c` does not occur. */
  function LastIndexOf(s: string, c: char): (r: int)
    ensures -1 <= r < |s|
  {
    if |s| == 0 then -1
    else if s[|s| - 1] == c then |s| - 1
    else LastIndexOf(s[..|s| - 1], c)
  }

  /** -1 exactly when `c` is absent; otherwise an index holding `c` with
      no `c` after it. */
  lemma {:induction false} LastIndexOfSpec(s: string, c: char)
    ensures var r := LastIndexOf(s, c);
            && (r == -1 <==> c !in s)
            && (0 <= r ==> s[r] == c)
            && (0 <= r ==> forall j :: r < j < |s| ==> s[j] != c)
  {
    if |s| > 0 && s[|s| - 1] != c {
      var prefix := s[..|s| - 1];
      LastIndexOfSpec(prefix, c);
      assert forall j :: 0 <= j < |prefix| ==> prefix[j] == s[j];
      assert c in s ==> c in prefix by {
        if c in s {
          var j :| 0 <= j < |s| && s[j] == c;
          assert prefix[j] == c;
        }
      }
    }
  }

  /** What follows the last `c` of `s` (all of `s` when there is none)
      holds no `c`. */
  lemma {:induction false} AfterLastIndexOf(s: string, c: char)
    ensures c !in s[LastIndexOf(s, c) + 1..]
  {
    if |s| > 0 && s[|s| - 1] != c {
      var prefix := s[..|s| - 1];
      AfterLastIndexOf(prefix, c);
      var k := LastIndexOf(prefix, c);
      assert s[k + 1..] == prefix[k + 1..] + [s[|s| - 1]];
    }
  }

  /** The index of the FIRST occurrence of `pat` in `text`, or -1 when
      there is none (`String.indexOf(String)`). */
  function IndexOf(text: string, pat: string): (r: int)
    ensures -1 <= r
    decreases |text|
  {
    if StartsWith(text, pat) then 0
    else if |text| == 0 then -1
    else
      var rest := IndexOf(text[1..], pat);
      if rest == -1 then -1 else rest + 1
  }

  /** An occurrence at a positive offset of `text` is an occurrence one
      position earlier in `text[1..]`, and conversely. */
  lemma ShiftOccurrence(text: string, pat: string, i: int)
    requires |text| > 0 && 1 <= i
    ensures OccursAt(text, pat, i) <==> OccursAt(text[1..], pat, i - 1)
  {
    if i + |pat| <= |text| {
      assert text[1..][i - 1..i - 1 + |pat|] == text[i..i + |pat|];
    }
  }

  /** A non-negative result is an occurrence with none before it; -1
      means there is no occurrence anywhere. */
  lemma {:induction false} IndexOfSpec(text: string, pat: string)
    ensures var r := IndexOf(text, pat);
            && (0 <= r ==> OccursAt(text, pat, r))
            && (0 <= r ==> forall i :: 0 <= i < r ==> !OccursAt(text, pat, i))
            && (r == -1 ==> forall i :: !OccursAt(text, pat, i))
    decreases |text|
  {
    var r := IndexOf(text, pat);
    if StartsWith(text, pat) {
      assert OccursAt(text, pat, 0);
    } else if |text| == 0 {
      assert forall i :: !OccursAt(text, pat, i);
    } else {
      var tail := text[1..];
      IndexOfSpec(tail, pat);
      var rest := IndexOf(tail, pat);
      assert !OccursAt(text, pat, 0);
      if rest == -1 {
        forall i | 1 <= i ensures !OccursAt(text, pat, i) {
          ShiftOccurrence(text, pat, i);
        }
      } else {
        assert r == rest + 1;
        ShiftOccurrence(text, pat, r);
        forall i | 1 <= i < r ensures !OccursAt(text, pat, i) {
          ShiftOccurrence(text, pat, i);
        }
      }
    }
  }

  /** `IndexOf(text, pat) > 0` — the test the source applies — holds
      exactly when `pat` occurs somewhere in `text` but not at offset 0. */
  lemma IndexOfPositive(text: string, pat: string)
    ensures IndexOf(text, pat) > 0 <==>
              (!StartsWith(text, pat) && exists i :: 0 < i && OccursAt(text, pat, i))
  {
    IndexOfSpec(text, pat);
    var r := IndexOf(text, pat);
    if StartsWith(text, pat) {
      assert OccursAt(text, pat, 0);
    }
    if r > 0 {
      assert OccursAt(text, pat, r);
    }
  }
}
