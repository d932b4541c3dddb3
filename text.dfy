/** Substring search on strings, as Python's `in` operator on `str`. */
module Text {

  /** `t` occurs in `s` starting at index `i`. */
  predicate OccursAt(s: string, t: string, i: nat) {
    i + |t| <= |s| && s[i..i + |t|] == t
  }

  /** `t` is a substring of `s` (Python's `t in s`). */
  ghost predicate Contains(s: string, t: string) {
    exists i: nat :: OccursAt(s, t, i)
  }

  /** Scans `s` from index `from` for an occurrence of `t`. */
  function FindFrom(s: string, t: string, from: nat): (found: bool)
    requires from <= |s| + 1
    ensures found <==> exists i: nat :: from <= i && OccursAt(s, t, i)
    decreases |s| + 1 - from
  {
    if from + |t| > |s| then
      assert forall i: nat :: from <= i ==> !OccursAt(s, t, i);
      false
    else if s[from..from + |t|] == t then
      assert OccursAt(s, t, from);
      true
    else
      var rest := FindFrom(s, t, from + 1);
      assert forall i: nat :: from <= i && OccursAt(s, t, i) ==> i == from || from + 1 <= i;
      rest
  }

  /** Python's `t in s`, computed. */
  function ContainsText(s: string, t: string): (found: bool)
    ensures found <==> Contains(s, t)
  {
    FindFrom(s, t, 0)
  }

  /** `s` ends with `suffix` (Python's `str.endswith`). */
  predicate EndsWith(s: string, suffix: string) {
    |suffix| <= |s| && s[|s| - |suffix|..] == suffix
  }
}
