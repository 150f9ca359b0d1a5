/** The three `str` operations the data service and the dashboard rely on, over `seq<char>`. */
module Strings {

  /** `s.endswith(suffix)`: a case-sensitive, exact trailing match. */
  predicate EndsWith(s: string, suffix: string)
  {
    |suffix| <= |s| && s[|s| - |suffix|..] == suffix
  }

  /** `sub` occurs in `s` starting at position `i`. */
  predicate OccursAt(s: string, sub: string, i: int)
  {
    0 <= i <= |s| - |sub| && s[i..i + |sub|] == sub
  }

  /** `sub in s` on strings: `sub` occurs at some position of `s`. */
  predicate Contains(s: string, sub: string)
  {
    exists i | 0 <= i <= |s| - |sub| :: OccursAt(s, sub, i)
  }

  /** `c.lower()` on the ASCII range; every other character is kept. */
  function LowerChar(c: char): char
  {
    if 'A' <= c <= 'Z' then (c as int - 'A' as int + 'a' as int) as char else c
  }

  /** `s.lower()`, character by character. */
  function Lower(s: string): string
  {
    seq(|s|, i requires 0 <= i < |s| => LowerChar(s[i]))
  }

  /** A string ends in at most one of the suffixes the loader dispatches on, so the order of its tests is immaterial. */
  lemma SuffixesExclusive(s: string)
    ensures !(EndsWith(s, ".csv") && EndsWith(s, ".xlsx"))
    ensures !(EndsWith(s, ".csv") && EndsWith(s, ".zip"))
    ensures !(EndsWith(s, ".xlsx") && EndsWith(s, ".zip"))
  {
    if EndsWith(s, ".csv") {
      assert s[|s| - 1] == ".csv"[3] == 'v';
    }
    if EndsWith(s, ".xlsx") {
      assert s[|s| - 1] == ".xlsx"[4] == 'x';
    }
    if EndsWith(s, ".zip") {
      assert s[|s| - 1] == ".zip"[3] == 'p';
    }
  }

  /** A string in which the first character of `sub` never appears does not contain `sub`. */
  lemma FirstCharAbsent(s: string, sub: string)
    requires |sub| > 0 && sub[0] !in s
    ensures !Contains(s, sub)
  {
  }
}
