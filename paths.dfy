/** The parts of a file name that Python's `pathlib.PurePath` exposes as `suffix` and `stem`. */
module Paths {
  import opened Strings

  /** `s.rfind(c)`: the index of the last occurrence of `c`, or -1. */
  function LastIndexOf(s: string, c: char): (r: int)
    ensures -1 <= r < |s|
    ensures r == -1 <==> c !in s
    ensures r >= 0 ==> s[r] == c
    ensures forall j :: r < j < |s| ==> s[j] != c
  {
    if |s| == 0 then -1
    else if s[|s| - 1] == c then |s| - 1
    else
      var r := LastIndexOf(s[..|s| - 1], c);
      assert s == s[..|s| - 1] + [s[|s| - 1]];
      r
  }

  /** An occurrence of `c` with none after it is the last one. */
  lemma LastIndexOfAt(s: string, c: char, i: int)
    requires 0 <= i < |s| && s[i] == c
    requires forall j :: i < j < |s| ==> s[j] != c
    ensures LastIndexOf(s, c) == i
  {
  }

  /** The index of the dot that starts the suffix, when `name` has a suffix:
      a last dot that is neither the first nor the last character. */
  predicate HasSuffix(name: string) {
    var i := LastIndexOf(name, '.');
    0 < i < |name| - 1
  }

  /** `PurePath(name).suffix` (the rule of Python 3.13 and earlier): from the last dot on,
      or "" (for ".gitkeep", "notes", "archive."). A non-empty suffix is a dot and at least
      one more character, and contains no other dot. */
  function Suffix(name: string): (r: string)
    ensures r == "" || (|r| >= 2 && r[0] == '.' && '.' !in r[1..])
    ensures r != "" ==> |r| < |name|
    ensures r != "" <==> 0 < LastIndexOf(name, '.') < |name| - 1
    ensures r != "" ==> r == name[LastIndexOf(name, '.')..]
  {
    if HasSuffix(name) then
      var i := LastIndexOf(name, '.');
      assert forall j :: 0 <= j < |name[i..]| - 1 ==> name[i..][1..][j] == name[i + 1 + j];
      name[i..]
    else ""
  }

  /** `PurePath(name).stem`: what comes before the suffix; never empty for a non-empty name. */
  function Stem(name: string): (r: string)
    ensures r + Suffix(name) == name
    ensures |name| > 0 ==> |r| > 0
  {
    if HasSuffix(name) then
      var i := LastIndexOf(name, '.');
      assert name[..i] + name[i..] == name;
      name[..i]
    else name
  }

  /** Lowering a name and taking its suffix can be done in either order. */
  lemma {:induction false} LowerLastIndexOf(s: string)
    ensures LastIndexOf(Lower(s), '.') == LastIndexOf(s, '.')
  {
    if |s| > 0 && s[|s| - 1] != '.' {
      assert Lower(s)[..|s| - 1] == Lower(s[..|s| - 1]);
      LowerLastIndexOf(s[..|s| - 1]);
    }
  }

  /** `path.suffix.lower()` equals the suffix of `path.name.lower()`. */
  lemma LowerSuffix(name: string)
    ensures Lower(Suffix(name)) == Suffix(Lower(name))
  {
    LowerLastIndexOf(name);
    if HasSuffix(name) {
      LowerSlice(name, LastIndexOf(name, '.'), |name|);
    }
  }
}
