/**
 * JavaScript's `startsWith` and `padStart` as the build script uses them, with
 * `endsWith` for stating results and the repeated filler `padStart` inserts.
 */
module Strings {

  /** `s.startsWith(prefix)` */
  predicate StartsWith(s: string, prefix: string)
  {
    |prefix| <= |s| && s[..|prefix|] == prefix
  }

  /** `s.endsWith(suffix)` */
  predicate EndsWith(s: string, suffix: string)
  {
    |suffix| <= |s| && s[|s| - |suffix|..] == suffix
  }

  /**
   * The first `n` characters of `fill` repeated as often as needed: it begins
   * with `fill` (cut to `n`) and repeats with period `|fill|`.
   */
  function Filler(fill: string, n: nat): (r: string)
    requires fill != []
    ensures |r| == n
    ensures n <= |fill| ==> r == fill[..n]
    ensures n > |fill| ==> r[..|fill|] == fill
    ensures forall i :: 0 <= i < n - |fill| ==> r[i + |fill|] == r[i]
    decreases n
  {
    if n <= |fill| then fill[..n] else fill + Filler(fill, n - |fill|)
  }

  /**
   * `s.padStart(targetLength, padString)`: a string shorter than the target is
   * prefixed with `padString`, repeated and cut, up to the target length; a
   * string already long enough, or an empty `padString`, leaves `s` unchanged.
   */
  function PadStart(s: string, targetLength: nat, padString: string): (r: string)
    ensures targetLength <= |s| || padString == [] ==> r == s
    ensures targetLength > |s| && padString != [] ==>
      |r| == targetLength &&
      r[targetLength - |s|..] == s &&
      r[..targetLength - |s|] == Filler(padString, targetLength - |s|)
  {
    if targetLength <= |s| || padString == [] then s
    else
      var r := Filler(padString, targetLength - |s|) + s;
      assert r[targetLength - |s|..] == s;
      r
  }
}
