/**
 * The list of department codes a build works through: the command line's
 * positional arguments, normalised one by one, or else the whole catalog.
 */
module Departements {
  import opened Strings

  /** One entry of the administrative catalog; only its code is used here. */
  datatype Departement = Departement(code: string)

  /**
   * One positional argument (already a string): kept as it is when it starts
   * with "97" (overseas departments), otherwise left-padded with '0' to width 2.
   */
  function NormaliseCode(arg: string): (code: string)
    ensures |arg| >= 2 ==> code == arg
    ensures |arg| == 1 ==> code == ['0'] + arg
    ensures |arg| == 0 ==> code == "00"
    ensures |code| >= 2 && EndsWith(code, arg)
  {
    if StartsWith(arg, "97") then arg else PadStart(arg, 2, "0")
  }

  /** Normalising twice is the same as normalising once. */
  lemma NormaliseCodeIdempotent(arg: string)
    ensures NormaliseCode(NormaliseCode(arg)) == NormaliseCode(arg)
  {
  }

  /**
   * The "97" rule never changes the outcome: a code starting with "97" has at
   * least two characters, which padding to width 2 leaves alone as well.
   */
  lemma NinetySevenRuleIsPadding(arg: string)
    ensures NormaliseCode(arg) == PadStart(arg, 2, "0")
  {
  }

  /**
   * `codesDepartements`: with at least one argument, the normalised arguments
   * in argument order; with none, the catalog's codes in catalog order.
   */
  function DepartementCodes(args: seq<string>, catalog: seq<Departement>): (codes: seq<string>)
    ensures |args| > 0 ==>
              |codes| == |args| &&
              forall i :: 0 <= i < |args| ==> codes[i] == NormaliseCode(args[i])
    ensures |args| == 0 ==>
              |codes| == |catalog| &&
              forall i :: 0 <= i < |catalog| ==> codes[i] == catalog[i].code
  {
    if |args| > 0 then
      seq(|args|, i requires 0 <= i < |args| => NormaliseCode(args[i]))
    else
      seq(|catalog|, i requires 0 <= i < |catalog| => catalog[i].code)
  }
}
