/**
 * The text transformations the exporters apply to list-valued columns:
 * rendering a list with Python's `str()` and replacing every comma by a
 * semicolon, so that the list never contains the comma of a list rendering.
 */
module Strings {
  import opened Wrappers
  import opened Json

  /** `s.replace(',', ';')`: every comma becomes a semicolon, nothing else moves. */
  function ReplaceCommas(s: string): (r: string)
    ensures |r| == |s|
    ensures forall i :: 0 <= i < |s| ==> r[i] == (if s[i] == ',' then ';' else s[i])
    ensures ',' !in r
  {
    if s == [] then [] else [if s[0] == ',' then ';' else s[0]] + ReplaceCommas(s[1..])
  }

  /** Replacing twice is replacing once. */
  lemma ReplaceCommasIdempotent(s: string)
    ensures ReplaceCommas(ReplaceCommas(s)) == ReplaceCommas(s)
  {
    var once := ReplaceCommas(s);
    ReplaceCommasFixesCommaFree(once);
  }

  /** A string without commas is left as it is. */
  lemma ReplaceCommasFixesCommaFree(s: string)
    requires ',' !in s
    ensures ReplaceCommas(s) == s
  {
    var r := ReplaceCommas(s);
    assert forall i :: 0 <= i < |s| ==> r[i] == s[i];
  }

  /**
   * `str(record.get(key, ""))` for a list-valued field: the list's rendering,
   * given by `repr` (standing for Python's list formatting, as a function of
   * the leaves' `str()` texts), or `str("")`, the empty string, when the key
   * is missing.
   */
  function ListText(field: Option<seq<Scalar>>, repr: seq<Scalar> -> string): string {
    match field
    case None => ""
    case Some(xs) => repr(xs)
  }
}
