/**
 * ASCII case folding, the part of Go's `strings.EqualFold` that the gateway
 * relies on when it compares a query parameter with a fixed ASCII keyword.
 */
module Ascii {

  /** The lower-case form of an ASCII letter; every other character is kept. */
  function ToLower(c: char): char
  {
    if 'A' <= c <= 'Z' then (c as int + 32) as char else c
  }

  /** Case-insensitive equality: same length, and equal position by position
      once both sides are lower-cased. */
  function EqualFold(a: string, b: string): (r: bool)
    ensures r <==> |a| == |b| && forall i :: 0 <= i < |a| ==> ToLower(a[i]) == ToLower(b[i])
  {
    if a == [] || b == [] then a == b
    else
      var rest := EqualFold(a[1..], b[1..]);
      assert forall i :: 1 <= i < |a| && |a| == |b| ==> a[1..][i - 1] == a[i] && b[1..][i - 1] == b[i];
      ToLower(a[0]) == ToLower(b[0]) && rest
  }

  /** Two strings that agree after lower-casing cannot be told apart by
      EqualFold against any third string. */
  lemma EqualFoldRespectsCase(a: string, b: string, k: string)
    requires |a| == |b|
    requires forall i :: 0 <= i < |a| ==> ToLower(a[i]) == ToLower(b[i])
    ensures EqualFold(a, k) == EqualFold(b, k)
  {
  }
}
