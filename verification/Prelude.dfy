/** Shared result types and text helpers. */
module Prelude {
  datatype Option<+T> = None | Some(value: T)

  datatype Result<+T, +E> = Ok(value: T) | Err(error: E)

  predicate IsSpace(c: char) { c == ' ' || c == '\n' || c == '\t' || c == '\r' }

  function StripLeft(s: string): string {
    if |s| > 0 && IsSpace(s[0]) then StripLeft(s[1..]) else s
  }

  function StripRight(s: string): string {
    if |s| > 0 && IsSpace(s[|s| - 1]) then StripRight(s[..|s| - 1]) else s
  }

  function Strip(s: string): string { StripLeft(StripRight(s)) }

  predicate AllSpace(s: string) {
    forall i :: 0 <= i < |s| ==> s[i] == ' ' || s[i] == '\n' || s[i] == '\t' || s[i] == '\r'
  }

  // No space at either end.
  predicate Bare(s: string) { |s| > 0 ==> !AllSpace([s[0]]) && !AllSpace([s[|s| - 1]]) }

  lemma {:induction false} LeftIsStripped(s: string) returns (left: string)
    ensures s == left + StripLeft(s) && AllSpace(left)
    ensures |StripLeft(s)| > 0 ==> !AllSpace([StripLeft(s)[0]])
  {
    left := "";
    if |s| > 0 && IsSpace(s[0]) {
      left := LeftIsStripped(s[1..]);
      left := [s[0]] + left;
    } else if |s| > 0 {
      assert [s[0]][0] == s[0];
    }
  }

  lemma {:induction false} RightIsStripped(s: string) returns (right: string)
    ensures s == StripRight(s) + right && AllSpace(right)
    ensures |StripRight(s)| > 0 ==> !AllSpace([StripRight(s)[|StripRight(s)| - 1]])
  {
    right := "";
    if |s| > 0 && IsSpace(s[|s| - 1]) {
      right := RightIsStripped(s[..|s| - 1]);
      right := right + [s[|s| - 1]];
    } else if |s| > 0 {
      assert [s[|s| - 1]][0] == s[|s| - 1];
    }
  }

  // Stripping takes the spaces off both ends, all of them and nothing else.
  lemma TextIsStripped(s: string) returns (left: string, right: string)
    ensures s == left + Strip(s) + right && AllSpace(left) && AllSpace(right) && Bare(Strip(s))
  {
    right := RightIsStripped(s);
    left := LeftIsStripped(StripRight(s));
  }
}
