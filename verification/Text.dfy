/** Finding a character in a string, from the front or from the back. */
module Text {

  function FirstFrom(s: string, c: char, i: nat): (k: nat)
    requires i <= |s|
    ensures i <= k <= |s| && (k < |s| ==> s[k] == c) && forall j :: i <= j < k ==> s[j] != c
    decreases |s| - i
  {
    if i == |s| || s[i] == c then i else FirstFrom(s, c, i + 1)
  }

  function FirstIndex(s: string, c: char): (k: nat)
    ensures k <= |s| && (k < |s| ==> s[k] == c) && forall j :: 0 <= j < k ==> s[j] != c
  {
    FirstFrom(s, c, 0)
  }

  /** The last position before `i`, or -1. */
  function LastBefore(s: string, c: char, i: nat): (k: int)
    requires i <= |s|
    ensures -1 <= k < i && (k >= 0 ==> s[k] == c) && forall j :: k < j < i ==> s[j] != c
  {
    if i == 0 then -1 else if s[i - 1] == c then i - 1 else LastBefore(s, c, i - 1)
  }
}
