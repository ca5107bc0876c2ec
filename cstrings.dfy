/** C's `strcmp`, as `drawBox` uses it to test its qualifier. */
module CStrings {

  /** A C string ends at its first NUL, so the characters it holds are all
      non-NUL. */
  predicate IsCString(s: string)
  {
    forall i :: 0 <= i < |s| ==> s[i] != '\0'
  }

  /** The character `strcmp` reads at the head of `s`: the terminating NUL
      once the string is exhausted. */
  function HeadCode(s: string): int
  {
    if |s| == 0 then 0 else s[0] as int
  }

  /** Walks both strings while their characters agree and returns the
      difference of the first pair that differs (the terminating NUL
      included); zero when the strings are equal. */
  function StrCmp(a: string, b: string): (r: int)
    requires IsCString(a) && IsCString(b)
    ensures r == 0 <==> a == b
    decreases |a|
  {
    if |a| == 0 || |b| == 0 || a[0] != b[0] then
      HeadCode(a) - HeadCode(b)
    else
      assert a == [a[0]] + a[1..] && b == [b[0]] + b[1..];
      StrCmp(a[1..], b[1..])
  }

  /** Swapping the arguments negates the result, so `a` sorts before `b`
      exactly when `b` sorts after `a`. */
  lemma {:induction false} StrCmpAntisymmetric(a: string, b: string)
    requires IsCString(a) && IsCString(b)
    ensures StrCmp(a, b) == -StrCmp(b, a)
    decreases |a|
  {
    if |a| == 0 || |b| == 0 || a[0] != b[0] {
    } else {
      StrCmpAntisymmetric(a[1..], b[1..]);
    }
  }
}
