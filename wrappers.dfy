/** Optional values, fallible results and the few JavaScript string
    operations the front end relies on. */
module Wrappers {

  /** `T | null` (or `T | undefined`): a value that may be absent. */
  datatype Option<+T> = None | Some(value: T) {
    function GetOr(default: T): T {
      match this
      case Some(v) => v
      case None => default
    }
  }

  /** The outcome of a request: the reply body, or the error it failed with. */
  datatype Result<+T, +E> = Success(value: T) | Failure(error: E)

  /** JavaScript truthiness of a `string | null`: present and not empty. */
  predicate Truthy(s: Option<string>) {
    s.Some? && s.value != ""
  }

  /** `s.startsWith(prefix)` */
  predicate StartsWith(s: string, prefix: string) {
    |prefix| <= |s| && s[..|prefix|] == prefix
  }

  /** `s.includes(part)`: `part` occurs somewhere in `s`. */
  predicate Contains(s: string, part: string)
    decreases |s|
  {
    StartsWith(s, part) || (|s| > 0 && Contains(s[1..], part))
  }

  /** `Contains` holds exactly when `part` occurs at some offset of `s`. */
  lemma {:induction false} ContainsAt(s: string, part: string, k: nat)
    requires k + |part| <= |s| && s[k..k + |part|] == part
    ensures Contains(s, part)
    decreases k
  {
    if k == 0 {
      assert s[..|part|] == s[0..|part|];
    } else {
      assert s[1..][k - 1..k - 1 + |part|] == s[k..k + |part|];
      ContainsAt(s[1..], part, k - 1);
    }
  }

  /** A string cannot contain a part that has a character the string lacks. */
  lemma {:induction false} NotContainsMissingChar(s: string, part: string, i: nat)
    requires i < |part| && part[i] !in s
    ensures !Contains(s, part)
    decreases |s|
  {
    if |s| > 0 {
      NotContainsMissingChar(s[1..], part, i);
    }
  }
}
