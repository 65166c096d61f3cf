/** Values shared by both bot variants: optional values, user ids, and the
    small sequence vocabulary used to state what the handlers keep. */
module Common {

  datatype Option<+T> = None | Some(value: T)

  /** Telegram user id. */
  type UserId = int

  /** Python truthiness of an optional string field: present and non-empty. */
  predicate Truthy(f: Option<string>)
  {
    f.Some? && f.value != ""
  }

  /** `suffix` is what remains of `s` after dropping some of its first elements. */
  predicate IsSuffix<T(==)>(suffix: seq<T>, s: seq<T>)
  {
    |suffix| <= |s| && forall i :: 0 <= i < |suffix| ==> suffix[i] == s[|s| - |suffix| + i]
  }

  /** No element occurs twice. */
  predicate NoDuplicates<T(==)>(s: seq<T>)
  {
    forall i, j :: 0 <= i < j < |s| ==> s[i] != s[j]
  }

  /** `sub` occurs as a contiguous piece of `s` (Python's `sub in s`). */
  predicate Contains(s: string, sub: string)
  {
    exists i :: 0 <= i <= |s| - |sub| && OccursAt(s, sub, i)
  }

  /** `sub` stands in `s` from position `i` on. */
  predicate OccursAt(s: string, sub: string, i: int)
  {
    0 <= i <= |s| - |sub| && s[i..i + |sub|] == sub
  }

  /** `p` is a prefix of `s` (Python's `s.startswith(p)`). */
  predicate StartsWith(s: string, p: string)
  {
    |p| <= |s| && s[..|p|] == p
  }

  function Min(a: int, b: int): int
  {
    if a <= b then a else b
  }
}
