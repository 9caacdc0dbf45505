/** Small types shared by every module. */
module Base {

  datatype Option<+T> = None | Some(value: T)

  datatype Result<+T, +E> = Ok(value: T) | Err(error: E)

  /** `sub` occurs in `s` (Go's strings.Contains). */
  predicate Occurs(sub: string, s: string) {
    exists i :: 0 <= i <= |s| && OccursAt(sub, s, i)
  }

  predicate OccursAt(sub: string, s: string, i: int) {
    0 <= i <= |s| - |sub| && s[i..i + |sub|] == sub
  }

  /** Text added in front of and behind a string keeps what occurs in it. */
  lemma OccursInside(sub: string, before: string, s: string, after: string)
    requires Occurs(sub, s)
    ensures Occurs(sub, before + s + after)
  {
    var i :| 0 <= i <= |s| && OccursAt(sub, s, i);
    var t := before + s + after;
    assert t[|before| + i..|before| + i + |sub|] == s[i..i + |sub|];
    assert OccursAt(sub, t, |before| + i);
  }
}
