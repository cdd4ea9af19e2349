/** The few pieces of Python value semantics the resolver leans on: `None`,
    truthiness of optional strings, how an f-string renders `None`,
    `str.startswith`, and the substring test `p in s`. */
module Py {

  /** A Python value that may be `None`. */
  datatype Option<+T> = None | Some(value: T)

  /** Truthiness of an optional string: `None` and `""` are both false. */
  predicate Truthy(o: Option<string>) {
    o.Some? && o.value != ""
  }

  /** The text an f-string produces for an optional string: `None` prints as "None". */
  function Render(o: Option<string>): string {
    match o
    case None => "None"
    case Some(s) => s
  }

  /** `s.startswith(prefix)` */
  predicate StartsWith(s: string, prefix: string) {
    |prefix| <= |s| && s[..|prefix|] == prefix
  }

  /** `p` occurs in `s` starting at index `i`: the reference meaning of `p in s`. */
  ghost predicate OccursAt(s: string, p: string, i: int) {
    0 <= i && i + |p| <= |s| && s[i..i + |p|] == p
  }

  /** `p` occurs somewhere in `s`: the reference meaning of `p in s`. */
  ghost predicate Mentions(s: string, p: string) {
    exists i :: OccursAt(s, p, i)
  }

  /** Moving the scan one character to the right neither adds nor loses an
      occurrence, once index 0 has been ruled out. */
  lemma {:induction false} OccursShift(s: string, p: string)
    requires |s| > 0 && !StartsWith(s, p)
    ensures (exists i :: OccursAt(s, p, i)) <==> (exists j :: OccursAt(s[1..], p, j))
  {
    if i :| OccursAt(s, p, i) {
      assert i != 0;
      assert s[1..][i - 1..i - 1 + |p|] == s[i..i + |p|];
      assert OccursAt(s[1..], p, i - 1);
    }
    if j :| OccursAt(s[1..], p, j) {
      assert s[1..][j..j + |p|] == s[j + 1..j + 1 + |p|];
      assert OccursAt(s, p, j + 1);
    }
  }

  /** Python's `p in s` on strings, scanning `s` from the left. The empty
      string occurs in every string. */
  function Contains(s: string, p: string): (r: bool)
    ensures r <==> Mentions(s, p)
    decreases |s|
  {
    if StartsWith(s, p) then
      assert OccursAt(s, p, 0);
      true
    else if |s| == 0 then
      false
    else
      OccursShift(s, p);
      Contains(s[1..], p)
  }
}
