/** Option and Result values, and facts about deleting one list element, shared by the modules of this model. */
module Common {

  /** A value that may be absent, like Python's `None` return. */
  datatype Option<+T> = None | Some(value: T)

  /** A computation that either produced a value or raised an error. */
  datatype Result<+T, +E> = Ok(value: T) | Err(error: E)

  /** Position `p` of a list with element `i` deleted, as `del xs[i]` leaves it. */
  lemma DeletedAt<T>(s: seq<T>, i: nat, p: nat)
    requires i < |s| && p < |s| - 1
    ensures |s[..i] + s[i + 1..]| == |s| - 1
    ensures (s[..i] + s[i + 1..])[p] == s[if p < i then p else p + 1]
  {
  }

  /** Deleting element `i` keeps exactly the other elements' occurrences. */
  lemma DeletedMembers<T>(s: seq<T>, i: nat)
    requires i < |s|
    ensures forall x :: x in s[..i] + s[i + 1..] ==> x in s
    ensures forall x :: x in s && x != s[i] ==> x in s[..i] + s[i + 1..]
  {
    var r := s[..i] + s[i + 1..];
    forall x | x in s && x != s[i]
      ensures x in r
    {
      var j :| 0 <= j < |s| && s[j] == x;
      if j < i { assert r[j] == x; } else { assert r[j - 1] == x; }
    }
  }

  /** Deleting from the tail of a list, then putting the head back, deletes from the list. */
  lemma DeletedBehindHead<T>(s: seq<T>, k: nat)
    requires k + 1 < |s|
    ensures [s[0]] + (s[1..][..k] + s[1..][k + 1..]) == s[..k + 1] + s[k + 2..]
  {
    assert s[..k + 1] == [s[0]] + s[1..][..k];
    assert s[k + 2..] == s[1..][k + 1..];
  }

  /** The first `k` elements of a list's tail, behind its head, are its first `k + 1` elements. */
  lemma TakeBehindHead<T>(s: seq<T>, k: nat)
    requires k < |s|
    ensures [s[0]] + s[1..][..k] == s[..k + 1]
  {
  }
}
