/** Go slices that share a backing array: deleting an element shifts the ones behind it in place. */
module Slices {

  /** The backing array after `append(s[:at], s[at+1:]...)` on a slice of length `len`: the elements
      behind `at` move down one place, and the last one stays where it was as a stale copy. */
  function ShiftDown<T>(backing: seq<T>, at: nat, len: nat): (b: seq<T>)
    requires at < len <= |backing|
    ensures |b| == |backing|
    ensures forall k :: 0 <= k < |b| ==> b[k] == if at <= k < len - 1 then backing[k + 1] else backing[k]
  {
    backing[..at] + backing[at + 1..len] + backing[len - 1..]
  }

  /** `s` without the elements of `gone`, in order. */
  ghost function Without<T>(s: seq<T>, gone: set<T>): (r: seq<T>)
    ensures forall x | x in r :: x in s && x !in gone
    ensures forall x | x in s && x !in gone :: x in r
  {
    if s == [] then []
    else if s[0] in gone then Without(s[1..], gone)
    else [s[0]] + Without(s[1..], gone)
  }

  ghost predicate Distinct<T>(s: seq<T>) {
    forall i, j :: 0 <= i < j < |s| ==> s[i] != s[j]
  }

  lemma {:induction false} WithoutNothing<T>(s: seq<T>)
    ensures Without(s, {}) == s
  {
    if s != [] {
      WithoutNothing(s[1..]);
    }
  }

  lemma {:induction false} WithoutMore<T>(s: seq<T>, gone: set<T>, x: T)
    ensures Without(s, gone + {x}) == Without(Without(s, gone), {x})
  {
    if s != [] {
      WithoutMore(s[1..], gone, x);
      if s[0] !in gone {
        assert ([s[0]] + Without(s[1..], gone))[1..] == Without(s[1..], gone);
      }
    }
  }

  /** Dropping the element at `at` from a list of distinct elements. */
  lemma {:induction false} WithoutOne<T>(s: seq<T>, at: nat)
    requires at < |s| && Distinct(s)
    ensures Without(s, {s[at]}) == s[..at] + s[at + 1..]
  {
    if at == 0 {
      assert s[at] !in s[1..];
      WithoutNone(s[1..], {s[at]});
    } else {
      assert s[0] != s[at];
      WithoutOne(s[1..], at - 1);
    }
  }

  lemma {:induction false} WithoutNone<T>(s: seq<T>, gone: set<T>)
    requires forall x | x in gone :: x !in s
    ensures Without(s, gone) == s
  {
    if s != [] {
      WithoutNone(s[1..], gone);
    }
  }

  // ----- a loop over the shared array while elements are deleted from it -----

  /** Every element of `start` is visited, still ahead in the array, or was moved past the index. */
  ghost predicate Accounted<T>(backing: seq<T>, i: nat, n: nat, start: seq<T>, visited: set<T>, skipped: set<T>)
    requires i <= n <= |backing|
  {
    forall x | x in start :: x in visited || x in skipped || x in backing[i..n]
  }

  /** The element that a deletion at `at` moves past the index `i`. */
  function MovedPast<T(==)>(backing: seq<T>, len: nat, i: nat, at: nat): (m: set<T>)
    requires len <= |backing|
  {
    if at <= i && i + 1 < len then {backing[i + 1]} else {}
  }

  lemma VisitAccounts<T>(backing: seq<T>, i: nat, n: nat, start: seq<T>, visited: set<T>, skipped: set<T>)
    requires i < n <= |backing| && Accounted(backing, i, n, start, visited, skipped)
    ensures Accounted(backing, i + 1, n, start, visited + {backing[i]}, skipped)
  {}

  lemma RemovalAccounts<T>(backing: seq<T>, len: nat, i: nat, n: nat, start: seq<T>, visited: set<T>, skipped: set<T>, at: nat)
    requires len <= n <= |backing| && i < n && at < len && at <= i
    requires Accounted(backing, i, n, start, visited, skipped)
    ensures Accounted(ShiftDown(backing, at, len), i + 1, n, start, visited + {backing[i]}, skipped + MovedPast(backing, len, i, at))
  {
    var b := ShiftDown(backing, at, len);
    forall x | x in start
      ensures x in visited + {backing[i]} || x in skipped + MovedPast(backing, len, i, at) || x in b[i + 1..n]
    {
      if x !in visited + {backing[i]} && x !in skipped + MovedPast(backing, len, i, at) {
        var k :| 0 <= k < n - i && backing[i..n][k] == x;
        if i + k < len {
          assert b[i + 1..n][k - 2] == x;
        } else {
          assert b[i + 1..n][k - 1] == x;
        }
      }
    }
  }

  /** The slice without the removed element, in the same order. */
  lemma RemovalKeepsOrder<T>(backing: seq<T>, len: nat, start: seq<T>, gone: set<T>, at: nat)
    requires len <= |backing| && at < len && Distinct(backing[..len]) && backing[..len] == Without(start, gone)
    ensures ShiftDown(backing, at, len)[..len - 1] == Without(start, gone + {backing[at]})
  {
    var refs := backing[..len];
    assert refs[at] == backing[at];
    WithoutMore(start, gone, backing[at]);
    WithoutOne(refs, at);
    ShiftedIsSpliced(backing, len, at);
  }

  lemma ShiftedIsSpliced<T>(backing: seq<T>, len: nat, at: nat)
    requires at < len <= |backing|
    ensures ShiftDown(backing, at, len)[..len - 1] == backing[..len][..at] + backing[..len][at + 1..]
  {}

  /** No more elements are passed over than are removed. */
  lemma SkippedCounts<T>(backing: seq<T>, len: nat, start: seq<T>, i: nat, at: nat, skipped: set<T>, gone: set<T>)
    requires len <= |backing| && at < len && backing[..len] == Without(start, gone) && |skipped| <= |gone|
    ensures |skipped + MovedPast(backing, len, i, at)| <= |gone + {backing[at]}|
  {}

  lemma UnvisitedWereSkipped<T>(backing: seq<T>, n: nat, start: seq<T>, visited: set<T>, skipped: set<T>, unvisited: set<T>)
    requires n <= |backing| && Accounted(backing, n, n, start, visited, skipped)
    requires forall x | x in unvisited :: x in start && x !in visited
    ensures |unvisited| <= |skipped|
  {
    assert backing[n..n] == [];
    assert unvisited <= skipped;
    assert skipped == unvisited + (skipped - unvisited);
  }
}
