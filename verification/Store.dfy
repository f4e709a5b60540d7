/** The job store (internal/scheduler/store.go): a slice of jobs over a backing array that `ToList` hands
    out and `Delete` shifts in place. */
module Stores {
  import opened Wrappers
  import opened Jobs
  import opened Slices

  class Store {
    var data: array<Job>
    var len: nat

    ghost predicate Valid()
      reads this, data
    {
      len <= data.Length
    }

    /** The stored jobs, in order. */
    ghost function Contents(): (s: seq<Job>)
      requires Valid()
      reads this, data
    {
      data[..len]
    }

    constructor ()
      ensures Valid() && fresh(data) && Contents() == []
    {
      data := new Job[0];
      len := 0;
    }

    method Add(j: Job)
      requires Valid()
      modifies this, data
      ensures Valid() && (data == old(data) || fresh(data))
      ensures Contents() == old(Contents()) + [j]
    {
      if len == data.Length {
        data := Grown(data, len, j);
      }
      data[len] := j;
      len := len + 1;
    }

    /** A longer array with the same elements: what `append` does when the capacity is used up. */
    static method Grown(a: array<Job>, n: nat, filler: Job) returns (b: array<Job>)
      requires n == a.Length
      ensures fresh(b) && b.Length > n && b[..n] == a[..]
    {
      b := new Job[2 * n + 1](_ => filler);
      for i := 0 to n
        invariant b[..i] == a[..i]
      {
        b[i] := a[i];
      }
    }

    /** The first position of a job with the ID, or `len`. */
    method Index(id: string) returns (k: nat)
      requires Valid()
      ensures k <= len
      ensures k < len ==> data[k].w.id == id
      ensures forall i :: 0 <= i < k ==> data[i].w.id != id
    {
      k := 0;
      while k < len && data[k].w.id != id
        invariant k <= len
        invariant forall i :: 0 <= i < k ==> data[i].w.id != id
      {
        k := k + 1;
      }
    }

    method Find(id: string) returns (j: Option<Job>)
      requires Valid()
      ensures j.Some? ==> j.value in Contents() && j.value.w.id == id
      ensures j.None? ==> forall i :: 0 <= i < len ==> data[i].w.id != id
    {
      var k := Index(id);
      if k < len {
        assert data[k] == Contents()[k];
        return Some(data[k]);
      }
      return None;
    }

    /** `append(s[:at], s[at+1:]...)` on the slice of length `n`. */
    static method MoveDown(a: array<Job>, at: nat, n: nat)
      requires at < n <= a.Length
      modifies a
      ensures a[..] == ShiftDown(old(a[..]), at, n)
    {
      var k := at;
      while k + 1 < n
        invariant at <= k < n
        invariant forall i :: 0 <= i < a.Length ==> a[i] == old(a[..])[if at <= i < k then i + 1 else i]
      {
        a[k] := a[k + 1];
        k := k + 1;
      }
    }

    /** Delete by ID: the elements behind the job move down in the same array. */
    method Delete(id: string) returns (at: nat)
      requires Valid()
      modifies this, data
      ensures Valid() && data == old(data) && at <= old(len)
      ensures forall i :: 0 <= i < at ==> old(data[i]).w.id != id
      ensures at < old(len) ==>
                old(data[at]).w.id == id && len == old(len) - 1 && data[..] == ShiftDown(old(data[..]), at, old(len))
      ensures at == old(len) ==> len == old(len) && data[..] == old(data[..])
    {
      at := Index(id);
      if at == len {
        return;
      }
      MoveDown(data, at, len);
      len := len - 1;
    }

    /** A slice over the same backing array, not a copy. */
    method ToList() returns (list: array<Job>, n: nat)
      requires Valid()
      ensures list == data && n == len
    {
      return data, len;
    }
  }
}
