/** Go slices: a window of `len` elements at the front of a backing array.
    Every slice of the repository's graph starts at index 0 of its backing array, so the
    window needs no offset; the capacity is the length of the array. */
module GoSlices {

  datatype Slice<T> = Slice(arr: array<T>, len: nat)
  {
    ghost predicate Valid()
      reads arr
    {
      len <= arr.Length
    }

    /** The elements a reader of the slice sees. */
    ghost function Elements(): (s: seq<T>)
      requires Valid()
      reads arr
      ensures |s| == len
    {
      arr[..len]
    }
  }

  /** Element `i` taken out and the rest moved down. */
  function Without<T>(s: seq<T>, i: nat): (r: seq<T>)
    requires i < |s|
    ensures |r| == |s| - 1
    ensures forall k :: 0 <= k < |r| ==> r[k] == if k < i then s[k] else s[k + 1]
  {
    s[..i] + s[i + 1..]
  }

  /** The same, as the longer slice header still sees it: the last element stays behind in its
      old place. */
  function ShiftedDown<T>(s: seq<T>, i: nat): (r: seq<T>)
    requires i < |s|
    ensures |r| == |s|
    ensures forall k :: 0 <= k < |r| ==> r[k] == if k < i || k == |s| - 1 then s[k] else s[k + 1]
  {
    Without(s, i) + [s[|s| - 1]]
  }

  /** The built-in `append(s, x)`: in place while there is capacity, else into a new array with
      room for more. Only the old window is promised to a reader of the old slice. */
  method Append<T>(s: Slice<T>, x: T) returns (r: Slice<T>)
    requires s.Valid()
    modifies s.arr
    ensures r.Valid() && r.Elements() == old(s.Elements()) + [x]
    ensures s.Elements() == old(s.Elements())
    ensures if s.len < s.arr.Length then r.arr == s.arr else fresh(r.arr)
    ensures forall k :: 0 <= k < s.arr.Length && (k != s.len || r.arr != s.arr) ==> s.arr[k] == old(s.arr[k])
  {
    if s.len < s.arr.Length {
      s.arr[s.len] := x;
      r := Slice(s.arr, s.len + 1);
    } else {
      var bigger := new T[2 * s.len + 1](_ => x);
      for i := 0 to s.len
        invariant forall j :: 0 <= j < i ==> bigger[j] == s.arr[j]
        invariant forall j :: i <= j < bigger.Length ==> bigger[j] == x
        invariant s.arr[..] == old(s.arr[..])
      {
        bigger[i] := s.arr[i];
      }
      r := Slice(bigger, s.len + 1);
    }
  }

  /** `append(s[:index], s[index+1:]...)`: shifts the tail down inside the backing array and
      returns a shorter window on it. The caller's own window keeps its length and sees
      `ShiftedDown`. */
  method RemoveIndex<T>(s: Slice<T>, index: nat) returns (r: Slice<T>)
    requires s.Valid() && index < s.len
    modifies s.arr
    ensures r == Slice(s.arr, s.len - 1)
    ensures r.Elements() == Without(old(s.Elements()), index)
    ensures s.Elements() == ShiftedDown(old(s.Elements()), index)
  {
    ghost var was := s.Elements();
    for i := index to s.len - 1
      invariant s.arr[..i] == was[..index] + was[index + 1..i + 1]
      invariant s.arr[i..s.len] == was[i..]
    {
      assert s.arr[i + 1] == s.arr[i..s.len][1] == was[i + 1];
      s.arr[i] := s.arr[i + 1];
      assert s.arr[i + 1..s.len] == was[i..][1..];
    }
    r := Slice(s.arr, s.len - 1);
    assert s.arr[s.len - 1] == s.arr[s.len - 1..s.len][0] == was[s.len - 1];
    assert s.Elements() == r.Elements() + [s.arr[s.len - 1]];
  }
}
