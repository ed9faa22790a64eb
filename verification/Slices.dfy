/**
 Go slices of subscriber channels: a backing array and a length. Appending writes into the spare
 room of the array or moves to a larger one; cutting an element out shifts the rest in place.
 */
module Slices {

  datatype Slice = Slice(arr: array<nat>, len: nat)

  predicate InCapacity(s: Slice) {
    s.len <= s.arr.Length
  }

  function Elements(s: Slice): seq<nat>
    requires InCapacity(s)
    reads s.arr
  {
    s.arr[..s.len]
  }

  /** `append(nil, x)`. */
  method Single(x: nat) returns (s: Slice)
    ensures fresh(s.arr) && InCapacity(s) && Elements(s) == [x]
  {
    var arr := new nat[1](_ => x);
    s := Slice(arr, 1);
  }

  /** `append(s, x)`; a full array is replaced by one of twice the capacity. */
  method Append(s: Slice, x: nat) returns (longer: Slice)
    requires InCapacity(s)
    modifies s.arr
    ensures longer.arr == s.arr || fresh(longer.arr)
    ensures InCapacity(longer) && Elements(longer) == old(Elements(s)) + [x]
  {
    var arr := s.arr;
    if s.len == arr.Length {
      arr := new nat[2 * s.len + 1](_ => 0);
      for k := 0 to s.len
        modifies arr
        invariant arr[..k] == s.arr[..k]
      {
        arr[k] := s.arr[k];
      }
    }
    arr[s.len] := x;
    longer := Slice(arr, s.len + 1);
    assert Elements(longer)[..s.len] == old(Elements(s));
  }

  /** `append(s[:i], s[i+1:]...)`: the elements behind `i` move down by one within the same array. */
  method Cut(s: Slice, i: nat) returns (shorter: Slice)
    requires InCapacity(s) && i < s.len
    modifies s.arr
    ensures shorter == Slice(s.arr, s.len - 1)
    ensures Elements(shorter) == old(Elements(s)[..i] + Elements(s)[i + 1..])
    ensures s.arr[s.len..] == old(s.arr[s.len..])
  {
    for k := i to s.len - 1
      invariant s.arr[..k] == old(s.arr[..i] + s.arr[i + 1..k + 1])
      invariant s.arr[k + 1..] == old(s.arr[k + 1..])
    {
      s.arr[k] := s.arr[k + 1];
    }
    shorter := Slice(s.arr, s.len - 1);
  }
}
