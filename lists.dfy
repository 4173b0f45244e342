/** The operations of .NET's `List<T>` that the path uses. */
module Lists {

  /** `List.Insert(index, x)`. */
  function Insert<T>(s: seq<T>, index: int, x: T): (r: seq<T>)
    requires 0 <= index <= |s|
    ensures |r| == |s| + 1
    ensures forall k :: 0 <= k < |r| ==> r[k] == if k < index then s[k] else if k == index then x else s[k - 1]
  {
    s[..index] + [x] + s[index..]
  }

  /** `List.RemoveAt(index)`. */
  function RemoveAt<T>(s: seq<T>, index: int): (r: seq<T>)
    requires 0 <= index < |s|
    ensures |r| == |s| - 1
    ensures forall k :: 0 <= k < |r| ==> r[k] == if k < index then s[k] else s[k + 1]
  {
    s[..index] + s[index + 1..]
  }

  /** `List.IndexOf(x)`: the first index holding `x`, or -1. */
  function IndexOf<T(==)>(s: seq<T>, x: T): (r: int)
    ensures -1 <= r < |s|
    ensures r == -1 <==> x !in s
    ensures r >= 0 ==> s[r] == x && forall k :: 0 <= k < r ==> s[k] != x
  {
    if |s| == 0 then -1
    else if s[0] == x then 0
    else var k := IndexOf(s[1..], x); if k == -1 then -1 else k + 1
  }

  /** `List.Add(x)` is `Insert` at the end. */
  lemma AppendIsInsert<T>(s: seq<T>, x: T)
    ensures s + [x] == Insert(s, |s|, x)
  {
  }
}
