/** The two System.Linq operators the chat service applies to its history,
    over finite sequences (a materialised `ToList()` is the sequence itself). */
module Enumerable {

  /** `source.Skip(count)`: enumerate `source` and pass over its first `count`
      elements; a count of zero or less skips nothing, a count beyond the end
      yields nothing. */
  function Skip<T>(source: seq<T>, count: int): (r: seq<T>)
    ensures count <= 0 ==> r == source
    ensures 0 <= count <= |source| ==> r == source[count..]
    ensures |source| <= count ==> r == []
    decreases |source|
  {
    if count <= 0 || |source| == 0 then source
    else Skip(source[1..], count - 1)
  }

  /** `source.Prepend(element)`: `element` first, then every element of `source` in order. */
  function Prepend<T>(source: seq<T>, element: T): (r: seq<T>)
    ensures |r| == |source| + 1
    ensures r[0] == element
    ensures r[1..] == source
  {
    [element] + source
  }
}
