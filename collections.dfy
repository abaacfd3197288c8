/**
 * Index helpers over lists (Libraries/Operations/Collections.cs).
 * A list that may be `null` is an `Option<seq<T>>`.
 */
module Collections {
  import opened Wrappers

  /** The number of elements; a `null` list has none. */
  function Count<T>(src: Option<seq<T>>): nat
  {
    if src.Some? then |src.value| else 0
  }

  /** The index of the last element, or 0 for a `null` or empty list. */
  function LastIndex<T>(src: Option<seq<T>>): (r: int)
    ensures 0 <= r
    ensures Count(src) == 0 ==> r == 0
    ensures Count(src) > 0 ==> r < Count(src) && r + 1 == Count(src)
  {
    if src.None? || |src.value| == 0 then 0 else |src.value| - 1
  }

  /** Rounds `index` into the range [0, LastIndex(src)]. */
  function Clamp<T>(src: Option<seq<T>>, index: int): (r: int)
    ensures 0 <= r <= LastIndex(src)
    ensures 0 <= index < Count(src) ==> r == index
    ensures index < 0 ==> r == 0
    ensures index >= Count(src) ==> r == LastIndex(src)
  {
    Min(Max(index, 0), LastIndex(src))
  }

  function Max(a: int, b: int): int { if a >= b then a else b }

  function Min(a: int, b: int): int { if a <= b then a else b }

  /** A clamped index is a valid position of every non-empty list. */
  lemma ClampIsValidIndex<T>(src: Option<seq<T>>, index: int)
    requires Count(src) > 0
    ensures 0 <= Clamp(src, index) < |src.value|
  {
  }

  /** Clamping twice is clamping once. */
  lemma ClampIdempotent<T>(src: Option<seq<T>>, index: int)
    ensures Clamp(src, Clamp(src, index)) == Clamp(src, index)
  {
  }
}
