/** Python's slice bounds on sequences: negative bounds count from the end and every bound is clamped. */
module Slices {

  /** Where a Python slice bound `i` lands in a sequence of length `len`. */
  function Clamp(i: int, len: nat): (k: nat)
    ensures k <= len
    ensures 0 <= i <= len ==> k == i
    ensures i > len ==> k == len
    ensures -(len as int) <= i < 0 ==> k == len + i
    ensures i < -(len as int) ==> k == 0
  {
    if i < 0 then (if len + i < 0 then 0 else len + i) else if i > len then len else i
  }

  /** `s[start:]`. */
  function SliceFrom<T>(s: seq<T>, start: int): seq<T> {
    s[Clamp(start, |s|)..]
  }

  /** `s[:stop]`. */
  function SliceTo<T>(s: seq<T>, stop: int): seq<T> {
    s[..Clamp(stop, |s|)]
  }

  function Min(a: int, b: int): int {
    if a < b then a else b
  }
}
