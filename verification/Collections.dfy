/** Small functions on numbers and on sequences of them. */
module Collections {
  function SetOf(s: seq<nat>): set<nat>
  {
    set n | n in s
  }

  predicate Distinct(s: seq<nat>)
  {
    forall i, j :: 0 <= i < j < |s| ==> s[i] != s[j]
  }

  function Min(a: int, b: int): int
  {
    if a < b then a else b
  }

  function Max(a: int, b: int): int
  {
    if a < b then b else a
  }
}
