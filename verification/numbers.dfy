/** Arithmetic shared by the search client and the extractor. */
module Numbers {

  /** Python's `min(a, b)` on integers. */
  function Min(a: int, b: int): (r: int)
    ensures r <= a && r <= b
    ensures r == a || r == b
  {
    if a <= b then a else b
  }

}
