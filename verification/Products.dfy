/** Multiplication kept under a name, so that a proof only sees the laws it calls for. */
module Products {
  function Product(m: int, n: int): int {
    m * n
  }

  lemma ProductMore(m: int, n: int)
    ensures Product(m + 1, n) == Product(m, n) + n && Product(0, n) == 0
  {}
}
