/** Numbers as the programs compute with them. */
module Numbers {
  /** The largest integer up to which all integers are exact in a double. */
  const MAX_SAFE_INTEGER := 9007199254740991

  function Min(a: int, b: int): int {
    if a < b then a else b
  }
}
