/** Counting conditions, and 32-bit words. */
module Numbers {
  const M := 0x1_0000_0000

  /** The value a 32-bit word holds. */
  function Wrap(x: int): nat {
    x % M
  }

  function One(b: bool): nat {
    if b then 1 else 0
  }
}
