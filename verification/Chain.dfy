/** Addresses and the 64-bit amounts every component counts in. */
module Chain {
  datatype Address = Address(text: string)

  const INT64_MAX: int := 0x7fff_ffff_ffff_ffff
  const INT64_MIN: int := -0x8000_0000_0000_0000

  predicate Fits(x: int) { INT64_MIN <= x <= INT64_MAX }

  /** One payCoin. */
  datatype Payment = Payment(to: Address, amount: int)

  datatype Option<+T> = None | Some(value: T)
}
