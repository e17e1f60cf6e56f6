/** Shared constants of the helper and the Option type used for "no value". */
module Common {

  /** `None` stands for Python's `None` where the helper returns "no result". */
  datatype Option<+T> = None | Some(value: T)

  /** Number of seats at the table, including the user. */
  const NUM_PLAYERS: nat := 3
  /** Number of Monte Carlo deals behind one recommendation. */
  const NUM_SIMULATIONS: nat := 10000
  const INITIAL_CHIP_COUNT: int := 1000
  const SMALL_BLIND: int := 10
  const BIG_BLIND: int := 20
  const MINIMUM_BET: int := 20

  function Min(a: int, b: int): int { if a < b then a else b }
  function MaxReal(a: real, b: real): real { if a < b then b else a }
  function MinReal(a: real, b: real): real { if a < b then a else b }
}
