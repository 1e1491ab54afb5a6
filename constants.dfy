/** Protocol-wide constants (`legasi-core/src/constants.rs`). Basis points: 10000 = 100 %. */
module Constants {

  const BPS_DENOMINATOR: int := 10000
  const USD_MULTIPLIER: int := 1_000_000
  const LAMPORTS_PER_SOL: int := 1_000_000_000

  /** base maximum loan-to-value of the lending position */
  const DEFAULT_SOL_MAX_LTV_BPS: int := 7500

  const MIN_GAD_CRANK_INTERVAL: int := 3600
  const SECONDS_PER_DAY: int := 86400

  const INSURANCE_FEE_BPS: int := 500
  const FLASH_LOAN_FEE_BPS: int := 5
  const MIN_FLASH_LOAN_FEE: int := 1
  const CRANKER_REWARD_BPS: int := 50

  const MAX_COLLATERAL_TYPES: int := 8
  const MAX_BORROW_TYPES: int := 4
}
