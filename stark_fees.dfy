/**
  The starknet library's `stark.estimatedFeeToMaxFee`, only as the router
  calls it: with overhead 1 it turns an estimated fee into a maximum fee of
  twice that amount, computed on integers.
 */
module StarkFees {

  /** `estimatedFeeToMaxFee(estimatedFee, 1)`. */
  function EstimatedFeeToMaxFee(estimatedFee: nat): (maxFee: nat)
    ensures maxFee == 2 * estimatedFee
  {
    estimatedFee * 2
  }
}
