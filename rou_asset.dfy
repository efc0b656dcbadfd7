/**
 * The initial measurement of the right-of-use asset. Only the first of the
 * standard's components is included: the asset starts at the initial lease
 * liability, with no adjustment for prepaid payments, incentives, initial
 * direct costs or dismantling costs.
 */
module RouAsset {
  import opened Results
  import opened Money
  import opened Leases
  import opened PresentValue

  /** `CalculateInitialRoUAsset`: never fails, and carries the liability over unchanged. */
  function CalculateInitialRoUAsset(leaseLiability: real, l: Lease): (r: Result<real, CalcError>)
    ensures r.Ok? && r.value == leaseLiability
  {
    Ok(leaseLiability)
  }

  /**
   * A liability that was measured successfully is never negative, so the
   * asset derived from it passes the right-of-use schedule's sign check.
   */
  lemma InitialRoUAssetIsNonNegative(l: Lease)
    requires CalculateLeaseLiability(l).Ok?
    ensures CalculateInitialRoUAsset(CalculateLeaseLiability(l).value, l).value >= 0.0
  {
    LeaseLiabilityValue(l);
  }
}
