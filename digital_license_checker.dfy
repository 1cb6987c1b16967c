/**
 * `DigitalLicenseChecker.IsDigitalLicensePresent`: a tri-state answer (true, false, unknown)
 * from the `EditionUpgradeManager` COM object's `AcquireModernLicenseForWindows(1, out rc)`.
 */
module DigitalLicenseChecker {
  import opened Wrappers

  /** What happened when the COM object was created and called; the COM side is an input. */
  datatype EumOutcome =
    | CreateThrew(ex: Exception)    // `EumFactory.Create` threw
    | NoComObject                   // `EumFactory.Create` returned null
    | CallThrew(ex: Exception)      // `AcquireModernLicenseForWindows` threw
    | Called(hr: int, rc: int)      // it returned `hr` and stored `rc`

  /** The answer is known only when the object exists and the call returned an HRESULT of 0. */
  predicate Determined(o: EumOutcome) {
    o.Called? && o.hr == 0
  }

  /** `IsDigitalLicensePresent`: null stands for "cannot be determined". */
  function IsDigitalLicensePresent(o: EumOutcome): (r: Option<bool>)
    ensures r.None? <==> !Determined(o)
  {
    match o
    case CreateThrew(_) => None
    case NoComObject => None
    case CallThrew(_) => None
    case Called(hr, rc) =>
      if hr != 0 then None
      else if rc == 1 then Some(false)
      else Some(rc >= 0)
  }

  /**
   * A determined answer is positive exactly when the return code is non-negative and not 1;
   * in particular a negative code means "absent", not "unknown".
   */
  lemma DigitalLicenseAnswer(o: EumOutcome)
    requires Determined(o)
    ensures IsDigitalLicensePresent(o) == Some(true) <==> o.rc >= 0 && o.rc != 1
    ensures IsDigitalLicensePresent(o) == Some(false) <==> o.rc < 0 || o.rc == 1
  {
  }

  /** No exception escapes: every thrown exception, and a missing object, give null. */
  lemma DigitalLicenseFailSafe(o: EumOutcome)
    ensures o.CreateThrew? || o.CallThrew? || o.NoComObject? ==> IsDigitalLicensePresent(o).None?
    ensures o.Called? && o.hr != 0 ==> IsDigitalLicensePresent(o).None?
  {
  }
}
