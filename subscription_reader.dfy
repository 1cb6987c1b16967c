/**
 * `SubscriptionReader.GetSubscriptionInfo`: the subscription policy flag and the Clipc
 * subscription status, combined through `with` copies of one record.
 */
module SubscriptionReader {
  import opened Wrappers
  import opened Models

  /** `ClipcSubStatus`: three unsigned 32-bit words. */
  datatype ClipcSubStatus = ClipcSubStatus(enabled: nat, sku: nat, state: nat)

  /** What `Clipc.ClipGetSubscriptionStatus` did; the DLL is an input. */
  datatype ClipOutcome =
    | ClipThrew(ex: Exception)                   // the entry point is missing, or the call threw
    | ClipReturned(hr: int, st: ClipcSubStatus)  // its HRESULT and the status it stored

  /**
   * `GetWindowsInfoDword(key, ref value)`: the lookup is not wired to any native call, so it
   * reports failure and hands `value` back unchanged.
   */
  function GetWindowsInfoDword(key: string, value: nat): (r: (bool, nat))
    ensures !r.0 && r.1 == value
  {
    (false, value)
  }

  /** The `Supported` flag: either policy name, through `||`, and a non-zero DWORD. */
  function SupportedFlag(): bool {
    var dw := 0;
    var (first, dw1) := GetWindowsInfoDword("Allow-WindowsSubscription", dw);
    var (supported, dw2) :=
      if first then (true, dw1) else GetWindowsInfoDword("ConsumeAddonPolicySet", dw1);
    supported && dw2 != 0
  }

  /** `GetSubscriptionInfo` */
  function GetSubscriptionInfo(clip: ClipOutcome): SubscriptionInfo {
    var info := SubscriptionInfo(false, false, None, None);
    var info := info.(supported := SupportedFlag());
    match clip
    case ClipReturned(hr, st) =>
      if hr == 0 then info.(enabled := st.enabled != 0, sku := Some(st.sku), state := Some(st.state))
      else info
    case ClipThrew(_) => info
  }

  /** Subscription support is never reported. */
  lemma NeverSupported(clip: ClipOutcome)
    ensures !GetSubscriptionInfo(clip).supported
  {
  }

  /**
   * A successful Clipc call sets `Enabled` iff the status word is non-zero and copies the SKU
   * and state; a failed or throwing call leaves `Enabled` false and both absent.
   */
  lemma SubscriptionFromClip(clip: ClipOutcome)
    ensures var info := GetSubscriptionInfo(clip);
      if clip.ClipReturned? && clip.hr == 0 then
        && info.enabled == (clip.st.enabled != 0)
        && info.sku == Some(clip.st.sku)
        && info.state == Some(clip.st.state)
      else
        !info.enabled && info.sku.None? && info.state.None?
  {
  }
}
