/**
 * `KmsClientReader`: the KMS client settings of the SKU its own scan selects, read from the
 * SKU and from the licensing service.
 */
module KmsClientReader {
  import opened Wrappers
  import opened Marshal
  import opened Guids
  import opened Models
  import opened SlApi
  import opened SlApiBuffer
  import opened SlValues
  import opened SlStatus
  import opened SafeSlcHandles
  import NativeContract
  import WindowsSystemReader

  /** `NormalizeStatus`: the status word as the integer value of a `LicensingStatus`. */
  function NormalizeStatus(raw: int): int {
    match raw
    case 0 => 0
    case 1 => 1
    case 2 => 2
    case 3 => 3
    case 4 => 2
    case 5 => 3
    case _ => 4
  }

  /** Both readers normalize alike: this one gives the numbering of the other's enum. */
  lemma NormalizeStatusAgrees(raw: int)
    ensures NormalizeStatus(raw) == WindowsSystemReader.NormalizeStatus(raw).Value()
    ensures 0 <= NormalizeStatus(raw) <= 4
  {
  }

  // ---- Selection ----

  /** A candidate whose status read passes the guard. */
  predicate IsReadable(env: Env, sku: Guid) {
    Readable(env.StatusOf(sku))
  }

  /** A readable candidate whose normalized status is 1 (Licensed). */
  predicate IsLicensed(env: Env, sku: Guid) {
    IsReadable(env, sku) && NormalizeStatus(RawStatus(env.StatusOf(sku))) == 1
  }

  /** The position of the first readable candidate, or |ids|. */
  function FirstReadable(env: Env, ids: seq<Guid>): (k: nat)
    ensures k <= |ids|
    ensures forall j :: 0 <= j < k ==> !IsReadable(env, ids[j])
    ensures k < |ids| ==> IsReadable(env, ids[k])
  {
    if |ids| == 0 then 0
    else if IsReadable(env, ids[0]) then 0
    else 1 + FirstReadable(env, ids[1..])
  }

  /** The position of the first Licensed candidate, or |ids|. */
  function FirstLicensed(env: Env, ids: seq<Guid>): (k: nat)
    ensures k <= |ids|
    ensures forall j :: 0 <= j < k ==> !IsLicensed(env, ids[j])
    ensures k < |ids| ==> IsLicensed(env, ids[k])
  {
    if |ids| == 0 then 0
    else if IsLicensed(env, ids[0]) then 0
    else 1 + FirstLicensed(env, ids[1..])
  }

  /** The SKU `TryPickSku` settles on: the first Licensed one, else the first readable one, else none. */
  function PickKmsSku(env: Env, ids: seq<Guid>): Option<Guid> {
    var l := FirstLicensed(env, ids);
    var r := FirstReadable(env, ids);
    if l < |ids| then Some(ids[l]) else if r < |ids| then Some(ids[r]) else None
  }

  /** How many candidates the scan queries before it stops. */
  function KmsExamined(env: Env, ids: seq<Guid>): (n: nat)
    ensures n <= |ids|
  {
    var l := FirstLicensed(env, ids);
    if l < |ids| then l + 1 else |ids|
  }

  /** A Licensed candidate is readable, so the first readable one comes no later than the first Licensed one. */
  lemma ReadableFirst(env: Env, ids: seq<Guid>)
    ensures FirstReadable(env, ids) <= FirstLicensed(env, ids)
  {
    var l := FirstLicensed(env, ids);
    if l < |ids| {
      assert IsReadable(env, ids[l]);
    }
  }

  /** There is no pick exactly when no candidate is readable, and a pick is always readable. */
  lemma PickKmsSkuReadable(env: Env, ids: seq<Guid>)
    ensures PickKmsSku(env, ids).None? <==> forall i :: 0 <= i < |ids| ==> !IsReadable(env, ids[i])
    ensures PickKmsSku(env, ids).Some? ==> IsReadable(env, PickKmsSku(env, ids).value)
  {
    ReadableFirst(env, ids);
    var r := FirstReadable(env, ids);
    if exists i :: 0 <= i < |ids| && IsReadable(env, ids[i]) {
      var i :| 0 <= i < |ids| && IsReadable(env, ids[i]);
      assert r <= i;
    }
  }

  /** A Licensed candidate wins over earlier readable ones: the pick is the first Licensed one. */
  lemma PickKmsSkuLicensed(env: Env, ids: seq<Guid>)
    ensures (exists i :: 0 <= i < |ids| && IsLicensed(env, ids[i])) ==>
      exists k :: 0 <= k < |ids| && IsLicensed(env, ids[k]) && PickKmsSku(env, ids) == Some(ids[k])
        && forall j :: 0 <= j < k ==> !IsLicensed(env, ids[j])
  {
    var l := FirstLicensed(env, ids);
    if exists i :: 0 <= i < |ids| && IsLicensed(env, ids[i]) {
      var i :| 0 <= i < |ids| && IsLicensed(env, ids[i]);
      assert l <= i;
    }
  }

  /** Without a Licensed candidate the first readable candidate is kept. */
  lemma PickKmsSkuUnlicensed(env: Env, ids: seq<Guid>)
    ensures (forall i :: 0 <= i < |ids| ==> !IsLicensed(env, ids[i])) ==>
      forall k :: 0 <= k < |ids| && IsReadable(env, ids[k]) && (forall j :: 0 <= j < k ==> !IsReadable(env, ids[j])) ==>
        PickKmsSku(env, ids) == Some(ids[k])
  {
    var l := FirstLicensed(env, ids);
    var r := FirstReadable(env, ids);
    if forall i :: 0 <= i < |ids| ==> !IsLicensed(env, ids[i]) {
      assert l == |ids|;
      forall k | 0 <= k < |ids| && IsReadable(env, ids[k]) && (forall j :: 0 <= j < k ==> !IsReadable(env, ids[j]))
        ensures PickKmsSku(env, ids) == Some(ids[k])
      {
        assert r == k;
      }
    }
  }

  /** The two readers agree on which SKU counts as Licensed. */
  lemma LicensedAgrees(env: Env, sku: Guid)
    ensures IsLicensed(env, sku) <==> WindowsSystemReader.IsLicensed(env, sku)
  {
    if Readable(env.StatusOf(sku)) {
      NormalizeStatusAgrees(RawStatus(env.StatusOf(sku)));
    }
  }

  /** So they agree on the first Licensed position of the same id list. */
  lemma {:induction false} FirstLicensedAgrees(env: Env, ids: seq<Guid>)
    ensures FirstLicensed(env, ids) == WindowsSystemReader.FirstLicensed(env, ids)
  {
    if |ids| > 0 {
      LicensedAgrees(env, ids[0]);
      FirstLicensedAgrees(env, ids[1..]);
    }
  }

  /**
   * When some SKU is Licensed, the KMS reader reads the settings of the very SKU whose
   * activation the Windows reader reports; otherwise they may differ, since the Windows reader
   * falls back to the first id and this one to the first readable id.
   */
  lemma SamePickWhenLicensed(env: Env, ids: seq<Guid>)
    requires |ids| > 0
    ensures (exists i :: 0 <= i < |ids| && IsLicensed(env, ids[i])) ==>
      PickKmsSku(env, ids) == Some(WindowsSystemReader.PickWindowsSku(env, ids))
  {
    FirstLicensedAgrees(env, ids);
    if exists i :: 0 <= i < |ids| && IsLicensed(env, ids[i]) {
      var i :| 0 <= i < |ids| && IsLicensed(env, ids[i]);
      assert FirstLicensed(env, ids) <= i;
    }
  }

  /** One step of the scan, in terms of the two first positions. */
  lemma ScanStep(env: Env, ids: seq<Guid>, i: nat)
    requires i < |ids| && i <= FirstLicensed(env, ids)
    ensures !IsReadable(env, ids[i]) ==> i + 1 <= FirstLicensed(env, ids) && i != FirstReadable(env, ids)
    ensures IsReadable(env, ids[i]) && i <= FirstReadable(env, ids) ==> FirstReadable(env, ids) == i
    ensures IsLicensed(env, ids[i]) ==> FirstLicensed(env, ids) == i
    ensures IsReadable(env, ids[i]) && !IsLicensed(env, ids[i]) ==> i + 1 <= FirstLicensed(env, ids)
  {
  }

  /**
   * Lines 77-84 of `TryPickSku` with the inner `finally`: the status read of one candidate and
   * its normalized status word. A read that fails the guard is skipped and its non-null block
   * stays outstanding; a readable one is released (the release touches nothing the choice reads).
   */
  method ReadCandidateStatus(alloc: Allocator, env: Env, skuId: Guid) returns (ok: bool, norm: int)
    requires alloc.Valid()
    modifies alloc
    ensures ok == IsReadable(env, skuId)
    ensures ok ==> norm == NormalizeStatus(RawStatus(env.StatusOf(skuId)))
    ensures LeavesOutstanding(alloc, StatusLeak(env.StatusOf(skuId)))
    ensures alloc.sessions == old(alloc.sessions)
  {
    var hr2, cStatus, pSt := SLGetLicensingStatusInformation(alloc, env, skuId);
    if hr2 != S_OK || cStatus == 0 || pSt.Zero? {
      return false, 0;
    }
    var raw := ReadInt32(pSt.data, StatusOffset);
    norm := NormalizeStatus(raw);
    ok := true;
    TryFree(alloc, pSt);
  }

  /**
   * `TryPickSku`: the scan over the id list. Candidates whose status read fails are skipped;
   * the first readable one is kept until a Licensed one replaces it and ends the scan.
   */
  method ScanSkus(alloc: Allocator, env: Env, idsPtr: Ptr, count: nat) returns (best: Option<Guid>)
    requires alloc.Valid()
    requires idsPtr.At? && idsPtr.data == GuidArray(env.idList.ids) && count == |env.idList.ids|
    modifies alloc
    ensures best == PickKmsSku(env, env.idList.ids)
    ensures LeavesOutstanding(alloc, StatusLeaks(env, env.idList.ids[..KmsExamined(env, env.idList.ids)]))
    ensures alloc.sessions == old(alloc.sessions)
  {
    ghost var ids := env.idList.ids;
    ghost var examined: nat := 0;
    best := None;
    var bestStatus := 99;
    for i := 0 to count
      invariant examined == i && i <= FirstLicensed(env, ids)
      invariant best == if FirstReadable(env, ids) < i then Some(ids[FirstReadable(env, ids)]) else None
      invariant bestStatus != 1
      invariant LeavesOutstanding(alloc, StatusLeaks(env, ids[..i]))
      invariant alloc.sessions == old(alloc.sessions)
    {
      GuidAtGuidArray(ids, i);
      var skuId := GuidAt(idsPtr.data, i);
      StatusLeaksSnoc(env, ids, i);
      ScanStep(env, ids, i);
      examined := i + 1;
      var ok, norm := ReadCandidateStatus(alloc, env, skuId);
      if !ok {
        continue;
      }
      if best.None? || (bestStatus != 1 && norm == 1) {
        best := Some(skuId);
        bestStatus := norm;
        if norm == 1 {
          break;
        }
      }
    }
    assert examined == KmsExamined(env, ids);
  }

  /** `TryPickSku`: false when the id list fails or is empty, or when no candidate is readable. */
  function TryPickSkuOf(env: Env): Option<Guid> {
    if !IdsReadable(env.idList) then None else PickKmsSku(env, env.idList.ids)
  }

  /** The blocks `TryPickSku` leaves outstanding; the id list itself is released after the scan. */
  function TryPickSkuLeaks(env: Env): nat {
    if !IdsReadable(env.idList) then IdListLeak(env.idList)
    else StatusLeaks(env, env.idList.ids[..KmsExamined(env, env.idList.ids)])
  }

  /** `TryPickSku` */
  method TryPickSku(alloc: Allocator, env: Env) returns (found: bool, sku: Guid)
    requires alloc.Valid()
    modifies alloc
    ensures found <==> TryPickSkuOf(env).Some?
    ensures found ==> sku == TryPickSkuOf(env).value
    ensures !found ==> sku == EmptyGuid
    ensures LeavesOutstanding(alloc, TryPickSkuLeaks(env))
    ensures alloc.sessions == old(alloc.sessions)
  {
    sku := EmptyGuid;
    var hr, count, ids := SLGetSLIDList(alloc, env);
    if hr != S_OK || count == 0 || ids.Zero? {
      return false, sku;
    }
    var best := ScanSkus(alloc, env, ids, count);
    if best.None? {
      found := false;
    } else {
      sku := best.value;
      found := true;
    }
    TryFree(alloc, ids);
  }

  // ---- GetClientInfo ----

  /** `cachingVal.HasValue ? cachingVal.Value == 0 : null`: 0 means caching is enabled. */
  function HostCaching(disable: Option<int>): (c: Option<bool>)
    ensures c.None? <==> disable.None?
    ensures c.Some? ==> (c.value <==> disable.value == 0)
  {
    if disable.Some? then Some(disable.value == 0) else None
  }

  /** The record built from the reads for a picked SKU. */
  function ClientInfoFor(env: Env, lib: Library, sku: Guid): KmsClientInfo {
    KmsClientInfo(
      StringValue(env, lib, Service, "ClientMachineID"),
      StringValue(env, lib, Sku(sku), "KeyManagementServiceName"),
      DwordValue(env, Sku(sku), "KeyManagementServicePort"),
      StringValue(env, lib, Service, "DiscoveredKeyManagementServiceName"),
      DwordValue(env, Service, "DiscoveredKeyManagementServicePort"),
      StringValue(env, lib, Service, "DiscoveredKeyManagementServiceIpAddress"),
      DwordValue(env, Service, "VLActivationInterval"),
      DwordValue(env, Service, "VLRenewalInterval"),
      StringValue(env, lib, Service, "KeyManagementServiceLookupDomain"),
      HostCaching(DwordValue(env, Service, "DisableKeyManagementServiceHostCaching")))
  }

  /** `GetClientInfo`: null without a valid session or a picked SKU. */
  function ClientInfoOf(env: Env, lib: Library): Option<KmsClientInfo> {
    if !env.Opens() then None
    else
      match TryPickSkuOf(env)
      case None => None
      case Some(sku) => Some(ClientInfoFor(env, lib, sku))
  }

  /** The blocks the ten value reads leave outstanding. */
  function FieldLeaks(env: Env, sku: Guid): nat {
    ValueLeak(env, Service, "ClientMachineID", SL_DATA_SZ)
    + ValueLeak(env, Sku(sku), "KeyManagementServiceName", SL_DATA_SZ)
    + ValueLeak(env, Sku(sku), "KeyManagementServicePort", SL_DATA_DWORD)
    + ValueLeak(env, Service, "DiscoveredKeyManagementServiceName", SL_DATA_SZ)
    + ValueLeak(env, Service, "DiscoveredKeyManagementServicePort", SL_DATA_DWORD)
    + ValueLeak(env, Service, "DiscoveredKeyManagementServiceIpAddress", SL_DATA_SZ)
    + ValueLeak(env, Service, "VLActivationInterval", SL_DATA_DWORD)
    + ValueLeak(env, Service, "VLRenewalInterval", SL_DATA_DWORD)
    + ValueLeak(env, Service, "KeyManagementServiceLookupDomain", SL_DATA_SZ)
    + ValueLeak(env, Service, "DisableKeyManagementServiceHostCaching", SL_DATA_DWORD)
  }

  /** The blocks `GetClientInfo` leaves outstanding. */
  function ClientInfoLeaks(env: Env): nat {
    if !env.Opens() then 0
    else
      TryPickSkuLeaks(env) +
      match TryPickSkuOf(env)
      case None => 0
      case Some(sku) => FieldLeaks(env, sku)
  }

  /**
   * Null without a session, without a readable id list, or without a readable candidate;
   * otherwise each field is its own tag-checked read, so a failed read nulls that field alone.
   */
  lemma ClientInfoSpec(env: Env, lib: Library)
    ensures ClientInfoOf(env, lib).None? <==>
      !env.Opens() || !IdsReadable(env.idList) || forall i :: 0 <= i < |env.idList.ids| ==> !IsReadable(env, env.idList.ids[i])
    ensures ClientInfoOf(env, lib).Some? ==>
      var info := ClientInfoOf(env, lib).value;
      var sku := TryPickSkuOf(env).value;
      && IsReadable(env, sku)
      && (info.registeredKmsName.Some? <==> Accepts(env.ValueOf(Sku(sku), "KeyManagementServiceName"), SL_DATA_SZ))
      && (info.registeredKmsPort.Some? <==> Accepts(env.ValueOf(Sku(sku), "KeyManagementServicePort"), SL_DATA_DWORD))
      && (info.clientMachineId.Some? <==> Accepts(env.ValueOf(Service, "ClientMachineID"), SL_DATA_SZ))
      && (info.discoveredKmsName.Some? <==> Accepts(env.ValueOf(Service, "DiscoveredKeyManagementServiceName"), SL_DATA_SZ))
      && (info.discoveredKmsPort.Some? <==> Accepts(env.ValueOf(Service, "DiscoveredKeyManagementServicePort"), SL_DATA_DWORD))
      && (info.discoveredKmsIp.Some? <==> Accepts(env.ValueOf(Service, "DiscoveredKeyManagementServiceIpAddress"), SL_DATA_SZ))
      && (info.activationIntervalMinutes.Some? <==> Accepts(env.ValueOf(Service, "VLActivationInterval"), SL_DATA_DWORD))
      && (info.renewalIntervalMinutes.Some? <==> Accepts(env.ValueOf(Service, "VLRenewalInterval"), SL_DATA_DWORD))
      && (info.lookupDomain.Some? <==> Accepts(env.ValueOf(Service, "KeyManagementServiceLookupDomain"), SL_DATA_SZ))
      && (info.hostCachingEnabled.Some? <==> Accepts(env.ValueOf(Service, "DisableKeyManagementServiceHostCaching"), SL_DATA_DWORD))
      && (info.hostCachingEnabled.Some? ==>
            (info.hostCachingEnabled.value <==> ReadInt32(env.ValueOf(Service, "DisableKeyManagementServiceHostCaching").data, 0) == 0))
  {
    if IdsReadable(env.idList) {
      PickKmsSkuReadable(env, env.idList.ids);
    }
  }

  /** When every failing call returns a null pointer, the ten reads leave nothing outstanding. */
  lemma FieldsNoLeak(env: Env, sku: Guid)
    requires NativeContract.NullOnFailure(env)
    ensures FieldLeaks(env, sku) == 0
  {
    NativeContract.NoValueLeak(env, Service, "ClientMachineID");
    NativeContract.NoValueLeak(env, Sku(sku), "KeyManagementServiceName");
    NativeContract.NoValueLeak(env, Sku(sku), "KeyManagementServicePort");
    NativeContract.NoValueLeak(env, Service, "DiscoveredKeyManagementServiceName");
    NativeContract.NoValueLeak(env, Service, "DiscoveredKeyManagementServicePort");
    NativeContract.NoValueLeak(env, Service, "DiscoveredKeyManagementServiceIpAddress");
    NativeContract.NoValueLeak(env, Service, "VLActivationInterval");
    NativeContract.NoValueLeak(env, Service, "VLRenewalInterval");
    NativeContract.NoValueLeak(env, Service, "KeyManagementServiceLookupDomain");
    NativeContract.NoValueLeak(env, Service, "DisableKeyManagementServiceHostCaching");
  }

  /** When every failing call returns a null pointer, `GetClientInfo` leaves nothing outstanding. */
  lemma ClientInfoNoLeak(env: Env)
    requires NativeContract.NullOnFailure(env)
    ensures ClientInfoLeaks(env) == 0
  {
    if env.Opens() && IdsReadable(env.idList) {
      var ids := env.idList.ids;
      NativeContract.NoStatusLeaks(env, ids[..KmsExamined(env, ids)]);
      if TryPickSkuOf(env).Some? {
        FieldsNoLeak(env, TryPickSkuOf(env).value);
      }
    }
  }

  /** An id list that comes back non-null but empty. */
  function EmptyListEnv(): Env {
    Env(OpenReply(S_OK, 1), S_OK, IdListReply(S_OK, true, []), map[], map[], GenuineReply(S_OK, 0))
  }

  /** The early return on an empty id list comes before the release: the list's block leaks. */
  lemma EmptyListLeaks(lib: Library)
    ensures ClientInfoOf(EmptyListEnv(), lib).None?
    ensures ClientInfoLeaks(EmptyListEnv()) == 1
  {
  }

  /** The ten reads of `GetClientInfo`, in source order. */
  method ReadFields(alloc: Allocator, env: Env, lib: Library, sku: Guid) returns (info: KmsClientInfo)
    requires alloc.Valid()
    modifies alloc
    ensures info == ClientInfoFor(env, lib, sku)
    ensures LeavesOutstanding(alloc, FieldLeaks(env, sku))
    ensures alloc.sessions == old(alloc.sessions)
  {
    var clientMachineId := ReadString(alloc, env, lib, Service, "ClientMachineID");
    var regName := ReadString(alloc, env, lib, Sku(sku), "KeyManagementServiceName");
    var regPort := ReadDword(alloc, env, Sku(sku), "KeyManagementServicePort");
    var discName := ReadString(alloc, env, lib, Service, "DiscoveredKeyManagementServiceName");
    var discPort := ReadDword(alloc, env, Service, "DiscoveredKeyManagementServicePort");
    var discIp := ReadString(alloc, env, lib, Service, "DiscoveredKeyManagementServiceIpAddress");
    var actInterval := ReadDword(alloc, env, Service, "VLActivationInterval");
    var renInterval := ReadDword(alloc, env, Service, "VLRenewalInterval");
    var lookupDomain := ReadString(alloc, env, lib, Service, "KeyManagementServiceLookupDomain");
    var caching: Option<bool> := None;
    var cachingVal := ReadDword(alloc, env, Service, "DisableKeyManagementServiceHostCaching");
    if cachingVal.Some? {
      caching := Some(cachingVal.value == 0);
    }
    info := KmsClientInfo(clientMachineId, regName, regPort, discName, discPort, discIp,
      actInterval, renInterval, lookupDomain, caching);
  }

  /** `GetClientInfo`; the `using` handle is disposed on every return. */
  method GetClientInfo(alloc: Allocator, env: Env, lib: Library) returns (info: Option<KmsClientInfo>)
    requires alloc.Valid()
    modifies alloc
    ensures info == ClientInfoOf(env, lib)
    ensures LeavesOutstanding(alloc, ClientInfoLeaks(env))
    ensures alloc.sessions == old(alloc.sessions)
  {
    SessionRoundTrip(alloc.sessions, env.open.handle);
    var h := SafeSlcHandle.Create(alloc, env);
    if h.IsInvalid() {
      h.Dispose(alloc, env);
      return None;
    }
    var found, sku := TryPickSku(alloc, env);
    if !found {
      h.Dispose(alloc, env);
      return None;
    }
    var fields := ReadFields(alloc, env, lib, sku);
    info := Some(fields);
    h.Dispose(alloc, env);
  }
}
