/**
 * `AdvancedActivationReader`: Active Directory based activation (ADBA) and automatic virtual
 * machine activation (AVMA) values of the first SKU the id list names.
 */
module AdvancedActivationReader {
  import opened Wrappers
  import opened Marshal
  import opened Guids
  import opened Models
  import opened SlApi
  import opened SlApiBuffer
  import opened SlValues
  import opened SlStatus
  import opened SafeSlcHandles
  import NativeContract

  /** `TryPickSku`: the first id of a readable list, with no status check. */
  function TryPickSkuOf(env: Env): (sku: Option<Guid>)
    ensures sku.Some? <==> IdsReadable(env.idList)
  {
    if IdsReadable(env.idList) then Some(env.idList.ids[0]) else None
  }

  /** The pick does not depend on any SKU's licensing status. */
  lemma PickIgnoresStatus(env: Env, status: map<Guid, ValidStatusReply>)
    ensures TryPickSkuOf(env.(status := status)) == TryPickSkuOf(env)
    ensures TryPickSkuOf(env).Some? ==> TryPickSkuOf(env).value == env.idList.ids[0]
  {
  }

  /** `TryPickSku`; the id list is released once it was read, and leaks on the early return. */
  method TryPickSku(alloc: Allocator, env: Env) returns (found: bool, sku: Guid)
    requires alloc.Valid()
    modifies alloc
    ensures found <==> TryPickSkuOf(env).Some?
    ensures found ==> sku == TryPickSkuOf(env).value
    ensures !found ==> sku == EmptyGuid
    ensures LeavesOutstanding(alloc, IdListLeak(env.idList))
    ensures alloc.sessions == old(alloc.sessions)
  {
    sku := EmptyGuid;
    var hr, count, ids := SLGetSLIDList(alloc, env);
    if hr != S_OK || count == 0 || ids.Zero? {
      return false, sku;
    }
    GuidAtGuidArray(env.idList.ids, 0);
    sku := GuidAt(ids.data, 0);
    found := true;
    TryFree(alloc, ids);
  }

  // ---- ADBA ----

  /** The ADBA record of a SKU: four string reads. */
  function AdbaFor(env: Env, lib: Library, sku: Guid): AdbaInfo {
    AdbaInfo(
      StringValue(env, lib, Sku(sku), "ADActivationObjectName"),
      StringValue(env, lib, Sku(sku), "ADActivationObjectDN"),
      StringValue(env, lib, Sku(sku), "ADActivationCsvlkPID"),
      StringValue(env, lib, Sku(sku), "ADActivationCsvlkSkuID"))
  }

  /** `GetAdbaInfo` */
  function AdbaInfoOf(env: Env, lib: Library): Option<AdbaInfo> {
    if !env.Opens() then None
    else
      match TryPickSkuOf(env)
      case None => None
      case Some(sku) => Some(AdbaFor(env, lib, sku))
  }

  function AdbaFieldLeaks(env: Env, sku: Guid): nat {
    ValueLeak(env, Sku(sku), "ADActivationObjectName", SL_DATA_SZ)
    + ValueLeak(env, Sku(sku), "ADActivationObjectDN", SL_DATA_SZ)
    + ValueLeak(env, Sku(sku), "ADActivationCsvlkPID", SL_DATA_SZ)
    + ValueLeak(env, Sku(sku), "ADActivationCsvlkSkuID", SL_DATA_SZ)
  }

  /** The blocks `GetAdbaInfo` leaves outstanding. */
  function AdbaLeaks(env: Env): nat {
    if !env.Opens() then 0
    else
      IdListLeak(env.idList) +
      match TryPickSkuOf(env)
      case None => 0
      case Some(sku) => AdbaFieldLeaks(env, sku)
  }

  /** Each of the four ADBA fields is present exactly when its own string read is accepted. */
  lemma AdbaFields(env: Env, lib: Library)
    requires AdbaInfoOf(env, lib).Some?
    ensures var info := AdbaInfoOf(env, lib).value;
      var sku := env.idList.ids[0];
      && (info.objectName.Some? <==> Accepts(env.ValueOf(Sku(sku), "ADActivationObjectName"), SL_DATA_SZ))
      && (info.objectDn.Some? <==> Accepts(env.ValueOf(Sku(sku), "ADActivationObjectDN"), SL_DATA_SZ))
      && (info.csvlkPid.Some? <==> Accepts(env.ValueOf(Sku(sku), "ADActivationCsvlkPID"), SL_DATA_SZ))
      && (info.csvlkSkuId.Some? <==> Accepts(env.ValueOf(Sku(sku), "ADActivationCsvlkSkuID"), SL_DATA_SZ))
  {
  }

  /** `GetAdbaInfo`; the `using` handle is disposed on every return. */
  method GetAdbaInfo(alloc: Allocator, env: Env, lib: Library) returns (info: Option<AdbaInfo>)
    requires alloc.Valid()
    modifies alloc
    ensures info == AdbaInfoOf(env, lib)
    ensures LeavesOutstanding(alloc, AdbaLeaks(env))
    ensures alloc.sessions == old(alloc.sessions)
  {
    SessionRoundTrip(alloc.sessions, env.open.handle);
    var h := SafeSlcHandle.Create(alloc, env);
    if h.IsInvalid() {
      h.Dispose(alloc, env);
      return None;
    }
    var found, sku := TryPickSku(alloc, env);
    if !found {
      h.Dispose(alloc, env);
      return None;
    }
    var objectName := ReadString(alloc, env, lib, Sku(sku), "ADActivationObjectName");
    var objectDn := ReadString(alloc, env, lib, Sku(sku), "ADActivationObjectDN");
    var csvlkPid := ReadString(alloc, env, lib, Sku(sku), "ADActivationCsvlkPID");
    var csvlkSkuId := ReadString(alloc, env, lib, Sku(sku), "ADActivationCsvlkSkuID");
    info := Some(AdbaInfo(objectName, objectDn, csvlkPid, csvlkSkuId));
    h.Dispose(alloc, env);
  }

  // ---- AVMA ----

  /** `ticks.HasValue && ticks.Value > 0 ? DateTimeOffset.FromFileTime(ticks.Value) : null` */
  function ActivationTime(ticks: Option<int>): (t: Option<Timestamp>)
    ensures t.Some? <==> ticks.Some? && ticks.value > 0
    ensures t.Some? ==> t.value.fileTime == ticks.value
  {
    if ticks.Some? && ticks.value > 0 then Some(FromFileTime(ticks.value)) else None
  }

  /** The AVMA record of a SKU: an int64 read and three string reads. */
  function AvmaFor(env: Env, lib: Library, sku: Guid): AvmaInfo {
    AvmaInfo(
      StringValue(env, lib, Sku(sku), "InheritedActivationHostMachineName"),
      StringValue(env, lib, Sku(sku), "InheritedActivationHostDigitalPid2"),
      StringValue(env, lib, Sku(sku), "InheritedActivationId"),
      ActivationTime(Int64Value(env, Sku(sku), "InheritedActivationActivationTime")))
  }

  /** `GetAvmaInfo` */
  function AvmaInfoOf(env: Env, lib: Library): Option<AvmaInfo> {
    if !env.Opens() then None
    else
      match TryPickSkuOf(env)
      case None => None
      case Some(sku) => Some(AvmaFor(env, lib, sku))
  }

  function AvmaFieldLeaks(env: Env, sku: Guid): nat {
    ValueLeak(env, Sku(sku), "InheritedActivationActivationTime", SL_DATA_BINARY)
    + ValueLeak(env, Sku(sku), "InheritedActivationHostMachineName", SL_DATA_SZ)
    + ValueLeak(env, Sku(sku), "InheritedActivationHostDigitalPid2", SL_DATA_SZ)
    + ValueLeak(env, Sku(sku), "InheritedActivationId", SL_DATA_SZ)
  }

  /** The blocks `GetAvmaInfo` leaves outstanding. */
  function AvmaLeaks(env: Env): nat {
    if !env.Opens() then 0
    else
      IdListLeak(env.idList) +
      match TryPickSkuOf(env)
      case None => 0
      case Some(sku) => AvmaFieldLeaks(env, sku)
  }

  /**
   * The activation time is present exactly when the int64 read (tag `SL_DATA_BINARY`) is
   * accepted and the value of its first 8 bytes, read little-endian and signed, is positive.
   */
  lemma AvmaActivationTime(env: Env, lib: Library)
    requires AvmaInfoOf(env, lib).Some?
    ensures var info := AvmaInfoOf(env, lib).value;
      var r := env.ValueOf(Sku(env.idList.ids[0]), "InheritedActivationActivationTime");
      && (info.activationTime.Some? <==> Accepts(r, SL_DATA_BINARY) && ReadInt64(r.data, 0) > 0)
      && (info.activationTime.Some? ==> info.activationTime.value.fileTime == ReadInt64(r.data, 0))
  {
  }

  /** Neither record exists without a session or without a readable id list. */
  lemma AdvancedUnavailable(env: Env, lib: Library)
    ensures AdbaInfoOf(env, lib).None? <==> !env.Opens() || !IdsReadable(env.idList)
    ensures AvmaInfoOf(env, lib).None? <==> !env.Opens() || !IdsReadable(env.idList)
  {
  }

  /** When every failing call returns a null pointer, neither reader leaves anything outstanding. */
  lemma AdvancedNoLeak(env: Env)
    requires NativeContract.NullOnFailure(env)
    ensures AdbaLeaks(env) == 0 && AvmaLeaks(env) == 0
  {
    if env.Opens() && IdsReadable(env.idList) {
      var sku := env.idList.ids[0];
      NativeContract.NoValueLeak(env, Sku(sku), "ADActivationObjectName");
      NativeContract.NoValueLeak(env, Sku(sku), "ADActivationObjectDN");
      NativeContract.NoValueLeak(env, Sku(sku), "ADActivationCsvlkPID");
      NativeContract.NoValueLeak(env, Sku(sku), "ADActivationCsvlkSkuID");
      NativeContract.NoValueLeak(env, Sku(sku), "InheritedActivationActivationTime");
      NativeContract.NoValueLeak(env, Sku(sku), "InheritedActivationHostMachineName");
      NativeContract.NoValueLeak(env, Sku(sku), "InheritedActivationHostDigitalPid2");
      NativeContract.NoValueLeak(env, Sku(sku), "InheritedActivationId");
    }
  }

  /** `GetAvmaInfo`; the `using` handle is disposed on every return. */
  method GetAvmaInfo(alloc: Allocator, env: Env, lib: Library) returns (info: Option<AvmaInfo>)
    requires alloc.Valid()
    modifies alloc
    ensures info == AvmaInfoOf(env, lib)
    ensures LeavesOutstanding(alloc, AvmaLeaks(env))
    ensures alloc.sessions == old(alloc.sessions)
  {
    SessionRoundTrip(alloc.sessions, env.open.handle);
    var h := SafeSlcHandle.Create(alloc, env);
    if h.IsInvalid() {
      h.Dispose(alloc, env);
      return None;
    }
    var found, sku := TryPickSku(alloc, env);
    if !found {
      h.Dispose(alloc, env);
      return None;
    }
    var ticks := ReadInt64Value(alloc, env, Sku(sku), "InheritedActivationActivationTime");
    var hostMachineName := ReadString(alloc, env, lib, Sku(sku), "InheritedActivationHostMachineName");
    var hostDigitalPid2 := ReadString(alloc, env, lib, Sku(sku), "InheritedActivationHostDigitalPid2");
    var inheritedActivationId := ReadString(alloc, env, lib, Sku(sku), "InheritedActivationId");
    var activationTime := if ticks.Some? && ticks.value > 0 then Some(FromFileTime(ticks.value)) else None;
    info := Some(AvmaInfo(hostMachineName, hostDigitalPid2, inheritedActivationId, activationTime));
    h.Dispose(alloc, env);
  }
}
