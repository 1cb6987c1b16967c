/**
 * `WindowsSystemReader`: the activation state of the Windows SKU the reader selects, the
 * product type and release of the host, and the installed partial product key.
 *
 * The functions say what each operation returns and how many SL buffers it leaves
 * outstanding; the methods are the operations, proved against them.
 */
module WindowsSystemReader {
  import opened Wrappers
  import opened Marshal
  import opened Guids
  import opened Text
  import opened Enums
  import opened Models
  import opened SlApi
  import opened SlApiBuffer
  import opened SlValues
  import opened SlStatus
  import opened ProductTypeMap
  import NativeContract

  /** `NormalizeStatus`: the SL status word as a `LicensingStatus`. */
  function NormalizeStatus(raw: int): LicensingStatus {
    match raw
    case 0 => Unlicensed
    case 1 => Licensed
    case 2 => InGracePeriod
    case 3 => Notification
    case 4 => InGracePeriod
    case 5 => Notification
    case _ => Unknown
  }

  /** The preimage of each status: which raw words normalize to it. */
  lemma NormalizeStatusPreimages(raw: int)
    ensures NormalizeStatus(raw) == Unlicensed <==> raw == 0
    ensures NormalizeStatus(raw) == Licensed <==> raw == 1
    ensures NormalizeStatus(raw) == InGracePeriod <==> raw == 2 || raw == 4
    ensures NormalizeStatus(raw) == Notification <==> raw == 3 || raw == 5
    ensures NormalizeStatus(raw) == Unknown <==> raw < 0 || raw > 5
  {
  }

  // ---- Selection ----

  /** `ReadStatusForSku`: the normalized status of a readable SKU, null otherwise. */
  function MinimalStatus(env: Env, sku: Guid): Option<ActivationInfo> {
    var r := env.StatusOf(sku);
    if Readable(r) then Some(DefaultActivationInfo(NormalizeStatus(RawStatus(r)))) else None
  }

  /** `info is { Status: LicensingStatus.Licensed }` */
  predicate IsLicensed(env: Env, sku: Guid) {
    MinimalStatus(env, sku).Some? && MinimalStatus(env, sku).value.status == Licensed
  }

  /** A SKU counts as Licensed exactly when its status is readable and its raw status word is 1. */
  lemma IsLicensedMeans(env: Env, sku: Guid)
    ensures IsLicensed(env, sku) <==> Readable(env.StatusOf(sku)) && ReadInt32(env.StatusOf(sku).buffer, StatusOffset) == 1
  {
  }

  /** The position of the first Licensed candidate, or |ids| when there is none. */
  function FirstLicensed(env: Env, ids: seq<Guid>): (k: nat)
    ensures k <= |ids|
    ensures forall j :: 0 <= j < k ==> !IsLicensed(env, ids[j])
    ensures k < |ids| ==> IsLicensed(env, ids[k])
  {
    if |ids| == 0 then 0
    else if IsLicensed(env, ids[0]) then 0
    else 1 + FirstLicensed(env, ids[1..])
  }

  /** The first Licensed position is determined by the two properties that characterize it. */
  lemma FirstLicensedUnique(env: Env, ids: seq<Guid>, k: nat)
    requires k <= |ids|
    requires forall j :: 0 <= j < k ==> !IsLicensed(env, ids[j])
    requires k < |ids| ==> IsLicensed(env, ids[k])
    ensures FirstLicensed(env, ids) == k
  {
  }

  /** One step of the scan: a Licensed candidate at i is the first one; any other moves the bound past i. */
  lemma ScanStep(env: Env, ids: seq<Guid>, i: nat, info: Option<ActivationInfo>)
    requires i < |ids| && i <= FirstLicensed(env, ids) && info == MinimalStatus(env, ids[i])
    ensures info.Some? && info.value.status == Licensed ==> FirstLicensed(env, ids) == i
    ensures !(info.Some? && info.value.status == Licensed) ==> i + 1 <= FirstLicensed(env, ids)
  {
  }

  /** The SKU `GetActivationInfo` picks: the first Licensed one, else the first enumerated. */
  function PickWindowsSku(env: Env, ids: seq<Guid>): Guid
    requires |ids| > 0
  {
    var k := FirstLicensed(env, ids);
    if k < |ids| then ids[k] else ids[0]
  }

  /** How many candidates the loop reads the status of before it stops. */
  function WindowsExamined(env: Env, ids: seq<Guid>): (n: nat)
    ensures n <= |ids|
  {
    var k := FirstLicensed(env, ids);
    if k < |ids| then k + 1 else |ids|
  }

  /**
   * The pick is the first Licensed candidate when there is one, and otherwise the first
   * candidate, whether or not its status could be read.
   */
  lemma PickWindowsSkuSpec(env: Env, ids: seq<Guid>)
    requires |ids| > 0
    ensures (exists i :: 0 <= i < |ids| && IsLicensed(env, ids[i])) ==>
      exists k :: 0 <= k < |ids| && IsLicensed(env, ids[k]) && PickWindowsSku(env, ids) == ids[k]
        && forall j :: 0 <= j < k ==> !IsLicensed(env, ids[j])
    ensures (forall i :: 0 <= i < |ids| ==> !IsLicensed(env, ids[i])) ==> PickWindowsSku(env, ids) == ids[0]
    ensures PickWindowsSku(env, ids) == ids[0] || IsLicensed(env, PickWindowsSku(env, ids))
  {
    var k := FirstLicensed(env, ids);
    if exists i :: 0 <= i < |ids| && IsLicensed(env, ids[i]) {
      var i :| 0 <= i < |ids| && IsLicensed(env, ids[i]);
      assert k <= i;
    }
  }

  // ---- Full read of the picked SKU ----

  /** The genuine-state clamp: the raw state when the call succeeded with a defined value, else Last. */
  function GenuineOf(g: GenuineReply): (s: GenuineState)
    ensures g.hr == S_OK && g.state <= 4 ==> s.Value() == g.state
    ensures !(g.hr == S_OK && g.state <= 4) ==> s == Last
  {
    if g.hr == S_OK && g.state <= 4 then GenuineStateOf(g.state) else Last
  }

  /** `TryReadGuidSku`: the product key id of a SKU, if its string value parses as a GUID. */
  function PKeyIdOf(env: Env, lib: Library, sku: Guid): Option<Guid> {
    match StringValue(env, lib, Sku(sku), "pkeyId")
    case None => None
    case Some(t) => lib.guidTryParse(t)
  }

  /** A product key value, read only when the key id parsed. */
  function PKeyRead(env: Env, lib: Library, pkeyId: Option<Guid>, name: string): Option<string> {
    match pkeyId
    case None => None
    case Some(pk) => StringValue(env, lib, PKey(pk), name)
  }

  /** `skuValue ??= TryReadStringPkey(…)` inside `if (pkeyId is Guid pk)`. */
  function PKeyFallback(env: Env, lib: Library, pkeyId: Option<Guid>, skuValue: Option<string>, name: string): Option<string> {
    if skuValue.Some? then skuValue else PKeyRead(env, lib, pkeyId, name)
  }

  /** `ReadFullActivationInfo`: the full record of a SKU. */
  function FullActivationInfo(env: Env, lib: Library, sku: Guid): ActivationInfo {
    var r := env.StatusOf(sku);
    if !Readable(r) then DefaultActivationInfo(Unknown)
    else
      var rec := FirstRecord(r);
      var pkeyId := PKeyIdOf(env, lib, sku);
      var vl := DwordValue(env, Sku(sku), "VLActivationType");
      ActivationInfo(
        NormalizeStatus(rec.status),
        if rec.reason != 0 then Some("0x" + HexX8(rec.reason)) else None,
        GenuineOf(env.genuine),
        if rec.grace > 0 then Some(rec.grace) else None,
        if rec.validity > 0 then Some(FromFileTime(rec.validity)) else None,
        PKeyFallback(env, lib, pkeyId, StringValue(env, lib, Sku(sku), "Channel"), "Channel"),
        PKeyFallback(env, lib, pkeyId, StringValue(env, lib, Sku(sku), "PartialProductKey"), "PartialProductKey"),
        if vl.Some? && lib.vlTypeDefined(vl.value) then vl else None,
        PKeyRead(env, lib, pkeyId, "DigitalPID"),
        PKeyRead(env, lib, pkeyId, "DigitalPID2"))
  }

  /** The blocks the SKU value reads of `ReadFullActivationInfo` leave outstanding. */
  function SkuValueLeaks(env: Env, sku: Guid): nat {
    ValueLeak(env, Sku(sku), "Channel", SL_DATA_SZ)
    + ValueLeak(env, Sku(sku), "PartialProductKey", SL_DATA_SZ)
    + ValueLeak(env, Sku(sku), "VLActivationType", SL_DATA_DWORD)
    + ValueLeak(env, Sku(sku), "pkeyId", SL_DATA_SZ)
  }

  /** The blocks the product key reads leave outstanding; the fallbacks read only when the SKU gave nothing. */
  function PKeyValueLeaks(env: Env, pk: Guid, skuChannel: Option<string>, skuPpk: Option<string>): nat {
    ValueLeak(env, PKey(pk), "DigitalPID", SL_DATA_SZ)
    + ValueLeak(env, PKey(pk), "DigitalPID2", SL_DATA_SZ)
    + (if skuChannel.None? then ValueLeak(env, PKey(pk), "Channel", SL_DATA_SZ) else 0)
    + (if skuPpk.None? then ValueLeak(env, PKey(pk), "PartialProductKey", SL_DATA_SZ) else 0)
  }

  /** The blocks steps 3 and 4 of `ReadFullActivationInfo` leave outstanding. */
  function LicenseValueLeaks(env: Env, lib: Library, sku: Guid): nat {
    SkuValueLeaks(env, sku) +
    match PKeyIdOf(env, lib, sku)
    case None => 0
    case Some(pk) =>
      PKeyValueLeaks(env, pk, StringValue(env, lib, Sku(sku), "Channel"), StringValue(env, lib, Sku(sku), "PartialProductKey"))
  }

  /** The blocks `ReadFullActivationInfo` leaves outstanding. */
  function FullLeaks(env: Env, lib: Library, sku: Guid): nat {
    var r := env.StatusOf(sku);
    if !Readable(r) then StatusLeak(r) else LicenseValueLeaks(env, lib, sku)
  }

  /**
   * The fields of the full record in terms of the status buffer: int32 reads at offsets 16, 20
   * and 28 and an int64 read at 32. The message is "0x" and eight digits that read back as the
   * 32-bit pattern of the reason; grace and evaluation end are present exactly when positive.
   * A status call that fails gives the Unknown record.
   */
  lemma FullActivationInfoRecord(env: Env, lib: Library, sku: Guid)
    ensures !Readable(env.StatusOf(sku)) ==> FullActivationInfo(env, lib, sku) == DefaultActivationInfo(Unknown)
    ensures Readable(env.StatusOf(sku)) ==>
      var buf := env.StatusOf(sku).buffer;
      var info := FullActivationInfo(env, lib, sku);
      var reason := ReadInt32(buf, ReasonOffset);
      var grace := ReadInt32(buf, GraceOffset);
      var validity := ReadInt64(buf, ValidityOffset);
      && info.status == NormalizeStatus(ReadInt32(buf, StatusOffset))
      && (info.statusMessage.Some? <==> reason != 0)
      && (info.statusMessage.Some? ==>
            var m := info.statusMessage.value; |m| == 10 && m[..2] == "0x" && ParseHex(m[2..]) == Unsigned(reason, 4))
      && (info.graceMinutesRemaining.Some? <==> grace > 0)
      && (info.graceMinutesRemaining.Some? ==> info.graceMinutesRemaining.value == grace)
      && (info.evaluationEndUtc.Some? <==> validity > 0)
      && (info.evaluationEndUtc.Some? ==> info.evaluationEndUtc.value.fileTime == validity)
      && info.genuine == GenuineOf(env.genuine)
  {
    if Readable(env.StatusOf(sku)) {
      var buf := env.StatusOf(sku).buffer;
      var reason := ReadInt32(buf, ReasonOffset);
      if reason != 0 {
        var m := "0x" + HexX8(reason);
        assert m[2..] == HexX8(reason);
        ParseHexX8(reason);
      }
    }
  }

  /**
   * The product key values: ExtendedPid and ProductId are absent unless `pkeyId` parsed, and
   * Channel and PartialProductKey take the product key's value only when the SKU gave none.
   */
  lemma FullActivationInfoPKey(env: Env, lib: Library, sku: Guid)
    requires Readable(env.StatusOf(sku))
    ensures var info := FullActivationInfo(env, lib, sku);
      var skuChannel := StringValue(env, lib, Sku(sku), "Channel");
      var skuPpk := StringValue(env, lib, Sku(sku), "PartialProductKey");
      match PKeyIdOf(env, lib, sku)
      case None =>
        info.extendedPid.None? && info.productId.None? && info.channel == skuChannel && info.partialProductKey == skuPpk
      case Some(pk) =>
        && info.extendedPid == StringValue(env, lib, PKey(pk), "DigitalPID")
        && info.productId == StringValue(env, lib, PKey(pk), "DigitalPID2")
        && (skuChannel.Some? ==> info.channel == skuChannel)
        && (skuChannel.None? ==> info.channel == StringValue(env, lib, PKey(pk), "Channel"))
        && (skuPpk.Some? ==> info.partialProductKey == skuPpk)
        && (skuPpk.None? ==> info.partialProductKey == StringValue(env, lib, PKey(pk), "PartialProductKey"))
    ensures FullActivationInfo(env, lib, sku).extendedPid.Some? ==> PKeyIdOf(env, lib, sku).Some?
  {
  }

  // ---- GetActivationInfo ----

  /** `GetActivationInfo`: Unknown unless the session opens and the id list is readable. */
  function ActivationInfoOf(env: Env, lib: Library): ActivationInfo {
    if !env.Opens() || !IdsReadable(env.idList) then DefaultActivationInfo(Unknown)
    else FullActivationInfo(env, lib, PickWindowsSku(env, env.idList.ids))
  }

  /** The blocks `GetActivationInfo` leaves outstanding. */
  function ActivationInfoLeaks(env: Env, lib: Library): nat {
    if !env.Opens() then 0
    else if !IdsReadable(env.idList) then IdListLeak(env.idList)
    else
      var ids := env.idList.ids;
      StatusLeaks(env, ids[..WindowsExamined(env, ids)]) + FullLeaks(env, lib, PickWindowsSku(env, ids))
  }

  /** What `GetActivationInfo` leaves of the sessions: the `finally` closes every non-zero handle. */
  function SessionsAfter(env: Env, sessions: multiset<nat>): multiset<nat> {
    if env.open.handle != 0 && !env.Opens() then sessions - multiset{env.open.handle} else sessions
  }

  /** Without a session or a readable id list the result is Unknown with every other field absent. */
  lemma ActivationInfoUnknown(env: Env, lib: Library)
    requires !env.Opens() || !IdsReadable(env.idList)
    ensures var info := ActivationInfoOf(env, lib);
      && info.status == Unknown && info.statusMessage.None? && info.graceMinutesRemaining.None?
      && info.evaluationEndUtc.None? && info.channel.None? && info.partialProductKey.None?
      && info.vlActivationType.None? && info.extendedPid.None? && info.productId.None?
  {
  }

  /** A session that opens is closed again: the open sessions come back unchanged. */
  lemma SessionsBalanced(env: Env, sessions: multiset<nat>)
    requires env.Opens()
    ensures SessionsAfter(env, sessions) == sessions
  {
  }

  /**
   * A failed open whose handle no live session holds leaves the sessions as they were: the
   * `finally`'s close of that handle cancels nothing.
   */
  lemma SessionsUntouched(env: Env, sessions: multiset<nat>)
    requires env.open.handle !in sessions
    ensures SessionsAfter(env, sessions) == sessions
  {
  }

  /** When every failing call returns a null pointer, the full read of a SKU leaves nothing outstanding. */
  lemma FullNoLeak(env: Env, lib: Library, sku: Guid)
    requires NativeContract.NullOnFailure(env)
    ensures FullLeaks(env, lib, sku) == 0
  {
    NativeContract.NoStatusLeak(env, sku);
    NativeContract.NoValueLeak(env, Sku(sku), "Channel");
    NativeContract.NoValueLeak(env, Sku(sku), "PartialProductKey");
    NativeContract.NoValueLeak(env, Sku(sku), "VLActivationType");
    NativeContract.NoValueLeak(env, Sku(sku), "pkeyId");
    assert SkuValueLeaks(env, sku) == 0;
    match PKeyIdOf(env, lib, sku)
    case None =>
    case Some(pk) =>
      NativeContract.NoValueLeak(env, PKey(pk), "DigitalPID");
      NativeContract.NoValueLeak(env, PKey(pk), "DigitalPID2");
      NativeContract.NoValueLeak(env, PKey(pk), "Channel");
      NativeContract.NoValueLeak(env, PKey(pk), "PartialProductKey");
  }

  /** When every failing call returns a null pointer, `GetActivationInfo` leaves nothing outstanding. */
  lemma ActivationInfoNoLeak(env: Env, lib: Library)
    requires NativeContract.NullOnFailure(env)
    ensures ActivationInfoLeaks(env, lib) == 0
  {
    if env.Opens() && IdsReadable(env.idList) {
      var ids := env.idList.ids;
      NativeContract.NoStatusLeaks(env, ids[..WindowsExamined(env, ids)]);
      FullNoLeak(env, lib, PickWindowsSku(env, ids));
    }
  }

  /** One SKU with a readable status whose Channel value comes back non-null with the DWORD tag. */
  function MismatchedChannelEnv(sku: Guid): Env {
    Env(OpenReply(S_OK, 1), S_OK, IdListReply(S_OK, true, [sku]),
      map[sku := StatusReply(S_OK, 1, true, seq(40, i => 0))],
      map[(Sku(sku), "Channel") := ValueReply(S_OK, SL_DATA_DWORD, 4, true, [0, 0, 0, 0, 0, 0, 0, 0])],
      GenuineReply(S_OK, 0))
  }

  /** The type-tag guard returns before the release: the mismatched Channel value is dropped and its block leaks. */
  lemma MismatchedChannelLeaks(lib: Library, sku: Guid)
    ensures ActivationInfoLeaks(MismatchedChannelEnv(sku), lib) == 1
    ensures ActivationInfoOf(MismatchedChannelEnv(sku), lib).channel.None?
  {
    var env := MismatchedChannelEnv(sku);
    assert WindowsExamined(env, [sku]) == 1;
    assert env.idList.ids[..1] == [sku];
    assert StatusLeaks(env, [sku]) == StatusLeaks(env, []) + StatusLeak(env.StatusOf(sku));
    assert ValueLeak(env, Sku(sku), "Channel", SL_DATA_SZ) == 1;
    assert PKeyIdOf(env, lib, sku).None?;
  }

  /** `ReadStatusForSku` */
  method ReadStatusForSku(alloc: Allocator, env: Env, sku: Guid) returns (info: Option<ActivationInfo>)
    requires alloc.Valid()
    modifies alloc
    ensures info == MinimalStatus(env, sku)
    ensures LeavesOutstanding(alloc, StatusLeak(env.StatusOf(sku)))
    ensures alloc.sessions == old(alloc.sessions)
  {
    var hr, count, pStatus := SLGetLicensingStatusInformation(alloc, env, sku);
    if hr != S_OK || count == 0 || pStatus.Zero? {
      return None;
    }
    var rawStatus := ReadInt32(pStatus.data, StatusOffset);
    info := Some(DefaultActivationInfo(NormalizeStatus(rawStatus)));
    TryFree(alloc, pStatus);
  }

  /** `TryReadGuidSku` */
  method ReadGuid(alloc: Allocator, env: Env, lib: Library, sku: Guid, name: string) returns (g: Option<Guid>)
    requires alloc.Valid()
    modifies alloc
    ensures g == (match StringValue(env, lib, Sku(sku), name) case None => None case Some(t) => lib.guidTryParse(t))
    ensures LeavesOutstanding(alloc, ValueLeak(env, Sku(sku), name, SL_DATA_SZ))
    ensures alloc.sessions == old(alloc.sessions)
  {
    var raw := ReadString(alloc, env, lib, Sku(sku), name);
    g := if raw.Some? then lib.guidTryParse(raw.value) else None;
  }

  /** Steps 3 of `ReadFullActivationInfo`: the four SKU values, each read on its own. */
  method ReadSkuValues(alloc: Allocator, env: Env, lib: Library, sku: Guid)
    returns (channel: Option<string>, ppk: Option<string>, vlType: Option<int>, pkeyId: Option<Guid>)
    requires alloc.Valid()
    modifies alloc
    ensures channel == StringValue(env, lib, Sku(sku), "Channel")
    ensures ppk == StringValue(env, lib, Sku(sku), "PartialProductKey")
    ensures vlType == DwordValue(env, Sku(sku), "VLActivationType")
    ensures pkeyId == PKeyIdOf(env, lib, sku)
    ensures LeavesOutstanding(alloc, SkuValueLeaks(env, sku))
    ensures alloc.sessions == old(alloc.sessions)
  {
    channel := ReadString(alloc, env, lib, Sku(sku), "Channel");
    ppk := ReadString(alloc, env, lib, Sku(sku), "PartialProductKey");
    vlType := ReadDword(alloc, env, Sku(sku), "VLActivationType");
    pkeyId := ReadGuid(alloc, env, lib, sku, "pkeyId");
  }

  /** The `if (pkeyId is Guid pk)` block: two product key values, and the two fallbacks. */
  method ReadPKeyValues(alloc: Allocator, env: Env, lib: Library, pk: Guid, skuChannel: Option<string>, skuPpk: Option<string>)
    returns (extendedPid: Option<string>, productId: Option<string>, channel: Option<string>, ppk: Option<string>)
    requires alloc.Valid()
    modifies alloc
    ensures extendedPid == StringValue(env, lib, PKey(pk), "DigitalPID")
    ensures productId == StringValue(env, lib, PKey(pk), "DigitalPID2")
    ensures channel == if skuChannel.Some? then skuChannel else StringValue(env, lib, PKey(pk), "Channel")
    ensures ppk == if skuPpk.Some? then skuPpk else StringValue(env, lib, PKey(pk), "PartialProductKey")
    ensures LeavesOutstanding(alloc, PKeyValueLeaks(env, pk, skuChannel, skuPpk))
    ensures alloc.sessions == old(alloc.sessions)
  {
    extendedPid := ReadString(alloc, env, lib, PKey(pk), "DigitalPID");
    productId := ReadString(alloc, env, lib, PKey(pk), "DigitalPID2");
    channel, ppk := skuChannel, skuPpk;
    if channel.None? {
      channel := ReadString(alloc, env, lib, PKey(pk), "Channel");
    }
    if ppk.None? {
      ppk := ReadString(alloc, env, lib, PKey(pk), "PartialProductKey");
    }
  }

  /** Step 1 of `ReadFullActivationInfo`: the four fields of the first status record, then the release. */
  method ReadStatusFields(alloc: Allocator, env: Env, sku: Guid)
    returns (ok: bool, rawStatus: int, grace: int, reason: int, validity: int)
    requires alloc.Valid()
    modifies alloc
    ensures ok == Readable(env.StatusOf(sku))
    ensures ok ==> var rec := FirstRecord(env.StatusOf(sku));
      rawStatus == rec.status && grace == rec.grace && reason == rec.reason && validity == rec.validity
    ensures LeavesOutstanding(alloc, StatusLeak(env.StatusOf(sku)))
    ensures alloc.sessions == old(alloc.sessions)
  {
    var hr, cStatus, pStatus := SLGetLicensingStatusInformation(alloc, env, sku);
    if hr != S_OK || cStatus == 0 || pStatus.Zero? {
      return false, 0, 0, 0, 0;
    }
    rawStatus := ReadInt32(pStatus.data, StatusOffset);
    grace := ReadInt32(pStatus.data, GraceOffset);
    reason := ReadInt32(pStatus.data, ReasonOffset);
    validity := ReadInt64(pStatus.data, ValidityOffset);
    TryFree(alloc, pStatus);
    ok := true;
  }

  /** Steps 3 and 4 of `ReadFullActivationInfo`: the SKU values, then the product key values when its id parsed. */
  method ReadLicenseValues(alloc: Allocator, env: Env, lib: Library, sku: Guid)
    returns (channel: Option<string>, ppk: Option<string>, vlType: Option<int>, extendedPid: Option<string>, productId: Option<string>)
    requires alloc.Valid()
    modifies alloc
    ensures var pkeyId := PKeyIdOf(env, lib, sku);
      && channel == PKeyFallback(env, lib, pkeyId, StringValue(env, lib, Sku(sku), "Channel"), "Channel")
      && ppk == PKeyFallback(env, lib, pkeyId, StringValue(env, lib, Sku(sku), "PartialProductKey"), "PartialProductKey")
      && extendedPid == PKeyRead(env, lib, pkeyId, "DigitalPID")
      && productId == PKeyRead(env, lib, pkeyId, "DigitalPID2")
    ensures vlType == DwordValue(env, Sku(sku), "VLActivationType")
    ensures LeavesOutstanding(alloc, LicenseValueLeaks(env, lib, sku))
    ensures alloc.sessions == old(alloc.sessions)
  {
    var pkeyId;
    channel, ppk, vlType, pkeyId := ReadSkuValues(alloc, env, lib, sku);
    extendedPid, productId := None, None;
    if pkeyId.Some? {
      extendedPid, productId, channel, ppk := ReadPKeyValues(alloc, env, lib, pkeyId.value, channel, ppk);
    }
  }

  /** `ReadFullActivationInfo` */
  method ReadFullActivationInfo(alloc: Allocator, env: Env, lib: Library, sku: Guid) returns (info: ActivationInfo)
    requires alloc.Valid()
    modifies alloc
    ensures info == FullActivationInfo(env, lib, sku)
    ensures LeavesOutstanding(alloc, FullLeaks(env, lib, sku))
    ensures alloc.sessions == old(alloc.sessions)
  {
    var ok, rawStatus, grace, reason, validity := ReadStatusFields(alloc, env, sku);
    if !ok {
      return DefaultActivationInfo(Unknown);
    }
    var status := NormalizeStatus(rawStatus);

    var ghr, genuine := env.genuine.hr, env.genuine.state;
    var gState := if ghr == S_OK && genuine <= 4 then GenuineStateOf(genuine) else Last;

    var channel, ppk, vlType, extendedPid, productId := ReadLicenseValues(alloc, env, lib, sku);
    info := ActivationInfo(
      status,
      if reason != 0 then Some("0x" + HexX8(reason)) else None,
      gState,
      if grace > 0 then Some(grace) else None,
      if validity > 0 then Some(FromFileTime(validity)) else None,
      channel,
      ppk,
      if vlType.Some? && lib.vlTypeDefined(vlType.value) then vlType else None,
      extendedPid,
      productId);
  }

  /**
   * Lines 86-103 of `GetActivationInfo`: the scan over the id list for the SKU to read in full,
   * keeping the first id as fallback and stopping at the first Licensed one.
   */
  method SelectSku(alloc: Allocator, env: Env, idsPtr: Ptr, count: nat) returns (pickedSku: Option<Guid>)
    requires alloc.Valid()
    requires idsPtr.At? && idsPtr.data == GuidArray(env.idList.ids) && count == |env.idList.ids| > 0
    modifies alloc
    ensures pickedSku == Some(PickWindowsSku(env, env.idList.ids))
    ensures LeavesOutstanding(alloc, StatusLeaks(env, env.idList.ids[..WindowsExamined(env, env.idList.ids)]))
    ensures alloc.sessions == old(alloc.sessions)
  {
    ghost var ids := env.idList.ids;
    ghost var examined: nat := 0;
    pickedSku := None;
    var i := 0;
    while i < count
      invariant 0 <= i <= count && examined == i
      invariant pickedSku == if i == 0 then None else Some(ids[0])
      invariant i <= FirstLicensed(env, ids)
      invariant LeavesOutstanding(alloc, StatusLeaks(env, ids[..i]))
      invariant alloc.sessions == old(alloc.sessions)
    {
      GuidAtGuidArray(ids, i);
      var skuId := GuidAt(idsPtr.data, i);
      var info := ReadStatusForSku(alloc, env, skuId);
      StatusLeaksSnoc(env, ids, i);
      ScanStep(env, ids, i, info);
      if info.Some? && info.value.status == Licensed {
        pickedSku := Some(skuId);
        examined := i + 1;
        break;
      }
      if pickedSku.None? {
        pickedSku := Some(skuId);
      }
      i := i + 1;
      examined := i;
    }
    assert examined == WindowsExamined(env, ids);
  }

  /** `GetActivationInfo` */
  method GetActivationInfo(alloc: Allocator, env: Env, lib: Library) returns (info: ActivationInfo)
    requires alloc.Valid()
    modifies alloc
    ensures info == ActivationInfoOf(env, lib)
    ensures LeavesOutstanding(alloc, ActivationInfoLeaks(env, lib))
    ensures alloc.sessions == SessionsAfter(env, old(alloc.sessions))
  {
    var hrOpen, h := SLOpen(alloc, env);
    if hrOpen != S_OK || h == 0 {
      if h != 0 {
        var _ := SLClose(alloc, env, h);
      }
      return DefaultActivationInfo(Unknown);
    }

    var hr, count, idsPtr := SLGetSLIDList(alloc, env);
    if hr != S_OK || count == 0 || idsPtr.Zero? {
      var _ := SLClose(alloc, env, h);
      return DefaultActivationInfo(Unknown);
    }

    var pickedSku := SelectSku(alloc, env, idsPtr, count);
    TryFree(alloc, idsPtr);

    if pickedSku.None? {
      assert false;
    }
    info := ReadFullActivationInfo(alloc, env, lib, pickedSku.value);
    var _ := SLClose(alloc, env, h);
  }

  /** `GetInstalledProductKeyPartial`: null when neither the key nor the channel has any text. */
  function PKeyOf(act: ActivationInfo): (p: Option<PKeyInfo>)
    ensures p.None? <==> IsNullOrWhiteSpace(act.partialProductKey) && IsNullOrWhiteSpace(act.channel)
    ensures p.Some? ==>
      p.value.partialProductKey == act.partialProductKey && p.value.channel == act.channel && p.value.digitalPid.None?
  {
    if IsNullOrWhiteSpace(act.partialProductKey) && IsNullOrWhiteSpace(act.channel) then None
    else Some(PKeyInfo(act.partialProductKey, act.channel, None))
  }

  /** `GetInstalledProductKeyPartial` */
  method GetInstalledProductKeyPartial(alloc: Allocator, env: Env, lib: Library) returns (p: Option<PKeyInfo>)
    requires alloc.Valid()
    modifies alloc
    ensures p == PKeyOf(ActivationInfoOf(env, lib))
    ensures LeavesOutstanding(alloc, ActivationInfoLeaks(env, lib))
    ensures alloc.sessions == SessionsAfter(env, old(alloc.sessions))
  {
    var act := GetActivationInfo(alloc, env, lib);
    p := PKeyOf(act);
  }

  /** A failed session or id list has no key and no channel, so there is no installed key to report. */
  lemma NoKeyWithoutActivation(env: Env, lib: Library)
    requires !env.Opens() || !IdsReadable(env.idList)
    ensures PKeyOf(ActivationInfoOf(env, lib)).None?
  {
  }

  // ---- Product information ----

  /**
   * The host facts `GetProductInfo` and `GetSystemData` consult: the product type
   * `Kernel32.GetProductInfo` reports (None when the call fails), the kernel32.dll file version,
   * `Environment.OSVersion.Version` and `RuntimeInformation.OSArchitecture`, as text.
   */
  datatype Host = Host(productType: Option<nat>, kernelFileVersion: Option<string>, osVersion: string, osArchitecture: string)

  /** `GetProductInfo` */
  function ProductInfoOf(host: Host): ProductInfo {
    var code := host.productType.OrElse(0);
    var name := if code in Names() then Names()[code] else "Unknown";
    ProductInfo(code, name, host.kernelFileVersion.OrElse(""))
  }

  /**
   * A failed `GetProductInfo` gives code 0; code 0 (Undefined) is not in the table and is named
   * "Unknown", as is any other code not in it; a code in the table gets its entry's name; the
   * release is the file version, or empty.
   */
  lemma ProductInfoNaming(host: Host)
    ensures host.productType.None? ==> ProductInfoOf(host).productTypeCode == 0
    ensures ProductInfoOf(host).productTypeCode == Undefined.Value() ==> ProductInfoOf(host).productTypeName == "Unknown"
    ensures forall t: ProductType :: t != Undefined && host.productType == Some(t.Value()) ==>
      t.Value() in Names() && ProductInfoOf(host).productTypeName == NameEntries[EntryIndex(t)].1
    ensures ProductInfoOf(host).release == (if host.kernelFileVersion.Some? then host.kernelFileVersion.value else "")
  {
    NamesTable();
    EntryIndexKeys();
  }

  /** `GetSystemData` */
  method GetSystemData(alloc: Allocator, env: Env, lib: Library, host: Host) returns (data: WindowsSystemData)
    requires alloc.Valid()
    modifies alloc
    ensures data.product == ProductInfoOf(host) && data.edition == data.product.productTypeName
    ensures data.version == host.osVersion && data.architecture == host.osArchitecture
    ensures data.activation == ActivationInfoOf(env, lib)
    ensures LeavesOutstanding(alloc, ActivationInfoLeaks(env, lib))
    ensures alloc.sessions == SessionsAfter(env, old(alloc.sessions))
  {
    var product := ProductInfoOf(host);
    var act := GetActivationInfo(alloc, env, lib);
    data := WindowsSystemData(product.productTypeName, host.osVersion, host.osArchitecture, act, product);
  }
}
