/**
 * The native Software Licensing API (sppc.dll) as the readers see it. The service is not code
 * here: its answers are an input value `Env`, and the memory side is an `Allocator` that hands
 * out buffers for non-null result pointers and tracks which of them are still outstanding, and
 * which SL sessions are open. `Library` holds the .NET conversions the readers call and that
 * this model does not define.
 */
module SlApi {
  import opened Wrappers
  import opened Marshal
  import opened Guids
  import opened Models

  /** `S_OK` */
  const S_OK: int := 0
  /** `E_FAIL` (0x80004005) as a signed HRESULT: what a query the service cannot answer returns. */
  const E_FAIL: int := -0x7FFF_BFFB

  /** The `SLDATATYPE` tags of `SLGet*Information` results. */
  const SL_DATA_SZ: nat := 1
  const SL_DATA_BINARY: nat := 3
  const SL_DATA_DWORD: nat := 4

  /** Size of one `SL_LICENSING_STATUS` record and the offsets of the fields the readers use. */
  const StatusRecordSize: nat := 40
  const StatusOffset: nat := 16
  const GraceOffset: nat := 20
  const TotalGraceOffset: nat := 24
  const ReasonOffset: nat := 28
  const ValidityOffset: nat := 32

  /** `SLOpen`: its HRESULT and the handle it stores (0 = `IntPtr.Zero`). */
  datatype OpenReply = OpenReply(hr: int, handle: nat)

  /** `SLGetSLIDList`: HRESULT, whether the returned pointer is non-null, and the GUIDs it holds; the count is their number. */
  datatype IdListReply = IdListReply(hr: int, nonNull: bool, ids: seq<Guid>)

  /** `SLGetLicensingStatusInformation`: HRESULT, record count, non-null pointer, and the bytes at the pointer. */
  datatype StatusReply = StatusReply(hr: int, count: nat, nonNull: bool, buffer: seq<byte>)

  /** The service returns `count` whole records. */
  type ValidStatusReply = r: StatusReply | |r.buffer| == StatusRecordSize * r.count
    witness StatusReply(E_FAIL, 0, false, [])

  /**
   * `SLGet{ProductSku,PKey,Service}Information`: HRESULT, data type tag, byte count `cb`,
   * non-null pointer, and the memory at the pointer (at least the 8 bytes the widest read takes).
   */
  datatype ValueReply = ValueReply(hr: int, tag: nat, cb: nat, nonNull: bool, data: seq<byte>)

  type ValidValueReply = r: ValueReply | |r.data| >= 8
    witness ValueReply(E_FAIL, 0, 0, false, [0, 0, 0, 0, 0, 0, 0, 0])

  /** What a value was asked of: a SKU, a product key, or the licensing service itself. */
  datatype Target = Sku(skuId: Guid) | PKey(pkeyId: Guid) | Service

  /** `SLIsWindowsGenuineLocal`: HRESULT and the genuine state word it stores. */
  datatype GenuineReply = GenuineReply(hr: int, state: nat)

  /** Everything the licensing service answers, for the Windows application id. */
  datatype Env = Env(
    open: OpenReply,
    closeHr: int,
    idList: IdListReply,
    status: map<Guid, ValidStatusReply>,
    values: map<(Target, string), ValidValueReply>,
    genuine: GenuineReply)
  {
    /** The answer to a status query; an unknown SKU fails with a null pointer. */
    function StatusOf(sku: Guid): ValidStatusReply {
      if sku in status then status[sku] else StatusReply(E_FAIL, 0, false, [])
    }

    /** The answer to a value query; an unknown name fails with a null pointer. */
    function ValueOf(target: Target, name: string): ValidValueReply {
      if (target, name) in values then values[(target, name)]
      else ValueReply(E_FAIL, 0, 0, false, [0, 0, 0, 0, 0, 0, 0, 0])
    }

    /** `SLOpen` succeeded with a usable handle. */
    predicate Opens() {
      open.hr == S_OK && open.handle != 0
    }
  }

  /** The .NET library conversions the readers rely on, taken as given functions. */
  datatype Library = Library(
    ptrToStringUni: seq<byte> -> string,    // Marshal.PtrToStringUni
    guidTryParse: string -> Option<Guid>,   // Guid.TryParse
    vlTypeDefined: int -> bool,             // Enum.IsDefined(typeof(VolumeActivationType), v)
    vlTypeName: int -> string,              // VolumeActivationType.ToString()
    formatU: Timestamp -> string)           // DateTimeOffset.ToString("u")

  /** A native pointer: null, or a block of unmanaged memory with its contents. */
  datatype Ptr = Zero | At(block: nat, data: seq<byte>)

  /**
   * The unmanaged heap and the SL sessions. `live` are the blocks the SL API allocated and
   * nobody freed yet; `sessions` holds one entry per open SL handle.
   */
  class Allocator {
    var live: set<nat>
    var next: nat
    var sessions: multiset<nat>

    ghost predicate Valid()
      reads this
    {
      forall b :: b in live ==> b < next
    }

    constructor ()
      ensures Valid() && live == {} && sessions == multiset{}
    {
      live := {};
      next := 0;
      sessions := multiset{};
    }

    /** A block the SL API allocates for a result. */
    method Allocate(data: seq<byte>) returns (p: Ptr)
      requires Valid()
      modifies this
      ensures Valid() && old(next) <= next
      ensures p.At? && p.data == data && p.block !in old(live)
      ensures live == old(live) + {p.block} && sessions == old(sessions)
    {
      p := At(next, data);
      live := live + {next};
      next := next + 1;
    }

    /** The release of a block. */
    method Release(block: nat)
      requires Valid()
      modifies this
      ensures Valid() && next == old(next)
      ensures live == old(live) - {block} && sessions == old(sessions)
    {
      live := live - {block};
    }

    method OpenSession(handle: nat)
      modifies this
      ensures live == old(live) && next == old(next)
      ensures sessions == old(sessions) + multiset{handle}
    {
      sessions := sessions + multiset{handle};
    }

    /** Closing a handle ends one session with that handle, if there is one. */
    method CloseSession(handle: nat)
      modifies this
      ensures live == old(live) && next == old(next)
      ensures sessions == old(sessions) - multiset{handle}
    {
      sessions := sessions - multiset{handle};
    }
  }

  /**
   * What a method did to the heap between its entry and now: it freed nothing it did not
   * allocate itself, and exactly `leaked` of the blocks it allocated are still outstanding.
   */
  twostate predicate LeavesOutstanding(alloc: Allocator, leaked: nat)
    reads alloc
  {
    alloc.Valid() && old(alloc.next) <= alloc.next && old(alloc.live) <= alloc.live
    && |alloc.live| == |old(alloc.live)| + leaked
  }

  /** `Slapi.SLOpen`: a session is opened when the call succeeds with a non-zero handle. */
  method SLOpen(alloc: Allocator, env: Env) returns (hr: int, handle: nat)
    requires alloc.Valid()
    modifies alloc
    ensures alloc.Valid() && alloc.live == old(alloc.live) && alloc.next == old(alloc.next)
    ensures hr == env.open.hr && handle == env.open.handle
    ensures alloc.sessions == if env.Opens() then old(alloc.sessions) + multiset{handle} else old(alloc.sessions)
  {
    hr, handle := env.open.hr, env.open.handle;
    if env.Opens() {
      alloc.OpenSession(handle);
    }
  }

  /** `Slapi.SLClose` */
  method SLClose(alloc: Allocator, env: Env, handle: nat) returns (hr: int)
    requires alloc.Valid()
    modifies alloc
    ensures alloc.Valid() && alloc.live == old(alloc.live) && alloc.next == old(alloc.next)
    ensures hr == env.closeHr && alloc.sessions == old(alloc.sessions) - multiset{handle}
  {
    alloc.CloseSession(handle);
    hr := env.closeHr;
  }

  /** `Slapi.SLGetSLIDList` for the Windows application id: GUIDs back to back in one block. */
  method SLGetSLIDList(alloc: Allocator, env: Env) returns (hr: int, count: nat, ids: Ptr)
    requires alloc.Valid()
    modifies alloc
    ensures alloc.Valid() && old(alloc.next) <= alloc.next && alloc.sessions == old(alloc.sessions)
    ensures hr == env.idList.hr && count == |env.idList.ids|
    ensures ids.Zero? <==> !env.idList.nonNull
    ensures ids.At? ==> ids.data == GuidArray(env.idList.ids) && ids.block !in old(alloc.live)
    ensures alloc.live == if ids.At? then old(alloc.live) + {ids.block} else old(alloc.live)
  {
    hr, count := env.idList.hr, |env.idList.ids|;
    if env.idList.nonNull {
      ids := alloc.Allocate(GuidArray(env.idList.ids));
    } else {
      ids := Zero;
    }
  }

  /** `Slapi.SLGetLicensingStatusInformation` for one SKU of the Windows application. */
  method SLGetLicensingStatusInformation(alloc: Allocator, env: Env, sku: Guid)
    returns (hr: int, count: nat, status: Ptr)
    requires alloc.Valid()
    modifies alloc
    ensures alloc.Valid() && old(alloc.next) <= alloc.next && alloc.sessions == old(alloc.sessions)
    ensures hr == env.StatusOf(sku).hr && count == env.StatusOf(sku).count
    ensures status.Zero? <==> !env.StatusOf(sku).nonNull
    ensures status.At? ==> status.data == env.StatusOf(sku).buffer && status.block !in old(alloc.live)
    ensures alloc.live == if status.At? then old(alloc.live) + {status.block} else old(alloc.live)
  {
    var r := env.StatusOf(sku);
    hr, count := r.hr, r.count;
    if r.nonNull {
      status := alloc.Allocate(r.buffer);
    } else {
      status := Zero;
    }
  }

  /**
   * `Slapi.SLGetProductSkuInformation`, `SLGetPKeyInformation` and `SLGetServiceInformation`,
   * told apart by the target.
   */
  method SLGetInformation(alloc: Allocator, env: Env, target: Target, name: string)
    returns (hr: int, tag: nat, cb: nat, value: Ptr)
    requires alloc.Valid()
    modifies alloc
    ensures alloc.Valid() && old(alloc.next) <= alloc.next && alloc.sessions == old(alloc.sessions)
    ensures var r := env.ValueOf(target, name); hr == r.hr && tag == r.tag && cb == r.cb
    ensures value.Zero? <==> !env.ValueOf(target, name).nonNull
    ensures value.At? ==> value.data == env.ValueOf(target, name).data && value.block !in old(alloc.live)
    ensures alloc.live == if value.At? then old(alloc.live) + {value.block} else old(alloc.live)
  {
    var r := env.ValueOf(target, name);
    hr, tag, cb := r.hr, r.tag, r.cb;
    if r.nonNull {
      value := alloc.Allocate(r.data);
    } else {
      value := Zero;
    }
  }

  /** One `SL_LICENSING_STATUS` record (slpublic.h). `validity` is the FILETIME read as signed. */
  datatype StatusRecord = StatusRecord(
    skuId: Guid, status: int, grace: int, totalGraceDays: int, reason: int, validity: int)
  {
    predicate InRange() {
      Int32Min <= status <= Int32Max && Int32Min <= grace <= Int32Max
      && Int32Min <= totalGraceDays <= Int32Max && Int32Min <= reason <= Int32Max
      && Int64Min <= validity <= Int64Max
    }
  }

  /** The 40 bytes of a record as the service lays it out. */
  function EncodeStatusRecord(r: StatusRecord): (s: seq<byte>)
    requires r.InRange()
    ensures |s| == StatusRecordSize
  {
    r.skuId + Int32Bytes(r.status) + Int32Bytes(r.grace) + Int32Bytes(r.totalGraceDays)
    + Int32Bytes(r.reason) + Int64Bytes(r.validity)
  }

  /** The record at the start of a status buffer, read field by field at the fixed offsets. */
  function DecodeStatusRecord(buf: seq<byte>): (r: StatusRecord)
    requires |buf| >= StatusRecordSize
    ensures r.InRange()
  {
    StatusRecord(buf[..16], ReadInt32(buf, StatusOffset), ReadInt32(buf, GraceOffset),
      ReadInt32(buf, TotalGraceOffset), ReadInt32(buf, ReasonOffset), ReadInt64(buf, ValidityOffset))
  }

  /** The regroupings of six fields and a tail that the field reads below look through. */
  lemma RegroupFields(g: seq<byte>, a: seq<byte>, b: seq<byte>, c: seq<byte>, d: seq<byte>, e: seq<byte>,
                      rest: seq<byte>)
    ensures var buf := g + a + b + c + d + e + rest;
      && buf == g + (a + b + c + d + e + rest)
      && buf == g + a + (b + c + d + e + rest)
      && buf == (g + a) + b + (c + d + e + rest)
      && buf == (g + a + b) + c + (d + e + rest)
      && buf == (g + a + b + c) + d + (e + rest)
      && buf == (g + a + b + c + d) + e + rest
  {
  }

  /** The offsets agree with the layout: decoding what was encoded gives the record back. */
  lemma DecodeEncodeStatusRecord(r: StatusRecord, rest: seq<byte>)
    requires r.InRange()
    ensures DecodeStatusRecord(EncodeStatusRecord(r) + rest) == r
  {
    var buf := EncodeStatusRecord(r) + rest;
    var g, a, b, c, d, e := r.skuId, Int32Bytes(r.status), Int32Bytes(r.grace),
      Int32Bytes(r.totalGraceDays), Int32Bytes(r.reason), Int64Bytes(r.validity);
    RegroupFields(g, a, b, c, d, e, rest);
    assert buf[..16] == g;
    ReadInt32OfInt32Bytes(g, r.status, b + c + d + e + rest);
    ReadInt32OfInt32Bytes(g + a, r.grace, c + d + e + rest);
    ReadInt32OfInt32Bytes(g + a + b, r.totalGraceDays, d + e + rest);
    ReadInt32OfInt32Bytes(g + a + b + c, r.reason, e + rest);
    ReadInt64OfInt64Bytes(g + a + b + c + d, r.validity, rest);
  }

  /** Encoding the decoded record reproduces the first 40 bytes of the buffer. */
  lemma EncodeDecodeStatusRecord(buf: seq<byte>)
    requires |buf| >= StatusRecordSize
    ensures EncodeStatusRecord(DecodeStatusRecord(buf)) == buf[..StatusRecordSize]
  {
    Int32BytesOfReadInt32(buf, StatusOffset);
    Int32BytesOfReadInt32(buf, GraceOffset);
    Int32BytesOfReadInt32(buf, TotalGraceOffset);
    Int32BytesOfReadInt32(buf, ReasonOffset);
    Int64BytesOfReadInt64(buf, ValidityOffset);
    assert buf[..StatusRecordSize] == buf[..16] + buf[16..20] + buf[20..24] + buf[24..28] + buf[28..32] + buf[32..40];
  }
}
