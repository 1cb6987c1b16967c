/**
 * `SkuReader`: one `SlSkuEntry` per id the SL id list returns, in the list's order, each with
 * its name, description and channel read as SKU strings and its partial product key read
 * through the PKey call with the SKU id.
 */
module SkuReader {
  import opened Wrappers
  import opened Guids
  import opened Models
  import opened SlApi
  import opened SlApiBuffer
  import opened SlValues
  import opened SlStatus
  import opened SafeSlcHandles
  import NativeContract

  /** The entry the loop body builds for one id. */
  function EntryFor(env: Env, lib: Library, sku: Guid): (e: SlSkuEntry)
    ensures e.skuId == sku
    ensures e.partialProductKey == StringValue(env, lib, PKey(sku), "PartialProductKey")
  {
    SlSkuEntry(
      sku,
      StringValue(env, lib, Sku(sku), "Name"),
      StringValue(env, lib, Sku(sku), "Description"),
      StringValue(env, lib, Sku(sku), "Channel"),
      StringValue(env, lib, PKey(sku), "PartialProductKey"))
  }

  /** The entries for a run of ids, appended one at a time. */
  function {:induction false} Entries(env: Env, lib: Library, ids: seq<Guid>): (es: seq<SlSkuEntry>)
    ensures |es| == |ids|
  {
    if |ids| == 0 then [] else Entries(env, lib, ids[..|ids| - 1]) + [EntryFor(env, lib, ids[|ids| - 1])]
  }

  /** The blocks one loop body leaves outstanding. */
  function EntryLeaks(env: Env, sku: Guid): nat {
    ValueLeak(env, Sku(sku), "Name", SL_DATA_SZ)
    + ValueLeak(env, Sku(sku), "Description", SL_DATA_SZ)
    + ValueLeak(env, Sku(sku), "Channel", SL_DATA_SZ)
    + ValueLeak(env, PKey(sku), "PartialProductKey", SL_DATA_SZ)
  }

  function {:induction false} EntriesLeaks(env: Env, ids: seq<Guid>): nat {
    if |ids| == 0 then 0 else EntriesLeaks(env, ids[..|ids| - 1]) + EntryLeaks(env, ids[|ids| - 1])
  }

  /** `GetAllSkus` */
  function AllSkusOf(env: Env, lib: Library): seq<SlSkuEntry> {
    if !env.Opens() || !IdsReadable(env.idList) then [] else Entries(env, lib, env.idList.ids)
  }

  /** The blocks `GetAllSkus` leaves outstanding. */
  function AllSkusLeaks(env: Env): nat {
    if !env.Opens() then 0
    else if !IdsReadable(env.idList) then IdListLeak(env.idList)
    else EntriesLeaks(env, env.idList.ids)
  }

  /** Entry i of the list is the entry for the i-th id. */
  lemma {:induction false} EntriesAt(env: Env, lib: Library, ids: seq<Guid>, i: nat)
    requires i < |ids|
    ensures Entries(env, lib, ids)[i] == EntryFor(env, lib, ids[i])
  {
    var n := |ids| - 1;
    if i < n {
      EntriesAt(env, lib, ids[..n], i);
      assert ids[..n][i] == ids[i];
    }
  }

  /**
   * The list holds one entry per id in the native order; it is empty exactly when there is no
   * session or no readable id list, and every SKU is listed, whatever its licensing status.
   */
  lemma AllSkusShape(env: Env, lib: Library)
    ensures var r := AllSkusOf(env, lib);
      && (r == [] <==> !env.Opens() || !IdsReadable(env.idList))
      && (r != [] ==> |r| == |env.idList.ids|)
      && (forall i :: 0 <= i < |r| ==> r[i].skuId == env.idList.ids[i])
  {
    var r := AllSkusOf(env, lib);
    forall i | 0 <= i < |r|
      ensures r[i].skuId == env.idList.ids[i]
    {
      EntriesAt(env, lib, env.idList.ids, i);
    }
  }

  /** Each field of entry i is the matching read for the i-th id. */
  lemma AllSkusFields(env: Env, lib: Library, i: nat)
    requires i < |AllSkusOf(env, lib)|
    ensures var e := AllSkusOf(env, lib)[i];
      var sku := env.idList.ids[i];
      && e.name == StringValue(env, lib, Sku(sku), "Name")
      && e.description == StringValue(env, lib, Sku(sku), "Description")
      && e.channel == StringValue(env, lib, Sku(sku), "Channel")
      && e.partialProductKey == StringValue(env, lib, PKey(sku), "PartialProductKey")
  {
    EntriesAt(env, lib, env.idList.ids, i);
  }

  lemma {:induction false} NoEntriesLeak(env: Env, ids: seq<Guid>)
    requires NativeContract.NullOnFailure(env)
    ensures EntriesLeaks(env, ids) == 0
  {
    if |ids| > 0 {
      var sku := ids[|ids| - 1];
      NoEntriesLeak(env, ids[..|ids| - 1]);
      NativeContract.NoValueLeak(env, Sku(sku), "Name");
      NativeContract.NoValueLeak(env, Sku(sku), "Description");
      NativeContract.NoValueLeak(env, Sku(sku), "Channel");
      NativeContract.NoValueLeak(env, PKey(sku), "PartialProductKey");
    }
  }

  /** When every failing call returns a null pointer, `GetAllSkus` leaves nothing outstanding. */
  lemma AllSkusNoLeak(env: Env)
    requires NativeContract.NullOnFailure(env)
    ensures AllSkusLeaks(env) == 0
  {
    NoEntriesLeak(env, env.idList.ids);
  }

  /** The loop body. */
  method ReadEntry(alloc: Allocator, env: Env, lib: Library, sku: Guid) returns (e: SlSkuEntry)
    requires alloc.Valid()
    modifies alloc
    ensures e == EntryFor(env, lib, sku)
    ensures LeavesOutstanding(alloc, EntryLeaks(env, sku))
    ensures alloc.sessions == old(alloc.sessions)
  {
    var name := ReadString(alloc, env, lib, Sku(sku), "Name");
    var desc := ReadString(alloc, env, lib, Sku(sku), "Description");
    var ch := ReadString(alloc, env, lib, Sku(sku), "Channel");
    var ppk: Option<string> := None;
    var read := ReadString(alloc, env, lib, PKey(sku), "PartialProductKey");
    ppk := read.Or(ppk);
    e := SlSkuEntry(sku, name, desc, ch, ppk);
  }

  /** The `for` loop over the id block, proved against `Entries`. */
  method ReadEntries(alloc: Allocator, env: Env, lib: Library, idsPtr: Ptr, count: nat)
    returns (result: seq<SlSkuEntry>)
    requires alloc.Valid()
    requires idsPtr.At? && idsPtr.data == GuidArray(env.idList.ids) && count == |env.idList.ids|
    modifies alloc
    ensures result == Entries(env, lib, env.idList.ids)
    ensures LeavesOutstanding(alloc, EntriesLeaks(env, env.idList.ids))
    ensures alloc.sessions == old(alloc.sessions)
  {
    ghost var ids := env.idList.ids;
    result := [];
    for i := 0 to count
      invariant result == Entries(env, lib, ids[..i])
      invariant LeavesOutstanding(alloc, EntriesLeaks(env, ids[..i]))
      invariant alloc.sessions == old(alloc.sessions)
    {
      GuidAtGuidArray(ids, i);
      var sku := GuidAt(idsPtr.data, i);
      var e := ReadEntry(alloc, env, lib, sku);
      assert ids[..i + 1][..i] == ids[..i];
      result := result + [e];
    }
    assert ids[..count] == ids;
  }

  /** `GetAllSkus`; the id list is released after the loop, the handle on every return. */
  method GetAllSkus(alloc: Allocator, env: Env, lib: Library) returns (result: seq<SlSkuEntry>)
    requires alloc.Valid()
    modifies alloc
    ensures result == AllSkusOf(env, lib)
    ensures LeavesOutstanding(alloc, AllSkusLeaks(env))
    ensures alloc.sessions == old(alloc.sessions)
  {
    result := [];
    SessionRoundTrip(alloc.sessions, env.open.handle);
    var h := SafeSlcHandle.Create(alloc, env);
    if h.IsInvalid() {
      h.Dispose(alloc, env);
      return;
    }
    var hr, count, ids := SLGetSLIDList(alloc, env);
    if hr != S_OK || count == 0 || ids.Zero? {
      h.Dispose(alloc, env);
      return;
    }
    result := ReadEntries(alloc, env, lib, ids, count);
    TryFree(alloc, ids);
    h.Dispose(alloc, env);
  }
}
