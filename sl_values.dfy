/**
 * The tag-checked value reads every reader repeats (`TryReadStringSku`, `TryReadIntSku`,
 * `ReadSkuString`, `ReadSkuDword`, `ReadServiceString`, `ReadServiceDword`, `ReadPKeyString`,
 * `ReadSkuInt64`): one SL query, a guard on HRESULT, size, tag and pointer, a copy, a release.
 * The functions say what a read yields and how many blocks it leaves behind; the methods are
 * the reads themselves, proved against them.
 */
module SlValues {
  import opened Wrappers
  import opened Marshal
  import opened SlApi
  import opened SlApiBuffer

  /** The guard of every typed read: success, a non-empty value of the expected type, a non-null pointer. */
  predicate Accepts(r: ValueReply, tag: nat) {
    r.hr == S_OK && r.cb != 0 && r.tag == tag && r.nonNull
  }

  /**
   * Blocks a typed read leaves outstanding: the guard returns before the release, so a non-null
   * pointer that fails the guard is never freed.
   */
  function ReadLeak(r: ValueReply, tag: nat): (n: nat)
    ensures n <= 1
    ensures n == 1 <==> r.nonNull && !Accepts(r, tag)
  {
    if r.nonNull && !Accepts(r, tag) then 1 else 0
  }

  /** What a string read of `name` yields. */
  function StringValue(env: Env, lib: Library, target: Target, name: string): Option<string> {
    var r := env.ValueOf(target, name);
    if Accepts(r, SL_DATA_SZ) then Some(lib.ptrToStringUni(r.data)) else None
  }

  /** What a DWORD read yields: `Marshal.ReadInt32` of the block, a signed 32-bit value. */
  function DwordValue(env: Env, target: Target, name: string): Option<int> {
    var r := env.ValueOf(target, name);
    if Accepts(r, SL_DATA_DWORD) then Some(ReadInt32(r.data, 0)) else None
  }

  /** What an int64 read yields: `Marshal.ReadInt64` of a block tagged `SL_DATA_BINARY`. */
  function Int64Value(env: Env, target: Target, name: string): Option<int> {
    var r := env.ValueOf(target, name);
    if Accepts(r, SL_DATA_BINARY) then Some(ReadInt64(r.data, 0)) else None
  }

  /** A read yields a value exactly when the guard accepts, and the value fits its type. */
  lemma TypedReadShape(env: Env, lib: Library, target: Target, name: string)
    ensures var r := env.ValueOf(target, name);
      && (StringValue(env, lib, target, name).Some? <==> Accepts(r, SL_DATA_SZ))
      && (DwordValue(env, target, name).Some? <==> Accepts(r, SL_DATA_DWORD))
      && (Int64Value(env, target, name).Some? <==> Accepts(r, SL_DATA_BINARY))
    ensures DwordValue(env, target, name).Some? ==> Int32Min <= DwordValue(env, target, name).value <= Int32Max
    ensures Int64Value(env, target, name).Some? ==> Int64Min <= Int64Value(env, target, name).value <= Int64Max
  {
  }

  /** A string read and a DWORD read of the same value never both succeed, nor a DWORD and an int64 read. */
  lemma TagsExclusive(env: Env, lib: Library, target: Target, name: string)
    ensures !(StringValue(env, lib, target, name).Some? && DwordValue(env, target, name).Some?)
    ensures !(Int64Value(env, target, name).Some? && DwordValue(env, target, name).Some?)
  {
  }

  /** The blocks a read of `name` with the expected tag leaves outstanding. */
  function ValueLeak(env: Env, target: Target, name: string, tag: nat): nat {
    ReadLeak(env.ValueOf(target, name), tag)
  }

  /** A string read (tag `SL_DATA_SZ`), released after the copy. */
  method ReadString(alloc: Allocator, env: Env, lib: Library, target: Target, name: string)
    returns (s: Option<string>)
    requires alloc.Valid()
    modifies alloc
    ensures s == StringValue(env, lib, target, name)
    ensures LeavesOutstanding(alloc, ValueLeak(env, target, name, SL_DATA_SZ))
    ensures alloc.sessions == old(alloc.sessions)
  {
    var hr, tag, cb, ptr := SLGetInformation(alloc, env, target, name);
    if hr != S_OK || cb == 0 || tag != SL_DATA_SZ || ptr.Zero? {
      return None;
    }
    s := ReadAndFreeUniString(alloc, lib, ptr);
  }

  /** A DWORD read (tag `SL_DATA_DWORD`), released after the copy. */
  method ReadDword(alloc: Allocator, env: Env, target: Target, name: string) returns (v: Option<int>)
    requires alloc.Valid()
    modifies alloc
    ensures v == DwordValue(env, target, name)
    ensures LeavesOutstanding(alloc, ValueLeak(env, target, name, SL_DATA_DWORD))
    ensures alloc.sessions == old(alloc.sessions)
  {
    var hr, tag, cb, ptr := SLGetInformation(alloc, env, target, name);
    if hr != S_OK || cb == 0 || tag != SL_DATA_DWORD || ptr.Zero? {
      return None;
    }
    v := Some(ReadInt32(ptr.data, 0));
    TryFree(alloc, ptr);
  }

  /** An int64 read (tag `SL_DATA_BINARY`), released after the copy. */
  method ReadInt64Value(alloc: Allocator, env: Env, target: Target, name: string) returns (v: Option<int>)
    requires alloc.Valid()
    modifies alloc
    ensures v == Int64Value(env, target, name)
    ensures LeavesOutstanding(alloc, ValueLeak(env, target, name, SL_DATA_BINARY))
    ensures alloc.sessions == old(alloc.sessions)
  {
    var hr, tag, cb, ptr := SLGetInformation(alloc, env, target, name);
    if hr != S_OK || cb == 0 || tag != SL_DATA_BINARY || ptr.Zero? {
      return None;
    }
    v := Some(ReadInt64(ptr.data, 0));
    TryFree(alloc, ptr);
  }
}
