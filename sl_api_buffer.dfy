/** `SlApiBuffer`: releasing SL API buffers and copying a Unicode string out of one. */
module SlApiBuffer {
  import opened Wrappers
  import opened SlApi

  /**
   * `SlApiBuffer.TryFree`: a null pointer is left alone; any other block is released (the
   * source's two release calls with swallowed exceptions are one release event here).
   */
  method TryFree(alloc: Allocator, ptr: Ptr)
    requires alloc.Valid()
    modifies alloc
    ensures alloc.Valid() && alloc.next == old(alloc.next) && alloc.sessions == old(alloc.sessions)
    ensures alloc.live == if ptr.Zero? then old(alloc.live) else old(alloc.live) - {ptr.block}
  {
    if ptr.Zero? {
      return;
    }
    alloc.Release(ptr.block);
  }

  /** `SlApiBuffer.ReadAndFreeUniString`: null for a null pointer, else the string, and the block released. */
  method ReadAndFreeUniString(alloc: Allocator, lib: Library, ptr: Ptr) returns (s: Option<string>)
    requires alloc.Valid()
    modifies alloc
    ensures alloc.Valid() && alloc.next == old(alloc.next) && alloc.sessions == old(alloc.sessions)
    ensures s == if ptr.Zero? then None else Some(lib.ptrToStringUni(ptr.data))
    ensures alloc.live == if ptr.Zero? then old(alloc.live) else old(alloc.live) - {ptr.block}
  {
    if ptr.Zero? {
      return None;
    }
    s := Some(lib.ptrToStringUni(ptr.data));
    TryFree(alloc, ptr);
  }
}
