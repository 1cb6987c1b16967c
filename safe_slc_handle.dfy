/**
 * `SafeSlcHandle`: an SL session handle owned by a `SafeHandle`. The `closed` flag stands for
 * the base class's record of whether the handle has been released; `Dispose` releases a valid
 * handle once.
 */
module SafeSlcHandles {
  import opened SlApi

  /** Closing the handle a `Create` opened gives back the sessions there were before. */
  lemma SessionRoundTrip(sessions: multiset<nat>, handle: nat)
    ensures (sessions + multiset{handle}) - multiset{handle} == sessions
  {
  }

  class SafeSlcHandle {
    /** `SafeHandle.handle`; 0 is `IntPtr.Zero`. */
    var handle: nat
    /** Whether `Dispose` has already run. */
    var closed: bool

    /** `new SafeSlcHandle()`: `base(IntPtr.Zero, true)`. */
    constructor ()
      ensures handle == 0 && !closed && IsInvalid()
    {
      handle := 0;
      closed := false;
    }

    /** `IsInvalid`: the stored handle is zero. */
    predicate IsInvalid()
      reads this
    {
      handle == 0
    }

    /** `SafeHandle.SetHandle` */
    method SetHandle(h: nat)
      modifies this
      ensures handle == h && closed == old(closed)
    {
      handle := h;
    }

    /** `ReleaseHandle`: close the session; success iff `SLClose` returns 0. */
    method ReleaseHandle(alloc: Allocator, env: Env) returns (ok: bool)
      requires alloc.Valid()
      modifies alloc
      ensures ok <==> env.closeHr == S_OK
      ensures alloc.Valid() && alloc.live == old(alloc.live) && alloc.next == old(alloc.next)
      ensures alloc.sessions == old(alloc.sessions) - multiset{handle}
    {
      var hr := SLClose(alloc, env, handle);
      ok := hr == S_OK;
    }

    /** `using` disposal: the base class calls `ReleaseHandle` once, and only for a valid handle. */
    method Dispose(alloc: Allocator, env: Env)
      requires alloc.Valid()
      modifies this, alloc
      ensures closed && handle == old(handle)
      ensures alloc.Valid() && alloc.live == old(alloc.live) && alloc.next == old(alloc.next)
      ensures alloc.sessions == if !old(closed) && handle != 0 then old(alloc.sessions) - multiset{handle} else old(alloc.sessions)
    {
      if !closed && !IsInvalid() {
        var _ := ReleaseHandle(alloc, env);
      }
      closed := true;
    }

    /** `Create`: invalid when `SLOpen` fails or gives a zero handle, else holding the opened handle. */
    static method Create(alloc: Allocator, env: Env) returns (sh: SafeSlcHandle)
      requires alloc.Valid()
      modifies alloc
      ensures fresh(sh) && !sh.closed
      ensures sh.IsInvalid() <==> !env.Opens()
      ensures env.Opens() ==> sh.handle == env.open.handle
      ensures alloc.Valid() && alloc.live == old(alloc.live) && alloc.next == old(alloc.next)
      ensures alloc.sessions == if env.Opens() then old(alloc.sessions) + multiset{env.open.handle} else old(alloc.sessions)
    {
      var hr, h := SLOpen(alloc, env);
      if hr != S_OK || h == 0 {
        sh := new SafeSlcHandle();
        return;
      }
      sh := new SafeSlcHandle();
      sh.SetHandle(h);
    }
  }
}
