/**
 * The licensing-status query the readers make per SKU: `SLGetLicensingStatusInformation`
 * followed by reads of the first `SL_LICENSING_STATUS` record of the result.
 */
module SlStatus {
  import opened Marshal
  import opened Guids
  import opened SlApi

  /** The guard the readers put on a status result: success, at least one record, a non-null pointer. */
  predicate Readable(r: StatusReply) {
    r.hr == S_OK && r.count != 0 && r.nonNull
  }

  /**
   * Blocks a status read leaves outstanding: the guard returns (or, in the KMS scan,
   * continues) before the release, so a non-null pointer that fails it is never freed.
   */
  function StatusLeak(r: StatusReply): (n: nat)
    ensures n <= 1
    ensures n == 1 <==> r.nonNull && !Readable(r)
  {
    if r.nonNull && !Readable(r) then 1 else 0
  }

  /** The first record of a readable result, decoded at the fixed offsets. */
  function FirstRecord(r: ValidStatusReply): StatusRecord
    requires Readable(r)
  {
    DecodeStatusRecord(r.buffer)
  }

  /** The raw `eStatus` the minimal reads take: `Marshal.ReadInt32(pStatus, 16)`. */
  function RawStatus(r: ValidStatusReply): (raw: int)
    requires Readable(r)
    ensures raw == FirstRecord(r).status
  {
    ReadInt32(r.buffer, StatusOffset)
  }

  /** The guard the readers put on an id list: success, at least one id, a non-null pointer. */
  predicate IdsReadable(r: IdListReply) {
    r.hr == S_OK && |r.ids| != 0 && r.nonNull
  }

  /** An id-list early return leaves a non-null list that fails the guard outstanding. */
  function IdListLeak(r: IdListReply): (n: nat)
    ensures n <= 1
    ensures n == 1 <==> r.nonNull && !IdsReadable(r)
  {
    if r.nonNull && !IdsReadable(r) then 1 else 0
  }

  /** The status read leaves of the candidates `ids`, summed. */
  function StatusLeaks(env: Env, ids: seq<Guid>): nat {
    if |ids| == 0 then 0 else StatusLeaks(env, ids[..|ids| - 1]) + StatusLeak(env.StatusOf(ids[|ids| - 1]))
  }

  /** Scanning one more candidate adds its own status leak. */
  lemma StatusLeaksSnoc(env: Env, ids: seq<Guid>, i: nat)
    requires i < |ids|
    ensures StatusLeaks(env, ids[..i + 1]) == StatusLeaks(env, ids[..i]) + StatusLeak(env.StatusOf(ids[i]))
  {
    assert ids[..i + 1][..i] == ids[..i];
  }

  /** Only non-null pointers that fail the guard leak, and each at most once. */
  lemma {:induction false} StatusLeaksBounds(env: Env, ids: seq<Guid>)
    ensures StatusLeaks(env, ids) <= |ids|
    ensures StatusLeaks(env, ids) == 0 <==> forall j :: 0 <= j < |ids| ==> StatusLeak(env.StatusOf(ids[j])) == 0
  {
    if |ids| > 0 {
      var init := ids[..|ids| - 1];
      StatusLeaksBounds(env, init);
      assert forall j :: 0 <= j < |init| ==> init[j] == ids[j];
    }
  }
}
