/** `System.Guid` as the 16 bytes of its in-memory layout, and the GUID arrays of the SL API. */
module Guids {
  import opened Marshal

  /** A GUID: Data1 (4 bytes), Data2 (2), Data3 (2) little-endian, then Data4 (8 bytes). */
  type Guid = s: seq<byte> | |s| == 16 witness seq(16, i => 0)

  /** `Guid.Empty` */
  const EmptyGuid: Guid := seq(16, i => 0)

  /** A native array of GUIDs, as `SLGetSLIDList` returns it: 16 bytes per entry, back to back. */
  function GuidArray(ids: seq<Guid>): (buf: seq<byte>)
    ensures |buf| == 16 * |ids|
  {
    if |ids| == 0 then [] else ids[0] + GuidArray(ids[1..])
  }

  /** `Marshal.PtrToStructure<Guid>(ptr + i * 16)` */
  function GuidAt(buf: seq<byte>, i: nat): Guid
    requires 16 * i + 16 <= |buf|
  {
    buf[16 * i..16 * i + 16]
  }

  /** Entry i of a GUID array is the i-th GUID it was built from. */
  lemma {:induction false} GuidAtGuidArray(ids: seq<Guid>, i: nat)
    requires i < |ids|
    ensures GuidAt(GuidArray(ids), i) == ids[i]
  {
    var buf := GuidArray(ids);
    assert buf == ids[0] + GuidArray(ids[1..]);
    if i > 0 {
      GuidAtGuidArray(ids[1..], i - 1);
      assert buf[16 * i..16 * i + 16] == GuidArray(ids[1..])[16 * (i - 1)..16 * (i - 1) + 16];
    } else {
      assert buf[..16] == ids[0];
    }
  }
}
