/** `Nexus.Core.Constants.WellKnown`: the SL application id of Windows. */
module WellKnown {
  import opened Marshal
  import opened Guids
  import opened Text

  /**
   * `new Guid(WellKnown.WindowsAppId)` in memory: Data1 0x55c92734, Data2 0xd682 and
   * Data3 0x4d71 little-endian, then Data4 98 3e d6 ec 3f 16 05 9f.
   */
  const WindowsAppId: Guid := [0x34, 0x27, 0xc9, 0x55, 0x82, 0xd6, 0x71, 0x4d,
                               0x98, 0x3e, 0xd6, 0xec, 0x3f, 0x16, 0x05, 0x9f]

  lemma Data1Text()
    ensures HexBytes([0x55, 0xc9, 0x27, 0x34]) == "55c92734"
  {
    assert HexBytes([0x34]) == "34";
    assert HexBytes([0x27, 0x34]) == "2734";
    assert HexBytes([0xc9, 0x27, 0x34]) == "c92734";
  }

  lemma Data23Text()
    ensures HexBytes([0xd6, 0x82]) == "d682"
    ensures HexBytes([0x4d, 0x71]) == "4d71"
  {
  }

  lemma Data4TailText()
    ensures HexBytes([0x3f, 0x16, 0x05, 0x9f]) == "3f16059f"
  {
    assert HexBytes([0x05, 0x9f]) == "059f";
    assert HexBytes([0x16, 0x05, 0x9f]) == "16059f";
  }

  lemma Data4Text()
    ensures HexBytes([0x98, 0x3e]) == "983e"
    ensures HexBytes([0xd6, 0xec, 0x3f, 0x16, 0x05, 0x9f]) == "d6ec3f16059f"
  {
    Data4TailText();
    assert HexBytes([0xec, 0x3f, 0x16, 0x05, 0x9f]) == "ec3f16059f";
  }

  lemma AppIdGroups()
    ensures GuidToString(WindowsAppId) == HexBytes([0x55, 0xc9, 0x27, 0x34]) + "-" + HexBytes([0xd6, 0x82])
      + "-" + HexBytes([0x4d, 0x71]) + "-" + HexBytes([0x98, 0x3e]) + "-" + HexBytes([0xd6, 0xec, 0x3f, 0x16, 0x05, 0x9f])
  {
    var g := WindowsAppId;
    assert [g[3], g[2], g[1], g[0]] == [0x55, 0xc9, 0x27, 0x34];
    assert [g[5], g[4]] == [0xd6, 0x82];
    assert [g[7], g[6]] == [0x4d, 0x71];
    assert g[8..10] == [0x98, 0x3e];
    assert g[10..16] == [0xd6, 0xec, 0x3f, 0x16, 0x05, 0x9f];
  }

  lemma JoinGroups(a: string, b: string, c: string, d: string, e: string)
    requires a == "55c92734" && b == "d682" && c == "4d71" && d == "983e" && e == "d6ec3f16059f"
    ensures a + "-" + b + "-" + c + "-" + d + "-" + e == "55c92734-d682-4d71-983e-d6ec3f16059f"
  {
  }

  /** The application id prints as the literal the readers parse it from. */
  lemma WindowsAppIdText()
    ensures GuidToString(WindowsAppId) == "55c92734-d682-4d71-983e-d6ec3f16059f"
  {
    AppIdGroups();
    Data1Text();
    Data4Text();
    Data23Text();
    JoinGroups(HexBytes([0x55, 0xc9, 0x27, 0x34]), HexBytes([0xd6, 0x82]), HexBytes([0x4d, 0x71]), HexBytes([0x98, 0x3e]), HexBytes([0xd6, 0xec, 0x3f, 0x16, 0x05, 0x9f]));
  }
}
