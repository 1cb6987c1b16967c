/**
 * `Nexus.Core.Enums.ProductType` and `Nexus.Core.Constants.ProductTypeMap.Names`, the
 * read-only dictionary from `GetProductInfo` product-type codes to edition names. The collection
 * initializer is modelled as it runs: `Dictionary.Add` per entry, throwing on a repeated key.
 */
module ProductTypeMap {
  import opened Wrappers
  import opened Text

  /** `ProductType : uint` */
  datatype ProductType =
    | Undefined | Business | Home | Professional | Enterprise | EnterpriseN | Education
    | EnterpriseS | ProfEducation | ProfEducationN | Workstation | WorkstationN | IoTEnterprise
    | ProfessionalN
  {
    /** The underlying value of the enum member. */
    function Value(): nat {
      match this
      case Undefined => 0x00
      case Business => 0x06
      case Home => 0x10
      case Professional => 0x12
      case Enterprise => 0x27
      case EnterpriseN => 0x2A
      case Education => 0x30
      case EnterpriseS => 0x3C
      case ProfEducation => 0x3F
      case ProfEducationN => 0x40
      case Workstation => 0x43
      case WorkstationN => 0x44
      case IoTEnterprise => 0x4B
      case ProfessionalN => 0x65
    }
  }

  /** Distinct enum members have distinct values. */
  lemma ValueInjective(a: ProductType, b: ProductType)
    ensures a.Value() == b.Value() ==> a == b
  {
  }

  /** The initializer entries of `Names`, in source order, keyed by `(uint)member`. */
  const NameEntries: seq<(nat, string)> := [
    (Business.Value(), "Business"),
    (Home.Value(), "Home"),
    (Professional.Value(), "Professional"),
    (Enterprise.Value(), "Enterprise"),
    (EnterpriseN.Value(), "Enterprise N"),
    (Education.Value(), "Education"),
    (EnterpriseS.Value(), "Enterprise S"),
    (ProfEducation.Value(), "Professional Education"),
    (ProfEducationN.Value(), "Professional Education N"),
    (Workstation.Value(), "Professional Workstation"),
    (WorkstationN.Value(), "Professional Workstation N"),
    (IoTEnterprise.Value(), "IoT Enterprise"),
    (ProfessionalN.Value(), "Professional N")
  ]

  /** `new Dictionary<uint, string> { { k1, v1 }, … }`: one `Add` per entry, in order. */
  function BuildDictionary(entries: seq<(nat, string)>): Attempt<map<nat, string>> {
    if |entries| == 0 then Returned(map[])
    else
      var (k, v) := entries[|entries| - 1];
      match BuildDictionary(entries[..|entries| - 1])
      case Threw(e) => Threw(e)
      case Returned(m) =>
        if k in m then Threw(Raised("An item with the same key has already been added. Key: " + NatToString(k)))
        else Returned(m[k := v])
  }

  predicate DistinctKeys(entries: seq<(nat, string)>) {
    forall i, j :: 0 <= i < j < |entries| ==> entries[i].0 != entries[j].0
  }

  /** The keys of the entries. */
  function KeySet(entries: seq<(nat, string)>): set<nat> {
    if |entries| == 0 then {} else KeySet(entries[..|entries| - 1]) + {entries[|entries| - 1].0}
  }

  /** The map the entries describe, a later entry overriding an earlier one. */
  function MapOf(entries: seq<(nat, string)>): map<nat, string> {
    if |entries| == 0 then map[] else MapOf(entries[..|entries| - 1])[entries[|entries| - 1].0 := entries[|entries| - 1].1]
  }

  lemma {:induction false} KeySetMembers(entries: seq<(nat, string)>)
    ensures MapOf(entries).Keys == KeySet(entries)
    ensures forall x :: x in KeySet(entries) <==> exists i :: 0 <= i < |entries| && entries[i].0 == x
  {
    if |entries| > 0 {
      var init := entries[..|entries| - 1];
      KeySetMembers(init);
      assert forall i :: 0 <= i < |init| ==> init[i] == entries[i];
    }
  }

  /** A sequence of keys is duplicate-free exactly when its prefix is and the last key is new. */
  lemma DistinctKeysSnoc(entries: seq<(nat, string)>)
    requires |entries| > 0
    ensures DistinctKeys(entries) <==>
      DistinctKeys(entries[..|entries| - 1]) && entries[|entries| - 1].0 !in KeySet(entries[..|entries| - 1])
  {
    var init := entries[..|entries| - 1];
    KeySetMembers(init);
    assert forall i :: 0 <= i < |init| ==> init[i] == entries[i];
  }

  /** The initializer succeeds exactly when no key repeats, and then builds the entries' map. */
  lemma {:induction false} BuildDictionaryCorrect(entries: seq<(nat, string)>)
    ensures BuildDictionary(entries).Returned? <==> DistinctKeys(entries)
    ensures BuildDictionary(entries).Returned? ==> BuildDictionary(entries).value == MapOf(entries)
  {
    if |entries| > 0 {
      var init := entries[..|entries| - 1];
      BuildDictionaryCorrect(init);
      DistinctKeysSnoc(entries);
      KeySetMembers(init);
    }
  }

  /** Without repeated keys the map has one key per entry, each mapped to its entry's value. */
  lemma {:induction false} MapOfDistinct(entries: seq<(nat, string)>)
    requires DistinctKeys(entries)
    ensures |MapOf(entries)| == |entries|
    ensures forall i :: 0 <= i < |entries| ==> entries[i].0 in MapOf(entries) && MapOf(entries)[entries[i].0] == entries[i].1
  {
    if |entries| > 0 {
      var init := entries[..|entries| - 1];
      DistinctKeysSnoc(entries);
      MapOfDistinct(init);
      KeySetMembers(init);
      assert forall i :: 0 <= i < |init| ==> init[i] == entries[i];
    }
  }

  /** `ProductTypeMap.Names`; its initializer does not throw (see NamesTable). */
  function Names(): map<nat, string> {
    NamesTable();
    BuildDictionary(NameEntries).value
  }

  /** Where a defined member's entry sits in the initializer. */
  function EntryIndex(t: ProductType): nat
    requires t != Undefined
  {
    match t
    case Business => 0
    case Home => 1
    case Professional => 2
    case Enterprise => 3
    case EnterpriseN => 4
    case Education => 5
    case EnterpriseS => 6
    case ProfEducation => 7
    case ProfEducationN => 8
    case Workstation => 9
    case WorkstationN => 10
    case IoTEnterprise => 11
    case ProfessionalN => 12
  }

  /** The keys of the initializer entries, in order. */
  lemma NameEntryKeys()
    ensures |NameEntries| == 13
    ensures forall i :: 0 <= i < 13 ==>
      NameEntries[i].0 == [0x06, 0x10, 0x12, 0x27, 0x2A, 0x30, 0x3C, 0x3F, 0x40, 0x43, 0x44, 0x4B, 0x65][i]
  {
  }

  /** Strictly increasing keys are distinct, and none is below the first. */
  lemma IncreasingKeysDistinct(entries: seq<(nat, string)>)
    requires forall i :: 0 <= i < |entries| - 1 ==> entries[i].0 < entries[i + 1].0
    ensures DistinctKeys(entries)
    ensures forall i :: 0 <= i < |entries| ==> entries[0].0 <= entries[i].0
  {
    forall i, j | 0 <= i < j < |entries| ensures entries[i].0 < entries[j].0 {
      var k := i;
      while k < j
        invariant i <= k <= j && entries[i].0 <= entries[k].0
        invariant k > i ==> entries[i].0 < entries[k].0
      {
        k := k + 1;
      }
    }
  }

  /** Each defined member's entry is keyed by its value. */
  lemma EntryIndexKeys()
    ensures forall t: ProductType | t != Undefined :: EntryIndex(t) < |NameEntries| && NameEntries[EntryIndex(t)].0 == t.Value()
  {
    NameEntryKeys();
  }

  /** The keys rise from entry to entry, starting at Business (0x06). */
  lemma NameEntriesIncreasing()
    ensures |NameEntries| == 13 && NameEntries[0].0 == 0x06
    ensures forall i :: 0 <= i < |NameEntries| - 1 ==> NameEntries[i].0 < NameEntries[i + 1].0
  {
    NameEntryKeys();
  }

  lemma NameEntriesShape()
    ensures DistinctKeys(NameEntries) && |NameEntries| == 13
    ensures forall t: ProductType | t != Undefined :: EntryIndex(t) < |NameEntries| && NameEntries[EntryIndex(t)].0 == t.Value()
    ensures forall i :: 0 <= i < |NameEntries| ==> NameEntries[i].0 != Undefined.Value()
  {
    NameEntriesIncreasing();
    IncreasingKeysDistinct(NameEntries);
    EntryIndexKeys();
  }

  /** Which codes an entry list shaped like the table's has as keys. */
  lemma TableKeys(entries: seq<(nat, string)>)
    requires forall t: ProductType | t != Undefined :: EntryIndex(t) < |entries| && entries[EntryIndex(t)].0 == t.Value()
    requires forall i :: 0 <= i < |entries| ==> entries[i].0 != Undefined.Value()
    ensures forall t: ProductType :: t.Value() in MapOf(entries) <==> t != Undefined
  {
    KeySetMembers(entries);
    forall t: ProductType ensures t.Value() in MapOf(entries) <==> t != Undefined {
      if t != Undefined {
        assert entries[EntryIndex(t)].0 == t.Value();
      }
    }
  }

  /**
   * The table has 13 entries, keyed by exactly the `ProductType` values other than Undefined,
   * each with the name of its entry.
   */
  lemma NamesTable()
    ensures BuildDictionary(NameEntries).Returned?
    ensures var m := BuildDictionary(NameEntries).value;
      && |m| == 13
      && (forall t: ProductType :: t.Value() in m <==> t != Undefined)
      && (forall i :: 0 <= i < |NameEntries| ==> NameEntries[i].0 in m && m[NameEntries[i].0] == NameEntries[i].1)
  {
    NameEntriesShape();
    BuildDictionaryCorrect(NameEntries);
    MapOfDistinct(NameEntries);
    TableKeys(NameEntries);
  }
}
