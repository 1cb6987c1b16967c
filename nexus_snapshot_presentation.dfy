/**
 * `NexusSnapshotPresenter.Prepare` and `NexusPresentationModel`: a snapshot becomes six titled
 * sections of label/value fields, and the model prints as console text.
 */
module NexusSnapshotPresentation {
  import opened Wrappers
  import opened Enums
  import opened Guids
  import opened Text
  import opened Models
  import opened SlApi
  import opened StringBuilders
  import C = NexusClient

  /** `NexusPresentationState` */
  datatype PresentationState = Ok | Warning | Error

  /** `NexusPresentationField` (`Label` is `caption`: `label` is a Dafny keyword) */
  datatype Field = Field(caption: string, value: Option<string>)

  /** `NexusPresentationSection` */
  datatype PresentationSection = PresentationSection(
    title: string, state: PresentationState, errorMessage: Option<string>, fields: seq<Field>)

  const NoData := "Data nejsou k dispozici."
  const Titles: seq<string> := ["Systém", "KMS klient", "ADBA", "AVMA", "Předplatné", "SKU"]

  /** `CreateSection` */
  function CreateSection<T>(title: string, section: C.Section<T>, fieldFactory: T -> seq<Field>): (p: PresentationSection)
    ensures p.title == title
  {
    if !section.isSuccess then
      PresentationSection(title, Error, Some(section.errorMessage.OrElse(C.UnknownError)), [])
    else if section.data.None? then
      PresentationSection(title, Warning, Some(NoData), [])
    else
      PresentationSection(title, Ok, None, fieldFactory(section.data.value))
  }

  /**
   * A failed section is an Error with its message (or the fallback) and no fields; a
   * successful one without data is a Warning; otherwise it is Ok, with no message and exactly
   * the factory's fields.
   */
  lemma CreateSectionStates<T>(title: string, section: C.Section<T>, fieldFactory: T -> seq<Field>)
    ensures var p := CreateSection(title, section, fieldFactory);
      && (p.state == Error <==> !section.isSuccess)
      && (p.state == Error ==> p.errorMessage == Some(section.errorMessage.OrElse("Neznámá chyba.")) && p.fields == [])
      && (p.state == Warning <==> section.isSuccess && section.data.None?)
      && (p.state == Warning ==> p.errorMessage == Some("Data nejsou k dispozici.") && p.fields == [])
      && (p.state == Ok ==> p.errorMessage.None? && p.fields == fieldFactory(section.data.value))
  {
  }

  /** `x ?? "n/a"` */
  function OrNa(s: Option<string>): string {
    s.OrElse("n/a")
  }

  /** `x?.ToString() ?? "n/a"` for a nullable integer. */
  function IntOrNa(i: Option<int>): string {
    match i
    case Some(v) => IntToString(v)
    case None => "n/a"
  }

  /** The `HostCachingEnabled switch`: true, false and null have their own words. */
  function CachingText(b: Option<bool>): (s: string)
    ensures b == Some(true) <==> s == "zapnuto"
    ensures b == Some(false) <==> s == "vypnuto"
    ensures b.None? <==> s == "neznámo"
  {
    match b
    case Some(true) => "zapnuto"
    case Some(false) => "vypnuto"
    case None => "neznámo"
  }

  function BuildSystemFields(data: WindowsSystemData): seq<Field> {
    [ Field("Edice", Some(data.edition)),
      Field("Verze", Some(data.version)),
      Field("Architektura", Some(data.architecture)),
      Field("Stav aktivace", Some(data.activation.status.Name() + " (" + data.activation.statusMessage.OrElse("bez zprávy") + ")")),
      Field("Kanál", Some(OrNa(data.activation.channel))),
      Field("Release", Some(data.product.release)) ]
  }

  /** `BuildKmsFields`; a null record yields no fields. */
  function BuildKmsFields(data: Option<KmsClientInfo>): seq<Field> {
    match data
    case None => []
    case Some(d) =>
      [ Field("CMID", Some(OrNa(d.clientMachineId))),
        Field("Registrovaný server", Some(OrNa(d.registeredKmsName) + ":" + IntOrNa(d.registeredKmsPort))),
        Field("Nalezený server", Some(OrNa(d.discoveredKmsName) + ":" + IntOrNa(d.discoveredKmsPort))),
        Field("Nalezená IP", Some(OrNa(d.discoveredKmsIp))),
        Field("Aktivační interval", Some(IntOrNa(d.activationIntervalMinutes))),
        Field("Obnovovací interval", Some(IntOrNa(d.renewalIntervalMinutes))),
        Field("Lookup doména", Some(OrNa(d.lookupDomain))),
        Field("Caching hostů", Some(CachingText(d.hostCachingEnabled))) ]
  }

  function BuildAdbaFields(data: Option<AdbaInfo>): seq<Field> {
    match data
    case None => []
    case Some(d) =>
      [ Field("Object name", Some(OrNa(d.objectName))),
        Field("Object DN", Some(OrNa(d.objectDn))),
        Field("CSVLK PID", Some(OrNa(d.csvlkPid))),
        Field("CSVLK SKU ID", Some(OrNa(d.csvlkSkuId))) ]
  }

  function BuildAvmaFields(lib: Library, data: Option<AvmaInfo>): seq<Field> {
    match data
    case None => []
    case Some(d) =>
      [ Field("Host", Some(OrNa(d.hostMachineName))),
        Field("Host DigitalPID2", Some(OrNa(d.hostDigitalPid2))),
        Field("Inherited Activation ID", Some(OrNa(d.inheritedActivationId))),
        Field("Čas aktivace", Some(match d.activationTime case Some(t) => lib.formatU(t) case None => "n/a")) ]
  }

  function YesNo(b: bool): string {
    if b then "ano" else "ne"
  }

  function BuildSubscriptionFields(data: SubscriptionInfo): seq<Field> {
    [ Field("Podporováno", Some(YesNo(data.supported))),
      Field("Povoleno", Some(YesNo(data.enabled))),
      Field("SKU", Some(match data.sku case Some(v) => NatToString(v) case None => "n/a")),
      Field("Stav", Some(match data.state case Some(v) => NatToString(v) case None => "n/a")) ]
  }

  const NoEntriesLabel := "Záznamy"
  const NoEntriesValue := "Žádné položky nebyly nalezeny."

  /** `BuildSkuFields` */
  function BuildSkuFields(entries: seq<SlSkuEntry>): seq<Field> {
    if |entries| == 0 then [Field(NoEntriesLabel, Some(NoEntriesValue))]
    else seq(|entries|, i requires 0 <= i < |entries| => Field(entries[i].name.OrElse("Bez názvu"), Some(GuidToString(entries[i].skuId))))
  }

  /**
   * An empty list gives one placeholder field; otherwise there is one field per entry in list
   * order, captioned with its name or "Bez názvu" and valued with its SKU id.
   */
  lemma SkuFieldsShape(entries: seq<SlSkuEntry>)
    ensures var f := BuildSkuFields(entries);
      && (|entries| == 0 ==> f == [Field("Záznamy", Some("Žádné položky nebyly nalezeny."))])
      && (|entries| > 0 ==> |f| == |entries|)
      && (forall i :: 0 <= i < |entries| && |entries| > 0 ==>
            f[i].caption == entries[i].name.OrElse("Bez názvu") && f[i].value == Some(GuidToString(entries[i].skuId)))
  {
  }

  /** The fixed-width sections: system 6 fields, KMS 8, ADBA and AVMA 4, subscription always 4. */
  lemma FieldCounts(lib: Library, s: WindowsSystemData, k: KmsClientInfo, a: AdbaInfo, v: AvmaInfo, sub: SubscriptionInfo)
    ensures |BuildSystemFields(s)| == 6 && |BuildKmsFields(Some(k))| == 8
    ensures |BuildAdbaFields(Some(a))| == 4 && |BuildAvmaFields(lib, Some(v))| == 4
    ensures |BuildSubscriptionFields(sub)| == 4
    ensures BuildKmsFields(Some(k))[7].value == Some(CachingText(k.hostCachingEnabled))
  {
  }

  /** `NexusPresentationModel` */
  datatype PresentationModel = PresentationModel(sections: seq<PresentationSection>, logs: seq<C.LogEntry>) {
    /** `HasErrors`: some section is in the Error state. */
    predicate HasErrors() {
      exists i :: 0 <= i < |sections| && sections[i].state == Error
    }
  }

  /** `Prepare` */
  function Prepare(lib: Library, snapshot: C.Snapshot): PresentationModel {
    PresentationModel(
      [ CreateSection("Systém", snapshot.system, BuildSystemFields),
        CreateSection("KMS klient", snapshot.kms, (d: KmsClientInfo) => BuildKmsFields(Some(d))),
        CreateSection("ADBA", snapshot.adba, (d: AdbaInfo) => BuildAdbaFields(Some(d))),
        CreateSection("AVMA", snapshot.avma, (d: AvmaInfo) => BuildAvmaFields(lib, Some(d))),
        CreateSection("Předplatné", snapshot.subscription, BuildSubscriptionFields),
        CreateSection("SKU", snapshot.skus, BuildSkuFields) ],
      snapshot.logs)
  }

  /**
   * Six sections under the fixed titles, the log passed through unchanged, and section i in
   * the Error state exactly when snapshot section i failed.
   */
  lemma PrepareShape(lib: Library, snapshot: C.Snapshot)
    ensures var m := Prepare(lib, snapshot);
      && |m.sections| == |Titles| == |snapshot.Sections()|
      && m.logs == snapshot.logs
      && (forall i :: 0 <= i < |m.sections| ==> m.sections[i].title == Titles[i])
      && (forall i :: 0 <= i < |m.sections| ==> (m.sections[i].state == Error <==> !snapshot.Sections()[i].isSuccess))
  {
  }

  /** The presentation reports errors exactly when the snapshot does. */
  lemma PrepareHasErrors(lib: Library, snapshot: C.Snapshot)
    ensures Prepare(lib, snapshot).HasErrors() <==> snapshot.HasErrors()
  {
    var m := Prepare(lib, snapshot);
    PrepareShape(lib, snapshot);
    if m.HasErrors() {
      var i :| 0 <= i < |m.sections| && m.sections[i].state == Error;
      assert !snapshot.Sections()[i].isSuccess;
    }
    if snapshot.HasErrors() {
      var i :| 0 <= i < |snapshot.Sections()| && !snapshot.Sections()[i].isSuccess;
      assert m.sections[i].state == Error;
    }
  }

  /** Every Ok section of a prepared model has fields, so the console fallback line is never used for it. */
  lemma PreparedOkHasFields(lib: Library, snapshot: C.Snapshot, i: nat)
    requires i < |Prepare(lib, snapshot).sections|
    requires Prepare(lib, snapshot).sections[i].state == Ok
    ensures |Prepare(lib, snapshot).sections[i].fields| > 0
  {
  }

  // ---- ToConsoleString ----

  const NoDataLine := "Žádná data nejsou k dispozici."

  /** `$"=== {section.Title} ==="` */
  function Header(title: string): string {
    "=== " + title + " ==="
  }

  /** `$"- {field.Label}: {field.Value ?? "n/a"}"` */
  function FieldLine(f: Field): string {
    "- " + f.caption + ": " + f.value.OrElse("n/a")
  }

  function {:induction false} FieldLines(fields: seq<Field>): (ls: seq<string>)
    ensures |ls| == |fields|
  {
    if |fields| == 0 then [] else FieldLines(fields[..|fields| - 1]) + [FieldLine(fields[|fields| - 1])]
  }

  lemma {:induction false} FieldLinesAt(fields: seq<Field>, j: nat)
    requires j < |fields|
    ensures FieldLines(fields)[j] == FieldLine(fields[j])
  {
    var n := |fields| - 1;
    if j < n {
      FieldLinesAt(fields[..n], j);
      assert fields[..n][j] == fields[j];
    }
  }

  /** The lines one section prints. */
  function SectionLines(s: PresentationSection): seq<string> {
    [Header(s.title)]
    + (if |s.fields| == 0 then [s.errorMessage.OrElse(NoDataLine)] else FieldLines(s.fields))
    + [""]
  }

  function {:induction false} ConsoleLines(sections: seq<PresentationSection>): seq<string> {
    if |sections| == 0 then [] else ConsoleLines(sections[..|sections| - 1]) + SectionLines(sections[|sections| - 1])
  }

  lemma ConsoleLinesSnoc(sections: seq<PresentationSection>, i: nat)
    requires i < |sections|
    ensures ConsoleLines(sections[..i + 1]) == ConsoleLines(sections[..i]) + SectionLines(sections[i])
  {
    assert sections[..i + 1][..i] == sections[..i];
  }

  /**
   * A section prints its header, then its message (or the fallback) when it has no fields and
   * otherwise one "- caption: value" line per field with null as "n/a", then a blank line.
   */
  lemma SectionLinesShape(s: PresentationSection)
    ensures var ls := SectionLines(s);
      && ls[0] == "=== " + s.title + " ===" && ls[|ls| - 1] == ""
      && (|s.fields| == 0 ==> ls == ["=== " + s.title + " ===", s.errorMessage.OrElse("Žádná data nejsou k dispozici."), ""])
      && (|s.fields| > 0 ==> |ls| == |s.fields| + 2)
      && (forall j :: 0 <= j < |s.fields| ==> ls[j + 1] == "- " + s.fields[j].caption + ": " + s.fields[j].value.OrElse("n/a"))
  {
    var ls := SectionLines(s);
    if |s.fields| > 0 {
      forall j | 0 <= j < |s.fields|
        ensures ls[j + 1] == "- " + s.fields[j].caption + ": " + s.fields[j].value.OrElse("n/a")
      {
        FieldLinesAt(s.fields, j);
      }
    }
  }

  /** The inner `foreach`: one line per field. */
  method AppendFields(sb: StringBuilder, fields: seq<Field>)
    modifies sb
    ensures sb.lines == old(sb.lines) + FieldLines(fields)
  {
    for j := 0 to |fields|
      invariant sb.lines == old(sb.lines) + FieldLines(fields[..j])
    {
      assert fields[..j + 1][..j] == fields[..j];
      sb.AppendLine(FieldLine(fields[j]));
    }
    assert fields[..|fields|] == fields;
  }

  /** What the loop body appends, in the two shapes it takes. */
  lemma SectionLinesAppended(before: seq<string>, s: PresentationSection)
    ensures |s.fields| == 0 ==> before + [Header(s.title)] + [s.errorMessage.OrElse(NoDataLine)] + [""] == before + SectionLines(s)
    ensures |s.fields| > 0 ==> before + [Header(s.title)] + FieldLines(s.fields) + [""] == before + SectionLines(s)
  {
  }

  /** `ToConsoleString`, as its lines. */
  method ToConsoleString(model: PresentationModel) returns (lines: seq<string>)
    ensures lines == ConsoleLines(model.sections)
  {
    var sb := new StringBuilder();
    var sections := model.sections;
    for i := 0 to |sections|
      invariant sb.lines == ConsoleLines(sections[..i])
    {
      ConsoleLinesSnoc(sections, i);
      var section := sections[i];
      ghost var before := sb.lines;
      SectionLinesAppended(before, section);
      sb.AppendLine(Header(section.title));
      if |section.fields| == 0 {
        sb.AppendLine(section.errorMessage.OrElse(NoDataLine));
        sb.AppendLine("");
        continue;
      }
      AppendFields(sb, section.fields);
      sb.AppendLine("");
    }
    assert sections[..|sections|] == sections;
    lines := sb.lines;
  }
}
