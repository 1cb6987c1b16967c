/**
 * `NexusDiagnostics.BuildReport`: one text report of everything the facade returns, written
 * line by line into a `StringBuilder` by one `Append*` writer per section.
 */
module NexusDiagnostics {
  import opened Wrappers
  import opened Enums
  import opened Guids
  import opened Text
  import opened Models
  import opened SlApi
  import opened StringBuilders
  import opened NexusApi

  /** `NexusDiagnostics`: its only state is the read-only facade. */
  datatype Diagnostics = Diagnostics(facade: Facade)

  /** `new NexusDiagnostics(facade)`: a null facade is refused. */
  function NewDiagnostics(facade: Option<Facade>): (r: Attempt<Diagnostics>)
    ensures r.Threw? <==> facade.None?
    ensures r.Threw? ==> r.ex == ArgumentNull("facade")
    ensures r.Returned? ==> r.value.facade == facade.value
  {
    match facade
    case None => Threw(ArgumentNull("facade"))
    case Some(f) => Returned(Diagnostics(f))
  }

  /** `new NexusDiagnostics()` */
  function DefaultDiagnostics(): Diagnostics {
    Diagnostics(WindowsInfoFacade)
  }

  /** A line that is written only when its condition holds. */
  function LineIf(show: bool, line: string): (ls: seq<string>)
    ensures |ls| == if show then 1 else 0
  {
    if show then [line] else []
  }

  function Count(b: bool): nat {
    if b then 1 else 0
  }

  /** `if (show) sb.AppendLine(line);` */
  method AppendLineIf(sb: StringBuilder, show: bool, line: string)
    modifies sb
    ensures sb.lines == old(sb.lines) + LineIf(show, line)
  {
    if show {
      sb.AppendLine(line);
    }
  }

  // ---- AppendSystemInfo ----

  /** The activation lines up to the evaluation end: the status, its description and the genuine state. */
  function ActivationHead(lib: Library, a: ActivationInfo): seq<string> {
    ["Aktivace:", "  Stav: " + a.status.Name()]
    + LineIf(!IsNullOrWhiteSpace(a.statusMessage), "  Popis: " + Interpolate(a.statusMessage))
    + ["  Genuine stav: " + a.genuine.Name()]
    + LineIf(a.graceMinutesRemaining.Some?, "  Zbývající minuty: " + InterpolateInt(a.graceMinutesRemaining))
    + LineIf(a.evaluationEndUtc.Some?, "  Platnost zkušební verze do (UTC): " + EvaluationEndText(lib, a))
  }

  /** `{evalEnd:u}` */
  function EvaluationEndText(lib: Library, a: ActivationInfo): string {
    if a.evaluationEndUtc.Some? then lib.formatU(a.evaluationEndUtc.value) else ""
  }

  /** `{volumeType}` */
  function VolumeTypeText(lib: Library, a: ActivationInfo): string {
    if a.vlActivationType.Some? then lib.vlTypeName(a.vlActivationType.value) else ""
  }

  /** The remaining activation lines: the licence identifiers and the closing blank line. */
  function ActivationTail(lib: Library, a: ActivationInfo): seq<string> {
    LineIf(!IsNullOrWhiteSpace(a.channel), "  Kanál: " + Interpolate(a.channel))
    + LineIf(!IsNullOrWhiteSpace(a.partialProductKey), "  Částečný produktový klíč: " + Interpolate(a.partialProductKey))
    + LineIf(a.vlActivationType.Some?, "  Typ aktivace VL: " + VolumeTypeText(lib, a))
    + LineIf(!IsNullOrWhiteSpace(a.extendedPid), "  Extended PID: " + Interpolate(a.extendedPid))
    + LineIf(!IsNullOrWhiteSpace(a.productId), "  Product ID: " + Interpolate(a.productId))
    + [""]
  }

  /** The activation block: three fixed lines, the optional lines in source order, a blank line. */
  function ActivationLines(lib: Library, a: ActivationInfo): seq<string> {
    ActivationHead(lib, a) + ActivationTail(lib, a)
  }

  /** How many of the eight optional activation values are present (strings: not blank). */
  function PresentCount(a: ActivationInfo): nat {
    Count(!IsNullOrWhiteSpace(a.statusMessage)) + Count(a.graceMinutesRemaining.Some?)
    + Count(a.evaluationEndUtc.Some?) + Count(!IsNullOrWhiteSpace(a.channel))
    + Count(!IsNullOrWhiteSpace(a.partialProductKey)) + Count(a.vlActivationType.Some?)
    + Count(!IsNullOrWhiteSpace(a.extendedPid)) + Count(!IsNullOrWhiteSpace(a.productId))
  }

  /**
   * The activation block has one line per present optional value beyond its four fixed lines;
   * the description, when present, comes right after the status line.
   */
  lemma ActivationLinesCount(lib: Library, a: ActivationInfo)
    ensures |ActivationLines(lib, a)| == 4 + PresentCount(a)
    ensures var ls := ActivationLines(lib, a);
      ls[0] == "Aktivace:" && ls[1] == "  Stav: " + a.status.Name() && ls[|ls| - 1] == ""
    ensures !IsNullOrWhiteSpace(a.statusMessage) ==> ActivationLines(lib, a)[2] == "  Popis: " + a.statusMessage.value
    ensures IsNullOrWhiteSpace(a.statusMessage) ==> ActivationLines(lib, a)[2] == "  Genuine stav: " + a.genuine.Name()
  {
  }

  /** The record a failed activation read yields prints only the fixed lines. */
  lemma DefaultActivationLines(lib: Library, status: LicensingStatus)
    ensures ActivationLines(lib, DefaultActivationInfo(status))
         == ["Aktivace:", "  Stav: " + status.Name(), "  Genuine stav: Genuine", ""]
  {
    var a := DefaultActivationInfo(status);
    assert "  Genuine stav: " + a.genuine.Name() == "  Genuine stav: Genuine";
    assert ActivationHead(lib, a) == ["Aktivace:", "  Stav: " + status.Name(), "  Genuine stav: Genuine"];
    assert ActivationTail(lib, a) == [""];
  }

  /** The lines before the activation block. */
  function SystemHead(system: WindowsSystemData): seq<string> {
    [ "=== Informace o systému ===",
      "Edice: " + system.edition,
      "Verze: " + system.version,
      "Architektura: " + system.architecture,
      "" ]
  }

  /** The product block after the activation block. */
  function ProductLines(product: ProductInfo): seq<string> {
    [ "Produkt:",
      "  Typ produktu (kód): " + NatToString(product.productTypeCode),
      "  Typ produktu (název): " + product.productTypeName,
      "  Release: " + product.release,
      "" ]
  }

  function SystemLines(lib: Library, system: WindowsSystemData): (ls: seq<string>)
    ensures |ls| > 0 && ls[0] == "=== Informace o systému ==="
  {
    SystemHead(system) + ActivationHead(lib, system.activation) + ActivationTail(lib, system.activation)
    + ProductLines(system.product)
  }

  method AppendActivationHead(sb: StringBuilder, lib: Library, a: ActivationInfo)
    modifies sb
    ensures sb.lines == old(sb.lines) + ActivationHead(lib, a)
  {
    ghost var before := sb.lines;
    Lines2(before, "Aktivace:", "  Stav: " + a.status.Name());
    Appended5(before, ["Aktivace:", "  Stav: " + a.status.Name()],
              LineIf(!IsNullOrWhiteSpace(a.statusMessage), "  Popis: " + Interpolate(a.statusMessage)),
              ["  Genuine stav: " + a.genuine.Name()],
              LineIf(a.graceMinutesRemaining.Some?, "  Zbývající minuty: " + InterpolateInt(a.graceMinutesRemaining)),
              LineIf(a.evaluationEndUtc.Some?, "  Platnost zkušební verze do (UTC): " + EvaluationEndText(lib, a)));
    sb.AppendLine("Aktivace:");
    sb.AppendLine("  Stav: " + a.status.Name());
    AppendLineIf(sb, !IsNullOrWhiteSpace(a.statusMessage), "  Popis: " + Interpolate(a.statusMessage));
    sb.AppendLine("  Genuine stav: " + a.genuine.Name());
    AppendLineIf(sb, a.graceMinutesRemaining.Some?, "  Zbývající minuty: " + InterpolateInt(a.graceMinutesRemaining));
    AppendLineIf(sb, a.evaluationEndUtc.Some?, "  Platnost zkušební verze do (UTC): " + EvaluationEndText(lib, a));
  }

  method AppendActivationTail(sb: StringBuilder, lib: Library, a: ActivationInfo)
    modifies sb
    ensures sb.lines == old(sb.lines) + ActivationTail(lib, a)
  {
    Appended6(sb.lines,
              LineIf(!IsNullOrWhiteSpace(a.channel), "  Kanál: " + Interpolate(a.channel)),
              LineIf(!IsNullOrWhiteSpace(a.partialProductKey), "  Částečný produktový klíč: " + Interpolate(a.partialProductKey)),
              LineIf(a.vlActivationType.Some?, "  Typ aktivace VL: " + VolumeTypeText(lib, a)),
              LineIf(!IsNullOrWhiteSpace(a.extendedPid), "  Extended PID: " + Interpolate(a.extendedPid)),
              LineIf(!IsNullOrWhiteSpace(a.productId), "  Product ID: " + Interpolate(a.productId)),
              [""]);
    AppendLineIf(sb, !IsNullOrWhiteSpace(a.channel), "  Kanál: " + Interpolate(a.channel));
    AppendLineIf(sb, !IsNullOrWhiteSpace(a.partialProductKey), "  Částečný produktový klíč: " + Interpolate(a.partialProductKey));
    AppendLineIf(sb, a.vlActivationType.Some?, "  Typ aktivace VL: " + VolumeTypeText(lib, a));
    AppendLineIf(sb, !IsNullOrWhiteSpace(a.extendedPid), "  Extended PID: " + Interpolate(a.extendedPid));
    AppendLineIf(sb, !IsNullOrWhiteSpace(a.productId), "  Product ID: " + Interpolate(a.productId));
    sb.AppendLine("");
  }

  /** `AppendSystemInfo` */
  method AppendSystemInfo(sb: StringBuilder, lib: Library, system: WindowsSystemData)
    modifies sb
    ensures sb.lines == old(sb.lines) + SystemLines(lib, system)
  {
    ghost var before := sb.lines;
    Lines5(before, "=== Informace o systému ===", "Edice: " + system.edition, "Verze: " + system.version,
           "Architektura: " + system.architecture, "");
    sb.AppendLine("=== Informace o systému ===");
    sb.AppendLine("Edice: " + system.edition);
    sb.AppendLine("Verze: " + system.version);
    sb.AppendLine("Architektura: " + system.architecture);
    sb.AppendLine("");
    AppendActivationHead(sb, lib, system.activation);
    AppendActivationTail(sb, lib, system.activation);
    ghost var mid := sb.lines;
    Lines5(mid, "Produkt:", "  Typ produktu (kód): " + NatToString(system.product.productTypeCode),
           "  Typ produktu (název): " + system.product.productTypeName, "  Release: " + system.product.release, "");
    Appended4(before, SystemHead(system), ActivationHead(lib, system.activation), ActivationTail(lib, system.activation),
              ProductLines(system.product));
    sb.AppendLine("Produkt:");
    sb.AppendLine("  Typ produktu (kód): " + NatToString(system.product.productTypeCode));
    sb.AppendLine("  Typ produktu (název): " + system.product.productTypeName);
    sb.AppendLine("  Release: " + system.product.release);
    sb.AppendLine("");
  }

  // ---- KMS, ADBA, AVMA, subscription ----

  /** The lines of a present KMS record after the header. */
  function KmsBody(k: KmsClientInfo): seq<string> {
    [ "Client Machine ID: " + Interpolate(k.clientMachineId),
      "Registrovaný KMS: " + Interpolate(k.registeredKmsName) + ":" + InterpolateInt(k.registeredKmsPort),
      "Zjištěný KMS: " + Interpolate(k.discoveredKmsName) + ":" + InterpolateInt(k.discoveredKmsPort),
      "KMS IP: " + Interpolate(k.discoveredKmsIp),
      "Obnovovací interval (minuty): " + InterpolateInt(k.renewalIntervalMinutes),
      "Aktivační interval (minuty): " + InterpolateInt(k.activationIntervalMinutes),
      "Lookup doména: " + Interpolate(k.lookupDomain),
      "Caching povolen: " + InterpolateBool(k.hostCachingEnabled),
      "" ]
  }

  function KmsLines(kms: Option<KmsClientInfo>): (ls: seq<string>)
    ensures |ls| > 0 && ls[0] == "=== KMS klient ==="
  {
    ["=== KMS klient ==="]
    + match kms
      case None => ["KMS klient není k dispozici.", ""]
      case Some(k) => KmsBody(k)
  }

  /** The lines of a present ADBA record after the header. */
  function AdbaBody(a: AdbaInfo): seq<string> {
    [ "Object name: " + Interpolate(a.objectName),
      "Object DN: " + Interpolate(a.objectDn),
      "CSVLK PID: " + Interpolate(a.csvlkPid),
      "CSVLK SKU: " + Interpolate(a.csvlkSkuId),
      "" ]
  }

  function AdbaLines(adba: Option<AdbaInfo>): (ls: seq<string>)
    ensures |ls| > 0 && ls[0] == "=== ADBA ==="
  {
    ["=== ADBA ==="]
    + match adba
      case None => ["ADBA informace nejsou k dispozici.", ""]
      case Some(a) => AdbaBody(a)
  }

  /** `{activationTime:u}` */
  function ActivationTimeText(lib: Library, v: AvmaInfo): string {
    if v.activationTime.Some? then lib.formatU(v.activationTime.value) else ""
  }

  /** The lines of a present AVMA record after the header. */
  function AvmaBody(lib: Library, v: AvmaInfo): seq<string> {
    [ "Hostitel: " + Interpolate(v.hostMachineName),
      "Hostitel DigitalPID2: " + Interpolate(v.hostDigitalPid2),
      "Inherited Activation ID: " + Interpolate(v.inheritedActivationId) ]
    + LineIf(v.activationTime.Some?, "Čas aktivace: " + ActivationTimeText(lib, v))
    + [""]
  }

  function AvmaLines(lib: Library, avma: Option<AvmaInfo>): (ls: seq<string>)
    ensures |ls| > 0 && ls[0] == "=== AVMA ==="
  {
    ["=== AVMA ==="]
    + match avma
      case None => ["AVMA informace nejsou k dispozici.", ""]
      case Some(v) => AvmaBody(lib, v)
  }

  /** `{x}` of a nullable unsigned value. */
  function InterpolateNat(n: Option<nat>): string {
    match n
    case Some(v) => NatToString(v)
    case None => ""
  }

  function SubscriptionLines(s: SubscriptionInfo): (ls: seq<string>)
    ensures |ls| == 6 && ls[0] == "=== Subscription ==="
  {
    [ "=== Subscription ===",
      "Podporováno: " + BoolToString(s.supported),
      "Povoleno: " + BoolToString(s.enabled),
      "SKU: " + InterpolateNat(s.sku),
      "Stav: " + InterpolateNat(s.state),
      "" ]
  }

  /**
   * A null KMS, ADBA or AVMA record prints its header, one placeholder line and a blank line;
   * a present AVMA record prints the activation time line only when it has one.
   */
  lemma NullRecordLines(lib: Library, v: AvmaInfo)
    ensures KmsLines(None) == ["=== KMS klient ===", "KMS klient není k dispozici.", ""]
    ensures AdbaLines(None) == ["=== ADBA ===", "ADBA informace nejsou k dispozici.", ""]
    ensures AvmaLines(lib, None) == ["=== AVMA ===", "AVMA informace nejsou k dispozici.", ""]
    ensures |AvmaLines(lib, Some(v))| == if v.activationTime.Some? then 6 else 5
  {
  }

  method AppendKms(sb: StringBuilder, kms: Option<KmsClientInfo>)
    modifies sb
    ensures sb.lines == old(sb.lines) + KmsLines(kms)
  {
    ghost var before := sb.lines;
    sb.AppendLine("=== KMS klient ===");
    ghost var head := sb.lines;
    if kms.None? {
      Lines2(head, "KMS klient není k dispozici.", "");
      Appended2(before, ["=== KMS klient ==="], ["KMS klient není k dispozici.", ""]);
      sb.AppendLine("KMS klient není k dispozici.");
      sb.AppendLine("");
      return;
    }
    var k := kms.value;
    Lines9(head, "Client Machine ID: " + Interpolate(k.clientMachineId),
           "Registrovaný KMS: " + Interpolate(k.registeredKmsName) + ":" + InterpolateInt(k.registeredKmsPort),
           "Zjištěný KMS: " + Interpolate(k.discoveredKmsName) + ":" + InterpolateInt(k.discoveredKmsPort),
           "KMS IP: " + Interpolate(k.discoveredKmsIp),
           "Obnovovací interval (minuty): " + InterpolateInt(k.renewalIntervalMinutes),
           "Aktivační interval (minuty): " + InterpolateInt(k.activationIntervalMinutes),
           "Lookup doména: " + Interpolate(k.lookupDomain),
           "Caching povolen: " + InterpolateBool(k.hostCachingEnabled), "");
    Appended2(before, ["=== KMS klient ==="], KmsBody(k));
    sb.AppendLine("Client Machine ID: " + Interpolate(k.clientMachineId));
    sb.AppendLine("Registrovaný KMS: " + Interpolate(k.registeredKmsName) + ":" + InterpolateInt(k.registeredKmsPort));
    sb.AppendLine("Zjištěný KMS: " + Interpolate(k.discoveredKmsName) + ":" + InterpolateInt(k.discoveredKmsPort));
    sb.AppendLine("KMS IP: " + Interpolate(k.discoveredKmsIp));
    sb.AppendLine("Obnovovací interval (minuty): " + InterpolateInt(k.renewalIntervalMinutes));
    sb.AppendLine("Aktivační interval (minuty): " + InterpolateInt(k.activationIntervalMinutes));
    sb.AppendLine("Lookup doména: " + Interpolate(k.lookupDomain));
    sb.AppendLine("Caching povolen: " + InterpolateBool(k.hostCachingEnabled));
    sb.AppendLine("");
  }

  method AppendAdba(sb: StringBuilder, adba: Option<AdbaInfo>)
    modifies sb
    ensures sb.lines == old(sb.lines) + AdbaLines(adba)
  {
    ghost var before := sb.lines;
    sb.AppendLine("=== ADBA ===");
    ghost var head := sb.lines;
    if adba.None? {
      Lines2(head, "ADBA informace nejsou k dispozici.", "");
      Appended2(before, ["=== ADBA ==="], ["ADBA informace nejsou k dispozici.", ""]);
      sb.AppendLine("ADBA informace nejsou k dispozici.");
      sb.AppendLine("");
      return;
    }
    var a := adba.value;
    Lines5(head, "Object name: " + Interpolate(a.objectName), "Object DN: " + Interpolate(a.objectDn),
           "CSVLK PID: " + Interpolate(a.csvlkPid), "CSVLK SKU: " + Interpolate(a.csvlkSkuId), "");
    Appended2(before, ["=== ADBA ==="], AdbaBody(a));
    sb.AppendLine("Object name: " + Interpolate(a.objectName));
    sb.AppendLine("Object DN: " + Interpolate(a.objectDn));
    sb.AppendLine("CSVLK PID: " + Interpolate(a.csvlkPid));
    sb.AppendLine("CSVLK SKU: " + Interpolate(a.csvlkSkuId));
    sb.AppendLine("");
  }

  method AppendAvma(sb: StringBuilder, lib: Library, avma: Option<AvmaInfo>)
    modifies sb
    ensures sb.lines == old(sb.lines) + AvmaLines(lib, avma)
  {
    ghost var before := sb.lines;
    sb.AppendLine("=== AVMA ===");
    ghost var head := sb.lines;
    if avma.None? {
      Lines2(head, "AVMA informace nejsou k dispozici.", "");
      Appended2(before, ["=== AVMA ==="], ["AVMA informace nejsou k dispozici.", ""]);
      sb.AppendLine("AVMA informace nejsou k dispozici.");
      sb.AppendLine("");
      return;
    }
    var v := avma.value;
    Lines3(head, "Hostitel: " + Interpolate(v.hostMachineName), "Hostitel DigitalPID2: " + Interpolate(v.hostDigitalPid2),
           "Inherited Activation ID: " + Interpolate(v.inheritedActivationId));
    Appended3(head, [ "Hostitel: " + Interpolate(v.hostMachineName), "Hostitel DigitalPID2: " + Interpolate(v.hostDigitalPid2),
                      "Inherited Activation ID: " + Interpolate(v.inheritedActivationId) ],
              LineIf(v.activationTime.Some?, "Čas aktivace: " + ActivationTimeText(lib, v)), [""]);
    Appended2(before, ["=== AVMA ==="], AvmaBody(lib, v));
    sb.AppendLine("Hostitel: " + Interpolate(v.hostMachineName));
    sb.AppendLine("Hostitel DigitalPID2: " + Interpolate(v.hostDigitalPid2));
    sb.AppendLine("Inherited Activation ID: " + Interpolate(v.inheritedActivationId));
    AppendLineIf(sb, v.activationTime.Some?, "Čas aktivace: " + ActivationTimeText(lib, v));
    sb.AppendLine("");
  }

  method AppendSubscription(sb: StringBuilder, s: SubscriptionInfo)
    modifies sb
    ensures sb.lines == old(sb.lines) + SubscriptionLines(s)
  {
    Lines6(sb.lines, "=== Subscription ===", "Podporováno: " + BoolToString(s.supported),
           "Povoleno: " + BoolToString(s.enabled), "SKU: " + InterpolateNat(s.sku), "Stav: " + InterpolateNat(s.state), "");
    sb.AppendLine("=== Subscription ===");
    sb.AppendLine("Podporováno: " + BoolToString(s.supported));
    sb.AppendLine("Povoleno: " + BoolToString(s.enabled));
    sb.AppendLine("SKU: " + InterpolateNat(s.sku));
    sb.AppendLine("Stav: " + InterpolateNat(s.state));
    sb.AppendLine("");
  }

  // ---- AppendSkuList ----

  /** The five lines and the blank line one SKU prints. */
  function SkuBlock(sku: SlSkuEntry): (ls: seq<string>)
    ensures |ls| == 6
  {
    [ "- " + sku.name.OrElse("(bez názvu)"),
      "  ID: " + GuidToString(sku.skuId),
      "  Popis: " + Interpolate(sku.description),
      "  Kanál: " + Interpolate(sku.channel),
      "  Částečný klíč: " + Interpolate(sku.partialProductKey),
      "" ]
  }

  /** The blocks of a run of items, each rendered by `render`, in order. */
  function {:induction false} Blocks<T>(render: T -> seq<string>, items: seq<T>): seq<string> {
    if |items| == 0 then [] else Blocks(render, items[..|items| - 1]) + render(items[|items| - 1])
  }

  /** A renderer whose every block has six lines. */
  ghost predicate SixLines<T(!new)>(render: T -> seq<string>) {
    forall x :: |render(x)| == 6
  }

  lemma {:induction false} BlocksLength<T(!new)>(render: T -> seq<string>, items: seq<T>)
    requires SixLines(render)
    ensures |Blocks(render, items)| == 6 * |items|
  {
    if |items| > 0 {
      BlocksLength(render, items[..|items| - 1]);
    }
  }

  /** Line `j` of the blocks is line `j - 6 * i` of the block of item `i`. */
  lemma {:induction false} BlocksAt<T(!new)>(render: T -> seq<string>, items: seq<T>, i: nat, j: nat)
    requires SixLines(render)
    requires i < |items| && 6 * i <= j < 6 * i + 6
    ensures j < |Blocks(render, items)| && Blocks(render, items)[j] == render(items[i])[j - 6 * i]
  {
    var n := |items| - 1;
    var init := items[..n];
    BlocksLength(render, init);
    if i < n {
      BlocksAt(render, init, i, j);
      assert init[i] == items[i];
    }
  }

  /** One more block appended after the blocks of a prefix gives the blocks of the longer prefix. */
  lemma BlocksSnoc<T>(start: seq<string>, render: T -> seq<string>, items: seq<T>, i: nat)
    requires i < |items|
    ensures start + Blocks(render, items[..i]) + render(items[i]) == start + Blocks(render, items[..i + 1])
  {
    assert items[..i + 1][..i] == items[..i];
  }

  function SkuListLines(skus: seq<SlSkuEntry>): (ls: seq<string>)
    ensures |ls| > 0 && ls[0] == "=== Nalezené SKU ==="
  {
    if |skus| == 0 then ["=== Nalezené SKU ===", "Žádné SKU nebyly nalezeny."]
    else ["=== Nalezené SKU ==="] + Blocks(SkuBlock, skus)
  }

  /**
   * No SKUs: the header and one placeholder line, with no blank line after it. Otherwise the
   * header and six lines per SKU in list order, named by its name or "(bez názvu)".
   */
  lemma SkuListShape(skus: seq<SlSkuEntry>)
    ensures var ls := SkuListLines(skus);
      && ls[0] == "=== Nalezené SKU ==="
      && (|skus| == 0 ==> ls == ["=== Nalezené SKU ===", "Žádné SKU nebyly nalezeny."])
      && (|skus| > 0 ==> |ls| == 1 + 6 * |skus|)
      && (forall i :: 0 <= i < |skus| ==>
            ls[1 + 6 * i] == "- " + skus[i].name.OrElse("(bez názvu)")
            && ls[2 + 6 * i] == "  ID: " + GuidToString(skus[i].skuId)
            && ls[6 + 6 * i] == "")
  {
    var ls := SkuListLines(skus);
    BlocksLength(SkuBlock, skus);
    forall i | 0 <= i < |skus|
      ensures ls[1 + 6 * i] == "- " + skus[i].name.OrElse("(bez názvu)")
      ensures ls[2 + 6 * i] == "  ID: " + GuidToString(skus[i].skuId)
      ensures ls[6 + 6 * i] == ""
    {
      BlocksAt(SkuBlock, skus, i, 6 * i);
      BlocksAt(SkuBlock, skus, i, 6 * i + 1);
      BlocksAt(SkuBlock, skus, i, 6 * i + 5);
    }
  }

  /** The `foreach` body. */
  method AppendSkuBlock(sb: StringBuilder, sku: SlSkuEntry)
    modifies sb
    ensures sb.lines == old(sb.lines) + SkuBlock(sku)
  {
    Lines6(sb.lines, "- " + sku.name.OrElse("(bez názvu)"), "  ID: " + GuidToString(sku.skuId),
           "  Popis: " + Interpolate(sku.description), "  Kanál: " + Interpolate(sku.channel),
           "  Částečný klíč: " + Interpolate(sku.partialProductKey), "");
    sb.AppendLine("- " + sku.name.OrElse("(bez názvu)"));
    sb.AppendLine("  ID: " + GuidToString(sku.skuId));
    sb.AppendLine("  Popis: " + Interpolate(sku.description));
    sb.AppendLine("  Kanál: " + Interpolate(sku.channel));
    sb.AppendLine("  Částečný klíč: " + Interpolate(sku.partialProductKey));
    sb.AppendLine("");
  }

  /** The `foreach` loop over the SKUs. */
  method AppendSkuBlocks(sb: StringBuilder, skus: seq<SlSkuEntry>)
    modifies sb
    ensures sb.lines == old(sb.lines) + Blocks(SkuBlock, skus)
  {
    ghost var start := sb.lines;
    for i := 0 to |skus|
      invariant sb.lines == start + Blocks(SkuBlock, skus[..i])
    {
      BlocksSnoc(start, SkuBlock, skus, i);
      AppendSkuBlock(sb, skus[i]);
    }
    assert skus[..|skus|] == skus;
  }

  /** `AppendSkuList` */
  method AppendSkuList(sb: StringBuilder, skus: seq<SlSkuEntry>)
    modifies sb
    ensures sb.lines == old(sb.lines) + SkuListLines(skus)
  {
    ghost var before := sb.lines;
    sb.AppendLine("=== Nalezené SKU ===");
    if |skus| == 0 {
      Lines2(before, "=== Nalezené SKU ===", "Žádné SKU nebyly nalezeny.");
      sb.AppendLine("Žádné SKU nebyly nalezeny.");
      return;
    }
    Appended2(before, ["=== Nalezené SKU ==="], Blocks(SkuBlock, skus));
    AppendSkuBlocks(sb, skus);
  }

  // ---- BuildReport ----

  /** The six sections of a report whose facade calls all returned, in call order. */
  function ReportLines(lib: Library, calls: FacadeCalls): seq<string>
    requires calls.system.Returned? && calls.kms.Returned? && calls.adba.Returned?
    requires calls.avma.Returned? && calls.subscription.Returned? && calls.skus.Returned?
  {
    SystemLines(lib, calls.system.value) + KmsLines(calls.kms.value) + AdbaLines(calls.adba.value)
    + AvmaLines(lib, calls.avma.value) + SubscriptionLines(calls.subscription.value)
    + SkuListLines(calls.skus.value)
  }

  /**
   * `BuildReport` on the six facade calls: the first exception, in call order, propagates;
   * otherwise the sections in the order system, KMS, ADBA, AVMA, subscription, SKUs.
   */
  function ReportOf(lib: Library, calls: FacadeCalls): Attempt<seq<string>> {
    if calls.system.Threw? then Threw(calls.system.ex)
    else if calls.kms.Threw? then Threw(calls.kms.ex)
    else if calls.adba.Threw? then Threw(calls.adba.ex)
    else if calls.avma.Threw? then Threw(calls.avma.ex)
    else if calls.subscription.Threw? then Threw(calls.subscription.ex)
    else if calls.skus.Threw? then Threw(calls.skus.ex)
    else Returned(ReportLines(lib, calls))
  }

  /**
   * The report fails exactly when a facade call throws, and then with that call's own
   * exception, unwrapped; the system call is made first, so its exception wins.
   */
  lemma ReportPropagates(lib: Library, calls: FacadeCalls)
    ensures var r := ReportOf(lib, calls);
      && (r.Threw? <==> calls.system.Threw? || calls.kms.Threw? || calls.adba.Threw? || calls.avma.Threw?
                        || calls.subscription.Threw? || calls.skus.Threw?)
      && (calls.system.Threw? ==> r == Threw(calls.system.ex))
      && (r.Threw? ==>
            || (calls.system.Threw? && r.ex == calls.system.ex)
            || (calls.kms.Threw? && r.ex == calls.kms.ex)
            || (calls.adba.Threw? && r.ex == calls.adba.ex)
            || (calls.avma.Threw? && r.ex == calls.avma.ex)
            || (calls.subscription.Threw? && r.ex == calls.subscription.ex)
            || (calls.skus.Threw? && r.ex == calls.skus.ex))
  {
  }

  /** In six blocks laid end to end, each block's first line sits right after the blocks before it. */
  lemma BlockStarts(a: seq<string>, b: seq<string>, c: seq<string>, d: seq<string>, e: seq<string>, f: seq<string>)
    requires |a| > 0 && |b| > 0 && |c| > 0 && |d| > 0 && |e| > 0 && |f| > 0
    ensures var ls := a + b + c + d + e + f;
      && |a| + |b| + |c| + |d| + |e| < |ls|
      && ls[0] == a[0] && ls[|a|] == b[0] && ls[|a| + |b|] == c[0] && ls[|a| + |b| + |c|] == d[0]
      && ls[|a| + |b| + |c| + |d|] == e[0] && ls[|a| + |b| + |c| + |d| + |e|] == f[0]
  {
  }

  /** Each section block starts with its own header, so a full report lists them in call order. */
  lemma ReportOrder(lib: Library, calls: FacadeCalls)
    requires ReportOf(lib, calls).Returned?
    ensures var ls := ReportOf(lib, calls).value;
      var k := |SystemLines(lib, calls.system.value)|;
      var a := k + |KmsLines(calls.kms.value)|;
      var v := a + |AdbaLines(calls.adba.value)|;
      var s := v + |AvmaLines(lib, calls.avma.value)|;
      var u := s + |SubscriptionLines(calls.subscription.value)|;
      && u < |ls|
      && ls[0] == "=== Informace o systému ==="
      && ls[k] == "=== KMS klient ==="
      && ls[a] == "=== ADBA ==="
      && ls[v] == "=== AVMA ==="
      && ls[s] == "=== Subscription ==="
      && ls[u] == "=== Nalezené SKU ==="
  {
    assert ReportOf(lib, calls).value == ReportLines(lib, calls);
    BlockStarts(SystemLines(lib, calls.system.value), KmsLines(calls.kms.value), AdbaLines(calls.adba.value),
                AvmaLines(lib, calls.avma.value), SubscriptionLines(calls.subscription.value),
                SkuListLines(calls.skus.value));
  }

  /** `BuildReport`: the facade is called section by section and nothing is caught. */
  method BuildReport(d: Diagnostics, lib: Library, host: Host) returns (r: Attempt<seq<string>>)
    ensures r == ReportOf(lib, Calls(d.facade, host))
  {
    var calls := Calls(d.facade, host);
    var sb := new StringBuilder();
    if calls.system.Threw? {
      return Threw(calls.system.ex);
    }
    AppendSystemInfo(sb, lib, calls.system.value);
    if calls.kms.Threw? {
      return Threw(calls.kms.ex);
    }
    AppendKms(sb, calls.kms.value);
    if calls.adba.Threw? {
      return Threw(calls.adba.ex);
    }
    AppendAdba(sb, calls.adba.value);
    if calls.avma.Threw? {
      return Threw(calls.avma.ex);
    }
    AppendAvma(sb, lib, calls.avma.value);
    if calls.subscription.Threw? {
      return Threw(calls.subscription.ex);
    }
    AppendSubscription(sb, calls.subscription.value);
    if calls.skus.Threw? {
      return Threw(calls.skus.ex);
    }
    AppendSkuList(sb, calls.skus.value);
    Appended6([], SystemLines(lib, calls.system.value), KmsLines(calls.kms.value), AdbaLines(calls.adba.value),
              AvmaLines(lib, calls.avma.value), SubscriptionLines(calls.subscription.value),
              SkuListLines(calls.skus.value));
    NothingBefore(ReportLines(lib, calls));
    r := Returned(sb.lines);
  }
}
