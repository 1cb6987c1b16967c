/**
 * `NexusClient.CaptureSnapshot`: the six `TryGet*` calls of one `NexusAPI`, each captured as
 * a snapshot section with exactly one log entry, the entries collected in a list and handed to
 * the optional log sink in the same order.
 */
module NexusClient {
  import opened Wrappers
  import opened Models
  import opened NexusApi

  /** `NexusLogLevel` */
  datatype LogLevel = Trace | Information | Warning | Error

  /** `NexusLogEntry`; the UTC timestamp is not modelled. */
  datatype LogEntry = LogEntry(level: LogLevel, scope: string, message: string, exception: Option<Exception>)

  /** `NexusSnapshotSection<T>`; `data` None stands for null. */
  datatype Section<T> = Section(name: string, data: Option<T>, errorMessage: Option<string>, isSuccess: bool)

  /** `INexusSnapshotSection`: a section without its data. */
  datatype SectionView = SectionView(name: string, errorMessage: Option<string>, isSuccess: bool)

  function View<T>(s: Section<T>): SectionView {
    SectionView(s.name, s.errorMessage, s.isSuccess)
  }

  const UnknownError := "Neznámá chyba."
  const LoadedMessage := "Načteno úspěšně."
  const UnexpectedMessage := "Neočekávaná chyba při načítání."

  /** The scopes, in the order `CaptureSnapshot` runs the sections. */
  const SectionNames: seq<string> := ["system", "kms", "adba", "avma", "subscription", "sku"]

  /**
   * `CaptureSection` as a value: the section and the one log entry it appends, for an
   * operation that returned a result or threw.
   */
  function Capture<T>(name: string, operation: Attempt<OperationResult<T>>): (c: (Section<T>, LogEntry))
    ensures c.0.name == name && c.1.scope == name
  {
    match operation
    case Returned(result) =>
      if result.IsSuccess() then
        (Section(name, result.data, None, true), LogEntry(Information, name, LoadedMessage, None))
      else
        var message := result.errorMessage.OrElse(UnknownError);
        (Section(name, None, Some(message), false), LogEntry(Warning, name, message, result.exception))
    case Threw(ex) =>
      (Section(name, None, Some(ex.Message()), false), LogEntry(Error, name, UnexpectedMessage, Some(ex)))
  }

  /**
   * The three outcomes of a capture: a success keeps the data and logs Information; a failed
   * result logs a Warning with its exception and its message, or the fallback; an exception
   * logs an Error and the section keeps the exception's message.
   */
  lemma CaptureOutcome<T>(name: string, operation: Attempt<OperationResult<T>>)
    ensures var (s, e) := Capture(name, operation);
      && (s.isSuccess <==> e.level == Information)
      && (s.isSuccess <==> operation.Returned? && operation.value.IsSuccess())
      && (s.isSuccess ==> s.data == operation.value.data && s.errorMessage.None?)
      && (!s.isSuccess ==> s.data.None? && s.errorMessage.Some?)
      && (operation.Returned? && !operation.value.IsSuccess() ==>
            e.level == Warning && e.exception == operation.value.exception
            && s.errorMessage == Some(operation.value.errorMessage.OrElse("Neznámá chyba.")))
      && (operation.Threw? ==>
            e.level == Error && e.exception == Some(operation.ex) && s.errorMessage == Some(operation.ex.Message()))
  {
  }

  /** Sections of a `TryGet*` result never take the exception path, since `TryExecute` never throws. */
  lemma CaptureResultNoError<T>(name: string, result: OperationResult<T>)
    ensures Capture(name, Returned(result)).1.level != Error
  {
  }

  /** `NexusSnapshot` */
  datatype Snapshot = Snapshot(
    system: Section<WindowsSystemData>,
    kms: Section<KmsClientInfo>,
    adba: Section<AdbaInfo>,
    avma: Section<AvmaInfo>,
    subscription: Section<SubscriptionInfo>,
    skus: Section<seq<SlSkuEntry>>,
    logs: seq<LogEntry>)
  {
    /** `Sections`, in constructor order. */
    function Sections(): (ss: seq<SectionView>)
      ensures |ss| == 6
    {
      [View(system), View(kms), View(adba), View(avma), View(subscription), View(skus)]
    }

    /** `HasErrors`: some section is not successful. */
    predicate HasErrors() {
      exists i :: 0 <= i < |Sections()| && !Sections()[i].isSuccess
    }
  }

  /** The snapshot `CaptureSnapshot` builds from the six results, captured in order. */
  function SnapshotFrom(
    system: OperationResult<WindowsSystemData>, kms: OperationResult<KmsClientInfo>,
    adba: OperationResult<AdbaInfo>, avma: OperationResult<AvmaInfo>,
    subscription: OperationResult<SubscriptionInfo>, skus: OperationResult<seq<SlSkuEntry>>): Snapshot
  {
    var (s0, l0) := Capture("system", Returned(system));
    var (s1, l1) := Capture("kms", Returned(kms));
    var (s2, l2) := Capture("adba", Returned(adba));
    var (s3, l3) := Capture("avma", Returned(avma));
    var (s4, l4) := Capture("subscription", Returned(subscription));
    var (s5, l5) := Capture("sku", Returned(skus));
    Snapshot(s0, s1, s2, s3, s4, s5, [l0, l1, l2, l3, l4, l5])
  }

  /** The snapshot `CaptureSnapshot` builds with `api` on `host`. */
  function SnapshotOf(api: NexusAPI, host: Host): Snapshot {
    SnapshotFrom(api.TryGetSystemInfo(host), api.TryGetKmsClientInfo(host), api.TryGetAdbaInfo(host),
      api.TryGetAvmaInfo(host), api.TryGetSubscriptionInfo(host), api.TryGetSkuEntries(host))
  }

  /** The log and the sections of a snapshot built from any six results line up, section by section. */
  lemma SnapshotFromLogs(
    system: OperationResult<WindowsSystemData>, kms: OperationResult<KmsClientInfo>,
    adba: OperationResult<AdbaInfo>, avma: OperationResult<AvmaInfo>,
    subscription: OperationResult<SubscriptionInfo>, skus: OperationResult<seq<SlSkuEntry>>)
    ensures var s := SnapshotFrom(system, kms, adba, avma, subscription, skus);
      && |s.logs| == |s.Sections()| == |SectionNames|
      && (forall i :: 0 <= i < |s.logs| ==> s.logs[i].scope == SectionNames[i] && s.Sections()[i].name == SectionNames[i])
      && (forall i :: 0 <= i < |s.logs| ==>
            (s.logs[i].level == Information <==> s.Sections()[i].isSuccess)
            && (s.logs[i].level == Warning <==> !s.Sections()[i].isSuccess))
  {
  }

  /**
   * Exactly one log entry per section, in the fixed order system, kms, adba, avma,
   * subscription, sku; entry i is Information when section i succeeded and a Warning otherwise.
   */
  lemma SnapshotLogs(api: NexusAPI, host: Host)
    ensures var s := SnapshotOf(api, host);
      && |s.logs| == |s.Sections()| == |SectionNames|
      && (forall i :: 0 <= i < |s.logs| ==> s.logs[i].scope == SectionNames[i] && s.Sections()[i].name == SectionNames[i])
      && (forall i :: 0 <= i < |s.logs| ==>
            (s.logs[i].level == Information <==> s.Sections()[i].isSuccess)
            && (s.logs[i].level == Warning <==> !s.Sections()[i].isSuccess))
  {
    SnapshotFromLogs(api.TryGetSystemInfo(host), api.TryGetKmsClientInfo(host), api.TryGetAdbaInfo(host),
      api.TryGetAvmaInfo(host), api.TryGetSubscriptionInfo(host), api.TryGetSkuEntries(host));
  }

  /** A snapshot has errors exactly when its log holds a Warning. */
  lemma HasErrorsIffWarning(api: NexusAPI, host: Host)
    ensures var s := SnapshotOf(api, host);
      s.HasErrors() <==> exists i :: 0 <= i < |s.logs| && s.logs[i].level == Warning
  {
    var s := SnapshotOf(api, host);
    SnapshotLogs(api, host);
    if s.HasErrors() {
      var i :| 0 <= i < |s.Sections()| && !s.Sections()[i].isSuccess;
      assert s.logs[i].level == Warning;
    }
    if exists i :: 0 <= i < |s.logs| && s.logs[i].level == Warning {
      var i :| 0 <= i < |s.logs| && s.logs[i].level == Warning;
      assert !s.Sections()[i].isSuccess;
    }
  }

  /** With the sample facade every section succeeds. */
  lemma SampleSnapshotClean(host: Host)
    ensures !SnapshotOf(NexusAPI(SampleFacade), host).HasErrors()
  {
    var s := SnapshotOf(NexusAPI(SampleFacade), host);
    SampleFacadeAnswers(host);
    assert forall i :: 0 <= i < |s.Sections()| ==> s.Sections()[i].isSuccess;
  }

  /** A `List<NexusLogEntry>`, appended with `Add`. */
  class LogList {
    var entries: seq<LogEntry>

    constructor ()
      ensures entries == []
    {
      entries := [];
    }

    method Add(e: LogEntry)
      modifies this
      ensures entries == old(entries) + [e]
    {
      entries := entries + [e];
    }
  }

  /** `NexusClient`: the API, whether a log sink is configured, and what the sink has been given. */
  class Client {
    const api: NexusAPI
    const hasSink: bool
    /** Every entry passed to `LogSink`, in order. */
    ghost var sunk: seq<LogEntry>

    constructor (api: NexusAPI, hasSink: bool)
      ensures this.api == api && this.hasSink == hasSink && sunk == []
    {
      this.api := api;
      this.hasSink := hasSink;
      sunk := [];
    }

    /**
     * `NexusClient.Create`: the API for the facade, or the platform's default, and the sink
     * the `configure` callback set, if any.
     */
    static method Create(facade: Option<Facade>, p: Platform, hasSink: bool) returns (c: Client)
      ensures fresh(c) && c.api == NewNexusAPI(facade, p) && c.hasSink == hasSink && c.sunk == []
    {
      c := new Client(NewNexusAPI(facade, p), hasSink);
    }

    /** `AppendLog`: the list gets the entry, and so does the sink when there is one. */
    method AppendLog(entry: LogEntry, logs: LogList)
      modifies this, logs
      ensures logs.entries == old(logs.entries) + [entry]
      ensures sunk == old(sunk) + (if hasSink then [entry] else [])
    {
      logs.Add(entry);
      if hasSink {
        sunk := sunk + [entry];
      }
    }

    /** `CaptureSection` */
    method CaptureSection<T>(name: string, operation: Attempt<OperationResult<T>>, logs: LogList)
      returns (section: Section<T>)
      modifies this, logs
      ensures section == Capture(name, operation).0
      ensures logs.entries == old(logs.entries) + [Capture(name, operation).1]
      ensures sunk == old(sunk) + (if hasSink then [Capture(name, operation).1] else [])
    {
      match operation {
        case Returned(result) =>
          if result.IsSuccess() {
            var entry := LogEntry(Information, name, LoadedMessage, None);
            AppendLog(entry, logs);
            return Section(name, result.data, None, true);
          }
          var errorEntry := LogEntry(Warning, name, result.errorMessage.OrElse(UnknownError), result.exception);
          AppendLog(errorEntry, logs);
          return Section(name, None, Some(result.errorMessage.OrElse(UnknownError)), false);
        case Threw(ex) =>
          var entry := LogEntry(Error, name, UnexpectedMessage, Some(ex));
          AppendLog(entry, logs);
          return Section(name, None, Some(ex.Message()), false);
      }
    }

    /** The six captures of `CaptureSnapshot`, in order, into a fresh list. */
    method CaptureAll(
      system: OperationResult<WindowsSystemData>, kms: OperationResult<KmsClientInfo>,
      adba: OperationResult<AdbaInfo>, avma: OperationResult<AvmaInfo>,
      subscription: OperationResult<SubscriptionInfo>, skus: OperationResult<seq<SlSkuEntry>>)
      returns (s: Snapshot)
      modifies this
      ensures s == SnapshotFrom(system, kms, adba, avma, subscription, skus)
      ensures sunk == old(sunk) + (if hasSink then s.logs else [])
    {
      var logs := new LogList();
      var s0 := CaptureSection("system", Returned(system), logs);
      var s1 := CaptureSection("kms", Returned(kms), logs);
      var s2 := CaptureSection("adba", Returned(adba), logs);
      var s3 := CaptureSection("avma", Returned(avma), logs);
      var s4 := CaptureSection("subscription", Returned(subscription), logs);
      var s5 := CaptureSection("sku", Returned(skus), logs);
      s := Snapshot(s0, s1, s2, s3, s4, s5, logs.entries);
    }

    /** `CaptureSnapshot`: the sink receives the snapshot's log, entry for entry. */
    method CaptureSnapshot(host: Host) returns (s: Snapshot)
      modifies this
      ensures s == SnapshotOf(api, host)
      ensures sunk == old(sunk) + (if hasSink then s.logs else [])
    {
      s := CaptureAll(api.TryGetSystemInfo(host), api.TryGetKmsClientInfo(host), api.TryGetAdbaInfo(host),
        api.TryGetAvmaInfo(host), api.TryGetSubscriptionInfo(host), api.TryGetSkuEntries(host));
    }
  }
}
