/**
 * `NexusAPI` and `NexusOperationResult<T>`: every facade call either passes its value through
 * or has its exception wrapped, as a thrown `NexusApiException` (`Get*`) or as a failed result
 * that never throws (`TryGet*`).
 */
module NexusApi {
  import opened Wrappers
  import opened Enums
  import opened Models

  /** What the six calls of an `IWindowsInfoFacade` give: a value or an exception each. */
  datatype FacadeCalls = FacadeCalls(
    system: Attempt<WindowsSystemData>,
    kms: Attempt<Option<KmsClientInfo>>,
    adba: Attempt<Option<AdbaInfo>>,
    avma: Attempt<Option<AvmaInfo>>,
    subscription: Attempt<SubscriptionInfo>,
    skus: Attempt<seq<SlSkuEntry>>)

  /** `RuntimeInformation` and `OperatingSystem.IsWindows()` of the running process. */
  datatype Platform = Platform(isWindows: bool, osDescription: string, osArchitecture: string)

  /**
   * The world outside the library: what `WindowsInfoFacade`'s calls give on this machine (the
   * readers behind it are modelled in their own modules), and the platform.
   */
  datatype Host = Host(windows: FacadeCalls, platform: Platform)

  /** The facade an API instance holds. */
  datatype Facade =
    | WindowsInfoFacade
    | SampleFacade
    | CustomFacade(calls: FacadeCalls)   // a caller-supplied implementation

  // ---- SampleFacade ----

  const SampleStatusMessage := "Aktivační údaje jsou dostupné pouze na Windows."

  /** `SampleFacade.GetSystem` */
  function SampleSystem(p: Platform): WindowsSystemData {
    WindowsSystemData(
      "N/A", p.osDescription, p.osArchitecture,
      ActivationInfo(Unknown, Some(SampleStatusMessage), Offline, None, None, Some("N/A"), None, None, None, None),
      ProductInfo(0, "Neznámý systém", "N/A"))
  }

  /** The constant answers of `SampleFacade`: nothing here throws. */
  function SampleCalls(p: Platform): FacadeCalls {
    FacadeCalls(
      Returned(SampleSystem(p)), Returned(None), Returned(None), Returned(None),
      Returned(SubscriptionInfo(false, false, None, None)), Returned([]))
  }

  /** What a facade's calls give on a host. */
  function Calls(f: Facade, host: Host): FacadeCalls {
    match f
    case WindowsInfoFacade => host.windows
    case SampleFacade => SampleCalls(host.platform)
    case CustomFacade(calls) => calls
  }

  /** `CreateDefaultFacade` */
  function CreateDefaultFacade(p: Platform): Facade {
    if p.isWindows then WindowsInfoFacade else SampleFacade
  }

  // ---- NexusOperationResult<T> ----

  /** `NexusOperationResult<T>`; `data` None stands for null (a failure's `default`). */
  datatype OperationResult<T> = OperationResult(data: Option<T>, errorMessage: Option<string>, exception: Option<Exception>) {
    /** `IsSuccess` */
    predicate IsSuccess() {
      exception.None?
    }
  }

  /** `NexusOperationResult<T>.Success(data)`; a reference-typed value may itself be null. */
  function Success<T>(data: Option<T>): OperationResult<T> {
    OperationResult(data, None, None)
  }

  /** `NexusOperationResult<T>.Failure(errorMessage, exception)` */
  function Failure<T>(errorMessage: string, exception: Exception): OperationResult<T> {
    OperationResult(None, Some(errorMessage), Some(exception))
  }

  /** The two factories are the only way to build a result, and between them they keep this. */
  predicate WellFormed<T>(r: OperationResult<T>) {
    (r.IsSuccess() <==> r.errorMessage.None?) && (!r.IsSuccess() ==> r.data.None?)
  }

  lemma FactoriesWellFormed<T>(data: Option<T>, errorMessage: string, exception: Exception)
    ensures WellFormed(Success(data)) && Success(data).IsSuccess() && Success(data).data == data
    ensures WellFormed(Failure<T>(errorMessage, exception)) && !Failure<T>(errorMessage, exception).IsSuccess()
  {
  }

  // ---- Execute / TryExecute ----

  /** `Execute`: the action's value, or a `NexusApiException(context, ex)` thrown in its place. */
  function Execute<T>(action: Attempt<T>, context: string): (r: Attempt<T>)
    ensures action.Returned? ==> r == action
    ensures action.Threw? ==> r == Threw(NexusApiError(context, action.ex))
  {
    match action
    case Returned(v) => Returned(v)
    case Threw(ex) => Threw(NexusApiError(context, ex))
  }

  /** `TryExecute`: never throws, as its result type says. */
  function TryExecute<T>(action: Attempt<Option<T>>, context: string): (r: OperationResult<T>)
    ensures WellFormed(r)
  {
    match action
    case Returned(v) => Success(v)
    case Threw(ex) => Failure(context, ex)
  }

  /**
   * The action succeeds exactly when the result does; a success carries the value, a failure
   * the context as its message, the original exception, and no data.
   */
  lemma TryExecuteOutcome<T>(action: Attempt<Option<T>>, context: string)
    ensures TryExecute(action, context).IsSuccess() <==> action.Returned?
    ensures action.Returned? ==> TryExecute(action, context).data == action.value
    ensures action.Threw? ==>
      TryExecute(action, context) == OperationResult(None, Some(context), Some(action.ex))
  {
  }

  /**
   * `Execute` and `TryExecute` agree: the one returns v exactly when the other succeeds with v,
   * and the one throws an exception whose message is the context and whose inner exception is
   * exactly what the other reports.
   */
  lemma ExecuteAgreesWithTryExecute<T>(action: Attempt<Option<T>>, context: string)
    ensures var e, t := Execute(action, context), TryExecute(action, context);
      && (e.Returned? <==> t.IsSuccess())
      && (e.Returned? ==> t.data == e.value)
      && (e.Threw? ==> e.ex.Message() == context && Some(e.ex.inner) == t.exception && t.errorMessage == Some(context))
  {
  }

  function NonNull<T>(a: Attempt<T>): Attempt<Option<T>> {
    match a
    case Returned(v) => Returned(Some(v))
    case Threw(ex) => Threw(ex)
  }

  // ---- NexusAPI ----

  const SystemContext := "Nepodařilo se načíst informace o systému."
  const KmsContext := "Nepodařilo se načíst informace o KMS klientovi."
  const AdbaContext := "Nepodařilo se načíst informace o ADBA."
  const AvmaContext := "Nepodařilo se načíst informace o AVMA."
  const SubscriptionContext := "Nepodařilo se načíst informace o předplatném."
  const SkuContext := "Nepodařilo se načíst seznam SKU."

  /** `NexusAPI`: its only state is the read-only facade. */
  datatype NexusAPI = NexusAPI(facade: Facade) {
    function GetSystemInfo(host: Host): Attempt<WindowsSystemData> {
      Execute(Calls(facade, host).system, SystemContext)
    }
    function TryGetSystemInfo(host: Host): OperationResult<WindowsSystemData> {
      TryExecute(NonNull(Calls(facade, host).system), SystemContext)
    }
    function GetKmsClientInfo(host: Host): Attempt<Option<KmsClientInfo>> {
      Execute(Calls(facade, host).kms, KmsContext)
    }
    function TryGetKmsClientInfo(host: Host): OperationResult<KmsClientInfo> {
      TryExecute(Calls(facade, host).kms, KmsContext)
    }
    function GetAdbaInfo(host: Host): Attempt<Option<AdbaInfo>> {
      Execute(Calls(facade, host).adba, AdbaContext)
    }
    function TryGetAdbaInfo(host: Host): OperationResult<AdbaInfo> {
      TryExecute(Calls(facade, host).adba, AdbaContext)
    }
    function GetAvmaInfo(host: Host): Attempt<Option<AvmaInfo>> {
      Execute(Calls(facade, host).avma, AvmaContext)
    }
    function TryGetAvmaInfo(host: Host): OperationResult<AvmaInfo> {
      TryExecute(Calls(facade, host).avma, AvmaContext)
    }
    function GetSubscriptionInfo(host: Host): Attempt<SubscriptionInfo> {
      Execute(Calls(facade, host).subscription, SubscriptionContext)
    }
    function TryGetSubscriptionInfo(host: Host): OperationResult<SubscriptionInfo> {
      TryExecute(NonNull(Calls(facade, host).subscription), SubscriptionContext)
    }
    function GetSkuEntries(host: Host): Attempt<seq<SlSkuEntry>> {
      Execute(Calls(facade, host).skus, SkuContext)
    }
    function TryGetSkuEntries(host: Host): OperationResult<seq<SlSkuEntry>> {
      TryExecute(NonNull(Calls(facade, host).skus), SkuContext)
    }
  }

  /** `new NexusAPI(facade)`: a null facade is replaced by the platform's default. */
  function NewNexusAPI(facade: Option<Facade>, p: Platform): NexusAPI {
    NexusAPI(facade.OrElse(CreateDefaultFacade(p)))
  }

  /** A given facade is kept; without one, Windows gets the native facade and anything else the sample. */
  lemma FacadeSelection(facade: Option<Facade>, p: Platform)
    ensures facade.Some? ==> NewNexusAPI(facade, p).facade == facade.value
    ensures facade.None? && p.isWindows ==> NewNexusAPI(facade, p).facade == WindowsInfoFacade
    ensures facade.None? && !p.isWindows ==> NewNexusAPI(facade, p).facade == SampleFacade
  {
  }

  /** Each failing `TryGet*` reports its own fixed context message. */
  lemma TryGetContexts(api: NexusAPI, host: Host)
    ensures Calls(api.facade, host).system.Threw? ==> api.TryGetSystemInfo(host).errorMessage == Some(SystemContext)
    ensures Calls(api.facade, host).kms.Threw? ==>
      api.TryGetKmsClientInfo(host).errorMessage == Some("Nepodařilo se načíst informace o KMS klientovi.")
    ensures Calls(api.facade, host).adba.Threw? ==> api.TryGetAdbaInfo(host).errorMessage == Some(AdbaContext)
    ensures Calls(api.facade, host).avma.Threw? ==> api.TryGetAvmaInfo(host).errorMessage == Some(AvmaContext)
    ensures Calls(api.facade, host).subscription.Threw? ==>
      api.TryGetSubscriptionInfo(host).errorMessage == Some(SubscriptionContext)
    ensures Calls(api.facade, host).skus.Threw? ==> api.TryGetSkuEntries(host).errorMessage == Some(SkuContext)
  {
  }

  /**
   * The sample facade: an Unknown, Offline activation, no KMS, ADBA or AVMA record, no
   * subscription support and no SKUs, and every `TryGet*` succeeds.
   */
  lemma SampleFacadeAnswers(host: Host)
    ensures var api := NexusAPI(SampleFacade);
      && api.GetSystemInfo(host).Returned?
      && api.GetSystemInfo(host).value.activation.status == Unknown
      && api.GetSystemInfo(host).value.activation.genuine == Offline
      && api.GetKmsClientInfo(host) == Returned(None)
      && api.GetAdbaInfo(host) == Returned(None)
      && api.GetAvmaInfo(host) == Returned(None)
      && api.GetSubscriptionInfo(host).Returned? && !api.GetSubscriptionInfo(host).value.supported
      && api.GetSkuEntries(host) == Returned([])
      && api.TryGetSystemInfo(host).IsSuccess() && api.TryGetKmsClientInfo(host).IsSuccess()
      && api.TryGetAdbaInfo(host).IsSuccess() && api.TryGetAvmaInfo(host).IsSuccess()
      && api.TryGetSubscriptionInfo(host).IsSuccess() && api.TryGetSkuEntries(host).IsSuccess()
  {
  }
}
