/**
 * The records of `Nexus.Core.Models`. A C# `init`-only class whose properties are never
 * changed after construction is a value here; a nullable property is an `Option`.
 */
module Models {
  import opened Wrappers
  import opened Enums
  import opened Guids

  /**
   * A `DateTimeOffset` produced by `DateTimeOffset.FromFileTime`: the model keeps the FILETIME
   * tick count it was made from (100 ns units since 1601-01-01 UTC); the local-time conversion
   * and its formatting belong to the host library.
   */
  datatype Timestamp = FromFileTime(fileTime: int)

  /**
   * `ActivationInfo`. `vlActivationType` holds the raw value of a defined
   * `VolumeActivationType` member (that enum is not part of this model).
   */
  datatype ActivationInfo = ActivationInfo(
    status: LicensingStatus,
    statusMessage: Option<string>,
    genuine: GenuineState,
    graceMinutesRemaining: Option<int>,
    evaluationEndUtc: Option<Timestamp>,
    channel: Option<string>,
    partialProductKey: Option<string>,
    vlActivationType: Option<int>,
    extendedPid: Option<string>,
    productId: Option<string>)

  /**
   * `new ActivationInfo { Status = status }`: every other property keeps its default, which for
   * `Genuine` is the enum member with value 0.
   */
  function DefaultActivationInfo(status: LicensingStatus): ActivationInfo {
    ActivationInfo(status, None, DefaultGenuine, None, None, None, None, None, None, None)
  }

  /** `ProductInfo` */
  datatype ProductInfo = ProductInfo(productTypeCode: nat, productTypeName: string, release: string)

  /** `WindowsSystemData` */
  datatype WindowsSystemData = WindowsSystemData(
    edition: string,
    version: string,
    architecture: string,
    activation: ActivationInfo,
    product: ProductInfo)

  /** `PKeyInfo` */
  datatype PKeyInfo = PKeyInfo(partialProductKey: Option<string>, channel: Option<string>, digitalPid: Option<string>)

  /** `KmsClientInfo` */
  datatype KmsClientInfo = KmsClientInfo(
    clientMachineId: Option<string>,
    registeredKmsName: Option<string>,
    registeredKmsPort: Option<int>,
    discoveredKmsName: Option<string>,
    discoveredKmsPort: Option<int>,
    discoveredKmsIp: Option<string>,
    activationIntervalMinutes: Option<int>,
    renewalIntervalMinutes: Option<int>,
    lookupDomain: Option<string>,
    hostCachingEnabled: Option<bool>)

  /** `AdbaInfo` */
  datatype AdbaInfo = AdbaInfo(
    objectName: Option<string>,
    objectDn: Option<string>,
    csvlkPid: Option<string>,
    csvlkSkuId: Option<string>)

  /** `AvmaInfo` */
  datatype AvmaInfo = AvmaInfo(
    hostMachineName: Option<string>,
    hostDigitalPid2: Option<string>,
    inheritedActivationId: Option<string>,
    activationTime: Option<Timestamp>)

  /** `SlSkuEntry` */
  datatype SlSkuEntry = SlSkuEntry(
    skuId: Guid,
    name: Option<string>,
    description: Option<string>,
    channel: Option<string>,
    partialProductKey: Option<string>)

  /** `SubscriptionInfo` (a C# record; `sku` and `state` are `uint?`). */
  datatype SubscriptionInfo = SubscriptionInfo(supported: bool, enabled: bool, sku: Option<nat>, state: Option<nat>)
}
