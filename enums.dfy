/** The enumerations of `Nexus.Core.Enums`, with their underlying values and `ToString` names. */
module Enums {

  /** `LicensingStatus` (Unlicensed = 0 … Unknown = 4). */
  datatype LicensingStatus = Unlicensed | Licensed | InGracePeriod | Notification | Unknown {

    /** The underlying integer value of the C# enum member. */
    function Value(): (v: nat)
      ensures v <= 4
    {
      match this
      case Unlicensed => 0
      case Licensed => 1
      case InGracePeriod => 2
      case Notification => 3
      case Unknown => 4
    }

    /** `Enum.ToString()` */
    function Name(): string {
      match this
      case Unlicensed => "Unlicensed"
      case Licensed => "Licensed"
      case InGracePeriod => "InGracePeriod"
      case Notification => "Notification"
      case Unknown => "Unknown"
    }
  }

  /** `GenuineState` (Genuine = 0 … Last = 4). */
  datatype GenuineState = Genuine | InvalidLicense | Tampered | Offline | Last {

    /** The underlying integer value of the C# enum member. */
    function Value(): (v: nat)
      ensures v <= 4
    {
      match this
      case Genuine => 0
      case InvalidLicense => 1
      case Tampered => 2
      case Offline => 3
      case Last => 4
    }

    /** `Enum.ToString()` */
    function Name(): string {
      match this
      case Genuine => "Genuine"
      case InvalidLicense => "InvalidLicense"
      case Tampered => "Tampered"
      case Offline => "Offline"
      case Last => "Last"
    }
  }

  /** The cast `(GenuineState)v` of a defined value. */
  function GenuineStateOf(v: nat): (g: GenuineState)
    requires v <= 4
    ensures g.Value() == v
  {
    if v == 0 then Genuine
    else if v == 1 then InvalidLicense
    else if v == 2 then Tampered
    else if v == 3 then Offline
    else Last
  }

  /** The default value of a `GenuineState` field: the member whose value is 0. */
  const DefaultGenuine: GenuineState := Genuine
}
