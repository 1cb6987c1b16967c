# Nexus licensing-state aggregation, modelled in Dafny

Nexus is a .NET library that reads the Windows licensing state through the native Software
Licensing API (`sppc.dll`). It reads:

- the activation status of the Windows SKU it selects, the genuine state, and the product key;
- the product type and release;
- the KMS client settings;
- the ADBA and AVMA records;
- the subscription status;
- the list of every SKU.

It gathers them behind one facade, `NexusAPI`, which has a throwing `Get*` call and a
non-throwing `TryGet*` call for each value. `NexusClient` captures a whole snapshot of the six
`TryGet*` results, logs one entry per section, and forwards the log to an optional sink.
`NexusSnapshotPresenter` turns the snapshot into titled label/value sections and console text.
`NexusDiagnostics` writes the same data as a single text report.

The model follows the shape of the code:

- **The native API is an input value.** What the licensing service answers is the value `SlApi.Env`. The unmanaged memory and the open SL sessions are a class, `SlApi.Allocator`. Each native query is a method that allocates a block exactly when the service hands back a non-null pointer.
- **The readers are methods.** `WindowsSystemReader`, `KmsClientReader`, `AdvancedActivationReader` and `SkuReader` are methods over that allocator. They keep the source's loops, early returns and `finally` releases.
- **Each reader is proved against two functions.** One function gives what the call returns. The other gives how many native blocks it leaves unreleased; it is `LeavesOutstanding`, which counts blocks the reader allocated and did not free. A separate lemma shows both leak functions are zero when every failing native call returns a null pointer (`NativeContract.NullOnFailure`).
- **Byte-level reads are modelled exactly.** `Marshal.ReadInt32` and `Marshal.ReadInt64` are little-endian two's-complement reads with proved inverses. `SL_LICENSING_STATUS` records and GUID arrays are decoded at their fixed offsets.
- **Records are datatypes.** Records the source never changes after building are datatypes. `SafeSlcHandle`, `StringBuilder`, the client's log list and `NexusClient` are classes with `modifies` clauses.
- **Text output is a list of lines.** The text builders append whole lines, so their output is the sequence of lines written.

## Model

| member | source | states |
|---|---|---|
| Enums.LicensingStatus.Value | Nexus/Core/Enums/LicensingStatus.cs:7-14 | the underlying values of the five statuses lie in 0..4 |
| Enums.GenuineState.Value | Nexus/Core/Enums/GenuineState.cs:7-14 | the underlying values of the five genuine states lie in 0..4 |
| Enums.GenuineStateOf | Nexus/Core/Services/WindowsSystemReader.cs:186 | the cast `(GenuineState)v` of a defined value is the member whose value is v |
| Marshal.ReadInt32 | Nexus/Core/Services/WindowsSystemReader.cs:172-174 | a 4-byte read at an offset is a signed 32-bit value |
| Marshal.ReadInt64 | Nexus/Core/Services/WindowsSystemReader.cs:175 | an 8-byte read at an offset is a signed 64-bit value |
| Marshal.ReadInt32OfInt32Bytes | Nexus/Core/Services/WindowsSystemReader.cs:172-174 | reading back an int32 written at any offset gives the value written |
| Marshal.ReadInt64OfInt64Bytes | Nexus/Core/Services/WindowsSystemReader.cs:175 | reading back an int64 written at any offset gives the value written |
| Marshal.Int32BytesOfReadInt32 | Nexus/Core/Services/WindowsSystemReader.cs:172-174 | writing back what an int32 read gave reproduces the four bytes |
| Marshal.Int64BytesOfReadInt64 | Nexus/Core/Services/WindowsSystemReader.cs:175 | writing back what an int64 read gave reproduces the eight bytes |
| Marshal.LeUnsignedOfLeBytes | Nexus/Core/Services/WindowsSystemReader.cs:172-175 | little-endian decoding inverts encoding for every value that fits |
| Marshal.LeBytesOfLeUnsigned | Nexus/Core/Services/WindowsSystemReader.cs:172-175 | little-endian encoding inverts decoding for every byte string |
| Marshal.SignedOfUnsigned | Nexus/Core/Services/WindowsSystemReader.cs:172-175 | the two's-complement reading undoes the bit pattern of every in-range value |
| Guids.GuidArray | Nexus/Core/Services/SkuReader.cs:22-24 | an id list of n GUIDs occupies 16·n bytes |
| Guids.GuidAtGuidArray | Nexus/Core/Services/SkuReader.cs:30 | `PtrToStructure<Guid>(ids + i * 16)` is the i-th GUID of the list |
| Text.HexX8 | Nexus/Core/Services/WindowsSystemReader.cs:210 | `{reason:X8}` has exactly eight digits |
| Text.ParseHexX8 | Nexus/Core/Services/WindowsSystemReader.cs:210 | the eight X8 digits read back as the reason's 32-bit pattern |
| Text.ParseHexUpper | Nexus/Core/Services/WindowsSystemReader.cs:210 | k upper-case hex digits read back as the value they print |
| Text.GuidToString | Nexus/NexusDiagnostics.cs:186 | the "D" form of a GUID has 36 characters |
| Text.NatToString | Nexus/NexusDiagnostics.cs:106-125 | a decimal rendering is a non-empty digit string without leading zeros |
| Text.ParseNatToString | Nexus/NexusDiagnostics.cs:106-125 | the decimal rendering reads back as the number |
| Text.IntToStringInjective | Nexus/NexusDiagnostics.cs:106-125 | distinct integers render as distinct text |
| WellKnown.WindowsAppIdText | Nexus/Core/Constants/WellKnown.cs:10 | the in-memory application id prints as the literal `new Guid(WellKnown.WindowsAppId)` parses |
| ProductTypeMap.ValueInjective | Nexus/Core/Enums/ProductType.cs:9-22 | distinct product types have distinct codes |
| ProductTypeMap.BuildDictionaryCorrect | Nexus/Core/Constants/ProductTypeMap.cs:10-25 | a collection initializer succeeds exactly when no key repeats, and then builds the entries' map |
| ProductTypeMap.MapOfDistinct | Nexus/Core/Constants/ProductTypeMap.cs:10-25 | without repeated keys there is one key per entry, each mapped to its own value |
| ProductTypeMap.NamesTable | Nexus/Core/Constants/ProductTypeMap.cs:10-25 | `Names` builds without throwing: 13 entries, keyed by every product type except Undefined, each with its entry's name |
| SlApi.Allocator.constructor | Nexus/Core/Services/WindowsSystemReader.cs:69-75 | an empty heap with no sessions open |
| SlApi.Allocator.Allocate | Nexus/Core/Services/WindowsSystemReader.cs:161 | a fresh block holding the result, with nothing else changed |
| SlApi.Allocator.Release | Nexus/Core/Services/WindowsSystemReader.cs:286-291 | exactly that block is released |
| SlApi.Allocator.OpenSession | Nexus/Core/Interop/Slapi.cs:10-11 | one more session with that handle |
| SlApi.Allocator.CloseSession | Nexus/Core/Interop/Slapi.cs:13-14 | one session with that handle fewer |
| SlApi.SLOpen | Nexus/Core/Interop/Slapi.cs:10-11 | returns the service's HRESULT and handle, and opens a session exactly when both are usable |
| SlApi.SLClose | Nexus/Core/Interop/Slapi.cs:13-14 | closes one session with the handle and returns the service's HRESULT |
| SlApi.SLGetSLIDList | Nexus/Core/Interop/Slapi.cs:16-23 | the HRESULT and count; a fresh block with the GUID array exactly when the pointer is non-null |
| SlApi.SLGetLicensingStatusInformation | Nexus/Core/Interop/Slapi.cs:25-32 | the HRESULT and record count; a fresh block with the records exactly when the pointer is non-null |
| SlApi.SLGetInformation | Nexus/Core/Interop/Slapi.cs:34-61 | HRESULT, type tag and size of a SKU, product-key or service value; a fresh block exactly when the pointer is non-null |
| SlApi.EncodeStatusRecord | Nexus/Core/Services/WindowsSystemReader.cs:172-175 | a status record has 40 bytes |
| SlApi.DecodeStatusRecord | Nexus/Core/Services/WindowsSystemReader.cs:172-175 | every field read from the record is in its type's range |
| SlApi.DecodeEncodeStatusRecord | Nexus/Core/Services/WindowsSystemReader.cs:172-175 | the offsets 16, 20, 24, 28 and 32 agree with the layout: decoding an encoded record gives it back |
| SlApi.EncodeDecodeStatusRecord | Nexus/Core/Services/WindowsSystemReader.cs:172-175 | re-encoding the decoded record reproduces the buffer's first 40 bytes |
| SlApiBuffer.TryFree | Nexus/Core/Services/WindowsSystemReader.cs:286-291 | a null pointer is left alone; any other block is released |
| SlApiBuffer.ReadAndFreeUniString | Nexus/Core/Services/WindowsSystemReader.cs:279-284 | null for a null pointer; otherwise the string, with the block released |
| SlStatus.StatusLeak | Nexus/Core/Services/WindowsSystemReader.cs:161-162 | a status read leaks one block exactly when its pointer is non-null and the guard rejects it |
| SlStatus.RawStatus | Nexus/Core/Services/WindowsSystemReader.cs:146 | `ReadInt32(pStatus, 16)` is the status field of the first record |
| SlStatus.IdListLeak | Nexus/Core/Services/KmsClientReader.cs:66-67 | an id list leaks exactly when it is non-null and fails the guard |
| SlStatus.StatusLeaksBounds | Nexus/Core/Services/KmsClientReader.cs:74-93 | a scan leaks at most one block per candidate, and none exactly when no candidate's read leaks |
| SlValues.ReadLeak | Nexus/Core/Services/WindowsSystemReader.cs:239-268 | a typed read leaks one block exactly when its pointer is non-null and the guard rejects it |
| SlValues.TypedReadShape | Nexus/Core/Services/WindowsSystemReader.cs:239-268 | a read gives a value exactly when HRESULT, size, tag and pointer pass; DWORD and int64 values are in range |
| SlValues.TagsExclusive | Nexus/Core/Services/KmsClientReader.cs:113-142 | one value never reads as both a string and a DWORD, nor as both a DWORD and an int64 |
| SlValues.ReadString | Nexus/Core/Services/WindowsSystemReader.cs:239-253 | the string read, proved against `StringValue`, with its leak |
| SlValues.ReadDword | Nexus/Core/Services/WindowsSystemReader.cs:255-262 | the DWORD read, proved against `DwordValue`, with its leak |
| SlValues.ReadInt64Value | Nexus/Core/Services/AdvancedActivationReader.cs:69-76 | the int64 read, proved against `Int64Value`, with its leak |
| NativeContract.NoStatusLeak | Nexus/Core/Services/WindowsSystemReader.cs:138-154 | if failing calls return null, a status read leaks nothing |
| NativeContract.NoValueLeak | Nexus/Core/Services/WindowsSystemReader.cs:239-268 | if failing calls return null, a value read with its name's type leaks nothing |
| NativeContract.NoStatusLeaks | Nexus/Core/Services/KmsClientReader.cs:74-93 | if failing calls return null, any number of status reads leak nothing |
| SafeSlcHandles.SafeSlcHandle.constructor | Nexus/Core/Interop/SafeSlcHandle.cs:11 | a zero, invalid, unreleased handle |
| SafeSlcHandles.SafeSlcHandle.SetHandle | Nexus/Core/Interop/SafeSlcHandle.cs:15-22 | stores the handle |
| SafeSlcHandles.SafeSlcHandle.ReleaseHandle | Nexus/Core/Interop/SafeSlcHandle.cs:13 | closes the session; succeeds exactly when `SLClose` returns 0 |
| SafeSlcHandles.SafeSlcHandle.Dispose | Nexus/Core/Interop/SafeSlcHandle.cs:12-13 | the session is closed exactly once, and only for a valid handle |
| SafeSlcHandles.SafeSlcHandle.Create | Nexus/Core/Interop/SafeSlcHandle.cs:15-22 | invalid exactly when `SLOpen` fails or returns 0; otherwise holds the opened session's handle |
| WindowsSystemReader.NormalizeStatusPreimages | Nexus/Core/Services/WindowsSystemReader.cs:224-237 | which raw words map to each status: 0, 1, {2,4}, {3,5}, and everything else to Unknown |
| WindowsSystemReader.IsLicensedMeans | Nexus/Core/Services/WindowsSystemReader.cs:94-95 | a SKU counts as Licensed exactly when its status is readable and its raw word is 1 |
| WindowsSystemReader.FirstLicensed | Nexus/Core/Services/WindowsSystemReader.cs:86-103 | the first Licensed position: none before it, and it is Licensed when in range |
| WindowsSystemReader.FirstLicensedUnique | Nexus/Core/Services/WindowsSystemReader.cs:86-103 | those two properties determine the position |
| WindowsSystemReader.ScanStep | Nexus/Core/Services/WindowsSystemReader.cs:88-102 | one loop step either stops at the first Licensed SKU or moves the bound past it |
| WindowsSystemReader.WindowsExamined | Nexus/Core/Services/WindowsSystemReader.cs:86-103 | the scan reads at most one status per id |
| WindowsSystemReader.PickWindowsSkuSpec | Nexus/Core/Services/WindowsSystemReader.cs:86-109 | the choice is the first Licensed SKU if there is one, and otherwise the first SKU listed |
| WindowsSystemReader.GenuineOf | Nexus/Core/Services/WindowsSystemReader.cs:183-186 | the raw genuine state when the call succeeded with a defined value; otherwise Last |
| WindowsSystemReader.FullActivationInfoRecord | Nexus/Core/Services/WindowsSystemReader.cs:156-221 | record fields from the status buffer; "0x" plus X8 message when the reason is non-zero; grace and evaluation end only when positive; Unknown on failure |
| WindowsSystemReader.FullActivationInfoPKey | Nexus/Core/Services/WindowsSystemReader.cs:190-205 | ExtendedPid and ProductId only when the key id parsed; Channel and key fall back to the product key only when the SKU gave none |
| WindowsSystemReader.ActivationInfoUnknown | Nexus/Core/Services/WindowsSystemReader.cs:69-119 | no session or no readable id list gives the Unknown record with every optional field absent |
| WindowsSystemReader.SessionsBalanced | Nexus/Core/Services/WindowsSystemReader.cs:114-117 | a session that opened is closed in the `finally` |
| WindowsSystemReader.SessionsUntouched | Nexus/Core/Services/WindowsSystemReader.cs:114-117 | closing the handle of a failed open leaves the sessions unchanged when no live session holds that handle |
| WindowsSystemReader.FullNoLeak | Nexus/Core/Services/WindowsSystemReader.cs:156-222 | if failing calls return null, the full read leaks nothing |
| WindowsSystemReader.ActivationInfoNoLeak | Nexus/Core/Services/WindowsSystemReader.cs:69-120 | if failing calls return null, `GetActivationInfo` leaks nothing |
| WindowsSystemReader.MismatchedChannelLeaks | Nexus/Core/Services/WindowsSystemReader.cs:239-245 | a Channel value with the DWORD tag is dropped, and its block is never freed |
| WindowsSystemReader.ReadStatusForSku | Nexus/Core/Services/WindowsSystemReader.cs:138-154 | the normalized status of a readable SKU, null otherwise; leaks only a rejected buffer |
| WindowsSystemReader.ReadGuid | Nexus/Core/Services/WindowsSystemReader.cs:264-268 | the SKU string parsed as a GUID, null if it is absent or does not parse |
| WindowsSystemReader.ReadSkuValues | Nexus/Core/Services/WindowsSystemReader.cs:190-194 | the four SKU values, each its own tag-checked read |
| WindowsSystemReader.ReadPKeyValues | Nexus/Core/Services/WindowsSystemReader.cs:196-205 | the two product-key values, and the `??=` fallbacks read only for a null SKU value |
| WindowsSystemReader.ReadStatusFields | Nexus/Core/Services/WindowsSystemReader.cs:159-180 | the four status fields of the first record, with the buffer released after them |
| WindowsSystemReader.ReadLicenseValues | Nexus/Core/Services/WindowsSystemReader.cs:190-205 | the SKU values, then the product-key values only when the key id parsed |
| WindowsSystemReader.ReadFullActivationInfo | Nexus/Core/Services/WindowsSystemReader.cs:156-222 | result equals `FullActivationInfo`; leaks exactly `FullLeaks` |
| WindowsSystemReader.SelectSku | Nexus/Core/Services/WindowsSystemReader.cs:86-103 | the scan's choice is `PickWindowsSku`; it leaks only the status reads it made |
| WindowsSystemReader.GetActivationInfo | Nexus/Core/Services/WindowsSystemReader.cs:69-120 | result equals `ActivationInfoOf`; leaks `ActivationInfoLeaks`; the `finally` closes every non-zero handle |
| WindowsSystemReader.PKeyOf | Nexus/Core/Services/WindowsSystemReader.cs:122-134 | null exactly when both key and channel are blank; otherwise the key and the channel, with DigitalPid null |
| WindowsSystemReader.GetInstalledProductKeyPartial | Nexus/Core/Services/WindowsSystemReader.cs:122-134 | `PKeyOf` of the activation record the reader returns |
| WindowsSystemReader.NoKeyWithoutActivation | Nexus/Core/Services/WindowsSystemReader.cs:122-134 | with no session or no readable id list, no key is reported |
| WindowsSystemReader.ProductInfoNaming | Nexus/Core/Services/WindowsSystemReader.cs:42-63 | a failed `GetProductInfo` gives code 0, named "Unknown" like every code not in the table; a listed code gets its table name; the release is the file version, or empty |
| WindowsSystemReader.GetSystemData | Nexus/Core/Services/WindowsSystemReader.cs:23-35 | edition is the product name; version, architecture, product and activation come from their sources |
| KmsClientReader.NormalizeStatusAgrees | Nexus/Core/Services/KmsClientReader.cs:102-111 | the KMS reader's normalization is the Windows reader's, as enum values in 0..4 |
| KmsClientReader.FirstReadable | Nexus/Core/Services/KmsClientReader.cs:74-93 | the first readable position: none earlier, and it is readable when in range |
| KmsClientReader.FirstLicensed | Nexus/Core/Services/KmsClientReader.cs:74-93 | the first Licensed position: none earlier, and it is Licensed when in range |
| KmsClientReader.KmsExamined | Nexus/Core/Services/KmsClientReader.cs:74-93 | the scan queries at most one status per id |
| KmsClientReader.ReadableFirst | Nexus/Core/Services/KmsClientReader.cs:74-93 | the first readable SKU comes no later than the first Licensed one |
| KmsClientReader.PickKmsSkuReadable | Nexus/Core/Services/KmsClientReader.cs:74-97 | no choice exactly when no candidate is readable; a choice is always readable |
| KmsClientReader.PickKmsSkuLicensed | Nexus/Core/Services/KmsClientReader.cs:85-90 | if any candidate is Licensed, the choice is the first Licensed one |
| KmsClientReader.PickKmsSkuUnlicensed | Nexus/Core/Services/KmsClientReader.cs:85-90 | with no Licensed candidate, the first readable one is chosen |
| KmsClientReader.LicensedAgrees | Nexus/Core/Services/KmsClientReader.cs:79-85 | the KMS reader's Licensed test (readable, and normalized status 1) is exactly the Windows reader's |
| KmsClientReader.FirstLicensedAgrees | Nexus/Core/Services/KmsClientReader.cs:74-93 | both scans find the same first Licensed position in the same id list |
| KmsClientReader.SamePickWhenLicensed | Nexus/Core/Services/KmsClientReader.cs:74-93 | when some SKU is Licensed, the KMS settings are read from the SKU whose activation the Windows reader reports |
| KmsClientReader.ScanStep | Nexus/Core/Services/KmsClientReader.cs:77-91 | one loop step, stated in terms of the two first positions |
| KmsClientReader.ReadCandidateStatus | Nexus/Core/Services/KmsClientReader.cs:77-84 | readable exactly when the guard passes; the normalized word; leaks only a rejected buffer |
| KmsClientReader.ScanSkus | Nexus/Core/Services/KmsClientReader.cs:74-93 | the scan's choice is `PickKmsSku`; it leaks the rejected buffers of the candidates it queried |
| KmsClientReader.TryPickSku | Nexus/Core/Services/KmsClientReader.cs:61-100 | found exactly when the id list is readable and some candidate is; the id list is freed after the scan |
| KmsClientReader.HostCaching | Nexus/Core/Services/KmsClientReader.cs:39-42 | null when the DWORD is absent; caching is enabled exactly when it is 0 |
| KmsClientReader.ClientInfoSpec | Nexus/Core/Services/KmsClientReader.cs:15-57 | null exactly with no session, list or readable candidate; otherwise each of the ten fields is present exactly when its own tag-checked read is accepted, and caching is enabled exactly when the DWORD is 0 |
| KmsClientReader.FieldsNoLeak | Nexus/Core/Services/KmsClientReader.cs:25-42 | if failing calls return null, the ten reads leak nothing |
| KmsClientReader.ClientInfoNoLeak | Nexus/Core/Services/KmsClientReader.cs:15-57 | if failing calls return null, `GetClientInfo` leaks nothing |
| KmsClientReader.EmptyListLeaks | Nexus/Core/Services/KmsClientReader.cs:66-67 | a non-null empty id list gives null and leaks its block |
| KmsClientReader.ReadFields | Nexus/Core/Services/KmsClientReader.cs:25-56 | the ten reads in source order, proved against `ClientInfoFor` |
| KmsClientReader.GetClientInfo | Nexus/Core/Services/KmsClientReader.cs:15-57 | result equals `ClientInfoOf`; leaks exactly `ClientInfoLeaks`; the session is closed |
| AdvancedActivationReader.TryPickSkuOf | Nexus/Core/Services/AdvancedActivationReader.cs:54-61 | a SKU is found exactly when the id list is readable |
| AdvancedActivationReader.PickIgnoresStatus | Nexus/Core/Services/AdvancedActivationReader.cs:54-61 | the choice is the first id, whatever any SKU's licensing status |
| AdvancedActivationReader.TryPickSku | Nexus/Core/Services/AdvancedActivationReader.cs:54-61 | the first id of a readable list, else `Guid.Empty`; the list leaks only on the early return |
| AdvancedActivationReader.AdbaFields | Nexus/Core/Services/AdvancedActivationReader.cs:15-30 | each ADBA field is present exactly when its own string read is accepted |
| AdvancedActivationReader.GetAdbaInfo | Nexus/Core/Services/AdvancedActivationReader.cs:15-30 | result equals `AdbaInfoOf`; leaks `AdbaLeaks`; the session is closed |
| AdvancedActivationReader.ActivationTime | Nexus/Core/Services/AdvancedActivationReader.cs:47-49 | a time exactly when the ticks are present and positive, and then from those ticks |
| AdvancedActivationReader.AvmaActivationTime | Nexus/Core/Services/AdvancedActivationReader.cs:40-49 | the activation time exists exactly when the int64 read is accepted and positive |
| AdvancedActivationReader.AdvancedUnavailable | Nexus/Core/Services/AdvancedActivationReader.cs:15-51 | both records are null exactly with no session or no readable id list |
| AdvancedActivationReader.AdvancedNoLeak | Nexus/Core/Services/AdvancedActivationReader.cs:15-51 | if failing calls return null, neither reader leaks |
| AdvancedActivationReader.GetAvmaInfo | Nexus/Core/Services/AdvancedActivationReader.cs:32-51 | result equals `AvmaInfoOf`; leaks `AvmaLeaks`; the session is closed |
| SkuReader.EntryFor | Nexus/Core/Services/SkuReader.cs:30-46 | the entry has the SKU's id and the key read through the product-key call |
| SkuReader.Entries | Nexus/Core/Services/SkuReader.cs:28-47 | one entry per id |
| SkuReader.EntriesAt | Nexus/Core/Services/SkuReader.cs:28-47 | entry i is the entry for the i-th id |
| SkuReader.AllSkusShape | Nexus/Core/Services/SkuReader.cs:15-52 | empty exactly with no session or no readable list; otherwise every id, in native order, whatever its status |
| SkuReader.AllSkusFields | Nexus/Core/Services/SkuReader.cs:30-46 | each field of entry i is the matching read for id i |
| SkuReader.NoEntriesLeak | Nexus/Core/Services/SkuReader.cs:28-47 | if failing calls return null, the loop leaks nothing |
| SkuReader.AllSkusNoLeak | Nexus/Core/Services/SkuReader.cs:15-52 | if failing calls return null, `GetAllSkus` leaks nothing |
| SkuReader.ReadEntry | Nexus/Core/Services/SkuReader.cs:30-46 | one loop body, proved against `EntryFor` |
| SkuReader.ReadEntries | Nexus/Core/Services/SkuReader.cs:28-47 | the loop, proved against `Entries` |
| SkuReader.GetAllSkus | Nexus/Core/Services/SkuReader.cs:15-52 | result equals `AllSkusOf`; leaks `AllSkusLeaks`; the session is closed |
| DigitalLicenseChecker.IsDigitalLicensePresent | Nexus/Core/Services/DigitalLicenseChecker.cs:23-56 | unknown exactly when there is no object, an exception was thrown, or the HRESULT is non-zero |
| DigitalLicenseChecker.DigitalLicenseAnswer | Nexus/Core/Services/DigitalLicenseChecker.cs:44-49 | a determined answer is yes exactly when rc ≥ 0 and rc ≠ 1 |
| DigitalLicenseChecker.DigitalLicenseFailSafe | Nexus/Core/Services/DigitalLicenseChecker.cs:28-55 | every exception, a missing object and a failed HRESULT all give unknown |
| SubscriptionReader.GetWindowsInfoDword | Nexus/Core/Services/SubscriptionReader.cs:44-53 | the lookup reports failure and leaves the value unchanged |
| SubscriptionReader.NeverSupported | Nexus/Core/Services/SubscriptionReader.cs:19-23 | subscription support is never reported |
| SubscriptionReader.SubscriptionFromClip | Nexus/Core/Services/SubscriptionReader.cs:26-39 | a successful Clipc call sets Enabled from the status word and copies the SKU and state; otherwise none is set |
| NexusApi.FactoriesWellFormed | Nexus/Class1.cs:143-161 | `Success` is a success carrying its data; `Failure` is a failure with its message, its exception and no data |
| NexusApi.Execute | Nexus/Class1.cs:58-68 | passes the action's value through, or wraps its exception with the context |
| NexusApi.TryExecute | Nexus/Class1.cs:70-80 | always a well-formed result, never an exception |
| NexusApi.TryExecuteOutcome | Nexus/Class1.cs:70-80 | success exactly when the action returned; a failure has the context, the exception and no data |
| NexusApi.ExecuteAgreesWithTryExecute | Nexus/Class1.cs:58-80 | `Execute` returns v exactly when `TryExecute` succeeds with v, and throws exactly what `TryExecute` reports |
| NexusApi.FacadeSelection | Nexus/Class1.cs:28-31 | a given facade is kept; otherwise Windows gets the native facade and other platforms the sample |
| NexusApi.TryGetContexts | Nexus/Class1.cs:36-56 | each failing `TryGet*` reports its own fixed message |
| NexusApi.SampleFacadeAnswers | Nexus/Class1.cs:96-136 | the sample answers: Unknown and Offline activation, no KMS, ADBA or AVMA, and no subscription or SKUs; every call succeeds |
| NexusClient.Capture | Nexus/NexusClient.cs:52-80 | a section and a log entry carrying the section's name |
| NexusClient.CaptureOutcome | Nexus/NexusClient.cs:52-80 | success keeps the data and logs Information; a failed result logs a Warning; an exception logs an Error with its message |
| NexusClient.CaptureResultNoError | Nexus/NexusClient.cs:70-79 | capturing a `TryGet*` result never logs an Error |
| NexusClient.Snapshot.Sections | Nexus/NexusClient.cs:161 | six sections |
| NexusClient.SnapshotFromLogs | Nexus/NexusClient.cs:38-50 | any six results give a log aligned with the sections, one entry each |
| NexusClient.SnapshotLogs | Nexus/NexusClient.cs:38-50 | one fixed-order entry per section; Information for a success, Warning otherwise |
| NexusClient.HasErrorsIffWarning | Nexus/NexusClient.cs:174 | a snapshot has errors exactly when its log has a Warning |
| NexusClient.SampleSnapshotClean | Nexus/NexusClient.cs:38-50 | with the sample facade the snapshot has no errors |
| NexusClient.LogList.constructor | Nexus/NexusClient.cs:40 | a new log list is empty |
| NexusClient.LogList.Add | Nexus/NexusClient.cs:84 | the entry goes on the end |
| NexusClient.Client.constructor | Nexus/NexusClient.cs:28-32 | stores the API and whether there is a sink; the sink has received nothing |
| NexusClient.Client.Create | Nexus/NexusClient.cs:28-32 | an API for the given facade, or for the platform default |
| NexusClient.Client.AppendLog | Nexus/NexusClient.cs:82-86 | the list gets the entry, and so does the sink if there is one |
| NexusClient.Client.CaptureSection | Nexus/NexusClient.cs:52-80 | the section and the one entry of `Capture`, added to the list and the sink |
| NexusClient.Client.CaptureAll | Nexus/NexusClient.cs:38-50 | the six captures in order equal `SnapshotFrom`; the sink gets the log |
| NexusClient.Client.CaptureSnapshot | Nexus/NexusClient.cs:38-50 | result equals `SnapshotOf`; the sink gets its log entry for entry |
| NexusSnapshotPresentation.CreateSection | Nexus/NexusSnapshotPresentation.cs:31-48 | the section keeps its title |
| NexusSnapshotPresentation.CreateSectionStates | Nexus/NexusSnapshotPresentation.cs:31-48 | failed means Error with the message and no fields; success without data means Warning; otherwise Ok with the factory's fields |
| NexusSnapshotPresentation.CachingText | Nexus/NexusSnapshotPresentation.cs:74-79 | true, false and null each map to their own word, and only those do |
| NexusSnapshotPresentation.SkuFieldsShape | Nexus/NexusSnapshotPresentation.cs:116-128 | an empty list gives one placeholder; otherwise one field per entry, in order, with its name or "Bez názvu" |
| NexusSnapshotPresentation.FieldCounts | Nexus/NexusSnapshotPresentation.cs:50-114 | the system, KMS, ADBA, AVMA and subscription sections have 6, 8, 4, 4 and 4 fields |
| NexusSnapshotPresentation.PrepareShape | Nexus/NexusSnapshotPresentation.cs:14-29 | six titled sections; logs unchanged; section i is Error exactly when snapshot section i failed |
| NexusSnapshotPresentation.PrepareHasErrors | Nexus/NexusSnapshotPresentation.cs:145 | the presentation has errors exactly when the snapshot does |
| NexusSnapshotPresentation.PreparedOkHasFields | Nexus/NexusSnapshotPresentation.cs:14-48 | every Ok section has fields |
| NexusSnapshotPresentation.FieldLines | Nexus/NexusSnapshotPresentation.cs:165-168 | one line per field |
| NexusSnapshotPresentation.FieldLinesAt | Nexus/NexusSnapshotPresentation.cs:165-168 | line j is field j's line |
| NexusSnapshotPresentation.SectionLinesShape | Nexus/NexusSnapshotPresentation.cs:154-171 | a header; then the message or fallback, or one "- caption: value" line per field with null as "n/a"; then a blank line |
| NexusSnapshotPresentation.SectionLinesAppended | Nexus/NexusSnapshotPresentation.cs:154-171 | the loop body's two shapes append `SectionLines` |
| NexusSnapshotPresentation.AppendFields | Nexus/NexusSnapshotPresentation.cs:165-168 | the inner loop appends `FieldLines` |
| NexusSnapshotPresentation.ToConsoleString | Nexus/NexusSnapshotPresentation.cs:150-174 | the lines written equal `ConsoleLines` of the sections |
| NexusDiagnostics.NewDiagnostics | Nexus/NexusDiagnostics.cs:18-26 | a null facade throws `ArgumentNullException("facade")`; any other is kept |
| NexusDiagnostics.AppendLineIf | Nexus/NexusDiagnostics.cs:53-97 | a line is written only when its condition holds |
| NexusDiagnostics.ActivationLinesCount | Nexus/NexusDiagnostics.cs:53-97 | four fixed lines, plus one per present optional value; a non-blank description comes right after the status line |
| NexusDiagnostics.DefaultActivationLines | Nexus/NexusDiagnostics.cs:53-97 | the record of a failed read prints only the fixed lines |
| NexusDiagnostics.SystemLines | Nexus/NexusDiagnostics.cs:45-104 | the system block starts with its header |
| NexusDiagnostics.AppendActivationHead | Nexus/NexusDiagnostics.cs:53-70 | appends `ActivationHead` |
| NexusDiagnostics.AppendActivationTail | Nexus/NexusDiagnostics.cs:71-97 | appends `ActivationTail` |
| NexusDiagnostics.AppendSystemInfo | Nexus/NexusDiagnostics.cs:45-104 | appends `SystemLines` |
| NexusDiagnostics.KmsLines | Nexus/NexusDiagnostics.cs:106-125 | the KMS block starts with its header |
| NexusDiagnostics.AdbaLines | Nexus/NexusDiagnostics.cs:127-142 | the ADBA block starts with its header |
| NexusDiagnostics.AvmaLines | Nexus/NexusDiagnostics.cs:144-162 | the AVMA block starts with its header |
| NexusDiagnostics.SubscriptionLines | Nexus/NexusDiagnostics.cs:164-172 | the subscription block is six lines under its header |
| NexusDiagnostics.NullRecordLines | Nexus/NexusDiagnostics.cs:106-162 | a null record prints header, placeholder and blank line; AVMA shows the time line only when there is a time |
| NexusDiagnostics.AppendKms | Nexus/NexusDiagnostics.cs:106-125 | appends `KmsLines` |
| NexusDiagnostics.AppendAdba | Nexus/NexusDiagnostics.cs:127-142 | appends `AdbaLines` |
| NexusDiagnostics.AppendAvma | Nexus/NexusDiagnostics.cs:144-162 | appends `AvmaLines` |
| NexusDiagnostics.AppendSubscription | Nexus/NexusDiagnostics.cs:164-172 | appends `SubscriptionLines` |
| NexusDiagnostics.SkuBlock | Nexus/NexusDiagnostics.cs:185-190 | one SKU prints six lines |
| NexusDiagnostics.SkuListLines | Nexus/NexusDiagnostics.cs:174-192 | the SKU block starts with its header |
| NexusDiagnostics.SkuListShape | Nexus/NexusDiagnostics.cs:174-192 | no SKUs: header and placeholder, with no blank line; otherwise six lines per SKU, in order, with name or "(bez názvu)" and the GUID text |
| NexusDiagnostics.AppendSkuBlock | Nexus/NexusDiagnostics.cs:185-190 | appends `SkuBlock` |
| NexusDiagnostics.AppendSkuBlocks | Nexus/NexusDiagnostics.cs:183-191 | the loop appends the blocks of every SKU, in order |
| NexusDiagnostics.AppendSkuList | Nexus/NexusDiagnostics.cs:174-192 | appends `SkuListLines` |
| NexusDiagnostics.ReportPropagates | Nexus/NexusDiagnostics.cs:31-43 | the report fails exactly when a call throws, with the first call's own exception, unwrapped |
| NexusDiagnostics.ReportOrder | Nexus/NexusDiagnostics.cs:31-43 | each section starts with its header: system, KMS, ADBA, AVMA, subscription, SKUs |
| NexusDiagnostics.BuildReport | Nexus/NexusDiagnostics.cs:31-43 | result equals `ReportOf` of the facade's calls |

## Left out

- **The native service and DLL calls are inputs.** The licensing service, `Kernel32`, `Clipc`, the `EditionUpgradeManager` COM object and `RuntimeInformation` are not code here. Their answers are parameters (`Env`, `Host`, `EumOutcome`, `ClipOutcome`, `Platform`).
- **Library conversions are given functions.** `Marshal.PtrToStringUni`, `Guid.TryParse`, `Enum.IsDefined` and `ToString` of `VolumeActivationType`, and the `"u"` format of a `DateTimeOffset` belong to the host library, so they are function fields of `Library`. `FromFileTime` keeps only its tick count; the local-time conversion is not modelled.
- **Memory is modelled only as the service describes it.** The model trusts the service's size and count fields. It does not model reading past `cb` bytes, or a status buffer shorter than its record count.
- **TryFree's two releases are one event.** The source calls `Marshal.FreeCoTaskMem`, then `Marshal.FreeHGlobal`, and swallows exceptions. The model counts this as one release of the block; a double free is not modelled.
- **SafeHandle bookkeeping is simplified.** The reference counting and finalization of the `SafeHandle` base class are reduced to a `closed` flag, so a handle is released at most once. Thread-safety is not modelled.
- **Glue code is not part of this model.** `WindowsInfoFacade`, the dependency-injection extension and the console programs only wire readers together. The facade is taken as the six results it returns.
- **Log timestamps are not modelled.** Neither is `NexusLogEntry.TimestampUtc`.
- WindowsSystemReader.FullActivationInfo, AdvancedActivationReader.ActivationTime, AdvancedActivationReader.AvmaInfoOf: always return a record, because `DateTimeOffset.FromFileTime` is modelled as total. In .NET it throws `ArgumentOutOfRangeException` for a positive FILETIME beyond the largest `DateTime` (about 2.65·10¹⁸ ticks), and the source guards only `> 0` (Nexus/Core/Services/WindowsSystemReader.cs:213, Nexus/Core/Services/AdvancedActivationReader.cs:47-49). Such an exception would escape `GetActivationInfo` and `GetAvmaInfo`; the model does not capture it.
- NexusClient.Client.AppendLog, NexusClient.Client.CaptureSection, NexusClient.SnapshotLogs: the log sink is modelled as one that never throws. In the source a sink that throws inside `CaptureSection`'s `try` (Nexus/NexusClient.cs:59-79, 85) turns a successful section into a Failure with two entries, Information then Error, and a second throw from the `catch` escapes `CaptureSnapshot`. "One entry per section" holds only for a sink that does not throw.
- WindowsSystemReader.SessionsAfter: the model does not assume that the handle of a failed open differs from the handles of live sessions. `SessionsUntouched` states that the `finally`'s close cancels nothing when it does differ, and a real service never hands back a handle a live session holds.
- **Newlines are not modelled.** `StringBuilder.ToString` joins lines with `Environment.NewLine`. The model keeps the list of appended lines and leaves out the joining.
- **The application-id GUID is fixed.** The readers parse `WellKnown.WindowsAppId` into `new Guid(...)`. The model proves that the in-memory GUID prints as that literal (`WellKnown.WindowsAppIdText`), and `Env.idList` is the id list for that one application.
- **Argument null checks are assumed to pass.** `ArgumentNullException.ThrowIfNull` on the `Get*` arguments is not modelled, because modelled arguments cannot be null. The null facade of `NexusDiagnostics` is modelled.
- **A rejected buffer is not freed.** The typed reads return before `TryFree` when the HRESULT, size, tag or pointer guard fails (Nexus/Core/Services/WindowsSystemReader.cs:241-242, 249-250 and 257-258; the same guards in KmsClientReader.cs and AdvancedActivationReader.cs). The KMS reader does the same for an empty id list (Nexus/Core/Services/KmsClientReader.cs:66-67). A non-null rejected buffer therefore stays outstanding. The model follows the code: every reader's leak count says so, and `WindowsSystemReader.MismatchedChannelLeaks` and `KmsClientReader.EmptyListLeaks` exhibit it.
- **One field is renamed.** `NexusPresentationField.Label` is `caption`, because `label` is a Dafny keyword. A null reference is `None` of an `Option`.
- **Some source methods are split into helper methods.** This keeps each proof small. The helpers are:
  - `NexusDiagnostics`: `AppendActivationHead` and `AppendActivationTail` for the activation block of `AppendSystemInfo`; `AppendSkuBlock` and `AppendSkuBlocks` for the body and loop of `AppendSkuList`; `AppendLineIf` for the conditional lines.
  - `KmsClientReader.ReadCandidateStatus`: one candidate of the scan. The release of a readable buffer is moved ahead of the choice; the choice does not read the buffer.
  - `NexusClient.Client.CaptureAll`: the six captures of `CaptureSnapshot`.
  - `WindowsSystemReader`: `ReadStatusFields`, `ReadSkuValues`, `ReadPKeyValues` and `ReadLicenseValues` for the steps of `ReadFullActivationInfo`; `SelectSku` for its loop.
- **A null interpolation renders empty.** `NexusDiagnostics` renders `{x}` of a null value as the empty string, which is the .NET behaviour. `IntOrNa` and `OrNa` model the presenter's `?? "n/a"`.
- **Subscription DWORD lookup is a constant.** `SubscriptionReader.GetWindowsInfoDword` is not wired to a native call in the source, so it is modelled as the constant failure it is. `SLGetWindowsInformationDWORD` is not part of this model.
- **The volume-activation enum is kept raw.** `VolumeActivationType` is kept as its raw value plus `Library.vlTypeDefined`.
- Enums.LicensingStatus.Value: states only the range 0..4, not the value of each member; the members and their values are defined one to one in the function body.
- Enums.GenuineState.Value: states only the range 0..4, for the same reason.
