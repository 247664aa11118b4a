# OmniBLE pump-manager state, identifiers and beep preference

A Dafny model of three pieces of the OmniBLE Omnipod DASH driver for Loop:

- **The persisted pump-manager state** (`OmniBLEPumpManagerState`). The record holds the pod
  state, the basal schedule, unreconciled doses, alerts, reminder settings and the controller/pod
  id pair. It has a memberwise initialiser, and three transient "engage" states for suspend,
  bolus and temp basal that are never saved. It also has a versioned key/value codec:
  - `init?(rawValue:)` decodes a `[String: Any]` document;
  - `rawValue` encodes one.

  Decoding does several things:
  - It refuses a document without an `Int` version.
  - It migrates version 1 documents, whose basal schedule sat inside `podState`.
  - When the id pair is not stored, it falls back to the legacy constant controller id and the
    pod's address.
  - It applies backward-compatible defaults for missing keys, including the legacy `bolusBeeps`
    key.
  - It silently drops doses and alerts that do not parse.
- **Controller and pod identifiers** (`Ids`). These are the constant controller id, the
  not-activated sentinel, and the pod id derived from the pod's address.
- **The beep preference** (`BeepPreference`). This is a three-case `Int` enumeration with two
  policy predicates.

## Layout

| file | module | what |
|---|---|---|
| `raw_values.dfy` | `Wrappers`, `RawValues` | `Option`, the document model (keys, typed values, the `as?` casts, optional subscript assignment) |
| `collaborators.dfy` | `Collaborators` | the types and parsers this model takes as given (pod state, basal schedule, doses, alerts, insulin type, time zone) |
| `ids.dfy` | `Ids` | `Id`, `Ids.notActivated()`, `Ids.controllerId()`, `Ids.init(podState:)` |
| `beep_preference.dfy` | `BeepPreference` | the enumeration and its policies |
| `pump_manager_state.dfy` | `PumpManagerState` | the state record, the memberwise initialiser, `reservoirLevel`, `hasActivePod`, `hasSetupPod` |
| `pump_manager_state_raw.dfy` | `PumpManagerStateRaw` | decoding and encoding, and the round trip |

The Swift struct is a value type, so the state is a `datatype`. Decoding and encoding each
appear twice:
- as a specification function, `Decode` and `Encode`;
- as a method that runs the way the Swift code does, `DecodeState` and `EncodeState`.

`DecodeState` reassigns local variables, then hands the remaining assignments to
`RestoreFieldsInto`. That method fills each alert set with the `while` loop of `ParseAlertsInto`,
which inserts one alert at a time. `EncodeState` builds the dictionary from a literal and then assigns one key
at a time. Each method is proved equal to its function.

A document is a `map<Key, RawVal>`:
- A `RawVal` records the Swift type it was stored with, so a cast such as `as? Bool` succeeds
  exactly when that type was stored.
- An array cast `as? [[String: Any]]` fails as a whole when any element is not a dictionary.
- The twenty keys the state reads or writes are constructors of `Key`. `Key.Name()` gives the
  string the Swift code uses.
- `Other(name)` stands for any other key, such as those inside nested documents written by other
  types. A valid key (`Key.Valid`) never writes one of the twenty names as `Other`. For valid
  keys, two keys are equal exactly when their names are (`RawValues.NameInjective`), so a map
  over keys is a map over the Swift strings.

## Model

| member | source | states |
|---|---|---|
| `BeepPreference.BeepPreference.RawValue` | OmniBLE/PumpManager/BeepPreference.swift:11-14 | the raw values are 0, 1 and 2, within 0..2 |
| `BeepPreference.FromRawValue` | OmniBLE/PumpManager/BeepPreference.swift:11-14 | `init(rawValue:)` succeeds exactly on 0, 1 and 2, and the case it builds has that raw value |
| `BeepPreference.AllCases` | OmniBLE/PumpManager/BeepPreference.swift:11-14 | `allCases` has three cases, the i-th with raw value i, and each case sits at the index of its raw value |
| `BeepPreference.RawValueRoundTrip` | OmniBLE/PumpManager/BeepPreference.swift:11-14 | every case comes back from its raw value |
| `BeepPreference.BeepPreference.ShouldBeepForManualCommand` | OmniBLE/PumpManager/BeepPreference.swift:38-40 | true exactly for the cases other than `silent` |
| `BeepPreference.BeepPreference.ShouldBeepForAutomaticBolus` | OmniBLE/PumpManager/BeepPreference.swift:42-44 | true exactly for raw value 2 (`extended`); implies beeping for manual commands |
| `BeepPreference.PolicyTable` | OmniBLE/PumpManager/BeepPreference.swift:38-44 | both policies per case: `silent` neither, `manualCommands` only manual, `extended` both |
| `BeepPreference.PoliciesAreMonotone` | OmniBLE/PumpManager/BeepPreference.swift:38-44 | a preference with a larger raw value beeps whenever a smaller one does |
| `Ids.Id.Increment` | OmniBLE/Bluetooth/Ids.swift:26-27 | the next id's value is the value plus one, modulo 2^32 |
| `Ids.FromLong` | OmniBLE/Bluetooth/Ids.swift:26 | the id built from a 32-bit value reads back as that value |
| `Ids.FromInt` | OmniBLE/Bluetooth/Ids.swift:18-20 | the id built from an integer holds its low 32 bits |
| `Ids.FromLongValue` | OmniBLE/Bluetooth/Ids.swift:26 | rebuilding an id from its value gives the same four bytes |
| `Ids.ValueInjective` | OmniBLE/Bluetooth/Ids.swift:24-28 | two ids are equal exactly when their values are |
| `Ids.NotActivated` | OmniBLE/Bluetooth/Ids.swift:12-17 | the not-activated id is `FFFFFFFE` |
| `Ids.ControllerId` | OmniBLE/Bluetooth/Ids.swift:11-20 | the controller id has value 4242, bytes `00 00 10 92` |
| `Ids.NewIds` | OmniBLE/Bluetooth/Ids.swift:24-28 | `myId` is the controller id whatever the pod state; `podId` is the controller id plus one without a pod, and the pod address plus one (mod 2^32) with one |
| `Ids.NewIdsDeterministic` | OmniBLE/Bluetooth/Ids.swift:24-28 | pod states with equal addresses, or both absent, give equal ids |
| `Ids.NewIdsCollision` | OmniBLE/Bluetooth/Ids.swift:24-28 | with the increment taken as +1 modulo 2^32, the pod id equals the controller id exactly when there is a pod whose address is 4241 |
| `Ids.NotActivatedIsDistinct` | OmniBLE/Bluetooth/Ids.swift:12-28 | the sentinel differs from the controller id; with the increment taken as +1 modulo 2^32, a derived pod id equals the sentinel exactly for pod address `FFFFFFFD` |
| `RawValues.CastsReadBackStores` | OmniBLE/PumpManager/OmniBLEPumpManagerState.swift:107-189 | a value stored as `Int`, `UInt32`, `Bool`, `Double`, a dictionary or an (empty) array of dictionaries is read back by the matching `as?` cast |
| `RawValues.CastsExclusive` | OmniBLE/PumpManager/OmniBLEPumpManagerState.swift:107-189 | no cast succeeds on a missing key, and at most one of the six casts succeeds on an entry, so a number stored as one type is never read as another |
| `RawValues.NameInjective` | OmniBLE/PumpManager/OmniBLEPumpManagerState.swift:105-240 | for valid keys, two keys are equal exactly when their Swift names are |
| `RawValues.Assign` | OmniBLE/PumpManager/OmniBLEPumpManagerState.swift:231-238 | `d[k] = v` stores `v` under `k`, or leaves `k` absent when `v` is `nil` |
| `RawValues.AssignKeepsOtherKeys` | OmniBLE/PumpManager/OmniBLEPumpManagerState.swift:231-238 | `d[k] = v` leaves every other key present or absent as before, with its value |
| `PumpManagerState.PumpManagerState.NoPodNoReadings` | OmniBLE/PumpManager/OmniBLEPumpManagerState.swift:243-250 | without a pod state there is no active pod, no set-up pod and no reservoir level |
| `PumpManagerState.Init` | OmniBLE/PumpManager/OmniBLEPumpManagerState.swift:83-103 | the given pod state, time zone, schedule and insulin type are stored; the ids are kept exactly when both are given, else a fresh pair with pod id = controller id + 1; empty doses and alerts; flags false; default reminders; all engage states `stable` |
| `PumpManagerState.WithTransientStateReset` | OmniBLE/PumpManager/OmniBLEPumpManagerState.swift:63-77 | the transient fields are reset (engage states `stable`, no report date) and every other field is unchanged |
| `PumpManagerStateRaw.CompactMap` | OmniBLE/PumpManager/OmniBLEPumpManagerState.swift:171-175 | `compactMap` never yields more elements than it reads |
| `PumpManagerStateRaw.CompactMapAppend` | OmniBLE/PumpManager/OmniBLEPumpManagerState.swift:171-175 | decoding a concatenation decodes each part in order |
| `PumpManagerStateRaw.CompactMapMembership` | OmniBLE/PumpManager/OmniBLEPumpManagerState.swift:171-175 | a dose is decoded exactly when some stored entry parses to it |
| `PumpManagerStateRaw.CompactMapAllParse` | OmniBLE/PumpManager/OmniBLEPumpManagerState.swift:171-175 | when every entry parses, nothing is dropped and entry i becomes dose i |
| `PumpManagerStateRaw.ParseAlertSetMembership` | OmniBLE/PumpManager/OmniBLEPumpManagerState.swift:197-213 | an alert is in the decoded set exactly when some stored entry parses to it |
| `PumpManagerStateRaw.Decode` | OmniBLE/PumpManager/OmniBLEPumpManagerState.swift:105-214 | no `Int` version: fails; version 1: succeeds exactly when `podState.basalSchedule` parses and takes it; any other version: succeeds exactly when the top-level `basalSchedule` parses and takes it; decoded engage states are `stable` and there is no report date |
| `PumpManagerStateRaw.DecodeIds` | OmniBLE/PumpManager/OmniBLEPumpManagerState.swift:146-167 | stored pair kept; otherwise the constant controller id and the pod address; with no pod either, a fresh pair with pod id = controller id + 1 |
| `PumpManagerStateRaw.DecodeDefaults` | OmniBLE/PumpManager/OmniBLEPumpManagerState.swift:138-189 | a key that is missing or holds another type gives the default: `isOnboarded` and `initialConfigurationCompleted` true, `podAttachmentConfirmed` and `acknowledgedTimeOffsetAlert` false, `confirmationBeeps` from `bolusBeeps` then false, no scheduled reminder, default reminders, the current time zone (also when the offset gives no zone), no pending command, Novolog insulin |
| `PumpManagerStateRaw.DecodeKeepsParseableDoses` | OmniBLE/PumpManager/OmniBLEPumpManagerState.swift:171-175 | doses are the stored entries that parse, in stored order, and a dose is decoded exactly when some entry parses to it; no doses when the key holds no array of dictionaries |
| `PumpManagerStateRaw.DecodeKeepsParseableAlerts` | OmniBLE/PumpManager/OmniBLEPumpManagerState.swift:197-213 | for each of the two alert sets, an alert is decoded exactly when some stored entry parses to it; the set is empty when the key holds no array of dictionaries |
| `PumpManagerStateRaw.DecodeWithoutPod` | OmniBLE/PumpManager/OmniBLEPumpManagerState.swift:131-136 | a document without a usable pod state decodes to a state with no active pod, no set-up pod and no reservoir level |
| `PumpManagerStateRaw.DecodedPodQueries` | OmniBLE/PumpManager/OmniBLEPumpManagerState.swift:131-136 | a decoded state has an active pod, a set-up pod, a reservoir level exactly when the stored pod state parses to one that is active, set up, or holds a reservoir reading (with `hasActivePod`, `hasSetupPod` and `reservoirLevel` at lines 55-61 and 243-250) |
| `PumpManagerStateRaw.DecodeState` | OmniBLE/PumpManager/OmniBLEPumpManagerState.swift:105-167 | the guard-and-reassign decoder returns exactly `Decode`'s result |
| `PumpManagerStateRaw.RestoreFieldsInto` | OmniBLE/PumpManager/OmniBLEPumpManagerState.swift:169-213 | the assignments after the memberwise initialiser produce exactly the restored fields |
| `PumpManagerStateRaw.ParseAlertsInto` | OmniBLE/PumpManager/OmniBLEPumpManagerState.swift:197-213 | the insert loop yields the set of alerts that parse, and the empty set when the key holds no array of dictionaries |
| `PumpManagerStateRaw.AsDictListOfRawList` | OmniBLE/PumpManager/OmniBLEPumpManagerState.swift:222-227 | an encoded array of dictionaries casts back to the same dictionaries |
| `PumpManagerStateRaw.LateAssignmentsKeepOtherKeys` | OmniBLE/PumpManager/OmniBLEPumpManagerState.swift:231-238 | the assignments after the literal leave every other key as the literal wrote it |
| `PumpManagerStateRaw.EncodeState` | OmniBLE/PumpManager/OmniBLEPumpManagerState.swift:216-240 | building the dictionary key by key yields `Encode` for the given set orders, so it is an encoding of the state |
| `PumpManagerStateRaw.EncodeStoresScalars` | OmniBLE/PumpManager/OmniBLEPumpManagerState.swift:217-220 | an encoding holds version 2 as an `Int`, `isOnboarded` as a `Bool` and the time zone's offset as an `Int` |
| `PumpManagerStateRaw.EncodeStoresFlags` | OmniBLE/PumpManager/OmniBLEPumpManagerState.swift:223-228 | an encoding holds the four flags as `Bool`s |
| `PumpManagerStateRaw.EncodeStoresIdsAndReminders` | OmniBLE/PumpManager/OmniBLEPumpManagerState.swift:233-237 | an encoding holds both ids as `UInt32`s and the reminder values as `Double`s; the scheduled reminder only when set |
| `PumpManagerStateRaw.EncodeStoresCollections` | OmniBLE/PumpManager/OmniBLEPumpManagerState.swift:221-227 | an encoding holds the encoded schedule, the encoded doses in order and the encoded alerts in iteration order |
| `PumpManagerStateRaw.EncodeStoresOptionals` | OmniBLE/PumpManager/OmniBLEPumpManagerState.swift:231-238 | insulin type, pod state and pending command are stored exactly when set |
| `PumpManagerStateRaw.DecodeSerialisedList` | OmniBLE/PumpManager/OmniBLEPumpManagerState.swift:171-175 | with a round-tripping codec, decoding encoded doses gives the same list |
| `PumpManagerStateRaw.DecodeSerialisedSet` | OmniBLE/PumpManager/OmniBLEPumpManagerState.swift:197-213 | with a round-tripping codec, decoding encoded alerts in any iteration order gives the same set |
| `PumpManagerStateRaw.DecodeStoredParts` | OmniBLE/PumpManager/OmniBLEPumpManagerState.swift:124-167 | a document holding the state's values yields its schedule, pod state, insulin type and id pair |
| `PumpManagerStateRaw.DecodeStoredLists` | OmniBLE/PumpManager/OmniBLEPumpManagerState.swift:171-213 | a document holding the state's values yields its doses, both alert sets and its pending command |
| `PumpManagerStateRaw.DecodeStoredFields` | OmniBLE/PumpManager/OmniBLEPumpManagerState.swift:105-214 | any document holding the state's values under their keys decodes to the state, with transient fields reset, Novolog for an unset insulin type, and the time zone rebuilt from its offset |
| `PumpManagerStateRaw.RoundTrip` | OmniBLE/PumpManager/OmniBLEPumpManagerState.swift:216-240 | decoding an encoding succeeds as version 2 and returns every persisted field; engage states come back `stable`; insulin type and time zone as in `DecodeStoredFields` |
| `PumpManagerStateRaw.ReloadAfterSave` | OmniBLE/PumpManager/OmniBLEPumpManagerState.swift:105-240 | with the insulin type set and a time zone that survives its offset, saving and reloading gives exactly the state with its transient fields reset |
| `PumpManagerStateRaw.SaveReloadKeepsPodQueries` | OmniBLE/PumpManager/OmniBLEPumpManagerState.swift:216-250 | after a save and a reload, `hasActivePod`, `hasSetupPod` and `reservoirLevel` report what they reported before |

## Notes on the code

- **Distinct ids.** Nothing in `Ids.init(podState:)` keeps the pod id apart from the controller
  id. Whether they differ depends only on `Id.increment`, whose body is not part of this model.
  - If `Id.increment` adds one modulo 2^32, as the model assumes, the pod id equals the
    controller id exactly when the pod's address is 4241 (`Ids.NewIdsCollision`).
  - Under the same assumption, without a pod the pod id is the controller id plus one (4243),
    not the not-activated sentinel. With a pod at address `FFFFFFFD`, the derived pod id is the
    sentinel (`Ids.NotActivatedIsDistinct`).
- **Unknown versions.** The decoder refuses only a missing or non-`Int` version. Every `Int`
  version other than 1, including versions above 2, is read as the version 2 layout.
- **The type of `CONTROLLER_ID`.** `Ids.swift` declares `CONTROLLER_ID` as an `Int`, but the
  decoder assigns it to a `UInt32?`. The model uses its value, 4242, as a `UInt32`.
- **The stored id pair.** The decoder never checks the stored `controllerId`/`podId` pair. Any
  two `UInt32`s are accepted, including equal ones.

## Left out

- `isPumpDataStale` (OmniBLEPumpManagerState.swift:252-256): it reads the wall clock.
- `debugDescription`, and `BeepPreference.title`/`description`: they are formatting and localised
  strings.
- `createControllerId()` is not part of this model. The decoder and the initialiser take its
  result as the parameter `freshControllerId`. In Swift, `myId + 1` traps when the id is
  `UInt32.max`; the precondition `freshControllerId < UInt32Max` excludes that case rather than
  modelling the trap.
- `TimeZone.currentFixed`, `TimeZone(secondsFromGMT:)` and `secondsFromGMT()` are values of the
  `Collaborators` record. So are `Pod.defaultExpirationReminderOffset`,
  `Pod.defaultLowReservoirReminder` and `ReservoirLevel(rawValue:)`.
- The bodies of `Id.fromInt`, `Id.fromLong` and `Id.increment` are not part of this model.
  `Ids.FromLong`, `Ids.FromInt` and `Ids.Id.Increment` assume big-endian bytes of the low 32 bits
  and +1 modulo 2^32.
- The parsers and encoders of `PodState`, `BasalSchedule`, `UnfinalizedDose`, `PendingCommand`,
  `PumpManagerAlert` and `InsulinType` are abstract codecs.
  - The round-trip lemmas assume each of them round-trips (`Collaborators.CodecsRoundTrip`).
  - `PodState` is reduced to the fields the state reads: address, active, setup complete, and
    the last reservoir reading.
- `PumpManagerStateRaw.RoundTrip`: it does not restore the time zone or an unset insulin type
  exactly, because the code does not either. The time zone is rebuilt from its offset, and an
  unset insulin type comes back as Novolog.
- Foundation's `NSNumber` bridging: a stored number does not cast to another numeric type
  (`RawValues.CastsExclusive`). In particular an `Int` under `controllerId` is not read as a
  `UInt32`.
- Documents whose `Other` keys carry one of the twenty names the state uses. `Decode` does not
  require valid keys, and it reads only the named constructors.
- `Double` and `TimeInterval` values are passed through as `real`s with no arithmetic.
- The order in which `Set.map` visits the alert sets is unspecified in Swift. `EncodeState`
  takes the two orders as parameters, and `IsEncodingOf` allows any order.
- In-place mutation: the state is a Swift struct, a value type. `init?(rawValue:)` is modelled as
  a function and a method that return the new value, with no aliasing to model.
