# libpoller in Dafny

A model of the core of `marcw/libpoller`, a service poller. The library polls
checks (HTTP URLs, UDP endpoints) at fixed intervals. It records when each
check went up or down and alerts backends when an outage lasts. The model
covers four things:

- **The availability state machine.** `Event.Up` and `Event.Down` rewrite
  the polled check's `UpSince`, `DownSince`, `WasUpFor`, `WasDownFor` and
  `Alerted` fields, and raise the event's `Alert` and `NotifyFix` flags.
  Two versions exist: package `poller` (`event.go`) and the older package
  `check` (`check/event.go`).
- **The check registries.** These are the `CheckList` of `config_checklist.go`,
  the two in-memory stores (`store_memory.go`, `config_store.go`) and the
  older `ChecksList` of `check/check.go`. The registries are classes over a
  `map` field. Their methods change it in place and state the whole new map.
- **The `Config` wiring** (`config.go`). It keeps a check list and a
  `Scheduler` in step. The scheduler is modelled as the map of checks it
  polls, plus the record of every `Schedule` call.
- **JSON.**
  - Reading a check with go-simplejson (`NewCheckFromJSON` and its
    per-type configurators).
  - Writing a check through the `jsonCheck` record with encoding/json.
  - Reading a list back with `json.Unmarshal`.
  - The older `ChecksList` JSON form.

  JSON values are a datatype: an object is its sequence of members in
  document order. A Go map is written with its keys in increasing order.
  Struct fields match member names up to ASCII case, the last match winning.

Times and durations are whole seconds. Time 0 stands for Go's zero
`time.Time`. A duration (`Durations.Duration`) stays within the int64
nanosecond range of Go's `time.Duration`, and parsing refuses anything beyond it. The clock reading `time.Now()` gives is a parameter. Go's map
iteration order is free: a loop over a map is a loop over some sequence that
visits each key exactly once (`Collections.Enumerates`). The methods that loop
return that order and state their effect in terms of it. `CheckList.Each`,
`Records` and `JSON` return it as an ordinary result, as the order their
output is in. The other methods return it as a ghost result, since their effect
is the only thing it describes.

Calls into code outside the model are recorded in a trace on the receiving
object:

- `Scheduler.Schedule`;
- a backend's `Log` and `Close`;
- an alerter's `Alert`;
- the store's `Persist`.

`event.go` sets `Alerted` when `ShouldAlert()` is **false**. The model keeps
this as written. `PollerEvent.AlertedCheckAlertsOnEveryOutage` states what
follows from it: once a check has alerted, every later up-to-down transition
raises the alert again.

## Model

| member | source | states |
|---|---|---|
| PollerCheck.PinnedByTests | check/check_test.go:197-259 | `ShouldAlert` holds for an alerting, not yet alerted check once `now >= DownSince + AlertDelay`, and fails when it already alerted, when alerting is off, or inside the delay. `ShouldNotifyFix` fails without `NotifyFix` or without `Alerted`, and holds with both and a non-zero `WasDownFor` |
| PollerCheck.Check.constructor | check_json.go:62 | a new check carries the given settings and has every runtime field at zero |
| PollerEvent.UpStep | event.go:26-40 | afterwards `DownSince` is 0, and `UpSince` is set for a non-zero time. An already up check is unchanged. Down to up sets `UpSince` to the event time and `WasDownFor` to the outage length. `WasUpFor` and `Alerted` are never touched |
| PollerEvent.DownStep | event.go:42-61 | afterwards `UpSince` is 0, and `DownSince` is set for a non-zero time. An already down check keeps its outage start. Up to down sets `DownSince` to the time and `WasUpFor` to the uptime. `Alerted` becomes true exactly when `ShouldAlert`, evaluated after `DownSince` is set, is false. `WasDownFor` is never touched |
| PollerEvent.Event.constructor | event.go:18-20 | a new event for the given check and time is not up and carries neither flag |
| PollerEvent.Event.Up | event.go:26-40 | `IsUp()` afterwards. The check's runtime fields are `UpStep` of the old ones. `NotifyFix` is copied from the check only on a down-to-up transition. `Alert` is unchanged |
| PollerEvent.Event.Down | event.go:42-61 | `!IsUp()` afterwards. The check's runtime fields are `DownStep` of the old ones. `Alert` is raised exactly on an up-to-down transition where `ShouldAlert` is false. `NotifyFix` is unchanged |
| PollerEvent.RunExclusive | event.go:26-61 | after at least one event, `UpSince` and `DownSince` are never both set |
| PollerEvent.AlertedSticks | event.go:26-61 | once `Alerted` is set, no sequence of events clears it |
| PollerEvent.AlertedCheckAlertsOnEveryOutage | event.go:55-59 | for a check that has alerted, every later up-to-down transition raises the alert flags again |
| PollerEvent.RepeatedDownKeepsOutage | event.go:45-47 | any run of `Down` events on a down check leaves its runtime fields unchanged, so the outage start is kept |
| LegacyEvent.UpStep | check/event.go:26-35 | a check that is not down is unchanged. A down check gets `UpSince` set to the event time and `DownSince` cleared. `Alerted` is never touched |
| LegacyEvent.DownStep | check/event.go:37-51 | a check that is not up is unchanged. An up check gets `DownSince` set to the event time and `UpSince` cleared. `Alerted` is set exactly when `ShouldAlert` is false |
| LegacyEvent.IdleCheckStaysIdle | check/event.go:26-51 | a check with both timestamps zero stays exactly as it is under any sequence of events |
| LegacyEvent.Event.constructor | check/event.go:18-20 | a new event is not up and carries neither flag |
| LegacyEvent.Event.Up | check/event.go:26-35 | `IsUp()` afterwards. The check follows `UpStep`, and `WasDownFor` is kept. `NotifyFix` is copied only when the check was down. `Alert` is unchanged |
| LegacyEvent.Event.Down | check/event.go:37-51 | `!IsUp()` afterwards. The check follows `DownStep`, and `WasDownFor` is kept. `Alert` is raised exactly on an up-to-down transition where `ShouldAlert` is false. `NotifyFix` is unchanged |
| CheckJson.Headers | check_json.go:123-130 | the headers are accepted iff every value is a string. They then have the same names and values. Otherwise the result is the "Headers can only accept string." error |
| CheckJson.HttpConfig | check_json.go:116-134 | accepted iff `config.url` is a string and every header value under `config.headers` is a string. A missing headers member is read as an empty map |
| CheckJson.UdpConfig | check_json.go:136-159 | refused when `host`, `port`, `send` or `receive` is missing or of the wrong type. When accepted, the configuration has exactly those four entries, `port` a number and the rest strings |
| CheckJson.Configure | check_json.go:104-111 | any type other than "http" and "udp" gives "Unknown check type " followed by the type |
| CheckJson.Decode | check_json.go:56-114 | an accepted check has type "http" or "udp" |
| CheckJson.DecodeAccepts | check_json.go:66-111 | a document is accepted iff all of these hold: `type`, `key`, `alertDelay` and `interval` are strings; `alert` and `notifyFix` are booleans; both durations parse; the type's configurator accepts it. The check then carries exactly those values |
| CheckJson.ReadHeaders | check_json.go:123-131 | the header loop, one member at a time, gives the same result as `Headers` |
| CheckJson.ReadHTTPConfig | check_json.go:116-134 | step by step, the same result as `HttpConfig` |
| CheckJson.ReadUDPConfig | check_json.go:136-159 | step by step, the same result as `UdpConfig`, stopping at the first bad member |
| CheckJson.NewCheckFromJSON | check_json.go:56-114 | succeeds iff `Decode` does, with the same error otherwise. On success the check is new, never polled, and has exactly the decoded settings |
| CheckJson.ToJsonCheckDurations | check_json.go:32-43 | the interval and the alert delay that `json()` writes parse back to the same number of seconds |
| CheckJson.MarshalMembers | check_json.go:17-25 | the written object holds each of the seven `jsonCheck` fields under its tag name, as go-simplejson reads them |
| CheckJson.DecodeEncode | check_json.go:46-114 | `NewCheckFromJSON(JSON())` gives back the check whenever its configurator reads the written configuration back |
| CheckJson.HeadersRoundTrip | check_json.go:123-131 | the header loop reads back exactly the header map written as JSON strings |
| CheckJson.HttpConfigRoundTrip | check_json.go:116-134 | `readHTTPConfig` reads back the URL and headers of a written HTTP configuration |
| CheckJson.UdpConfigRoundTrip | check_json.go:136-159 | `readUDPConfig` reads back the host, port, send and receive of a written UDP configuration |
| CheckJson.HttpRoundTrip | check_json.go:32-53 | every HTTP check, written by `JSON()` and read by `NewCheckFromJSON`, comes back identical |
| CheckJson.UdpRoundTrip | check_json.go:32-53 | every UDP check, written by `JSON()` and read by `NewCheckFromJSON`, comes back identical |
| CheckJson.ToSettings | check_json.go:27-29 | `toCheck` succeeds iff the interval parses and the alert delay parses or is empty with alerting off. An unparsable interval is reported first, and otherwise an unparsable alert delay. The check has the record's key, configuration, `alert` and `notifyFix`, the parsed interval, the parsed alert delay (none for an empty one with alerting off), and no type |
| CheckJson.NewCheckCases | check/check_test.go:12-31 | a one-second check with alerting off and an empty alert delay is built, with no delay; one that alerts after "fadsfs" is refused |
| Durations.SampleSecond | check/check_test.go:13 | one second is written "1s" and "1s" reads as one second |
| CheckJson.ToSettingsToJsonCheck | check_json.go:27-43 | `json()` followed by `toCheck` gives back the check, less its type |
| Json.StringField | check_json.go:18-22 | a string field is accepted iff every matching member is a string or null. It holds the last string among them, and "" when there is none |
| CheckJson.BoolField | check_json.go:21-23 | a bool field is accepted iff every matching member is a boolean or null. It holds the last boolean among them, and false when there is none |
| Json.MergedStep | check_json.go:24 | reading one more value into a map field: a null empties the map, and an object is merged into it, later keys winning. The map then holds the keys of the objects after the last null, each with the value of the last object that has it |
| CheckJson.ConfigField | check_json.go:24 | the `config` field is accepted iff every matching member is an object or null. It then holds the keys of the objects after the last null, each with the value of the last object that has it, and is empty with no matching member |
| CheckJson.Unmarshal | check_json.go:17-25 | a JSON value that is not an object is refused as a `jsonCheck` |
| CheckJson.UnmarshalMarshal | check_json.go:17-25 | `json.Unmarshal` reads back exactly the `jsonCheck` that `json.Marshal` wrote |
| CheckJson.SampleCheck | check_json_test.go:11-70 | the sample HTTP document reads as a one-minute check that alerts after an hour with its URL and Accept header, and `JSON()` writes it back as the same document |
| Durations.FormatParseRoundTrip | check_json.go:36-39 | every duration, printed as Go prints it, parses back to itself |
| Durations.SampleMinute | check_json_test.go:15 | 60 seconds is written "1m0s" and "1m0s" reads as 60 seconds |
| Durations.SampleHour | check_json_test.go:17 | 3600 seconds is written "1h0m0s" and reads back as 3600 seconds |
| Durations.SampleOverflow | check_json.go:93-101 | a duration past the int64 nanosecond range of `time.Duration` is refused: "2562047h" parses and "2562048h" does not |
| ConfigCheckList.MarshalList | config_checklist.go:89-94 | the list is written as null exactly when no check was appended (a nil slice) |
| ConfigCheckList.UnmarshalItems | config_checklist.go:23-26 | when every element decodes, there is one entry per element, and an entry is nil exactly when its element is null |
| ConfigCheckList.UnmarshalList | config_checklist.go:23-26 | null gives no entries. An array gives one entry per element. Any other value is refused |
| ConfigCheckList.ToSettingsAll | config_checklist.go:28-36 | when every entry converts, there is one check per entry |
| ConfigCheckList.ToSettingsAllStops | config_checklist.go:29-32 | once an entry fails, the conversion of every longer prefix fails with the same error |
| ConfigCheckList.ToSettingsAllStep | config_checklist.go:28-36 | after entries that all convert, the next entry either fails, and its error (a nil entry's included) is the result, or its check is appended and stored under its key, replacing any check with that key |
| ConfigCheckList.ToSettingsAllOk | config_checklist.go:28-36 | entries that are all present and all convert give exactly their checks, in order |
| ConfigCheckList.Keyed | config_checklist.go:28-36 | after the Add calls, every added check's key is present, and every key holds a check with that key |
| ConfigCheckList.ListEntries | config_checklist.go:21-38 | reading back what `JSON()` wrote gives one check per visited key, in order, each without its type |
| ConfigCheckList.KeyedEnumeration | config_checklist.go:28-36 | adding the checks of a map in any order that visits each key once rebuilds the map |
| ConfigCheckList.ListRoundTrip | config_checklist_test.go:37-51 | a list written by `JSON()` and read by `NewCheckListFromJSON` holds the same checks under the same keys, each without its type |
| ConfigCheckList.CheckList.constructor | config_checklist.go:16-18 | a new list is empty |
| ConfigCheckList.CheckList.Add | config_checklist.go:41-46 | the check is stored under its key, replacing any earlier one, and `Get` of that key returns it. `Len` grows by one exactly for a new key |
| ConfigCheckList.CheckList.Get | config_checklist.go:49-54 | non-null exactly when the key is present, and then the stored check |
| ConfigCheckList.CheckList.Delete | config_checklist.go:57-62 | the key is gone and every other key's entry is unchanged |
| ConfigCheckList.CheckList.Len | config_checklist.go:65-70 | the number of distinct keys |
| ConfigCheckList.CheckList.Each | config_checklist.go:75-82 | the function is applied once to every stored check, under an enumeration of the keys |
| ConfigCheckList.CheckList.Records | config_checklist.go:89-92 | the `json()` record of every stored check, once each, in the order the keys are visited |
| ConfigCheckList.CheckList.JSON | config_checklist.go:85-100 | the output is the records of every stored check in some enumeration of the keys, or null for an empty list |
| ConfigCheckList.CheckList.Clear | config_checklist.go:103-108 | the list is empty and `Len` is 0 |
| ConfigCheckList.NewCheckListFromJSON | config_checklist.go:21-38 | succeeds iff every entry decodes and converts, with the first error otherwise. The new list holds the converted checks, a later one replacing an earlier one with the same key |
| Scheduling.Scheduler.Schedule | scheduler.go:9 | the check is polled under its key from now on, and the call is recorded |
| Scheduling.Scheduler.Stop | scheduler.go:10 | only the given key stops being polled |
| Scheduling.Scheduler.StopAll | scheduler.go:11 | nothing is polled any more |
| StoreMemory.InMemoryStore.constructor | store_memory.go:15-17 | a new store is empty |
| StoreMemory.InMemoryStore.Add | store_memory.go:20-26 | the check is stored under its key, replacing any earlier one. The size grows by one exactly for a new key. The error is nil |
| StoreMemory.InMemoryStore.Get | store_memory.go:29-34 | non-null exactly when the key is present, and then the stored check, whose key is the given one. The error is nil |
| StoreMemory.InMemoryStore.Remove | store_memory.go:37-43 | only that key is removed, and removing an absent key changes nothing. The error is nil |
| StoreMemory.InMemoryStore.Len | store_memory.go:46-51 | the number of stored checks, 0 exactly for an empty store. The error is nil |
| StoreMemory.InMemoryStore.ScheduleAll | store_memory.go:53-62 | `Schedule` is called once per stored check, in some enumeration of the keys. Every stored check ends up scheduled and the store is unchanged. The error is nil |
| ConfigStore.InMemoryStore.constructor | config_store.go:28-30 | a new store holds a new, empty list |
| ConfigStore.InMemoryStore.Load | config_store.go:32-34 | returns the held list itself, with no error |
| ConfigStore.InMemoryStore.Persist | config_store.go:36-39 | the store holds the given list from now on, whatever it held before. The error is nil |
| PollerConfig.Config.constructor | config.go:11-13 | a new config holds a new, empty list beside the given scheduler |
| PollerConfig.Config.ScheduleEach | config.go:25-27 | every check of the list is scheduled once, in some enumeration of its keys |
| PollerConfig.Config.Load | config.go:17-30 | a store error is returned and nothing changes. Otherwise the store's list is installed, and the scheduler polls exactly its checks, each scheduled once |
| PollerConfig.Config.Persist | config.go:33-35 | the current list is handed to the store |
| PollerConfig.Config.Add | config.go:38-41 | the check is stored under its key and scheduled. A config whose scheduler was in step with its list stays in step |
| PollerConfig.Config.Clear | config.go:43-46 | the list is empty and nothing is scheduled |
| PollerConfig.Config.SetCheckList | config.go:48-54 | the old list is emptied and the new one installed. The scheduler then polls exactly its checks, each scheduled once. When the new list is the one already held, it ends up empty and nothing is scheduled |
| LegacyCheck.NewCheckEvent | check/check.go:80-82 | a new event for the check at the given time is neither up nor timed out |
| LegacyCheck.NewCheckOf | check/check.go:46-78 | an interval that does not parse is refused first, with its own error, and then the address error is returned. Otherwise the check has the given key and URL, the parsed interval, and one header per given name holding that name's value alone |
| LegacyCheck.NewCheck | check/check.go:46-78 | the header loop gives the same result as `NewCheckOf` |
| LegacyCheck.StringMap | check/check.go:41 | an object is accepted as a `map[string]string` iff every value is a string or null. The map's keys are then exactly the member names |
| LegacyCheck.HeadersField | check/check.go:41 | the field is accepted iff every matching member is null or an object whose values are all strings or null. It then holds the headers of the objects after the last null, each with the value of the last object that has it, and is empty with no matching member |
| LegacyCheck.UnmarshalEntry | check/check.go:37-42 | a null element gives the zero record, and anything else that is not an object is refused |
| LegacyCheck.UnmarshalItems | check/check.go:89-93 | when every element decodes, there is one record per element |
| LegacyCheck.UnmarshalList | check/check.go:89-93 | null gives no records. An array gives one per element. Any other value is refused |
| LegacyCheck.ListJson | check/check.go:107-124 | the output is an array with one record per visited check, iff every check's headers all have a value. Otherwise it is the index panic |
| LegacyCheck.AddAllStops | check/check.go:95-101 | once a record fails, the records after it are not looked at |
| LegacyCheck.AddAllStep | check/check.go:95-101 | after records that all build a check, the next record either fails, and the list is left as it was with "Check configuration error: " and its error as the result, or its check is stored under its key |
| LegacyCheck.AddAllFirstError | check/check.go:95-101 | there is no error iff every record builds a check. On an error, the records before the first failing one have been added |
| LegacyCheck.AddAllKeeps | check/check.go:95-101 | adding records never removes a key |
| LegacyCheck.UnmarshalMarshalEntry | check/check.go:37-42 | `json.Unmarshal` reads back exactly the record `json.Marshal` wrote |
| LegacyCheck.EntryOfCheck | check/check.go:110-115 | a check with one value per header has every header value, and `NewCheck` rebuilds it from its written record |
| LegacyCheck.AddAllRebuilds | check/check.go:95-101 | the records of the checks visited in an order, added to an empty list, give exactly those checks and no error |
| LegacyCheck.ListRecords | check/check.go:107-124 | the written array is accepted and reads back as the records of the visited checks |
| LegacyCheck.ListRoundTrip | check/check.go:88-124 | a list of single-valued checks written by `JSON()` and read by `AddFromJson` into an empty list is rebuilt exactly, without error |
| LegacyCheck.ChecksList.constructor | check/check.go:17 | a new list is empty |
| LegacyCheck.ChecksList.Add | check/check.go:84-86 | the check is stored under its key, replacing any earlier one |
| LegacyCheck.ChecksList.Wipe | check/check.go:158-162 | the list is empty |
| LegacyCheck.ChecksList.AddFromJson | check/check.go:88-105 | JSON that does not decode gives the read error and leaves the list unchanged. Otherwise the records are added in order, stopping at the first failing record with the configuration error |
| LegacyCheck.ChecksList.JSON | check/check.go:107-124 | the output is the records of every stored check, in some enumeration of the keys, or the panic |
| LegacyCheck.FirstValues | check/check.go:110-113 | keeps the first value of each header. It fails with the index panic exactly when some header has no value |
| Backend.Btou | backend/backend.go:30-35 | 1 exactly for true, and 0 exactly for false |
| Backend.Btos | backend/backend.go:37-42 | "UP" exactly for true, and "DOWN" exactly for false |
| Backend.Pool.Add | backend/backend.go:14-16 | the backend is a member, and adding a member again changes nothing |
| Backend.Pool.Log | backend/backend.go:18-22 | every member's `Log` is called once with the event, in some enumeration of the members, and nothing else is called |
| Backend.Pool.Close | backend/backend.go:24-28 | every member's `Close` is called once, in some enumeration of the members, and nothing else is called |
| Alert.Pool.Add | alert/alert.go:13-15 | the alerter is a member and no member is removed. Adding a member again changes nothing |
| Alert.Pool.Alert | alert/alert.go:17-21 | every member's `Alert` is called once with the same event, in some enumeration of the members. On an empty pool nothing happens |

## Left out

- **Durations.**
  - Durations.Parse: accepts only whole-second durations, written as a sign and then `<digits><h|m|s>` components, or "0". Go's `time.ParseDuration` also accepts `ns`, `us`, `µs`, `ms` and fractional components; the model refuses them.
  - Durations.Parse: the range checks follow current versions of Go's `time.ParseDuration`: a numeral above 1<<63, and a running total beyond the int64 nanosecond range. Older Go versions bound the total the same way but compute it differently.
  - Durations.Parse: its error texts leave out the quoted input, and the quoted unit, that Go appends to them.
  - Durations.Format: writes whole seconds only, the way Go's `Duration.String` does; sub-second durations are not modelled.
- **JSON.**
  - JSON is a value, not text. The model does not cover the byte syntax, string escaping, whitespace or `json.Compact`.
  - Numbers are integers.
  - Member names match struct fields up to ASCII case only. encoding/json also folds a few non-ASCII letters.
  - The texts of encoding/json and go-simplejson errors are approximations. Which inputs are refused follows the libraries.
- **Runtime panics.** These are modelled as error results:
  - a nil element in `NewCheckListFromJSON` (`NilEntry`);
  - `h[0]` on a header with no value in `ChecksList.JSON` (`IndexPanic`).
- **CheckJson.ToSettings.** `jsonCheck.toCheck` calls package poller's `NewCheck`, which is not part of this model. Its behaviour is taken from how check_json.go calls it and from the package tests (check/check_test.go:12-31, probe_udp_test.go:12, poll/http_test.go:35): it parses the interval, then the alert delay, except that an empty alert delay with alerting off is no delay; it keeps the key, flags and configuration. What it does with an empty alert delay while alerting is on, or with a non-empty one while alerting is off, is not shown by the tests; the model parses both. The model also assumes the check it builds has no type; this is why the list round trip gives checks back without their type.
- **PollerCheck.Check.** The struct and the bodies of `ShouldAlert` and `ShouldNotifyFix` are not part of this model. They are written from how the code uses them and from the package tests. The configuration keeps each value as the JSON it is written as, instead of the `Config` type and its `Map()`.
- **LegacyCheck.NewCheckOf.**
  - It does not parse the URL or resolve the address. The error they give, if any, is a parameter (`resolveError`; `resolve` in `AddFromJson`).
  - It does not canonicalise header names as `http.Header.Set` does.
  - Its `Addr` is not modelled.
  - `JSON()` writes the URL as given rather than `url.URL.String()`.
- **LegacyEvent.Check.** The `Check` struct of check/check.go has none of the fields check/event.go uses (`Alert`, `AlertDelay`, `NotifyFix`, `UpSince`, `DownSince`, `WasDownFor`, `Alerted`, `ShouldAlert`). The model reconstructs them from that use and borrows `ShouldAlert` from package poller (`PollerCheck.ShouldAlertAt`).
- **Timing.** Times are unbounded integers, with no monotonic clock and no saturation in `time.Time.Sub`. The event's `Duration` and `StatusCode` are set by the probes, which are not part of this model.
- **Concurrency.** Mutexes, goroutines and channels are left out: every operation is modelled sequentially. This covers `SimpleScheduler` and `Scheduler.Next`; the scheduler is only the interface, seen as the checks it polls.
- **Config.** `Config.Load` takes the outcome of the store's `Load` as a parameter. `Config.Persist` records the list it hands to the store; the store's error is dropped, as in the code. `fileStore` (file I/O), the `Scheduler()` getter and the `Store` interface's other implementations are left out.
- **Backends and alerters.** What they do is left out. The pools record the calls made on their members.
- **Check registry plumbing.** The `ServeHTTP` handler, the global `Checks` list and `FromJson` are left out. They are HTTP plumbing and a package-level wrapper of `AddFromJson`.
