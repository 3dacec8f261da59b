# DataWedge command/response correlator

A Dafny model of the Android side of the Zebra DataWedge Flutter plugin:
`DataWedgeInterface`. This object is the broadcast receiver that turns DataWedge's
asynchronous intent API into one future per call. It has three parts.

- **Gate.** Commands go through a FIFO queue and a `processing` flag. A queued command is
  broadcast only when the gate is idle or when a reply to a pending call releases it, so
  each release sends at most one more command. A release happens on any registry hit, not
  only on the reply to the command last sent. For example, a profile list that arrives while
  a scanner toggle is still unanswered releases the next command, and two commands are then
  outstanding.
- **Registry.** Each call registers its future under a correlation id. Most calls use a
  fresh UUID. The profile-list query uses the fixed id `"getProfiles"`, because DataWedge's
  profile-list reply carries no id. `onReceive` classifies each result intent and
  `dispatch` completes the matching future. It then removes the entry and releases the gate.
- **Setup chain.** `createProfile` issues four commands in sequence: create the profile,
  configure the barcode plugin, disable keystroke output, route scans to an intent. Each
  step runs in the `andThen` continuation of the previous step's future. The first
  failure resolves the caller's future with `false`. `updateProfile` starts the chain
  at the plugin step.

Modules:

- `Barcode` covers the 51 symbologies, their decoder keys, `values()`, and the plugin's
  name lookup.
- `Protocol` covers command and reply shapes, the barcode-plugin parameter bundle, and
  reply routing.
- `Gate` is the queue discipline as pure functions, with lemmas over arbitrary event runs.
- `Chain` is the step pipeline and how it reacts to replies.
- `DataWedge` holds the class `DataWedgeInterface`, whose fields are the source's fields
  plus the futures it handed out and the broadcasts it sent.

The class methods are specified against the `Gate` functions and the `Chain` functions.
A ghost invariant `Valid` is kept by every method. It says:

- every registered future is still pending;
- no two entries share a future;
- entries with a continuation live under generated ids;
- the gate is settled: nothing is queued while no command is in flight;
- back-pressure: there is at most one pending call beyond the queued commands, so a
  reply that finds a pending call always finds the gate busy.

The scenario `CreateProfileRefusedAtKeystroke` runs the setup chain on the class itself.
The creation and plugin steps succeed and the keystroke step is refused. Exactly three
commands go out, the caller's future resolves to `false`, and no call is left pending.

The scenario `ProfilesQueryTwice` shows a consequence of the fixed profile-list id.
Two queries issued before the first answer arrives leave the first caller's future
pending forever. The second answer then finds no entry, so the gate stays busy with
nothing left to release it. `Gate.BusyGateHoldsQueue` shows that every later queued
command then waits in the queue.

`destroy` (lines 50-54 of DataWedgeInterface.kt) clears the queue and the registry but
leaves `processing` as it was, and so does `Destroy`. A gate that was busy at that moment
therefore stays busy.

## Model

| member | source | states |
|---|---|---|
| Barcode.AllTypesEnumerates | packages/zebra_datawedge/android/src/main/kotlin/com/icapps/zebra/DataWedgeInterface.kt:320-372 | `values()` contains every entry, at the entry's declaration position |
| Barcode.AllTypesOrdinal | packages/zebra_datawedge/android/src/main/kotlin/com/icapps/zebra/DataWedgeInterface.kt:320-372 | `values()` holds each entry at most once: position k holds the entry whose ordinal is k |
| Barcode.FindByName | pkgs/zebra_datawedge/android/src/main/kotlin/com/icapps/zebra/ZebraPlugin.kt:92 | `find` returns the first entry of the list that carries the name (no earlier entry carries it), and returns none exactly when no entry of the list carries it |
| Barcode.FromDecoderNameSound | pkgs/zebra_datawedge/android/src/main/kotlin/com/icapps/zebra/ZebraPlugin.kt:92 | the plugin's lookup of a format name succeeds exactly when some entry has that decoder key, and the entry found carries that key |
| Barcode.ParseBarcodes | pkgs/zebra_datawedge/android/src/main/kotlin/com/icapps/zebra/ZebraPlugin.kt:92 | the requested names give a set exactly when every name resolves (otherwise `!!` throws); every member of the set is named, and every name has a member |
| Protocol.DecoderParamsComplete | packages/zebra_datawedge/android/src/main/kotlin/com/icapps/zebra/DataWedgeInterface.kt:128-133 | the plugin bundle sets every key: scanner input enabled, internal imager selected, and each decoder "true" exactly when its type was requested |
| Protocol.BarcodeParams | packages/zebra_datawedge/android/src/main/kotlin/com/icapps/zebra/DataWedgeInterface.kt:128-133 | the loop over `values()` gives every symbology the flag "true"/"false" for membership in the requested set, and yields exactly the bundle `DecoderParams` |
| Protocol.RouteOf | packages/zebra_datawedge/android/src/main/kotlin/com/icapps/zebra/DataWedgeInterface.kt:215-228 | a reply with a profile list completes "getProfiles" with the list whatever its other extras say; otherwise a CREATE_PROFILE / SET_CONFIG / SOFT_SCAN_TRIGGER reply completes its own id with "RESULT is SUCCESS", or reaches the null-id dereference when it has no id; everything else is ignored |
| Gate.AdvancedSpec | packages/zebra_datawedge/android/src/main/kotlin/com/icapps/zebra/DataWedgeInterface.kt:198-205 | tryProcess moves at most the head of the queue to the channel, and only when idle; order is kept and the gate is settled afterwards |
| Gate.SubmittedSpec | packages/zebra_datawedge/android/src/main/kotlin/com/icapps/zebra/DataWedgeInterface.kt:193-196 | sendCommand appends the command to everything sent or waiting and leaves a command in flight; on an idle settled gate the command goes out at once |
| Gate.ReleasedSpec | packages/zebra_datawedge/android/src/main/kotlin/com/icapps/zebra/DataWedgeInterface.kt:231-238 | a completed dispatch sends the next queued command if there is one, and is busy afterwards exactly when it did |
| Gate.ReleaseCommutesWithSubmit | packages/zebra_datawedge/android/src/main/kotlin/com/icapps/zebra/DataWedgeInterface.kt:234-236 | while a command is in flight, submitting before or after the release gives the same gate, so running a continuation inside or after the completion does not change the queue |
| Gate.RunKeepsQueueOrder | packages/zebra_datawedge/android/src/main/kotlin/com/icapps/zebra/DataWedgeInterface.kt:193-205 | over any run of submissions and releases, the channel log followed by the queue is the old log and queue followed by the submitted commands: nothing is lost, duplicated or reordered |
| Gate.RunDequeuesInOrder | packages/zebra_datawedge/android/src/main/kotlin/com/icapps/zebra/DataWedgeInterface.kt:193-205 | over any run, bypassing broadcasts included, the commands taken from the queue followed by what is still queued are the old queue followed by the submitted commands, in submission order |
| Gate.RunTransmitsDequeuedOrBypassed | packages/zebra_datawedge/android/src/main/kotlin/com/icapps/zebra/DataWedgeInterface.kt:164-167 | a run only appends to the channel, and every command it appends was either taken from the queue or is the command of one of the run's bypassing broadcasts; their numbers add up exactly |
| Gate.RunTransmitsAtMostOnePerRelease | packages/zebra_datawedge/android/src/main/kotlin/com/icapps/zebra/DataWedgeInterface.kt:198-205 | back-pressure: the commands sent never exceed the releases plus the bypassing broadcasts, plus one only if the gate went from idle to busy over the run |
| Gate.RunKeepsSettled | packages/zebra_datawedge/android/src/main/kotlin/com/icapps/zebra/DataWedgeInterface.kt:198-205 | a settled gate stays settled through any run of events |
| Gate.BusyGateHoldsQueue | packages/zebra_datawedge/android/src/main/kotlin/com/icapps/zebra/DataWedgeInterface.kt:199 | a busy gate that no reply releases sends nothing more: every submitted command stays queued, in order |
| Chain.Next | packages/zebra_datawedge/android/src/main/kotlin/com/icapps/zebra/DataWedgeInterface.kt:79-81 | each step's continuation issues the next step of the pipeline, and the last step issues none |
| Chain.Advance | packages/zebra_datawedge/android/src/main/kotlin/com/icapps/zebra/DataWedgeInterface.kt:113-115 | a failing reply resolves the chain with false; success on the last step resolves it with true; otherwise the next step is issued |
| Chain.IssuedFollowsPipeline | packages/zebra_datawedge/android/src/main/kotlin/com/icapps/zebra/DataWedgeInterface.kt:79-81 | a chain issues a contiguous run of the pipeline in pipeline order, never past the end |
| Chain.StopsAtFirstFailure | packages/zebra_datawedge/android/src/main/kotlin/com/icapps/zebra/DataWedgeInterface.kt:113-115 | the first failing reply ends the chain with false, and no later step is issued |
| Chain.SucceedsIffAllSucceed | packages/zebra_datawedge/android/src/main/kotlin/com/icapps/zebra/DataWedgeInterface.kt:153-155 | the chain resolves true exactly when every remaining step's reply succeeded, and then every remaining step was issued |
| DataWedge.IdText | packages/zebra_datawedge/android/src/main/kotlin/com/icapps/zebra/DataWedgeInterface.kt:68 | generated ids have the generated shape, and the n-th one has length n+1, so ids are pairwise distinct |
| DataWedge.ProfilesIdIsNotGenerated | packages/zebra_datawedge/android/src/main/kotlin/com/icapps/zebra/DataWedgeInterface.kt:36 | the fixed profile-list id is never a generated id |
| DataWedge.NextIdIsFresh | packages/zebra_datawedge/android/src/main/kotlin/com/icapps/zebra/DataWedgeInterface.kt:68 | under the registry invariant, the next generated id is not registered |
| DataWedge.RegisterKeepsRegistryOk | packages/zebra_datawedge/android/src/main/kotlin/com/icapps/zebra/DataWedgeInterface.kt:74-75 | registering a new future keeps the registry invariant; the fixed profile-list id may replace its earlier entry |
| DataWedge.CompleteKeepsRegistryOk | packages/zebra_datawedge/android/src/main/kotlin/com/icapps/zebra/DataWedgeInterface.kt:232-234 | removing and completing an entry keeps the invariant; the entry's future was pending; its continuation's caller future is still pending and held by no other entry |
| DataWedge.NewFutureKeepsRegistryOk | packages/zebra_datawedge/android/src/main/kotlin/com/icapps/zebra/DataWedgeInterface.kt:57 | a new future keeps the invariant, and no entry holds it yet |
| DataWedge.ResolveKeepsRegistryOk | packages/zebra_datawedge/android/src/main/kotlin/com/icapps/zebra/DataWedgeInterface.kt:80 | resolving a caller future that no entry holds keeps the invariant |
| DataWedge.DataWedgeInterface.constructor | packages/zebra_datawedge/android/src/main/kotlin/com/icapps/zebra/DataWedgeInterface.kt:39-41 | empty registry, empty queue, idle gate |
| DataWedge.DataWedgeInterface.TryProcess | packages/zebra_datawedge/android/src/main/kotlin/com/icapps/zebra/DataWedgeInterface.kt:198-205 | the new gate is `Gate.Advanced` of the old one, and it is settled |
| DataWedge.DataWedgeInterface.SendCommand | packages/zebra_datawedge/android/src/main/kotlin/com/icapps/zebra/DataWedgeInterface.kt:193-196 | the new gate is `Gate.Submitted` of the old one with the command, and it is settled |
| DataWedge.DataWedgeInterface.GetProfiles | packages/zebra_datawedge/android/src/main/kotlin/com/icapps/zebra/DataWedgeInterface.kt:56-65 | a new future is registered under "getProfiles", replacing any earlier entry; GET_PROFILES_LIST is submitted with no id and no result request; no UUID is used |
| DataWedge.DataWedgeInterface.ToggleScanner | packages/zebra_datawedge/android/src/main/kotlin/com/icapps/zebra/DataWedgeInterface.kt:290-302 | a new future is registered under a fresh id, and a SOFT_SCAN_TRIGGER command carrying that id and SEND_RESULT is submitted |
| DataWedge.DataWedgeInterface.StartScanning | packages/zebra_datawedge/android/src/main/kotlin/com/icapps/zebra/DataWedgeInterface.kt:240-242 | toggleScanner(true) |
| DataWedge.DataWedgeInterface.StopScanning | packages/zebra_datawedge/android/src/main/kotlin/com/icapps/zebra/DataWedgeInterface.kt:244-246 | toggleScanner(false) |
| DataWedge.DataWedgeInterface.CreateStep | packages/zebra_datawedge/android/src/main/kotlin/com/icapps/zebra/DataWedgeInterface.kt:67-77 | CREATE_PROFILE is submitted under a fresh id, with the continuation that leads to the plugin step |
| DataWedge.DataWedgeInterface.ConfigurePlugin | packages/zebra_datawedge/android/src/main/kotlin/com/icapps/zebra/DataWedgeInterface.kt:118-151 | SET_CONFIG with the barcode plugin bundle and the app's package is submitted under a fresh id, with the continuation that leads to the keystroke step |
| DataWedge.DataWedgeInterface.DisableKeystroke | packages/zebra_datawedge/android/src/main/kotlin/com/icapps/zebra/DataWedgeInterface.kt:88-111 | SET_CONFIG with keystroke output off is submitted under a fresh id, with the continuation that leads to the scan step |
| DataWedge.DataWedgeInterface.ConfigureScan | packages/zebra_datawedge/android/src/main/kotlin/com/icapps/zebra/DataWedgeInterface.kt:158-190 | a bare profile update is broadcast around the queue, then SET_CONFIG with the intent plugin (SCAN action, delivery 2) is submitted under a fresh id, with the last step's continuation |
| DataWedge.DataWedgeInterface.CreateProfile | packages/zebra_datawedge/android/src/main/kotlin/com/icapps/zebra/DataWedgeInterface.kt:67-82 | the caller gets a new pending future; the creation step is issued on its behalf under a fresh id |
| DataWedge.DataWedgeInterface.UpdateProfile | packages/zebra_datawedge/android/src/main/kotlin/com/icapps/zebra/DataWedgeInterface.kt:84-86 | the caller gets a new pending future; the chain starts at the plugin step |
| DataWedge.DataWedgeInterface.Continue | packages/zebra_datawedge/android/src/main/kotlin/com/icapps/zebra/DataWedgeInterface.kt:79-81 | the continuation resolves the caller's future with the chain's result, or issues the next step as `Chain.Advance` dictates |
| DataWedge.DataWedgeInterface.Dispatch | packages/zebra_datawedge/android/src/main/kotlin/com/icapps/zebra/DataWedgeInterface.kt:231-238 | a miss changes nothing; a hit finds the gate busy, completes the entry's pending future, removes the entry, runs its continuation and releases the gate; afterwards the id is not pending, so a repeated reply is a miss |
| DataWedge.DataWedgeInterface.OnReceive | packages/zebra_datawedge/android/src/main/kotlin/com/icapps/zebra/DataWedgeInterface.kt:207-229 | routes the reply by `Protocol.RouteOf`; reports the crash exactly on an acknowledgement without an id; ignored replies and misses change nothing; a profile list never completes a chain step |
| DataWedge.DataWedgeInterface.Destroy | packages/zebra_datawedge/android/src/main/kotlin/com/icapps/zebra/DataWedgeInterface.kt:50-54 | the queue and every pending call are dropped; `processing`, the futures and the sent log are kept |
| DataWedge.CreateProfileCreated | packages/zebra_datawedge/android/src/main/kotlin/com/icapps/zebra/DataWedgeInterface.kt:67-81 | after createProfile and a successful CREATE_PROFILE reply, the caller's future is pending, the plugin step is registered under the next id, and both commands were sent, the creation command first |
| DataWedge.CreateProfileConfigured | packages/zebra_datawedge/android/src/main/kotlin/com/icapps/zebra/DataWedgeInterface.kt:113-115 | after the plugin step's successful reply too, the keystroke step is registered under the third id, both step futures hold true, and the three commands were sent in order |
| DataWedge.CreateProfileRefusedAtKeystroke | packages/zebra_datawedge/android/src/main/kotlin/com/icapps/zebra/DataWedgeInterface.kt:79-81 | a chain whose replies are success, success, failure sends exactly three commands (create profile, plugin, keystroke), never issues the scan step, resolves the caller's future to false, and leaves the gate idle with no pending call |
| DataWedge.ProfilesQueryTwice | packages/zebra_datawedge/android/src/main/kotlin/com/icapps/zebra/DataWedgeInterface.kt:56-65 | after two profile queries and two answers, the first future is still pending, the second holds the first answer, and the gate is busy with no pending call |

## Left out

- Android transport: registering and unregistering the receiver (`init`, the first line of `destroy`), and the `Intent`/`Bundle` objects themselves. A command is a `Protocol.Command` value, and a received intent is a `Protocol.Reply` holding the extras the router reads.
- `retrieveIMEI` (lines 262-288) is a content-provider cursor query, which is I/O; an earlier draft of it at lines 248-260 is commented out. `Bundle.dump`/`dumpValue` and the `Log.e` call in `onReceive` only produce diagnostics.
- `UUID.randomUUID()` is modelled by a counter, `DataWedge.IdText`. The model assumes generated ids never collide with each other or with "getProfiles", which random UUIDs give only with overwhelming probability.
- ObservableFuture: each `andThen` produces a new future in Kotlin. The model collapses the chain into the one caller future that every step's continuation resolves. The continuation runs synchronously inside `Dispatch`, before the gate is released. `Dispatch` ensures the gate was busy on every hit, and for a busy gate `Gate.ReleaseCommutesWithSubmit` shows that the queue ends up the same either way. Only configureScan's bare broadcast can land before, rather than after, the command the release sends.
- DataWedge.DataWedgeInterface.OnReceive: the `id!!` dereference on an acknowledgement without an id throws in Kotlin. The model returns `crashed` and changes nothing.
- DataWedge.DataWedgeInterface.OnReceive: a profile-names extra that is present but not a string array makes `getStringArrayExtra(..)!!` throw. This is not modelled; the extra is either absent or a list.
- The unchecked cast in `dispatch` is modelled by the `Value` union. A flag may complete the "getProfiles" future if an acknowledgement carries that id.
- Constant payload that never varies is not modelled: PROFILE_ENABLED, CONFIG_MODE, PLUGIN_NAME, RESET_CONFIG, `keystroke_output_enabled`, `intent_output_enabled`. Each plugin constructor of `Protocol.PluginConfig` stands for its fixed keys.
- The barcode bundle is keyed by `Protocol.ParamKey` rather than by string. The 51 decoder key strings are pairwise distinct in the enum, but that distinctness is not proved.
- The Flutter method-channel layer of ZebraPlugin is not part of this model, apart from its name lookup (`Barcode.ParseBarcodes`) and its call to `destroy`.
