/**
 * The messages exchanged with the DataWedge service: the commands the interface
 * broadcasts, the replies it receives, and how a reply is routed to a pending call.
 * Vendor strings that only travel as payload are kept as opaque values.
 */
module Protocol {
  import opened Wrappers
  import opened Barcode

  /** `COMMAND` values of the replies that carry a correlation id and a `RESULT`. */
  const CreateProfileAction: string := "com.symbol.datawedge.api.CREATE_PROFILE"
  const SetConfigAction: string := "com.symbol.datawedge.api.SET_CONFIG"
  const SoftScanAction: string := "com.symbol.datawedge.api.SOFT_SCAN_TRIGGER"

  /** The `RESULT` value that means the command succeeded. */
  const SuccessResult: string := "SUCCESS"

  /** The fixed correlation id of the profile-list query, whose reply carries no id. */
  const ProfilesId: string := "getProfiles"

  /** The intent action under which scans are delivered back to the app. */
  const ScanIntentAction: string := "com.icapps.zebra.SCAN"

  /** Keys of the barcode plugin's parameter bundle. */
  datatype ParamKey =
    | ScannerInputEnabled          // "scanner_input_enabled"
    | ScannerSelection             // "scanner_selection_by_identifier"
    | Decoder(type_: BarcodeType)  // written as DecoderName(type_)

  /** Kotlin's rendering of a boolean in a string template. */
  function FlagText(b: bool): string
  {
    if b then "true" else "false"
  }

  /**
   * The value the barcode plugin configuration gives each key: the scanner is enabled,
   * the internal imager is selected, and a decoder is on exactly when its type was requested.
   */
  function ParamValue(k: ParamKey, barcodes: set<BarcodeType>): string
  {
    match k
    case ScannerInputEnabled => "true"
    case ScannerSelection => "INTERNAL_IMAGER"
    case Decoder(t) => FlagText(t in barcodes)
  }

  /** Every key the barcode plugin configuration sets. */
  function ParamKeys(): set<ParamKey>
  {
    {ScannerInputEnabled, ScannerSelection} + set t | t in AllTypes() :: Decoder(t)
  }

  lemma ParamKeysComplete(k: ParamKey)
    ensures k in ParamKeys()
  {
    if k.Decoder? {
      AllTypesEnumerates(k.type_);
    }
  }

  /** The barcode plugin's parameter bundle for the requested symbologies. */
  function DecoderParams(barcodes: set<BarcodeType>): map<ParamKey, string>
  {
    map k | k in ParamKeys() :: ParamValue(k, barcodes)
  }

  /** The bundle sets every key, each to the value the configuration gives it. */
  lemma DecoderParamsComplete(barcodes: set<BarcodeType>)
    ensures forall k :: k in DecoderParams(barcodes) && DecoderParams(barcodes)[k] == ParamValue(k, barcodes)
  {
    forall k ensures k in DecoderParams(barcodes) {
      ParamKeysComplete(k);
    }
  }

  /**
   * Fills the barcode plugin's parameter bundle as the source does: the two scanner
   * keys, then one decoder flag per entry of `BarcodeType.values()`, in order.
   */
  method BarcodeParams(barcodes: set<BarcodeType>) returns (p: map<ParamKey, string>)
    ensures forall t :: Decoder(t) in p && p[Decoder(t)] == FlagText(t in barcodes)
    ensures p == DecoderParams(barcodes)
  {
    p := map[ScannerInputEnabled := "true", ScannerSelection := "INTERNAL_IMAGER"];
    var types := AllTypes();
    for i := 0 to |types|
      invariant forall k :: k in p ==> p[k] == ParamValue(k, barcodes)
      invariant ScannerInputEnabled in p && ScannerSelection in p
      invariant forall j :: 0 <= j < i ==> Decoder(types[j]) in p
    {
      p := p[Decoder(types[i]) := FlagText(types[i] in barcodes)];
    }
    forall t ensures Decoder(t) in p {
      AllTypesEnumerates(t);
    }
    DecoderParamsComplete(barcodes);
    assert forall k :: k in p by {
      forall k ensures k in p {
        if k.Decoder? {
          assert Decoder(k.type_) in p;
        }
      }
    }
    assert p.Keys == DecoderParams(barcodes).Keys;
  }

  /** A plugin section of a profile configuration. */
  datatype PluginConfig =
    | BarcodePlugin(params: map<ParamKey, string>, packageName: string)  // decoders, with the app's package associated
    | KeystrokePlugin                                                   // keystroke output switched off
    | IntentPlugin(intentAction: string, delivery: string)              // scans delivered as broadcast intents

  /** A `SET_CONFIG` bundle: the profile it updates and, optionally, one plugin section. */
  datatype ProfileConfig = ProfileConfig(profile: string, plugin: Option<PluginConfig>)

  /** The API extra a command carries. */
  datatype Action =
    | ListProfiles                  // GET_PROFILES_LIST
    | CreateProfile(name: string)   // CREATE_PROFILE
    | SetConfig(config: ProfileConfig)
    | SoftScanTrigger(start: bool)  // START_SCANNING / STOP_SCANNING

  /** An outbound command: its action, whether a result is requested, and its correlation id. */
  datatype Command = Command(action: Action, sendResult: bool, commandId: Option<string>)

  /** What a completed call is resolved with. */
  datatype Value = ProfileNames(names: seq<string>) | Flag(ok: bool)

  /**
   * The extras of an inbound result intent that the router reads: the profile list,
   * `COMMAND`, `COMMAND_IDENTIFIER` and `RESULT`; None stands for an absent extra.
   */
  datatype Reply = Reply(
    profileNames: Option<seq<string>>,
    command: Option<string>,
    commandId: Option<string>,
    result: Option<string>)

  /** Where a reply goes: a completion of a pending call, nowhere, or a crash on a missing id. */
  datatype Route = Complete(id: string, value: Value) | Ignore | MissingId

  /** The commands whose replies are acknowledgements carrying an id and a result. */
  predicate IsAcknowledged(command: Option<string>)
  {
    command == Some(CreateProfileAction) || command == Some(SetConfigAction) || command == Some(SoftScanAction)
  }

  /** The router's classification of a reply, in the source's priority order. */
  function RouteOf(m: Reply): (r: Route)
    // a profile list answers the fixed profile-list id, whatever the other extras say
    ensures m.profileNames.Some? <==> r.Complete? && r.value.ProfileNames?
    ensures m.profileNames.Some? ==> r == Complete(ProfilesId, ProfileNames(m.profileNames.value))
    // otherwise an acknowledgement completes its own id with "RESULT is SUCCESS"
    ensures r.Complete? && r.value.Flag? <==>
      m.profileNames.None? && IsAcknowledged(m.command) && m.commandId.Some?
    ensures r.Complete? && r.value.Flag? ==>
      Some(r.id) == m.commandId && (r.value.ok <==> m.result == Some(SuccessResult))
    // an acknowledgement without an id is where the source dereferences null
    ensures r.MissingId? <==> m.profileNames.None? && IsAcknowledged(m.command) && m.commandId.None?
    ensures r.Ignore? <==> m.profileNames.None? && !IsAcknowledged(m.command)
  {
    if m.profileNames.Some? then Complete(ProfilesId, ProfileNames(m.profileNames.value))
    else if IsAcknowledged(m.command) then
      if m.commandId.None? then MissingId
      else Complete(m.commandId.value, Flag(m.result == Some(SuccessResult)))
    else Ignore
  }
}
