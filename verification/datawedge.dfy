/**
 * The DataWedge command/response correlator: the Android receiver that turns
 * asynchronous DataWedge broadcasts into per-call futures. Commands pass a
 * one-in-flight gate, a pending call is found again by its correlation id, and
 * profile creation chains four commands through `andThen` continuations.
 *
 * Futures are handles into `futures` (None while pending). Broadcasts sent are
 * recorded in `transmitted`. `UUID.randomUUID()` is modelled by a counter that
 * yields a new id each time.
 */
module DataWedge {
  import opened Wrappers
  import opened Barcode
  import opened Protocol
  import Gate
  import Chain

  /** The `andThen` continuation of a chain step: what to issue next, and the caller's future. */
  datatype Link = Link(step: Chain.Step, profile: string, barcodes: set<BarcodeType>, outer: nat)

  /** A registry entry: the future a reply completes, and the continuation attached to it, if any. */
  datatype Waiter = Waiter(future: nat, link: Option<Link>)

  /** The future handles an entry holds. */
  function Handles(w: Waiter): set<nat>
  {
    {w.future} + if w.link.Some? then {w.link.value.outer} else {}
  }

  /** The n-th id `UUID.randomUUID()` hands out. */
  function IdText(n: nat): (id: string)
    ensures |id| == n + 1 && id[0] == '#'
  {
    seq(n + 1, _ => '#')
  }

  /** Whether `id` has the shape of a generated id. */
  predicate IsGenerated(id: string)
  {
    |id| > 0 && id[0] == '#'
  }

  /** The fixed profile-list id is never a generated one. */
  lemma ProfilesIdIsNotGenerated()
    ensures !IsGenerated(ProfilesId)
  {
    assert ProfilesId[0] == 'g';
  }

  /** getProfiles' command: GET_PROFILES_LIST, with no SEND_RESULT and no id. */
  const ProfilesCommand: Command := Command(ListProfiles, false, None)

  /** toggleScanner's command. */
  function ToggleCommand(on: bool, id: string): Command
  {
    Command(SoftScanTrigger(on), true, Some(id))
  }

  /** The bare profile update configureScan broadcasts around the queue. */
  function ProfileOnlyCommand(profile: string): Command
  {
    Command(SetConfig(ProfileConfig(profile, None)), false, None)
  }

  /** The queued command of each chain step, with SEND_RESULT and its id. */
  function StepCommand(step: Chain.Step, profile: string, barcodes: set<BarcodeType>, packageName: string, id: string): Command
  {
    match step
    case CreateStep => Command(CreateProfile(profile), true, Some(id))
    case PluginStep =>
      Command(SetConfig(ProfileConfig(profile, Some(BarcodePlugin(DecoderParams(barcodes), packageName)))), true, Some(id))
    case KeystrokeStep => Command(SetConfig(ProfileConfig(profile, Some(KeystrokePlugin))), true, Some(id))
    case ScanStep => Command(SetConfig(ProfileConfig(profile, Some(IntentPlugin(ScanIntentAction, "2")))), true, Some(id))
  }

  /** The gate after issuing a chain step: configureScan's bare broadcast first, then the queued command. */
  function StepGate(g: Gate.Gate, step: Chain.Step, profile: string, barcodes: set<BarcodeType>, packageName: string, id: string): Gate.Gate
  {
    var g' := if step == Chain.ScanStep then Gate.Broadcast(g, ProfileOnlyCommand(profile)) else g;
    Gate.Submitted(g', StepCommand(step, profile, barcodes, packageName, id))
  }

  /** What completing entry `w` with `v` sets off: nothing for a plain call, the next chain state otherwise. */
  function Reaction(w: Waiter, v: Value): Option<Chain.Progress>
  {
    if w.link.Some? && v.Flag? then Some(Chain.Advance(w.link.value.step, v.ok)) else None
  }

  /** An entry's futures exist and are still pending, and a chain's caller future is not the step's own. */
  predicate Live(w: Waiter, futures: seq<Option<Value>>)
  {
    && w.future < |futures| && futures[w.future].None?
    && (w.link.Some? ==>
          w.link.value.outer < |futures| && futures[w.link.value.outer].None? && w.link.value.outer != w.future)
  }

  /** `id` has an entry. */
  predicate Registered(waiting: map<string, Waiter>, id: string)
  {
    id in waiting
  }

  /** The entry under `id`. */
  function Entry(waiting: map<string, Waiter>, id: string): Waiter
    requires id in waiting
  {
    waiting[id]
  }

  /** No entry holds handle `h`. */
  ghost predicate Unclaimed(waiting: map<string, Waiter>, h: nat)
  {
    forall id {:trigger Registered(waiting, id)} :: Registered(waiting, id) ==> h !in Handles(Entry(waiting, id))
  }

  /**
   * The registry's invariant: every entry's futures are pending, no two entries share
   * a future (so each future is completed at most once), chain entries sit under
   * generated ids, and every generated id in use was handed out already.
   */
  ghost predicate RegistryOk(waiting: map<string, Waiter>, futures: seq<Option<Value>>, issued: nat)
  {
    && (forall id {:trigger Registered(waiting, id)} :: Registered(waiting, id) ==> Live(Entry(waiting, id), futures))
    && (forall a, b {:trigger Registered(waiting, a), Registered(waiting, b)} :: Registered(waiting, a) && Registered(waiting, b) && a != b ==>
          Handles(Entry(waiting, a)) !! Handles(Entry(waiting, b)))
    && (forall id {:trigger Registered(waiting, id)} :: Registered(waiting, id) && Entry(waiting, id).link.Some? ==> IsGenerated(id))
    && (forall id {:trigger Registered(waiting, id)} :: Registered(waiting, id) && IsGenerated(id) ==> |id| <= issued)
  }

  /** The next generated id is not in use. */
  lemma NextIdIsFresh(waiting: map<string, Waiter>, futures: seq<Option<Value>>, issued: nat)
    requires RegistryOk(waiting, futures, issued)
    ensures IdText(issued) !in waiting
  {
    assert Registered(waiting, IdText(issued)) ==> |IdText(issued)| <= issued;
  }

  lemma MoreIdsKeepRegistryOk(waiting: map<string, Waiter>, futures: seq<Option<Value>>, issued: nat, issued': nat)
    requires RegistryOk(waiting, futures, issued) && issued <= issued'
    ensures RegistryOk(waiting, futures, issued')
  {
  }

  /**
   * Registering a new future under `id` keeps the invariant; the fixed profile-list id
   * may be registered again, dropping the entry it held.
   */
  lemma RegisterKeepsRegistryOk(waiting: map<string, Waiter>, futures: seq<Option<Value>>, issued: nat,
                                id: string, link: Option<Link>)
    requires RegistryOk(waiting, futures, issued)
    requires IsGenerated(id) ==> |id| <= issued
    requires link.Some? ==> IsGenerated(id) && id !in waiting
    requires link.Some? ==> link.value.outer < |futures| && futures[link.value.outer].None?
    requires link.Some? ==> Unclaimed(waiting, link.value.outer)
    ensures RegistryOk(waiting[id := Waiter(|futures|, link)], futures + [None], issued)
  {
    var waiting', futures' := waiting[id := Waiter(|futures|, link)], futures + [None];
    forall k | Registered(waiting', k)
      ensures Live(Entry(waiting', k), futures')
    {
      if k != id {
        assert Registered(waiting, k) && Live(Entry(waiting, k), futures);
      }
    }
    forall a, b | Registered(waiting', a) && Registered(waiting', b) && a != b
      ensures Handles(Entry(waiting', a)) !! Handles(Entry(waiting', b))
    {
      if a != id && b != id {
        assert Registered(waiting, a) && Registered(waiting, b);
      } else {
        var other := if a == id then b else a;
        assert Registered(waiting, other) && Live(Entry(waiting, other), futures);
        if link.Some? {
          assert link.value.outer !in Handles(Entry(waiting, other));
        }
      }
    }
    forall k | Registered(waiting', k) && k != id
      ensures Registered(waiting, k) && Entry(waiting', k) == Entry(waiting, k)
    {
    }
  }

  /** Completing and removing an entry keeps the invariant and frees its continuation's caller future. */
  lemma CompleteKeepsRegistryOk(waiting: map<string, Waiter>, futures: seq<Option<Value>>, issued: nat,
                                id: string, v: Value)
    requires RegistryOk(waiting, futures, issued) && id in waiting
    ensures Live(waiting[id], futures)
    ensures RegistryOk(waiting - {id}, futures[waiting[id].future := Some(v)], issued)
    ensures waiting[id].link.Some? ==>
      var outer := waiting[id].link.value.outer;
      && outer < |futures| && futures[waiting[id].future := Some(v)][outer].None?
      && Unclaimed(waiting - {id}, outer)
  {
    var w := waiting[id];
    assert Registered(waiting, id) && Live(Entry(waiting, id), futures);
    var waiting', futures' := waiting - {id}, futures[w.future := Some(v)];
    forall k | Registered(waiting', k)
      ensures Registered(waiting, k) && Entry(waiting', k) == Entry(waiting, k)
      ensures Live(Entry(waiting', k), futures')
      ensures w.link.Some? ==> w.link.value.outer !in Handles(Entry(waiting', k))
    {
      assert Registered(waiting, k) && Live(Entry(waiting, k), futures);
      assert Handles(Entry(waiting, k)) !! Handles(Entry(waiting, id));
    }
  }

  /** A new future keeps the invariant, and no entry holds it yet. */
  lemma NewFutureKeepsRegistryOk(waiting: map<string, Waiter>, futures: seq<Option<Value>>, issued: nat)
    requires RegistryOk(waiting, futures, issued)
    ensures RegistryOk(waiting, futures + [None], issued)
    ensures Unclaimed(waiting, |futures|)
  {
    forall k | Registered(waiting, k)
      ensures Live(Entry(waiting, k), futures + [None]) && |futures| !in Handles(Entry(waiting, k))
    {
      assert Live(Entry(waiting, k), futures);
    }
  }

  /** Resolving an unclaimed future keeps the invariant. */
  lemma ResolveKeepsRegistryOk(waiting: map<string, Waiter>, futures: seq<Option<Value>>, issued: nat,
                               h: nat, v: Value)
    requires RegistryOk(waiting, futures, issued) && h < |futures| && Unclaimed(waiting, h)
    ensures RegistryOk(waiting, futures[h := Some(v)], issued)
  {
    forall k | Registered(waiting, k)
      ensures Live(Entry(waiting, k), futures[h := Some(v)])
    {
      assert Live(Entry(waiting, k), futures);
      assert h !in Handles(Entry(waiting, k));
    }
  }

  class DataWedgeInterface {
    /** `appContext.packageName`, associated with every configured profile. */
    const packageName: string
    /** Pending calls by correlation id. */
    var waitingCommands: map<string, Waiter>
    /** Commands waiting for the gate, head first. */
    var commandQueue: seq<Command>
    /** Whether a queued command is in flight. */
    var processing: bool
    /** Every broadcast sent to DataWedge, in order. */
    var transmitted: seq<Command>
    /** The state of every future handed out: None while pending. */
    var futures: seq<Option<Value>>
    /** How many ids `UUID.randomUUID()` has produced. */
    var issuedIds: nat

    function GateOf(): Gate.Gate
      reads this
    {
      Gate.Gate(commandQueue, processing, transmitted)
    }

    ghost predicate Valid()
      reads this
    {
      && RegistryOk(waitingCommands, futures, issuedIds)
      && Gate.Settled(GateOf())
      // back-pressure: at most one pending call beyond the queued commands, so a reply
      // that finds a pending call always finds the gate busy
      && |waitingCommands| <= |commandQueue| + Gate.Indicator(processing)
    }

    constructor(packageName: string)
      ensures Valid()
      ensures this.packageName == packageName
      ensures waitingCommands == map[] && commandQueue == [] && !processing
      ensures transmitted == [] && futures == [] && issuedIds == 0
    {
      this.packageName := packageName;
      waitingCommands := map[];
      commandQueue := [];
      processing := false;
      transmitted := [];
      futures := [];
      issuedIds := 0;
    }

    /** A new pending future. */
    method NewFuture() returns (h: nat)
      modifies this`futures
      ensures h == |old(futures)| && futures == old(futures) + [None]
    {
      h := |futures|;
      futures := futures + [None];
    }

    /** `UUID.randomUUID().toString()`. */
    method RandomId() returns (id: string)
      modifies this`issuedIds
      ensures id == IdText(old(issuedIds)) && issuedIds == old(issuedIds) + 1
    {
      id := IdText(issuedIds);
      issuedIds := issuedIds + 1;
    }

    /** tryProcess: broadcast the queue's head unless a command is in flight. */
    method TryProcess()
      modifies this`commandQueue, this`processing, this`transmitted
      ensures GateOf() == Gate.Advanced(old(GateOf()))
      ensures Gate.Settled(GateOf())
    {
      Gate.AdvancedSpec(GateOf());
      if processing {
        return;
      }
      if commandQueue == [] {
        return;
      }
      processing := true;
      var command := commandQueue[0];
      commandQueue := commandQueue[1..];
      transmitted := transmitted + [command];
    }

    /** sendCommand: queue the command, then try to process. */
    method SendCommand(command: Command)
      modifies this`commandQueue, this`processing, this`transmitted
      ensures GateOf() == Gate.Submitted(old(GateOf()), command)
      ensures Gate.Settled(GateOf())
    {
      commandQueue := commandQueue + [command];
      TryProcess();
    }

    /** The state after a new future was registered under `id` and `command` was sent. */
    twostate predicate Requested(id: string, link: Option<Link>, g: Gate.Gate)
      reads this
    {
      && futures == old(futures) + [None]
      && waitingCommands == old(waitingCommands)[id := Waiter(|old(futures)|, link)]
      && GateOf() == g
    }

    /** getProfiles: the fixed id takes the new future, replacing any earlier one. */
    method GetProfiles() returns (f: nat)
      requires Valid()
      modifies this
      ensures Valid()
      ensures f == |old(futures)|
      ensures Requested(ProfilesId, None, Gate.Submitted(old(GateOf()), ProfilesCommand))
      ensures issuedIds == old(issuedIds)
    {
      ProfilesIdIsNotGenerated();
      RegisterKeepsRegistryOk(waitingCommands, futures, issuedIds, ProfilesId, None);
      f := NewFuture();
      waitingCommands := waitingCommands[ProfilesId := Waiter(f, None)];
      SendCommand(ProfilesCommand);
    }

    /** toggleScanner: a SOFT_SCAN_TRIGGER command under a new id. */
    method ToggleScanner(on: bool) returns (f: nat)
      requires Valid()
      modifies this
      ensures Valid()
      ensures f == |old(futures)| && issuedIds == old(issuedIds) + 1
      ensures IdText(old(issuedIds)) !in old(waitingCommands)
      ensures Requested(IdText(old(issuedIds)), None,
                Gate.Submitted(old(GateOf()), ToggleCommand(on, IdText(old(issuedIds)))))
    {
      NextIdIsFresh(waitingCommands, futures, issuedIds);
      MoreIdsKeepRegistryOk(waitingCommands, futures, issuedIds, issuedIds + 1);
      var id := RandomId();
      RegisterKeepsRegistryOk(waitingCommands, futures, issuedIds, id, None);
      f := NewFuture();
      waitingCommands := waitingCommands[id := Waiter(f, None)];
      SendCommand(ToggleCommand(on, id));
    }

    method StartScanning() returns (f: nat)
      requires Valid()
      modifies this
      ensures Valid()
      ensures f == |old(futures)| && issuedIds == old(issuedIds) + 1
      ensures Requested(IdText(old(issuedIds)), None,
                Gate.Submitted(old(GateOf()), ToggleCommand(true, IdText(old(issuedIds)))))
    {
      f := ToggleScanner(true);
    }

    method StopScanning() returns (f: nat)
      requires Valid()
      modifies this
      ensures Valid()
      ensures f == |old(futures)| && issuedIds == old(issuedIds) + 1
      ensures Requested(IdText(old(issuedIds)), None,
                Gate.Submitted(old(GateOf()), ToggleCommand(false, IdText(old(issuedIds)))))
    {
      f := ToggleScanner(false);
    }

    /** The state after chain step `step` was issued on behalf of the caller's future `outer`. */
    twostate predicate StepIssued(step: Chain.Step, profile: string, barcodes: set<BarcodeType>, outer: nat)
      reads this
    {
      var id := IdText(old(issuedIds));
      && issuedIds == old(issuedIds) + 1
      && id !in old(waitingCommands)
      && Requested(id, Some(Link(step, profile, barcodes, outer)),
           StepGate(old(GateOf()), step, profile, barcodes, packageName, id))
    }

    /** The shared tail of every step: register a new future under `id` with its continuation, then send. */
    method Request(id: string, link: Link, command: Command)
      requires Valid()
      requires id !in waitingCommands && IsGenerated(id) && |id| <= issuedIds
      requires link.outer < |futures| && futures[link.outer].None? && Unclaimed(waitingCommands, link.outer)
      modifies this`futures, this`waitingCommands, this`commandQueue, this`processing, this`transmitted
      ensures Valid()
      ensures Requested(id, Some(link), Gate.Submitted(old(GateOf()), command))
    {
      RegisterKeepsRegistryOk(waitingCommands, futures, issuedIds, id, Some(link));
      var f := NewFuture();
      waitingCommands := waitingCommands[id := Waiter(f, Some(link))];
      SendCommand(command);
    }

    /** The chain step that creates the profile. */
    method CreateStep(name: string, barcodes: set<BarcodeType>, outer: nat)
      requires Valid()
      requires outer < |futures| && futures[outer].None? && Unclaimed(waitingCommands, outer)
      modifies this
      ensures Valid()
      ensures StepIssued(Chain.CreateStep, name, barcodes, outer)
    {
      NextIdIsFresh(waitingCommands, futures, issuedIds);
      MoreIdsKeepRegistryOk(waitingCommands, futures, issuedIds, issuedIds + 1);
      var id := RandomId();
      var command := Command(Action.CreateProfile(name), true, Some(id));
      Request(id, Link(Chain.CreateStep, name, barcodes, outer), command);
    }

    /** configurePlugin: the barcode plugin with the requested decoders, associated with the app. */
    method ConfigurePlugin(name: string, barcodes: set<BarcodeType>, outer: nat)
      requires Valid()
      requires outer < |futures| && futures[outer].None? && Unclaimed(waitingCommands, outer)
      modifies this
      ensures Valid()
      ensures StepIssued(Chain.PluginStep, name, barcodes, outer)
    {
      var params := BarcodeParams(barcodes);
      var config := ProfileConfig(name, Some(BarcodePlugin(params, packageName)));
      NextIdIsFresh(waitingCommands, futures, issuedIds);
      MoreIdsKeepRegistryOk(waitingCommands, futures, issuedIds, issuedIds + 1);
      var id := RandomId();
      Request(id, Link(Chain.PluginStep, name, barcodes, outer), Command(SetConfig(config), true, Some(id)));
    }

    /** disableKeystroke: keystroke output off. */
    method DisableKeystroke(name: string, barcodes: set<BarcodeType>, outer: nat)
      requires Valid()
      requires outer < |futures| && futures[outer].None? && Unclaimed(waitingCommands, outer)
      modifies this
      ensures Valid()
      ensures StepIssued(Chain.KeystrokeStep, name, barcodes, outer)
    {
      var config := ProfileConfig(name, Some(KeystrokePlugin));
      NextIdIsFresh(waitingCommands, futures, issuedIds);
      MoreIdsKeepRegistryOk(waitingCommands, futures, issuedIds, issuedIds + 1);
      var id := RandomId();
      Request(id, Link(Chain.KeystrokeStep, name, barcodes, outer), Command(SetConfig(config), true, Some(id)));
    }

    /** configureScan: a bare profile update around the queue, then the intent plugin through it. */
    method ConfigureScan(name: string, barcodes: set<BarcodeType>, outer: nat)
      requires Valid()
      requires outer < |futures| && futures[outer].None? && Unclaimed(waitingCommands, outer)
      modifies this
      ensures Valid()
      ensures StepIssued(Chain.ScanStep, name, barcodes, outer)
    {
      transmitted := transmitted + [ProfileOnlyCommand(name)];
      var config := ProfileConfig(name, Some(IntentPlugin(ScanIntentAction, "2")));
      NextIdIsFresh(waitingCommands, futures, issuedIds);
      MoreIdsKeepRegistryOk(waitingCommands, futures, issuedIds, issuedIds + 1);
      var id := RandomId();
      Request(id, Link(Chain.ScanStep, name, barcodes, outer), Command(SetConfig(config), true, Some(id)));
    }

    /** createProfile: the caller's future, resolved by the chain that starts with profile creation. */
    method CreateProfile(name: string, barcodes: set<BarcodeType>) returns (f: nat)
      requires Valid()
      modifies this
      ensures Valid()
      ensures f == |old(futures)|
      ensures var id := IdText(old(issuedIds));
        && issuedIds == old(issuedIds) + 1
        && id !in old(waitingCommands)
        && futures == old(futures) + [None, None]
        && waitingCommands == old(waitingCommands)[id := Waiter(f + 1, Some(Link(Chain.CreateStep, name, barcodes, f)))]
        && GateOf() == StepGate(old(GateOf()), Chain.CreateStep, name, barcodes, packageName, id)
    {
      NewFutureKeepsRegistryOk(waitingCommands, futures, issuedIds);
      f := NewFuture();
      CreateStep(name, barcodes, f);
    }

    /** updateProfile: the chain without the creation step. */
    method UpdateProfile(name: string, barcodes: set<BarcodeType>) returns (f: nat)
      requires Valid()
      modifies this
      ensures Valid()
      ensures f == |old(futures)|
      ensures var id := IdText(old(issuedIds));
        && issuedIds == old(issuedIds) + 1
        && id !in old(waitingCommands)
        && futures == old(futures) + [None, None]
        && waitingCommands == old(waitingCommands)[id := Waiter(f + 1, Some(Link(Chain.PluginStep, name, barcodes, f)))]
        && GateOf() == StepGate(old(GateOf()), Chain.PluginStep, name, barcodes, packageName, id)
    {
      NewFutureKeepsRegistryOk(waitingCommands, futures, issuedIds);
      f := NewFuture();
      ConfigurePlugin(name, barcodes, f);
    }

    /** The `andThen` continuation: resolve the caller's future, or issue the next step. */
    method Continue(link: Link, ok: bool)
      requires Valid()
      requires link.outer < |futures| && futures[link.outer].None? && Unclaimed(waitingCommands, link.outer)
      modifies this
      ensures Valid()
      ensures match Chain.Advance(link.step, ok)
        case Finished(r) =>
          && futures == old(futures)[link.outer := Some(Flag(r))]
          && waitingCommands == old(waitingCommands) && issuedIds == old(issuedIds)
          && GateOf() == old(GateOf())
        case Running(n) => StepIssued(n, link.profile, link.barcodes, link.outer)
      // on a busy gate a step both registers and queues one command
      ensures old(processing) ==>
        processing && |waitingCommands| + |old(commandQueue)| == |old(waitingCommands)| + |commandQueue|
    {
      match Chain.Advance(link.step, ok)
      case Finished(r) =>
        ResolveKeepsRegistryOk(waitingCommands, futures, issuedIds, link.outer, Flag(r));
        futures := futures[link.outer := Some(Flag(r))];
      case Running(n) =>
        if n == Chain.PluginStep {
          ConfigurePlugin(link.profile, link.barcodes, link.outer);
        } else if n == Chain.KeystrokeStep {
          DisableKeystroke(link.profile, link.barcodes, link.outer);
        } else {
          ConfigureScan(link.profile, link.barcodes, link.outer);
        }
    }

    /**
     * The state after dispatch found `id` pending and completed it with `v`: the entry
     * is gone, its future holds `v`, its continuation has run, and the gate was released.
     */
    twostate predicate Dispatched(id: string, v: Value)
      reads this
    {
      id in old(waitingCommands) && Live(old(waitingCommands)[id], old(futures)) &&
      var w := old(waitingCommands)[id];
      var rest := old(waitingCommands) - {id};
      var done := old(futures)[w.future := Some(v)];
      match Reaction(w, v)
      case None =>
        && futures == done && waitingCommands == rest && issuedIds == old(issuedIds)
        && GateOf() == Gate.Released(old(GateOf()))
      case Some(Finished(r)) =>
        && futures == done[w.link.value.outer := Some(Flag(r))]
        && waitingCommands == rest && issuedIds == old(issuedIds)
        && GateOf() == Gate.Released(old(GateOf()))
      case Some(Running(n)) =>
        var L := w.link.value;
        var next := IdText(old(issuedIds));
        && futures == done + [None]
        && waitingCommands == rest[next := Waiter(|old(futures)|, Some(L.(step := n)))]
        && issuedIds == old(issuedIds) + 1
        && GateOf() == Gate.Released(StepGate(old(GateOf()), n, L.profile, L.barcodes, packageName, next))
    }

    /** dispatch: complete and forget the pending call, run its continuation, release the gate. */
    method Dispatch(id: string, v: Value)
      requires Valid()
      modifies this
      ensures Valid()
      ensures id !in old(waitingCommands) ==> unchanged(this)
      ensures id in old(waitingCommands) ==> Live(old(waitingCommands)[id], old(futures))
      // so releasing after the continuation equals releasing before it (Gate.ReleaseCommutesWithSubmit)
      ensures id in old(waitingCommands) ==> old(processing)
      ensures id in old(waitingCommands) ==> Dispatched(id, v)
      // a consumed id is gone, so a repeated reply is a miss
      ensures id !in waitingCommands
    {
      if id in waitingCommands {
        var w := waitingCommands[id];
        NextIdIsFresh(waitingCommands, futures, issuedIds);
        CompleteKeepsRegistryOk(waitingCommands, futures, issuedIds, id, v);
        assert id in waitingCommands.Keys;
        waitingCommands := waitingCommands - {id};
        futures := futures[w.future := Some(v)];
        if w.link.Some? && v.Flag? {
          Continue(w.link.value, v.ok);
        }
        assert |waitingCommands| <= |commandQueue|;
        Gate.ReleasedSpec(GateOf());
        processing := false;
        TryProcess();
      }
    }

    /** onReceive: route a result intent to its pending call; `crashed` marks the null id dereference. */
    method OnReceive(m: Reply) returns (crashed: bool)
      requires Valid()
      modifies this
      ensures Valid()
      ensures crashed <==> RouteOf(m).MissingId?
      // a profile list never lands on a chain step
      ensures m.profileNames.Some? && ProfilesId in old(waitingCommands) ==>
        old(waitingCommands)[ProfilesId].link.None?
      ensures !RouteOf(m).Complete? ==> unchanged(this)
      ensures RouteOf(m).Complete? && RouteOf(m).id !in old(waitingCommands) ==> unchanged(this)
      ensures RouteOf(m).Complete? && RouteOf(m).id in old(waitingCommands) ==>
        Dispatched(RouteOf(m).id, RouteOf(m).value)
    {
      crashed := false;
      if m.profileNames.Some? && ProfilesId in waitingCommands {
        ProfilesIdIsNotGenerated();
        assert Registered(waitingCommands, ProfilesId);
      }
      match RouteOf(m)
      case Complete(id, v) =>
        Dispatch(id, v);
      case MissingId =>
        crashed := true;
      case Ignore =>
    }

    /** destroy: drop the queue and every pending call; the in-flight flag is left as it is. */
    method Destroy()
      requires Valid()
      modifies this
      ensures Valid()
      ensures commandQueue == [] && waitingCommands == map[]
      ensures processing == old(processing) && transmitted == old(transmitted)
      ensures futures == old(futures) && issuedIds == old(issuedIds)
    {
      commandQueue := [];
      waitingCommands := map[];
    }
  }

  /**
   * Two profile-list queries before the first answer: the first answer completes the
   * second caller's future, the first caller's future is never completed, and the
   * second answer is a miss that leaves the gate busy with no pending call left to
   * release it (see Gate.BusyGateHoldsQueue for what then happens to later commands).
   */
  method ProfilesQueryTwice(packageName: string, names: seq<string>, names': seq<string>)
    returns (dw: DataWedgeInterface, first: nat, second: nat)
    ensures first < |dw.futures| && dw.futures[first] == None
    ensures second < |dw.futures| && dw.futures[second] == Some(ProfileNames(names))
    ensures dw.transmitted == [ProfilesCommand, ProfilesCommand]
    ensures dw.processing && dw.commandQueue == [] && dw.waitingCommands == map[]
  {
    dw := new DataWedgeInterface(packageName);
    first := dw.GetProfiles();
    assert dw.GateOf() == Gate.Gate([], true, [ProfilesCommand]);
    second := dw.GetProfiles();
    assert dw.waitingCommands == map[ProfilesId := Waiter(second, None)];
    assert dw.GateOf() == Gate.Gate([ProfilesCommand], true, [ProfilesCommand]);
    var crashed := dw.OnReceive(Reply(Some(names), None, None, None));
    assert dw.waitingCommands == map[] && dw.futures == [None, Some(ProfileNames(names))];
    assert dw.GateOf() == Gate.Gate([], true, [ProfilesCommand, ProfilesCommand]);
    crashed := dw.OnReceive(Reply(Some(names'), None, None, None));
  }

  /** createProfile whose creation step is acknowledged: the plugin step is in flight for the caller's future. */
  method CreateProfileCreated(packageName: string, name: string, barcodes: set<BarcodeType>)
    returns (dw: DataWedgeInterface, f: nat)
    ensures fresh(dw)
    ensures dw.Valid() && dw.packageName == packageName && f == 0 && dw.issuedIds == 2
    ensures dw.waitingCommands == map[IdText(1) := Waiter(2, Some(Link(Chain.PluginStep, name, barcodes, 0)))]
    ensures dw.futures == [None, Some(Flag(true)), None]
    ensures dw.GateOf() == Gate.Gate([], true, [StepCommand(Chain.CreateStep, name, barcodes, packageName, IdText(0)),
                                                StepCommand(Chain.PluginStep, name, barcodes, packageName, IdText(1))])
  {
    dw := new DataWedgeInterface(packageName);
    f := dw.CreateProfile(name, barcodes);
    assert dw.waitingCommands == map[IdText(0) := Waiter(1, Some(Link(Chain.CreateStep, name, barcodes, 0)))];
    var crashed := dw.OnReceive(Reply(None, Some(CreateProfileAction), Some(IdText(0)), Some(SuccessResult)));
  }

  /** createProfile whose plugin step is acknowledged too: the keystroke step is in flight. */
  method CreateProfileConfigured(packageName: string, name: string, barcodes: set<BarcodeType>)
    returns (dw: DataWedgeInterface, f: nat)
    ensures fresh(dw)
    ensures dw.Valid() && dw.packageName == packageName && f == 0 && dw.issuedIds == 3
    ensures dw.waitingCommands == map[IdText(2) := Waiter(3, Some(Link(Chain.KeystrokeStep, name, barcodes, 0)))]
    ensures dw.futures == [None, Some(Flag(true)), Some(Flag(true)), None]
    ensures dw.GateOf() == Gate.Gate([], true, [StepCommand(Chain.CreateStep, name, barcodes, packageName, IdText(0)),
                                                StepCommand(Chain.PluginStep, name, barcodes, packageName, IdText(1)),
                                                StepCommand(Chain.KeystrokeStep, name, barcodes, packageName, IdText(2))])
  {
    dw, f := CreateProfileCreated(packageName, name, barcodes);
    var crashed := dw.OnReceive(Reply(None, Some(SetConfigAction), Some(IdText(1)), Some(SuccessResult)));
  }

  /**
   * createProfile whose keystroke step is refused: the creation and plugin steps
   * succeed, the third reply fails, so exactly three commands were sent, the
   * scan step is never issued, the caller's future resolves to false, and the
   * gate is idle with no pending call left.
   */
  method CreateProfileRefusedAtKeystroke(packageName: string, name: string, barcodes: set<BarcodeType>)
    returns (dw: DataWedgeInterface, f: nat)
    ensures f < |dw.futures| && dw.futures[f] == Some(Flag(false))
    ensures |dw.transmitted| == 3
    ensures dw.transmitted[0].action == Action.CreateProfile(name)
    ensures dw.transmitted[1] == StepCommand(Chain.PluginStep, name, barcodes, packageName, IdText(1))
    ensures dw.transmitted[2].action == SetConfig(ProfileConfig(name, Some(KeystrokePlugin)))
    ensures !dw.processing && dw.commandQueue == [] && dw.waitingCommands == map[]
  {
    dw, f := CreateProfileConfigured(packageName, name, barcodes);
    var crashed := dw.OnReceive(Reply(None, Some(SetConfigAction), Some(IdText(2)), Some("FAILURE")));
  }
}
