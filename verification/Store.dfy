/**
 The published snapshot as far as commands and settings are concerned: identity and link state, settings
 reports and requests with their verdicts, the reconnect view, and the epoch that guards queued commands.
 */
module Store {
  import opened Prelude
  import opened Settings

  // ---- the snapshot

  datatype Status = Verifying | Confirmed | Mismatch | Unreported | Unverified

  datatype Verify = Idle | Scheduled | Reopening

  datatype Device = Device(address: string, name: string, modelId: string, connected: bool, aapLink: bool)

  datatype LinkReason = BudSwitch | TakenOver | LinkLost | AutoConnect

  /** A reconnect sequence as the session sees it. */
  datatype LinkActivity = LinkActivity(reason: LinkReason, attempt: int, since: string)

  datatype Link =
    | LinkConnected
    | LinkReconnecting(activity: LinkActivity)
    | LinkDisconnected

  datatype State = State(
    device: Device,
    settings: DeviceSettings,
    reportSeq: map<Key, nat>,
    requested: map<Key, Value>,
    status: map<Key, Status>,
    verify: Verify,
    verifyReopen: bool,
    link: Link,
    activity: Option<LinkActivity>,
    linkReports: map<Key, nat>,
    metadataName: Option<string>,
    epoch: nat)

  datatype Update =
    | Identity(address: string, name: Option<string>, modelId: Option<string>)
    | AclConnected(connected: bool)
    | AapLink(up: bool)
    | Metadata(mdName: Option<string>)
    | SettingReport(setting: Setting)
    | SettingRequested(setting: Setting)
    | RenameRequested(newName: string)
    | VerifyReopening
    | VerifyCompleted
    | VerifyFailed
    | SetActivity(activity: Option<LinkActivity>)
    /** Battery, ear, noise control, handoff and scanner updates: none of them touches these fields. */
    | Unrelated

  /** The identity and link generation a command was accepted at. */
  datatype Context = Context(address: string, epoch: nat)

  function NewState(address: string): State {
    State(Device(address, "", "", false, false), NO_SETTINGS, map[], map[], map[], Idle, false, LinkDisconnected,
          None, map[], None, 0)
  }

  function ContextOf(s: State): Context {
    Context(s.device.address, s.epoch)
  }

  // ---- building blocks

  function Bump(m: map<Key, nat>, key: Key): map<Key, nat> {
    m[key := (if key in m then m[key] else 0) + 1]
  }

  /** Connected, a device shows no reconnect, whatever sequence is announced. */
  function ResolveLink(connected: bool, activity: Option<LinkActivity>): Link {
    if connected then LinkConnected
    else if activity.Some? then LinkReconnecting(activity.value)
    else LinkDisconnected
  }

  predicate Open(status: Status) {
    status == Verifying || status == Unreported || status == Unverified
  }

  /** What this link says about a key: nothing unless this link reported it. */
  function Fresh(s: State, key: Key): Option<Value> {
    if key !in s.linkReports then None
    else if key == NameKey then (if s.metadataName.Some? then Some(Text(s.metadataName.value)) else None)
    else Reported(s.settings, key)
  }

  /** The verdict on one key when the readback window closes. */
  function Judge(s: State, key: Key, status: Status): Status {
    if !Open(status) then status
    else if key !in s.requested then (if status == Verifying then Unverified else status)
    else
      match Fresh(s, key)
      case Some(value) => if value == s.requested[key] then Confirmed else Mismatch
      case None => if status == Verifying then Unreported else status
  }

  function FinishVerification(s: State): State {
    s.(status := map key | key in s.status :: Judge(s, key, s.status[key]), verify := Idle, verifyReopen := false)
  }

  function GivenUp(status: Status): Status {
    if status == Verifying then Unverified else status
  }

  function AbandonVerification(s: State): State {
    s.(status := map key | key in s.status :: GivenUp(s.status[key]), verify := Idle, verifyReopen := false)
  }

  /** A pending rename is settled as soon as the accessory gives its name. */
  function JudgeName(s: State): State {
    if NameKey !in s.status || !Open(s.status[NameKey]) then s
    else
      var matches := NameKey in s.requested && s.requested[NameKey] == Text(s.device.name);
      s.(status := s.status[NameKey := if matches then Confirmed else Mismatch])
  }

  function OnLinkLost(s: State): State {
    var t := s.(linkReports := map[]);
    if s.verifyReopen then t else AbandonVerification(t)
  }

  predicate ChangesAddress(s: State, address: string) {
    s.device.address != "" && s.device.address != address
  }

  predicate ChangesDevice(s: State, address: string, modelId: Option<string>) {
    ChangesAddress(s, address) || (modelId.Some? && s.device.modelId != "" && s.device.modelId != modelId.value)
  }

  function Forgotten(s: State): State {
    s.(settings := NO_SETTINGS, reportSeq := map[], requested := map[], status := map[], verify := Idle,
       verifyReopen := false, linkReports := map[])
  }

  function Unnamed(s: State): State {
    s.(device := s.device.(name := "", modelId := ""), metadataName := None)
  }

  /** A name the accessory reported stays; the given one only fills a gap. */
  function Described(s: State, address: string, name: Option<string>, modelId: Option<string>): State {
    s.(device := s.device.(address := address,
                           name := if name.Some? && s.metadataName.None? then name.value else s.device.name,
                           modelId := if modelId.Some? then modelId.value else s.device.modelId))
  }

  function OnIdentity(s: State, address: string, name: Option<string>, modelId: Option<string>): State {
    var t := if ChangesDevice(s, address, modelId) then Forgotten(s) else s;
    Described(if ChangesAddress(s, address) then Unnamed(t) else t, address, name, modelId)
  }

  function Request(s: State, key: Key, value: Value): State {
    s.(requested := s.requested[key := value], status := s.status[key := Verifying], verify := Scheduled)
  }

  function Mutated(s: State, update: Update): State {
    match update
    case Identity(address, name, modelId) => OnIdentity(s, address, name, modelId)
    case AclConnected(connected) =>
      if connected then s.(device := s.device.(connected := true))
      else OnLinkLost(s.(device := s.device.(connected := false, aapLink := false), settings := NO_SETTINGS))
    case AapLink(up) =>
      if up then s.(device := s.device.(aapLink := true))
      else OnLinkLost(s.(device := s.device.(aapLink := false), settings := NO_SETTINGS))
    case Metadata(name) =>
      if name.None? then s
      else JudgeName(s.(metadataName := name, linkReports := Bump(s.linkReports, NameKey),
                        device := s.device.(name := name.value)))
    case SettingReport(setting) =>
      s.(reportSeq := Bump(s.reportSeq, KeyOf(setting)), linkReports := Bump(s.linkReports, KeyOf(setting)),
         settings := ApplySetting(s.settings, setting))
    case SettingRequested(setting) => Request(s, KeyOf(setting), ValueOf(setting))
    case RenameRequested(name) => Request(s, NameKey, Text(name))
    case VerifyReopening => s.(verify := Reopening, verifyReopen := true)
    case VerifyCompleted => FinishVerification(s)
    case VerifyFailed => AbandonVerification(s)
    case SetActivity(activity) => s.(activity := activity)
    case Unrelated => s
  }

  predicate BumpsEpoch(s: Device, update: Update, t: Device) {
    update == AapLink(false) || s.address != t.address || s.modelId != t.modelId || s.connected != t.connected
    || s.aapLink != t.aapLink
  }

  function Step(s: State, update: Update): State {
    var t := Mutated(s, update);
    t.(link := ResolveLink(t.device.connected, t.activity),
       epoch := s.epoch + if BumpsEpoch(s.device, update, t.device) then 1 else 0)
  }

  // ---- the store

  class Store {
    var device: Device
    var settings: DeviceSettings
    var reportSeq: map<Key, nat>
    var requested: map<Key, Value>
    var status: map<Key, Status>
    var verify: Verify
    var verifyReopen: bool
    var link: Link
    var activity: Option<LinkActivity>
    var linkReports: map<Key, nat>
    var metadataName: Option<string>
    var epoch: nat

    function View(): State
      reads this
    {
      State(device, settings, reportSeq, requested, status, verify, verifyReopen, link, activity, linkReports,
            metadataName, epoch)
    }

    constructor (address: string)
      ensures View() == NewState(address)
    {
      device, settings := Device(address, "", "", false, false), NO_SETTINGS;
      reportSeq, requested, status, verify, verifyReopen := map[], map[], map[], Idle, false;
      link, activity, linkReports, metadataName, epoch := LinkDisconnected, None, map[], None, 0;
    }

    /** What a command carries to be recognised as outdated later. */
    method ConnectionContext() returns (c: Context)
      ensures c == ContextOf(View())
    {
      c := Context(device.address, epoch);
    }

    /** The window's end: each open key is judged, the others stay. */
    method Finish()
      modifies `status, `verify, `verifyReopen
      ensures View() == FinishVerification(old(View()))
    {
      ghost var was := View();
      var judged: map<Key, Status> := map[];
      var todo := status.Keys;
      while todo != {}
        invariant View() == was && todo <= status.Keys
        invariant judged == map key | key in status && key !in todo :: Judge(was, key, status[key])
        decreases todo
      {
        var key :| key in todo;
        judged := judged[key := Judge(View(), key, status[key])];
        todo := todo - {key};
      }
      status := judged;
      verify := Idle;
      verifyReopen := false;
    }

    /** No readback will come: open keys become unverified, reports stay. */
    method Abandon()
      modifies `status, `verify, `verifyReopen
      ensures View() == AbandonVerification(old(View()))
    {
      ghost var was := View();
      var left: map<Key, Status> := map[];
      var todo := status.Keys;
      while todo != {}
        invariant View() == was && todo <= status.Keys
        invariant left == map key | key in status && key !in todo :: GivenUp(status[key])
        decreases todo
      {
        var key :| key in todo;
        left := left[key := if status[key] == Verifying then Unverified else status[key]];
        todo := todo - {key};
      }
      status := left;
      verify := Idle;
      verifyReopen := false;
    }

    method LoseLink()
      modifies `linkReports, `status, `verify, `verifyReopen
      ensures View() == OnLinkLost(old(View()))
    {
      linkReports := map[];
      if !verifyReopen {
        Abandon();
      }
    }

    /** Nothing the previous accessory reported or was asked may be read as the new one's. */
    method Forget()
      modifies `settings, `reportSeq, `requested, `status, `verify, `verifyReopen, `linkReports
      ensures View() == Forgotten(old(View()))
    {
      settings, reportSeq, requested, status := NO_SETTINGS, map[], map[], map[];
      verify, verifyReopen, linkReports := Idle, false, map[];
    }

    /** Another device: whatever was reported or requested belonged to the last one. */
    method Unname()
      modifies `device, `metadataName
      ensures View() == Unnamed(old(View()))
    {
      device := device.(name := "", modelId := "");
      metadataName := None;
    }

    method Identify(address: string, name: Option<string>, modelId: Option<string>)
      modifies `device, `metadataName, `settings, `reportSeq, `requested, `status, `verify, `verifyReopen, `linkReports
      ensures View() == OnIdentity(old(View()), address, name, modelId)
    {
      var changedAddress := device.address != "" && device.address != address;
      var changedDevice := changedAddress || (modelId.Some? && device.modelId != "" && device.modelId != modelId.value);
      if changedDevice {
        Forget();
      }
      if changedAddress {
        Unname();
      }
      Describe(address, name, modelId);
    }

    method Describe(address: string, name: Option<string>, modelId: Option<string>)
      modifies `device
      ensures View() == Described(old(View()), address, name, modelId)
    {
      device := device.(address := address);
      if name.Some? && metadataName.None? {
        device := device.(name := name.value);
      }
      if modelId.Some? {
        device := device.(modelId := modelId.value);
      }
    }

    method Named(name: string)
      modifies `metadataName, `linkReports, `device, `status
      ensures View() == Mutated(old(View()), Metadata(Some(name)))
    {
      metadataName := Some(name);
      linkReports := Bump(linkReports, NameKey);
      device := device.(name := name);
      if NameKey in status && Open(status[NameKey]) {
        var matches := NameKey in requested && requested[NameKey] == Text(device.name);
        status := status[NameKey := if matches then Confirmed else Mismatch];
      }
    }

    method Mutate(update: Update)
      modifies `device, `settings, `reportSeq, `requested, `status, `verify, `verifyReopen, `activity, `linkReports,
               `metadataName
      ensures View() == Mutated(old(View()), update)
    {
      match update {
        case Identity(address, name, modelId) =>
          Identify(address, name, modelId);
        case AclConnected(connected) =>
          device := device.(connected := connected);
          if !connected {
            device := device.(aapLink := false);
            settings := NO_SETTINGS;
            LoseLink();
          }
        case AapLink(up) =>
          device := device.(aapLink := up);
          if !up {
            settings := NO_SETTINGS;
            LoseLink();
          }
        case Metadata(name) =>
          if name.Some? {
            Named(name.value);
          }
        case SettingReport(setting) =>
          reportSeq := Bump(reportSeq, KeyOf(setting));
          linkReports := Bump(linkReports, KeyOf(setting));
          settings := ApplySetting(settings, setting);
        case SettingRequested(setting) =>
          Asked(KeyOf(setting), ValueOf(setting));
        case RenameRequested(name) =>
          Asked(NameKey, Text(name));
        case VerifyReopening =>
          verify, verifyReopen := Reopening, true;
        case VerifyCompleted =>
          Finish();
        case VerifyFailed =>
          Abandon();
        case SetActivity(seen) =>
          activity := seen;
        case Unrelated =>
      }
    }

    method Asked(key: Key, value: Value)
      modifies `requested, `status, `verify
      ensures View() == Request(old(View()), key, value)
    {
      requested := requested[key := value];
      status := status[key := Verifying];
      verify := Scheduled;
    }

    /** Apply an update and advance the epoch when a queued command could cross a boundary. */
    method Apply(update: Update)
      modifies this
      ensures View() == Step(old(View()), update)
    {
      var before := device;
      Mutate(update);
      link := ResolveLink(device.connected, activity);
      if BumpsEpoch(before, update, device) {
        epoch := epoch + 1;
      }
    }
  }
}
