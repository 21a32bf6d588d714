/** The device the store shows, read off the updates alone: who it is, what it is called, whether it is here. */
module StoreHistory {
  import opened Prelude
  import opened Settings
  import opened Store
  import opened StoreRuns

  /** The address last given, after `k` updates. */
  function AddressBy(r: Run, k: nat): string
    requires k <= |r.es|
  {
    if k == 0 then r.address
    else if r.es[k - 1].update.Identity? then r.es[k - 1].update.address
    else AddressBy(r, k - 1)
  }

  /** Update `k` gives an address in place of another one. */
  predicate Moves(r: Run, k: nat)
    requires k < |r.es|
  {
    r.es[k].update.Identity? && AddressBy(r, k) != "" && AddressBy(r, k) != r.es[k].update.address
  }

  /** The model last given for this address. */
  function ModelBy(r: Run, k: nat): string
    requires k <= |r.es|
  {
    if k == 0 then ""
    else if r.es[k - 1].update.Identity? && r.es[k - 1].update.modelId.Some? then r.es[k - 1].update.modelId.value
    else if Moves(r, k - 1) then ""
    else ModelBy(r, k - 1)
  }

  /** Update `k` says that this is another device: another address, or another model at the same address. */
  predicate Replaces(r: Run, k: nat)
    requires k < |r.es|
  {
    Moves(r, k)
    || (r.es[k].update.Identity? && r.es[k].update.modelId.Some? && ModelBy(r, k) != ""
        && ModelBy(r, k) != r.es[k].update.modelId.value)
  }

  /** The name the accessory last gave itself at this address. */
  function OwnNameBy(r: Run, k: nat): Option<string>
    requires k <= |r.es|
  {
    if k == 0 || Moves(r, k - 1) then None
    else if r.es[k - 1].update.Metadata? && r.es[k - 1].update.mdName.Some? then r.es[k - 1].update.mdName
    else OwnNameBy(r, k - 1)
  }

  /** The name last given by the host at this address while the accessory had given none. */
  function HostNameBy(r: Run, k: nat): string
    requires k <= |r.es|
  {
    if k == 0 then ""
    else
      var u := r.es[k - 1].update;
      if u.Identity? && u.name.Some? && OwnNameBy(r, k).None? then u.name.value
      else if Moves(r, k - 1) then ""
      else HostNameBy(r, k - 1)
  }

  /** The accessory's own name wins over the one the host gave it. */
  function NameBy(r: Run, k: nat): string
    requires k <= |r.es|
  {
    if OwnNameBy(r, k).Some? then OwnNameBy(r, k).value else HostNameBy(r, k)
  }

  function ConnectedBy(r: Run, k: nat): bool
    requires k <= |r.es|
  {
    if k == 0 then false
    else if r.es[k - 1].update.AclConnected? then r.es[k - 1].update.connected
    else ConnectedBy(r, k - 1)
  }

  /** The protocol link is up: reported so, and neither it nor the connection reported gone since. */
  function LinkBy(r: Run, k: nat): bool
    requires k <= |r.es|
  {
    if k == 0 || EndsLink(r.es[k - 1].update) then false
    else r.es[k - 1].update.AapLink? || LinkBy(r, k - 1)
  }

  /** Where the readback stands: what the latest request, reopening or conclusion made of it. */
  function VerifyBy(r: Run, k: nat): Verify
    requires k <= |r.es|
  {
    if k == 0 then Idle
    else
      var u := r.es[k - 1].update;
      if u.SettingRequested? || u.RenameRequested? then Scheduled
      else if u.VerifyReopening? then Reopening
      else if u.VerifyCompleted? || u.VerifyFailed? || Replaces(r, k - 1) then Idle
      else if EndsLink(u) && !r.Reopened(k - 1) then Idle
      else VerifyBy(r, k - 1)
  }

  /** How often this device has reported a setting. */
  function TimesBy(r: Run, k: nat, key: Key): nat
    requires k <= |r.es|
  {
    if k == 0 || Replaces(r, k - 1) then 0
    else
      TimesBy(r, k - 1, key)
      + if r.es[k - 1].update.SettingReport? && KeyOf(r.es[k - 1].update.setting) == key then 1 else 0
  }

  function Times(m: map<Key, nat>, key: Key): nat {
    if key in m then m[key] else 0
  }

  // ---- one update

  ghost predicate DeviceMoved(s: State, u: Update, t: State) {
    var moved := u.Identity? && ChangesAddress(s, u.address);
    var own := if moved then None else if u.Metadata? && u.mdName.Some? then u.mdName else s.metadataName;
    t.device.address == (if u.Identity? then u.address else s.device.address)
    && t.device.modelId == (if u.Identity? && u.modelId.Some? then u.modelId.value
                            else if moved then "" else s.device.modelId)
    && t.metadataName == own
    && t.device.name == (if u.Metadata? && u.mdName.Some? then u.mdName.value
                         else if u.Identity? && u.name.Some? && own.None? then u.name.value
                         else if moved then "" else s.device.name)
    && t.device.connected == (if u.AclConnected? then u.connected else s.device.connected)
    && t.device.aapLink == (!EndsLink(u) && (u.AapLink? || s.device.aapLink))
  }

  ghost predicate ReadbackMoved(s: State, u: Update, t: State) {
    t.verify == (if u.SettingRequested? || u.RenameRequested? then Scheduled
                 else if u.VerifyReopening? then Reopening
                 else if u.VerifyCompleted? || u.VerifyFailed? || NewDevice(s, u) then Idle
                 else if EndsLink(u) && !s.verifyReopen then Idle
                 else s.verify)
  }

  ghost predicate TimesMoved(s: State, u: Update, t: State, key: Key) {
    Times(t.reportSeq, key)
    == if NewDevice(s, u) then 0
       else Times(s.reportSeq, key) + if u.SettingReport? && KeyOf(u.setting) == key then 1 else 0
  }

  ghost predicate Moved(s: State, u: Update, t: State, key: Key) {
    DeviceMoved(s, u, t) && ReadbackMoved(s, u, t) && TimesMoved(s, u, t, key)
  }

  lemma IdentityMoves(s: State, u: Update, key: Key)
    requires u.Identity?
    ensures Moved(s, u, OnIdentity(s, u.address, u.name, u.modelId), key)
  {}

  /** Verdicts leave the device alone. */
  lemma Concluded(s: State)
    ensures FinishVerification(s).device == s.device && FinishVerification(s).metadataName == s.metadataName
    ensures FinishVerification(s).verify == Idle && FinishVerification(s).reportSeq == s.reportSeq
    ensures AbandonVerification(s).device == s.device && AbandonVerification(s).metadataName == s.metadataName
    ensures AbandonVerification(s).verify == Idle && AbandonVerification(s).reportSeq == s.reportSeq
  {
    hide Judge, GivenUp;
  }

  lemma LossMoves(s: State, u: Update, key: Key)
    requires EndsLink(u)
    ensures Moved(s, u, Mutated(s, u), key)
  {
    hide AbandonVerification, FinishVerification, OnIdentity, JudgeName, Request, ApplySetting, Bump;
    Concluded(s.(device := s.device.(connected := u.AapLink? && s.device.connected, aapLink := false),
                 settings := NO_SETTINGS, linkReports := map[]));
  }

  lemma NameMoves(s: State, u: Update, key: Key)
    requires u.Metadata?
    ensures Moved(s, u, Mutated(s, u), key)
  {
    hide AbandonVerification, FinishVerification, OnIdentity, Request, ApplySetting, Bump, OnLinkLost, Open;
  }

  lemma ReportMoves(s: State, u: Update, key: Key)
    requires u.SettingReport? || u.SettingRequested? || u.RenameRequested?
    ensures Moved(s, u, Mutated(s, u), key)
  {
    hide AbandonVerification, FinishVerification, OnIdentity, ApplySetting, OnLinkLost, JudgeName, ValueOf, KeyOf;
  }

  lemma OtherMoves(s: State, u: Update, key: Key)
    requires !u.Identity? && !u.Metadata? && !EndsLink(u)
    requires !u.SettingReport? && !u.SettingRequested? && !u.RenameRequested?
    ensures Moved(s, u, Mutated(s, u), key)
  {
    hide AbandonVerification, FinishVerification, OnIdentity, Request, ApplySetting, Bump, OnLinkLost, JudgeName;
    Concluded(s);
  }

  lemma MutatedMoves(s: State, u: Update, key: Key)
    ensures Moved(s, u, Mutated(s, u), key)
  {
    hide Moved, OnIdentity, FinishVerification, AbandonVerification, JudgeName, OnLinkLost, Request, ApplySetting;
    match u
    case Identity(_, _, _) => IdentityMoves(s, u, key);
    case Metadata(_) => NameMoves(s, u, key);
    case SettingReport(_) => ReportMoves(s, u, key);
    case SettingRequested(_) => ReportMoves(s, u, key);
    case RenameRequested(_) => ReportMoves(s, u, key);
    case _ =>
      if EndsLink(u) {
        LossMoves(s, u, key);
      } else {
        OtherMoves(s, u, key);
      }
  }

  lemma StepMoves(s: State, u: Update, key: Key)
    ensures DeviceMoved(s, u, Step(s, u)) && ReadbackMoved(s, u, Step(s, u)) && TimesMoved(s, u, Step(s, u), key)
  {
    hide Mutated, NewDevice, KeyOf, BumpsEpoch, ResolveLink;
    MutatedMoves(s, u, key);
  }

  lemma Took(r: Run, k: nat, key: Key)
    requires r.Valid() && k < |r.es|
    ensures DeviceMoved(r.At(k), r.es[k].update, r.At(k + 1))
    ensures ReadbackMoved(r.At(k), r.es[k].update, r.At(k + 1))
    ensures TimesMoved(r.At(k), r.es[k].update, r.At(k + 1), key)
  {
    hide Step, DeviceMoved, ReadbackMoved, TimesMoved;
    assert r.Linked(k);
    StepMoves(r.At(k), r.es[k].update, key);
  }

  // ---- every run

  /** The device shown is the one the updates describe, field by field. */
  lemma {:induction false} DeviceFollowsUpdates(r: Run, k: nat)
    requires r.Valid() && k <= |r.es|
    ensures r.At(k).device == Device(AddressBy(r, k), NameBy(r, k), ModelBy(r, k), ConnectedBy(r, k), LinkBy(r, k))
    ensures r.At(k).metadataName == OwnNameBy(r, k)
  {
    if k > 0 {
      DeviceFollowsUpdates(r, k - 1);
      Took(r, k - 1, NameKey);
    }
  }

  /** What counts as another device, which ends reports, requests and verdicts, is told by the updates. */
  lemma ReplacesIff(r: Run, k: nat)
    requires r.Valid() && k < |r.es|
    ensures NewDevice(r.At(k), r.es[k].update) <==> Replaces(r, k)
  {
    DeviceFollowsUpdates(r, k);
  }

  lemma {:induction false} ReadbackFollowsUpdates(r: Run, k: nat)
    requires r.Valid() && k <= |r.es|
    ensures r.At(k).verify == VerifyBy(r, k)
  {
    if k > 0 {
      ReadbackFollowsUpdates(r, k - 1);
      Took(r, k - 1, NameKey);
      ReopenedIff(r, k - 1);
      ReplacesIff(r, k - 1);
    }
  }

  /** The published counter of a setting is the number of its reports by this device. */
  lemma {:induction false} ReportsAreCounted(r: Run, k: nat, key: Key)
    requires r.Valid() && k <= |r.es|
    ensures Times(r.At(k).reportSeq, key) == TimesBy(r, k, key)
  {
    if k > 0 {
      ReportsAreCounted(r, k - 1, key);
      Took(r, k - 1, key);
      ReplacesIff(r, k - 1);
    }
  }
}
