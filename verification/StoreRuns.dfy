/** What every run of the store keeps: reports, requests and verdicts follow their history, and so does the epoch. */
module StoreRuns {
  import opened Prelude
  import opened Settings
  import opened Store

  datatype Entry = Entry(update: Update, post: State)

  /** What an update reports about a key. */
  function ReportOf(update: Update, key: Key): Option<Value> {
    match update
    case SettingReport(setting) => if KeyOf(setting) == key then Some(ValueOf(setting)) else None
    case Metadata(name) => if name.Some? && key == NameKey then Some(Text(name.value)) else None
    case _ => None
  }

  /** What an update asks for a key. */
  function RequestOf(update: Update, key: Key): Option<Value> {
    match update
    case SettingRequested(setting) => if KeyOf(setting) == key then Some(ValueOf(setting)) else None
    case RenameRequested(name) => if key == NameKey then Some(Text(name)) else None
    case _ => None
  }

  predicate EndsLink(update: Update) {
    update == AclConnected(false) || update == AapLink(false)
  }

  predicate NewDevice(s: State, update: Update) {
    update.Identity? && ChangesDevice(s, update.address, update.modelId)
  }

  /** The updates that end a readback in progress without judging it. */
  predicate GivesUp(s: State, update: Update, reopening: bool) {
    update.VerifyFailed? || (EndsLink(update) && !reopening)
  }

  datatype Run = Run(address: string, es: seq<Entry>) {
    function At(k: nat): State
      requires k <= |es|
    {
      if k == 0 then NewState(address) else es[k - 1].post
    }

    ghost predicate Linked(k: nat)
      requires k < |es|
    {
      es[k].post == Step(At(k), es[k].update)
    }

    ghost predicate Valid() {
      forall k {:trigger Linked(k)} :: 0 <= k < |es| ==> Linked(k)
    }

    /** The last value reported for a key since the last link end or device change, after `k` updates. */
    function LastReport(k: nat, key: Key): Option<Value>
      requires k <= |es|
    {
      if k == 0 || EndsLink(es[k - 1].update) || NewDevice(At(k - 1), es[k - 1].update) then None
      else if ReportOf(es[k - 1].update, key).Some? then ReportOf(es[k - 1].update, key)
      else LastReport(k - 1, key)
    }

    /** The last value asked of this device for a key, after `k` updates. */
    function LastRequest(k: nat, key: Key): Option<Value>
      requires k <= |es|
    {
      if k == 0 || NewDevice(At(k - 1), es[k - 1].update) then None
      else if RequestOf(es[k - 1].update, key).Some? then RequestOf(es[k - 1].update, key)
      else LastRequest(k - 1, key)
    }

    /** A reopening of the link for a readback is under way: asked for, and not concluded or made moot since. */
    function Reopened(k: nat): bool
      requires k <= |es|
    {
      if k == 0 then false
      else
        var u := es[k - 1].update;
        if u.VerifyReopening? then true
        else if u.VerifyCompleted? || u.VerifyFailed? || NewDevice(At(k - 1), u) then false
        else Reopened(k - 1)
    }

    /** Update `k` says something final about a pending key. */
    ghost predicate Concludes(k: nat, key: Key)
      requires k < |es|
    {
      var u := es[k].update;
      u.VerifyCompleted? || GivesUp(At(k), u, Reopened(k)) || NewDevice(At(k), u)
      || (key == NameKey && ReportOf(u, key).Some?)
    }

    /** Update `k` compares the last report on a key with the request. */
    ghost predicate Judges(k: nat, key: Key)
      requires k < |es|
    {
      es[k].update.VerifyCompleted? || (key == NameKey && ReportOf(es[k].update, key).Some?)
    }

    /** In updates `i..k` nothing replaces the request on a key. */
    ghost predicate SameRequest(i: nat, k: nat, key: Key)
      requires i <= k <= |es|
    {
      forall m :: i <= m < k ==> !NewDevice(At(m), es[m].update) && RequestOf(es[m].update, key).None?
    }

    /** The four published facts a queued command depends on, and no link end at all, in updates `i..k`. */
    ghost predicate OneConnection(i: nat, k: nat)
      requires i <= k <= |es|
    {
      (forall m :: i <= m <= k ==> SameConnection(At(i).device, At(m).device))
      && (forall m :: i <= m < k ==> es[m].update != AapLink(false))
    }

    /** The reconnect view last announced, after `k` updates. */
    function LastActivity(k: nat): Option<LinkActivity>
      requires k <= |es|
    {
      if k == 0 then None
      else if es[k - 1].update.SetActivity? then es[k - 1].update.activity
      else LastActivity(k - 1)
    }
  }

  predicate SameConnection(a: Device, b: Device) {
    a.address == b.address && a.modelId == b.modelId && a.connected == b.connected && a.aapLink == b.aapLink
  }

  // ---- what one update can do

  /** Reports: what a key says after an update, in terms of what it said before. */
  ghost predicate ReportsMoved(s: State, u: Update, t: State, key: Key) {
    if EndsLink(u) || NewDevice(s, u) then key !in t.linkReports && Reported(t.settings, key).None?
    else if ReportOf(u, key).Some? then
      key in t.linkReports && Fresh(t, key) == ReportOf(u, key)
      && (key != NameKey ==> Reported(t.settings, key) == ReportOf(u, key))
    else
      (key in t.linkReports <==> key in s.linkReports) && Reported(t.settings, key) == Reported(s.settings, key)
      && Fresh(t, key) == Fresh(s, key)
  }

  /** Verdict bookkeeping leaves reports alone, and no key but the name is settled by a report. */
  lemma VerdictsLeaveReports(s: State, key: Key)
    ensures SameReports(s, FinishVerification(s), key)
    ensures SameReports(s, AbandonVerification(s), key)
    ensures SameReports(s, JudgeName(s), key)
  {
    hide Reported, Judge, GivenUp, Open;
  }

  ghost predicate SameReports(s: State, t: State, key: Key) {
    (key in t.linkReports <==> key in s.linkReports) && Reported(t.settings, key) == Reported(s.settings, key)
    && Fresh(t, key) == Fresh(s, key)
  }

  lemma IdentityReports(s: State, address: string, name: Option<string>, modelId: Option<string>, key: Key)
    ensures ReportsMoved(s, Identity(address, name, modelId), OnIdentity(s, address, name, modelId), key)
  {
    hide MicText, SpeedText, HoldText, CallText, ModeTexts;
  }

  lemma SettingReports(s: State, setting: Setting, key: Key)
    ensures ReportsMoved(s, SettingReport(setting), Mutated(s, SettingReport(setting)), key)
  {
    hide MicText, SpeedText, HoldText, CallText, ModeTexts;
    hide FinishVerification, AbandonVerification, JudgeName, OnIdentity, OnLinkLost, Request;
  }

  lemma NameReports(s: State, name: Option<string>, key: Key)
    ensures ReportsMoved(s, Metadata(name), Mutated(s, Metadata(name)), key)
  {
    hide Reported, JudgeName, FinishVerification, AbandonVerification, OnIdentity, OnLinkLost, Request, ApplySetting;
    if name.Some? {
      VerdictsLeaveReports(s.(metadataName := name, linkReports := Bump(s.linkReports, NameKey),
                              device := s.device.(name := name.value)), key);
    }
  }

  lemma LossReports(s: State, key: Key)
    requires s.settings == NO_SETTINGS
    ensures key !in OnLinkLost(s).linkReports && Reported(OnLinkLost(s).settings, key).None?
  {
    hide AbandonVerification;
    VerdictsLeaveReports(s.(linkReports := map[]), key);
  }

  lemma OtherReports(s: State, u: Update, key: Key)
    requires !u.Identity? && !u.SettingReport? && !u.Metadata?
    ensures ReportsMoved(s, u, Mutated(s, u), key)
  {
    hide Reported, JudgeName, FinishVerification, AbandonVerification, OnIdentity, OnLinkLost, ApplySetting;
    VerdictsLeaveReports(s, key);
    if EndsLink(u) {
      LossReports(s.(device := s.device.(connected := u.AapLink? && s.device.connected, aapLink := false),
                     settings := NO_SETTINGS), key);
    }
  }

  lemma ReportsStep(s: State, u: Update, key: Key)
    ensures ReportsMoved(s, u, Step(s, u), key)
  {
    hide Mutated, Reported;
    assert ReportsMoved(s, u, Mutated(s, u), key) by {
      match u
      case Identity(address, name, modelId) =>
        IdentityReports(s, address, name, modelId, key);
        assert Mutated(s, u) == OnIdentity(s, address, name, modelId) by { IdentityMutates(s, address, name, modelId); }
      case SettingReport(setting) => SettingReports(s, setting, key);
      case Metadata(name) => NameReports(s, name, key);
      case _ => OtherReports(s, u, key);
    }
  }

  lemma IdentityMutates(s: State, address: string, name: Option<string>, modelId: Option<string>)
    ensures Mutated(s, Identity(address, name, modelId)) == OnIdentity(s, address, name, modelId)
  {
    hide OnIdentity;
  }

  ghost predicate RequestsMoved(s: State, u: Update, t: State, key: Key) {
    if NewDevice(s, u) then key !in t.requested && key !in t.status && !t.verifyReopen
    else if RequestOf(u, key).Some? then
      key in t.requested && t.requested[key] == RequestOf(u, key).value && key in t.status
      && t.status[key] == Verifying && t.verifyReopen == s.verifyReopen
    else
      (key in t.requested <==> key in s.requested) && (key in s.requested ==> t.requested[key] == s.requested[key])
      && (key in t.status <==> key in s.status) && (key in s.status ==> StatusMoved(s, u, t, key))
      && t.verifyReopen == (u.VerifyReopening? || (s.verifyReopen && !u.VerifyCompleted? && !u.VerifyFailed?))
  }

  ghost predicate StatusMoved(s: State, u: Update, t: State, key: Key)
    requires key in s.status && key in t.status
  {
    t.status[key] == (if u.VerifyCompleted? then Judge(s, key, s.status[key])
                      else if key == NameKey && ReportOf(u, key).Some? && Open(s.status[key]) then
                        if key in s.requested && Some(s.requested[key]) == ReportOf(u, key) then Confirmed else Mismatch
                      else if GivesUp(s, u, s.verifyReopen) then GivenUp(s.status[key])
                      else s.status[key])
  }

  lemma CompletedRequests(s: State, key: Key)
    ensures RequestsMoved(s, VerifyCompleted, FinishVerification(s), key)
  {
    hide Judge;
  }

  lemma AbandonedRequests(s: State, u: Update, key: Key)
    requires u.VerifyFailed? || (EndsLink(u) && !s.verifyReopen)
    ensures RequestsMoved(s, u, AbandonVerification(s), key)
  {
    hide GivenUp, Judge, Open;
  }

  lemma NamedRequests(s: State, name: Option<string>, key: Key)
    ensures RequestsMoved(s, Metadata(name), Mutated(s, Metadata(name)), key)
  {
    hide Judge, GivenUp, FinishVerification, AbandonVerification, OnIdentity, OnLinkLost, Request, ApplySetting, Open;
  }

  lemma LossRequests(s: State, u: Update, key: Key)
    requires EndsLink(u)
    ensures RequestsMoved(s, u, Mutated(s, u), key)
  {
    hide Judge, GivenUp, Open, FinishVerification, AbandonVerification, OnIdentity, Request, ApplySetting, JudgeName;
    var d := s.(device := s.device.(connected := u.AapLink? && s.device.connected, aapLink := false),
                settings := NO_SETTINGS, linkReports := map[]);
    assert Mutated(s, u) == if s.verifyReopen then d else AbandonVerification(d);
    if !s.verifyReopen {
      AbandonedRequests(d, u, key);
    }
  }

  lemma IdentityRequests(s: State, u: Update, key: Key)
    requires u.Identity?
    ensures RequestsMoved(s, u, OnIdentity(s, u.address, u.name, u.modelId), key)
  {
    hide Judge, GivenUp, Open;
  }

  lemma AskedRequests(s: State, u: Update, key: Key)
    requires u.SettingRequested? || u.RenameRequested?
    ensures RequestsMoved(s, u, Mutated(s, u), key)
  {
    hide Judge, GivenUp, FinishVerification, AbandonVerification, JudgeName;
    hide OnLinkLost, OnIdentity, ValueOf, ApplySetting;
  }

  lemma OtherRequests(s: State, u: Update, key: Key)
    requires u in {AclConnected(true), AapLink(true), VerifyReopening, Unrelated} || u.SettingReport? || u.SetActivity?
    ensures RequestsMoved(s, u, Mutated(s, u), key)
  {
    hide Judge, GivenUp, FinishVerification, AbandonVerification, JudgeName;
    hide OnLinkLost, OnIdentity, ValueOf, ApplySetting, Request;
  }

  lemma MutatedRequests(s: State, u: Update, key: Key)
    ensures RequestsMoved(s, u, Mutated(s, u), key)
  {
    hide RequestsMoved, FinishVerification, AbandonVerification, JudgeName;
    hide OnIdentity, OnLinkLost, Request, ApplySetting;
    match u
    case VerifyCompleted => CompletedRequests(s, key);
    case VerifyFailed => AbandonedRequests(s, u, key);
    case Metadata(name) => NamedRequests(s, name, key);
    case Identity(_, _, _) => IdentityRequests(s, u, key);
    case SettingRequested(_) => AskedRequests(s, u, key);
    case RenameRequested(_) => AskedRequests(s, u, key);
    case _ =>
      if EndsLink(u) {
        LossRequests(s, u, key);
      } else {
        OtherRequests(s, u, key);
      }
  }

  lemma RequestsStep(s: State, u: Update, key: Key)
    ensures RequestsMoved(s, u, Step(s, u), key)
  {
    hide Mutated, Judge, Open, GivenUp, BumpsEpoch, ResolveLink, NewDevice, GivesUp, RequestOf, ReportOf;
    MutatedRequests(s, u, key);
  }

  ghost predicate ConnectionMoved(s: State, u: Update, t: State) {
    t.epoch == s.epoch + (if u != AapLink(false) && SameConnection(s.device, t.device) then 0 else 1)
    && t.link == ResolveLink(t.device.connected, t.activity)
    && t.activity == (if u.SetActivity? then u.activity else s.activity)
  }

  /** Only an announcement changes what is announced, and nothing but `Apply` itself moves the epoch. */
  lemma ActivityStep(s: State, u: Update)
    ensures Mutated(s, u).activity == if u.SetActivity? then u.activity else s.activity
  {
    hide Judge, GivenUp, Open, Bump, ApplySetting, ValueOf, ModeTexts;
  }

  lemma ConnectionStep(s: State, u: Update)
    ensures ConnectionMoved(s, u, Step(s, u))
  {
    hide Mutated;
    ActivityStep(s, u);
  }

  lemma Took(r: Run, k: nat, key: Key)
    requires r.Valid() && k < |r.es|
    ensures ReportsMoved(r.At(k), r.es[k].update, r.At(k + 1), key)
    ensures RequestsMoved(r.At(k), r.es[k].update, r.At(k + 1), key)
    ensures ConnectionMoved(r.At(k), r.es[k].update, r.At(k + 1))
  {
    hide Step, ReportsMoved, RequestsMoved, ConnectionMoved;
    assert r.Linked(k);
    ReportsStep(r.At(k), r.es[k].update, key);
    RequestsStep(r.At(k), r.es[k].update, key);
    ConnectionStep(r.At(k), r.es[k].update);
  }

  /** Every sequence of updates is a run. */
  lemma EveryInputRuns(address: string, inputs: seq<Update>) returns (r: Run)
    ensures r.Valid() && r.address == address && |r.es| == |inputs|
    ensures forall k :: 0 <= k < |inputs| ==> r.es[k].update == inputs[k]
  {
    hide Step;
    if inputs == [] {
      return Run(address, []);
    }
    var n := |inputs| - 1;
    var p := EveryInputRuns(address, inputs[..n]);
    r := Run(address, p.es + [Entry(inputs[n], Step(p.At(n), inputs[n]))]);
    forall k | 0 <= k < |r.es| ensures r.Linked(k) {
      assert r.At(k) == p.At(k);
      assert k < n ==> p.Linked(k);
    }
  }

  // ---- reports

  /**
   The settings object is exactly the reports of this link: a key has a value when this link reported one,
   and it is the last one reported.
   */
  lemma {:induction false} SettingsMirrorReports(r: Run, k: nat, key: Key)
    requires r.Valid() && k <= |r.es|
    ensures key in r.At(k).linkReports <==> r.LastReport(k, key).Some?
    ensures Fresh(r.At(k), key) == r.LastReport(k, key)
    ensures key != NameKey ==> Reported(r.At(k).settings, key) == r.LastReport(k, key)
  {
    if k > 0 {
      SettingsMirrorReports(r, k - 1, key);
      Took(r, k - 1, key);
    }
  }

  /** Requests and verdicts are kept for the same keys, those asked of this device, with the last value asked. */
  lemma {:induction false} RequestsMirrorCommands(r: Run, k: nat, key: Key)
    requires r.Valid() && k <= |r.es|
    ensures key in r.At(k).requested <==> r.LastRequest(k, key).Some?
    ensures key in r.At(k).status <==> r.LastRequest(k, key).Some?
    ensures key in r.At(k).requested ==> Some(r.At(k).requested[key]) == r.LastRequest(k, key)
  {
    if k > 0 {
      RequestsMirrorCommands(r, k - 1, key);
      Took(r, k - 1, key);
    }
  }

  lemma KeysAgree(r: Run, k: nat)
    requires r.Valid() && k <= |r.es|
    ensures r.At(k).requested.Keys == r.At(k).status.Keys
  {
    forall key: Key ensures key in r.At(k).requested <==> key in r.At(k).status {
      RequestsMirrorCommands(r, k, key);
    }
  }

  lemma {:induction false} ReopenedIff(r: Run, k: nat)
    requires r.Valid() && k <= |r.es|
    ensures r.At(k).verifyReopen == r.Reopened(k)
  {
    if k > 0 {
      ReopenedIff(r, k - 1);
      Took(r, k - 1, NameKey);
    }
  }

  // ---- verdicts

  /**
   The end of the readback window: an open key is confirmed exactly when the last value this link reported is the
   one asked for, a mismatch exactly when it reported another, and otherwise a pending key is left unreported.
   */
  lemma VerdictFollowsReport(r: Run, k: nat, key: Key)
    requires r.Valid() && k < |r.es| && r.es[k].update.VerifyCompleted?
    requires key in r.At(k).status && Open(r.At(k).status[key])
    ensures key in r.At(k + 1).status && r.LastRequest(k, key).Some?
    ensures r.At(k + 1).status[key] == Confirmed <==> r.LastReport(k, key) == r.LastRequest(k, key)
    ensures r.At(k + 1).status[key] == Mismatch
       <==> r.LastReport(k, key).Some? && r.LastReport(k, key) != r.LastRequest(k, key)
    ensures r.LastReport(k, key).None? ==>
      r.At(k + 1).status[key] == if r.At(k).status[key] == Verifying then Unreported else r.At(k).status[key]
  {
    Took(r, k, key);
    SettingsMirrorReports(r, k, key);
    RequestsMirrorCommands(r, k, key);
  }

  /** A pending rename is settled by the accessory's next word on its name, whatever else is going on. */
  lemma RenameFollowsMetadata(r: Run, k: nat, name: string)
    requires r.Valid() && k < |r.es| && r.es[k].update == Metadata(Some(name))
    requires NameKey in r.At(k).status && Open(r.At(k).status[NameKey])
    ensures NameKey in r.At(k + 1).status
    ensures r.At(k + 1).status[NameKey] == if r.LastRequest(k, NameKey) == Some(Text(name)) then Confirmed else Mismatch
  {
    Took(r, k, NameKey);
    RequestsMirrorCommands(r, k, NameKey);
  }

  /** A settled verdict changes only through a new request for its key or another device. */
  lemma {:induction false} VerdictsStay(r: Run, i: nat, k: nat, key: Key)
    requires r.Valid() && i <= k <= |r.es| && r.SameRequest(i, k, key)
    requires key in r.At(i).status && !Open(r.At(i).status[key])
    ensures key in r.At(k).status && r.At(k).status[key] == r.At(i).status[key]
  {
    if i < k {
      VerdictsStay(r, i, k - 1, key);
      Took(r, k - 1, key);
    }
  }

  lemma JustJudged(r: Run, j: nat, key: Key)
    requires r.Valid() && j < |r.es| && key in r.At(j + 1).status && !Open(r.At(j + 1).status[key])
    requires key in r.At(j).status && r.SameRequest(j, j + 1, key) ==> Open(r.At(j).status[key])
    ensures r.Judges(j, key) && r.SameRequest(j, j + 1, key)
    ensures r.LastRequest(j, key).Some? && r.LastReport(j + 1, key).Some?
    ensures r.At(j + 1).status[key] == Confirmed <==> r.LastReport(j + 1, key) == r.LastRequest(j, key)
  {
    hide Reported, ReportsMoved, Fresh;
    Took(r, j, key);
    RequestsMirrorCommands(r, j, key);
    SettingsMirrorReports(r, j, key);
  }

  /** Every settled verdict was reached by comparing the last report then with the request that still stands. */
  lemma {:induction false} VerdictHasSource(r: Run, k: nat, key: Key) returns (j: nat)
    requires r.Valid() && k <= |r.es| && key in r.At(k).status && !Open(r.At(k).status[key])
    ensures j < k && r.Judges(j, key) && r.SameRequest(j, k, key)
    ensures r.LastRequest(j, key).Some? && r.LastReport(j + 1, key).Some?
    ensures r.At(k).status[key] == Confirmed <==> r.LastReport(j + 1, key) == r.LastRequest(j, key)
  {
    if key in r.At(k - 1).status && !Open(r.At(k - 1).status[key]) && r.SameRequest(k - 1, k, key) {
      VerdictsStay(r, k - 1, k, key);
      j := VerdictHasSource(r, k - 1, key);
    } else {
      j := k - 1;
      JustJudged(r, j, key);
    }
  }

  ghost predicate VerifyingAt(r: Run, k: nat, key: Key)
    requires k <= |r.es|
  {
    key in r.At(k).status && r.At(k).status[key] == Verifying
  }

  /** One update: a request puts the key under verification, and only a conclusion takes it out. */
  lemma VerifyingStep(r: Run, k: nat, key: Key)
    requires r.Valid() && k < |r.es|
    ensures VerifyingAt(r, k + 1, key)
       <==> RequestOf(r.es[k].update, key).Some? || (VerifyingAt(r, k, key) && !r.Concludes(k, key))
  {
    hide Reported, ReportsMoved, Fresh;
    Took(r, k, key);
    ReopenedIff(r, k);
  }

  /**
   A key is being verified exactly when it was asked for and nothing since has judged it, given it up, or changed
   the device: no state of the accessory or of the link can leave it pending by itself.
   */
  lemma {:induction false} VerifyingIff(r: Run, k: nat, key: Key)
    requires r.Valid() && k <= |r.es|
    ensures VerifyingAt(r, k, key)
       <==> (exists j :: 0 <= j < k && RequestOf(r.es[j].update, key).Some?
                         && forall m :: j < m < k ==> !r.Concludes(m, key))
  {
    if k > 0 {
      hide Run.Valid, Run.Concludes, VerifyingAt;
      VerifyingIff(r, k - 1, key);
      VerifyingStep(r, k - 1, key);
      if RequestOf(r.es[k - 1].update, key).None? && !r.Concludes(k - 1, key) {
        assert forall j :: 0 <= j < k - 1 && RequestOf(r.es[j].update, key).Some?
                           && (forall m :: j < m < k - 1 ==> !r.Concludes(m, key)) ==>
                 forall m :: j < m < k ==> !r.Concludes(m, key);
      }
    }
  }

  // ---- reports older than the request

  /** `c` begins with the first `n` updates of `r`. */
  ghost predicate Continues(c: Run, r: Run, n: nat)
    requires n <= |r.es|
  {
    c.Valid() && c.address == r.address && n <= |c.es| && c.es[..n] == r.es[..n]
  }

  /** Update `i` settles a verdict on the key that stands until `k`, and the report it compares is update `m`. */
  ghost predicate RestsOn(c: Run, m: nat, i: nat, k: nat, key: Key)
    requires m <= i < k <= |c.es|
  {
    c.Judges(i, key) && c.SameRequest(i, k, key)
    && key in c.At(i + 1).status && !Open(c.At(i + 1).status[key])
    && ReportOf(c.es[m].update, key).Some? && ReportOf(c.es[m].update, key) == c.LastReport(i + 1, key)
    && forall n :: m < n <= i ==>
         ReportOf(c.es[n].update, key).None? && !EndsLink(c.es[n].update) && !NewDevice(c.At(n), c.es[n].update)
  }

  /** The verdict on the key after `k` updates compares a report later than update `j`. */
  ghost predicate RestsOnLater(c: Run, j: nat, k: nat, key: Key)
    requires k <= |c.es|
  {
    exists m: nat, i: nat :: j < m <= i < k && RestsOn(c, m, i, k, key)
  }

  /** However the run goes on with the request of update `j`, every verdict on its key compares a later report. */
  ghost predicate OnlyLaterReportsCount(r: Run, j: nat, key: Key)
    requires j < |r.es|
  {
    forall c: Run, k: nat {:trigger RestsOnLater(c, j, k, key)} ::
      Continues(c, r, j + 1) && j < k <= |c.es| && c.SameRequest(j + 1, k, key)
      && key in c.At(k).status && !Open(c.At(k).status[key])
      ==> RestsOnLater(c, j, k, key)
  }

  /** The report a key shows, unless there was one already, came in an update of its own, unspoilt since. */
  lemma {:induction false} ReportHasSource(c: Run, j: nat, k: nat, key: Key) returns (m: nat)
    requires j <= k <= |c.es| && c.LastReport(j, key).None? && c.LastReport(k, key).Some?
    ensures j <= m < k && ReportOf(c.es[m].update, key).Some? && ReportOf(c.es[m].update, key) == c.LastReport(k, key)
    ensures forall n :: m < n < k ==>
      ReportOf(c.es[n].update, key).None? && !EndsLink(c.es[n].update) && !NewDevice(c.At(n), c.es[n].update)
  {
    if ReportOf(c.es[k - 1].update, key).Some? {
      m := k - 1;
    } else {
      m := ReportHasSource(c, j, k - 1, key);
    }
  }

  lemma {:induction false} SameHistory(c: Run, r: Run, n: nat, k: nat, key: Key)
    requires k <= n <= |r.es| && Continues(c, r, n)
    ensures c.LastReport(k, key) == r.LastReport(k, key) && c.At(k) == r.At(k)
  {
    if k > 0 {
      assert c.es[k - 1] == c.es[..n][k - 1] == r.es[..n][k - 1];
      SameHistory(c, r, n, k - 1, key);
    }
  }

  /** A verdict reached after the request, with no report standing at the request, compares a later one. */
  lemma VerdictIsLater(c: Run, j: nat, k: nat, key: Key)
    requires c.Valid() && j < k <= |c.es| && RequestOf(c.es[j].update, key).Some? && c.LastReport(j, key).None?
    requires c.SameRequest(j + 1, k, key) && key in c.At(k).status && !Open(c.At(k).status[key])
    ensures RestsOnLater(c, j, k, key)
  {
    hide Reported, ReportsMoved, Fresh, RestsOn;
    var i := JudgedAfter(c, j, k, key);
    assert c.LastReport(j + 1, key).None?;
    var m := ReportHasSource(c, j + 1, i + 1, key);
    assert RestsOn(c, m, i, k, key) by {
      VerdictRests(c, m, i, k, key);
    }
  }

  lemma VerdictRests(c: Run, m: nat, i: nat, k: nat, key: Key)
    requires c.Valid() && m <= i < k <= |c.es| && c.Judges(i, key) && c.SameRequest(i, k, key)
    requires key in c.At(i + 1).status && !Open(c.At(i + 1).status[key])
    requires ReportOf(c.es[m].update, key).Some? && ReportOf(c.es[m].update, key) == c.LastReport(i + 1, key)
    requires forall n :: m < n <= i ==>
      ReportOf(c.es[n].update, key).None? && !EndsLink(c.es[n].update) && !NewDevice(c.At(n), c.es[n].update)
    ensures RestsOn(c, m, i, k, key)
  {}

  /** The update that settled the verdict, after the request it settles. */
  lemma {:induction false} JudgedAfter(c: Run, j: nat, k: nat, key: Key) returns (i: nat)
    requires c.Valid() && j < k <= |c.es| && RequestOf(c.es[j].update, key).Some?
    requires c.SameRequest(j + 1, k, key) && key in c.At(k).status && !Open(c.At(k).status[key])
    ensures j < i < k && c.Judges(i, key) && c.SameRequest(i, k, key) && c.LastReport(i + 1, key).Some?
    ensures key in c.At(i + 1).status && !Open(c.At(i + 1).status[key])
  {
    hide Reported, ReportsMoved, Fresh;
    Took(c, j, key);
    if key in c.At(k - 1).status && !Open(c.At(k - 1).status[key]) {
      i := JudgedAfter(c, j, k - 1, key);
    } else {
      i := k - 1;
      JustJudged(c, i, key);
    }
  }

  /** The first `n` updates of a run and one more. */
  lemma Extended(r: Run, n: nat, update: Update) returns (c: Run)
    requires r.Valid() && n <= |r.es|
    ensures Continues(c, r, n) && |c.es| == n + 1 && c.es[n].update == update && c.At(n) == r.At(n)
  {
    hide Step;
    c := Run(r.address, r.es[..n] + [Entry(update, Step(r.At(n), update))]);
    forall k | 0 <= k < |c.es| ensures c.Linked(k) {
      assert c.At(k) == r.At(k);
      assert k < n ==> r.Linked(k);
    }
    assert c.es[..n] == r.es[..n];
  }

  lemma AskedNow(c: Run, j: nat, key: Key)
    requires c.Valid() && j < |c.es| && RequestOf(c.es[j].update, key).Some?
    ensures key in c.At(j + 1).status && c.At(j + 1).status[key] == Verifying
    ensures c.LastReport(j + 1, key) == c.LastReport(j, key)
  {
    hide Reported, ReportsMoved, Fresh;
    Took(c, j, key);
  }

  /** Closing the window right after the request judges it by whatever the link had said before. */
  lemma JudgeAtOnce(r: Run, j: nat, key: Key) returns (c: Run)
    requires r.Valid() && j < |r.es| && RequestOf(r.es[j].update, key).Some? && r.LastReport(j, key).Some?
    ensures Continues(c, r, j + 1) && |c.es| == j + 2 && c.SameRequest(j + 1, j + 2, key)
    ensures key in c.At(j + 2).status && !Open(c.At(j + 2).status[key]) && !RestsOnLater(c, j, j + 2, key)
  {
    hide Reported, ReportsMoved, Fresh, Run.Valid, RestsOnLater;
    c := Extended(r, j + 1, VerifyCompleted);
    SameHistory(c, r, j + 1, j, key);
    assert c.es[j] == c.es[..j + 1][j] == r.es[j];
    AskedNow(c, j, key);
    VerdictFollowsReport(c, j + 1, key);
    NothingLater(c, j, key);
  }

  lemma NothingLater(c: Run, j: nat, key: Key)
    requires |c.es| == j + 2 && c.es[j + 1].update.VerifyCompleted?
    ensures !RestsOnLater(c, j, j + 2, key)
  {}

  /**
   When every verdict on a request is sure to compare a report from after it: exactly when this link has reported
   nothing on the key at the time of the request, which can be seen before asking.
   */
  lemma OnlyLaterReportsCountIff(r: Run, j: nat, key: Key)
    requires r.Valid() && j < |r.es| && RequestOf(r.es[j].update, key).Some?
    ensures OnlyLaterReportsCount(r, j, key) <==> r.LastReport(j, key).None?
  {
    if r.LastReport(j, key).Some? {
      var c := JudgeAtOnce(r, j, key);
      assert !RestsOnLater(c, j, j + 2, key);
    } else {
      forall c: Run, k: nat |
        Continues(c, r, j + 1) && j < k <= |c.es| && c.SameRequest(j + 1, k, key)
        && key in c.At(k).status && !Open(c.At(k).status[key])
        ensures RestsOnLater(c, j, k, key)
      {
        hide RestsOnLater;
        SameHistory(c, r, j + 1, j, key);
        assert c.es[j] == c.es[..j + 1][j] == r.es[j];
        VerdictIsLater(c, j, k, key);
      }
    }
  }

  /** Reported, then asked for, then judged: confirmed although nothing was reported after the request. */
  lemma OldReportConfirms(address: string, setting: Setting) returns (r: Run)
    ensures r.Valid() && r.address == address && |r.es| == 3
    ensures r.es[0].update == SettingReport(setting) && r.es[1].update == SettingRequested(setting)
    ensures r.es[2].update == VerifyCompleted
    ensures KeyOf(setting) in r.At(3).status && r.At(3).status[KeyOf(setting)] == Confirmed
    ensures !RestsOnLater(r, 1, 3, KeyOf(setting))
  {
    hide Step, ValueOf;
    r := EveryInputRuns(address, [SettingReport(setting), SettingRequested(setting), VerifyCompleted]);
    var key := KeyOf(setting);
    hide Reported, ReportsMoved, Fresh;
    Took(r, 1, key);
    assert r.LastReport(0, key).None?;
    assert r.LastReport(1, key) == Some(ValueOf(setting)) && r.LastReport(2, key) == Some(ValueOf(setting));
    assert r.LastRequest(2, key) == Some(ValueOf(setting));
    VerdictFollowsReport(r, 2, key);
  }

  // ---- the epoch

  lemma {:induction false} EpochGrows(r: Run, i: nat, k: nat)
    requires r.Valid() && i <= k <= |r.es|
    ensures r.At(i).epoch <= r.At(k).epoch
    ensures r.At(i).epoch == r.At(k).epoch <==> r.OneConnection(i, k)
  {
    if i < k {
      EpochGrows(r, i, k - 1);
      Took(r, k - 1, NameKey);
      if r.OneConnection(i, k) {
        assert r.OneConnection(i, k - 1);
      }
    }
  }

  /**
   A command is current when it executes exactly when address, model, connection and protocol link kept their
   values at every moment since it was queued, not even away and back, and no link end was applied in between.
   */
  lemma CommandCrossesNoBoundary(r: Run, i: nat, k: nat)
    requires r.Valid() && i <= k <= |r.es|
    ensures ContextOf(r.At(i)) == ContextOf(r.At(k)) <==> r.OneConnection(i, k)
  {
    EpochGrows(r, i, k);
    if r.OneConnection(i, k) {
      assert SameConnection(r.At(i).device, r.At(k).device);
    }
  }

  // ---- the published link

  /** The published link is reconnecting exactly while disconnected with a sequence announced, and shows that one. */
  lemma {:induction false} LinkFollowsActivity(r: Run, k: nat)
    requires r.Valid() && k <= |r.es|
    ensures r.At(k).activity == r.LastActivity(k)
    ensures r.At(k).link == ResolveLink(r.At(k).device.connected, r.LastActivity(k))
  {
    if k > 0 {
      LinkFollowsActivity(r, k - 1);
      Took(r, k - 1, NameKey);
    }
  }
}
