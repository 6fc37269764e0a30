/**
 Everything that can happen to one account, in any order. Exchanges read their seed at one point
 and come back at another; `serviceGen` decides whether they may still install.
 */
module ServiceGenerations {
  import opened AuthTypes
  import opened Wrappers
  import opened AccountSpec

  datatype Event =
    | ReloadFile(file: Option<Bundle>, now: int)
    | PublishBundle(snapshot: Snapshot, file: Option<Bundle>, now: int, fits: bool, saved: bool)
    | SisuIssues(rp: RelyingParty, token: Token)
    | SisuForgets(rp: RelyingParty, id: nat)
    | XstsReturns(serial: nat, rp: RelyingParty, token: Token, device: Option<Token>)
    | XstsRefused(rp: RelyingParty, token: Token)
    | DeviceReturns(token: Token)
    | ExchangeReturns(readAt: nat, environment: nat, token: Token, now: int)
    | RefreshReturns(readAt: nat, environment: nat, token: Token)
    | ServiceRefused(token: Token)
    | Discovered(found: LiveEnvironment)
    | BindingRead(binding: string, adopt: bool)

  // The account after `e`; `seen` is every earlier state, ending with the present one.
  function Apply(seen: seq<AccountState>, e: Event): AccountState
    requires seen != []
    requires e.ExchangeReturns? || e.RefreshReturns? ==> e.readAt < |seen|
  {
    var a := seen[|seen| - 1];
    match e
    case ReloadFile(file, now) => Reload(a, file, now)
    case PublishBundle(snapshot, file, now, fits, saved) => Commit(a, snapshot, file, now, fits, saved).account
    case SisuIssues(rp, token) => WithSisuToken(a, rp, token)
    case SisuForgets(rp, id) => SisuInvalidate(a, rp, id)
    case XstsReturns(serial, rp, token, device) => InstallXsts(a, serial, rp, token, device)
    case XstsRefused(rp, token) => RejectXsts(a, rp, token)
    case DeviceReturns(token) => a.(deviceToken := Some(token))
    case ExchangeReturns(readAt, environment, token, now) => Exchange(a, TicketOf(seen[readAt]), environment, token, now)
    case RefreshReturns(readAt, environment, token) => Refresh(a, TicketOf(seen[readAt]), environment, token)
    case ServiceRefused(token) => RejectService(a, token)
    case Discovered(found) => Discover(a, found)
    case BindingRead(binding, adopt) => ApplyBinding(a, binding, adopt)
  }

  // A history: state i+1 follows state i by event i, and no exchange reads a later state.
  ghost predicate History(states: seq<AccountState>, events: seq<Event>) {
    && |states| == |events| + 1
    && forall i :: 0 <= i < |events| ==>
         && (events[i].ExchangeReturns? || events[i].RefreshReturns? ==> events[i].readAt <= i)
         && states[i + 1] == Apply(states[..i + 1], events[i])
  }

  // The events that put another credential in the service slot, or clear or fence it.
  predicate Supersedes(seen: seq<AccountState>, e: Event)
    requires seen != []
    requires e.ExchangeReturns? || e.RefreshReturns? ==> e.readAt < |seen|
  {
    var a := seen[|seen| - 1];
    match e
    case ReloadFile(_, _) => Apply(seen, e).service != a.service
    case PublishBundle(_, _, _, _, _) => Apply(seen, e).service != a.service
    case ExchangeReturns(readAt, environment, token, now) =>
      ExchangeInstalls(a, TicketOf(seen[readAt]), environment, token, now) && Some(token.id) != Id(seen[readAt].service)
    case RefreshReturns(readAt, environment, token) => RefreshInstalls(a, TicketOf(seen[readAt]), environment, token)
    case ServiceRefused(token) => RejectionClears(a, token)
    case Discovered(found) => !SameEnvironment(a.cachedEnv, Some(found.environment))
    case BindingRead(binding, adopt) => binding != a.binding && !adopt
    case _ => false
  }

  lemma ReloadEffect(a: AccountState, file: Option<Bundle>, now: int)
    ensures var r := Reload(a, file, now);
            r.resets == a.resets && r.serviceGen == a.serviceGen + if r.service != a.service then 1 else 0
  {
  }

  lemma PublishEffect(a: AccountState, snapshot: Snapshot, file: Option<Bundle>, now: int, fits: bool, saved: bool)
    ensures var r := Commit(a, snapshot, file, now, fits, saved).account;
            r.resets == a.resets && r.serviceGen == a.serviceGen + if r.service != a.service then 1 else 0
  {
    CaughtUp(a, snapshot, file, now);
    var ready := CatchUp(a, snapshot, file, now);
    PersistKeeps(ready.account, ready.snapshot, fits, saved);
  }

  lemma StepEffect(seen: seq<AccountState>, e: Event)
    requires seen != []
    requires e.ExchangeReturns? || e.RefreshReturns? ==> e.readAt < |seen|
    ensures var a := seen[|seen| - 1];
            var r := Apply(seen, e);
            && a.resets <= r.resets
            && r.serviceGen == a.serviceGen + (if Supersedes(seen, e) then 1 else 0)
            && (r.resets != a.resets ==> Supersedes(seen, e))
  {
    var a := seen[|seen| - 1];
    match e
    case ReloadFile(file, now) => ReloadEffect(a, file, now);
    case PublishBundle(snapshot, file, now, fits, saved) => PublishEffect(a, snapshot, file, now, fits, saved);
    case _ =>
  }

  lemma OneStep(states: seq<AccountState>, events: seq<Event>, i: nat)
    requires History(states, events) && i < |events|
    ensures states[i].resets <= states[i + 1].resets
    ensures states[i + 1].serviceGen ==
            states[i].serviceGen + if Supersedes(states[..i + 1], events[i]) then 1 else 0
    ensures states[i + 1].resets != states[i].resets ==> Supersedes(states[..i + 1], events[i])
  {
    StepEffect(states[..i + 1], events[i]);
  }

  // `serviceGen` stands still exactly while nothing supersedes the credential.
  lemma {:induction false} GenerationCountsSupersessions(states: seq<AccountState>, events: seq<Event>, i: nat, j: nat)
    requires History(states, events) && i <= j < |states|
    ensures states[i].serviceGen <= states[j].serviceGen && states[i].resets <= states[j].resets
    ensures states[i].serviceGen == states[j].serviceGen <==>
            forall k :: i <= k < j ==> !Supersedes(states[..k + 1], events[k])
    ensures states[i].serviceGen == states[j].serviceGen ==> states[i].resets == states[j].resets
    decreases j - i
  {
    if i < j {
      OneStep(states, events, j - 1);
      GenerationCountsSupersessions(states, events, i, j - 1);
    }
  }

  // Two states with equal generations hold the same credential.
  lemma {:induction false} EqualGenerationsHoldOneCredential(states: seq<AccountState>, events: seq<Event>, i: nat, j: nat)
    requires History(states, events) && i <= j < |states|
    requires states[i].serviceGen == states[j].serviceGen
    ensures Id(states[i].service) == Id(states[j].service)
    decreases j
  {
    if i < j {
      GenerationCountsSupersessions(states, events, i, j - 1);
      OneStep(states, events, j - 1);
      EqualGenerationsHoldOneCredential(states, events, i, j - 1);
      var e, a := events[j - 1], states[j - 1];
      if e.ExchangeReturns? && a.serviceGen == states[e.readAt].serviceGen {
        // The one install that leaves the generation alone puts its seed's credential back.
        EqualGenerationsHoldOneCredential(states, events, e.readAt, j - 1);
      }
    }
  }

  // An install finds the credential it read, with nothing having superseded it in between.
  lemma InstallsOverNothing(states: seq<AccountState>, events: seq<Event>, j: nat)
    requires History(states, events) && j < |events|
    requires match events[j]
             case ExchangeReturns(readAt, environment, token, now) =>
               ExchangeInstalls(states[j], TicketOf(states[readAt]), environment, token, now)
             case RefreshReturns(readAt, environment, token) =>
               RefreshInstalls(states[j], TicketOf(states[readAt]), environment, token)
             case _ => false
    ensures forall k :: events[j].readAt <= k < j ==> !Supersedes(states[..k + 1], events[k])
    ensures forall k :: events[j].readAt <= k <= j ==> Id(states[k].service) == Id(states[events[j].readAt].service)
    ensures states[j + 1].service == Some(events[j].token) && !RejectedService(states[j + 1], states[j + 1].service)
  {
    var i := events[j].readAt;
    GenerationCountsSupersessions(states, events, i, j);
    forall k | i <= k <= j ensures Id(states[k].service) == Id(states[i].service) {
      GenerationCountsSupersessions(states, events, i, k);
      GenerationCountsSupersessions(states, events, k, j);
      EqualGenerationsHoldOneCredential(states, events, i, k);
    }
  }

  // ---- The environment a credential was derived for ----

  // The account keeps the environment it discovered, identified by `serial`.
  predicate Under(a: AccountState, serial: nat) {
    a.environment.Some? && a.environment.value.serial == serial
  }

  // What an exchange or a refresh brings back, with the environment it was derived for.
  predicate Returns(e: Event) {
    e.ExchangeReturns? || e.RefreshReturns?
  }

  // Exactly when a result is installed: under the environment it was derived for, with nothing reset and
  // nothing superseded since its seed was read, not refused, and not outlived by another credential (which a
  // foreground exchange lets win only while it is valid). Otherwise the account is as it was.
  lemma InstalledExactlyWhen(states: seq<AccountState>, events: seq<Event>, j: nat)
    requires History(states, events) && j < |events| && Returns(events[j])
    ensures var a, left, t := states[j], states[events[j].readAt], events[j].token;
            var overtaken := a.service.Some? && a.service != left.service && t.notAfter < a.service.value.notAfter &&
                             (events[j].ExchangeReturns? ==> events[j].now < a.service.value.notAfter);
            var installs := Under(a, events[j].environment) && a.resets == left.resets && a.serviceGen == left.serviceGen &&
                            !(a.rejectedService.Some? && a.rejectedService.value.id == t.id) && !overtaken;
            var renewed := events[j].ExchangeReturns? && left.service.Some? && left.service.value.id == t.id;
            states[j + 1] == if installs
              then a.(service := Some(t), services := true, serviceGen := a.serviceGen + if renewed then 0 else 1) else a
  {
  }

  // Every discovery gives the environment an identity of its own.
  ghost predicate FreshDiscoveries(states: seq<AccountState>, events: seq<Event>)
    requires |states| == |events| + 1
  {
    forall i, k :: 0 <= i <= k < |events| && events[k].Discovered? ==> !Under(states[i], events[k].found.serial)
  }

  // A step keeps the environment, drops it, or puts a newly discovered one in its place.
  lemma EnvironmentStep(seen: seq<AccountState>, e: Event)
    requires seen != [] && (Returns(e) ==> e.readAt < |seen|)
    ensures var a, r := seen[|seen| - 1], Apply(seen, e);
            r.environment == a.environment || r.environment.None? || (e.Discovered? && r.environment == Some(e.found))
  {
  }

  // An environment that has been dropped or replaced does not come back.
  lemma {:induction false} EnvironmentStood(states: seq<AccountState>, events: seq<Event>, i: nat, j: nat, serial: nat)
    requires History(states, events) && FreshDiscoveries(states, events)
    requires i <= j < |states| && Under(states[i], serial) && Under(states[j], serial)
    ensures forall k :: i <= k <= j ==> states[k].environment == states[i].environment
    decreases j
  {
    hide Apply;
    if i < j {
      EnvironmentStep(states[..j], events[j - 1]);
      assert states[j] == Apply(states[..j], events[j - 1]);
      EnvironmentStood(states, events, i, j - 1, serial);
    }
  }

  // A known environment is also the one a publication writes.
  predicate EnvironmentCached(a: AccountState) {
    a.environment.Some? ==> a.cachedEnv == Some(a.environment.value.environment)
  }

  lemma {:induction false} CacheFollows(states: seq<AccountState>, events: seq<Event>, j: nat)
    requires History(states, events) && j < |states| && EnvironmentCached(states[0])
    ensures EnvironmentCached(states[j])
    decreases j
  {
    if j > 0 {
      CacheFollows(states, events, j - 1);
      CacheStep(states[..j], events[j - 1]);
    }
  }

  lemma CacheStep(seen: seq<AccountState>, e: Event)
    requires seen != [] && (Returns(e) ==> e.readAt < |seen|) && EnvironmentCached(seen[|seen| - 1])
    ensures EnvironmentCached(Apply(seen, e))
  {
    hide Valid, RejectedXsts, WithoutRejected, MergedFile, Reload, Commit;
    var a := seen[|seen| - 1];
    match e
    case ReloadFile(file, now) => ReloadCaches(a, file, now);
    case PublishBundle(snapshot, file, now, fits, saved) => CommitCaches(a, snapshot, file, now, fits, saved);
    case _ =>
  }

  lemma AdoptCaches(a: AccountState, b: Bundle, file: Bundle, synced: Synced, now: int)
    requires Restorable(a, b)
    ensures EnvironmentCached(Adopt(a, b, file, synced, now))
  {
  }

  lemma ReloadCaches(a: AccountState, file: Option<Bundle>, now: int)
    requires EnvironmentCached(a)
    ensures EnvironmentCached(Reload(a, file, now))
  {
    hide MergedFile, Adopt;
    if Unseen(a, file) && Restorable(a, MergedFile(a, file.value, None, now)) {
      AdoptCaches(a, MergedFile(a, file.value, None, now), file.value, SyncedFrom(file.value), now);
    }
  }

  lemma CommitCaches(a: AccountState, snapshot: Snapshot, file: Option<Bundle>, now: int, fits: bool, saved: bool)
    requires EnvironmentCached(a)
    ensures EnvironmentCached(Commit(a, snapshot, file, now, fits, saved).account)
  {
    hide MergedFile, Adopt, Persist;
    if Unseen(a, file) && Restorable(a, MergedFile(a, file.value, Some(snapshot), now)) {
      AdoptCaches(a, MergedFile(a, file.value, Some(snapshot), now), file.value, SyncedFrom(file.value), now);
    }
    var ready := CatchUp(a, snapshot, file, now);
    PersistKeeps(ready.account, ready.snapshot, fits, saved);
  }

  // A result that changes the account is installed under the environment it was derived for: since the
  // exchange had it, at state i, the account has had no other, and it is the one the account publishes.
  lemma InstalledUnderItsEnvironment(states: seq<AccountState>, events: seq<Event>, i: nat, j: nat)
    requires History(states, events) && FreshDiscoveries(states, events) && EnvironmentCached(states[0])
    requires i <= j < |events| && Returns(events[j]) && Under(states[i], events[j].environment) && states[j + 1] != states[j]
    ensures states[j + 1].service == Some(events[j].token)
    ensures forall k :: i <= k <= j + 1 ==> states[k].environment == states[i].environment
    ensures states[j + 1].cachedEnv == Some(states[i].environment.value.environment)
  {
    hide Apply;
    InstalledExactlyWhen(states, events, j);
    EnvironmentStood(states, events, i, j, events[j].environment);
    CacheFollows(states, events, j + 1);
  }

  // No event puts a remembered rejection back into either slot.
  lemma {:induction false} RejectionsStayOut(states: seq<AccountState>, events: seq<Event>, j: nat)
    requires History(states, events) && j < |states|
    requires HoldsNoRejection(states[0])
    ensures HoldsNoRejection(states[j])
    decreases j
  {
    if j > 0 {
      RejectionsStayOut(states, events, j - 1);
      var a, e := states[j - 1], events[j - 1];
      match e
      case PublishBundle(snapshot, file, now, fits, saved) => CommitWritesNoRejection(a, snapshot, file, now, fits, saved);
      case XstsReturns(serial, rp, token, device) =>
        assert forall r :: At(states[j].mirror, r) == At(a.mirror, r) || (r == rp && At(states[j].mirror, r) == Some(token));
      case XstsRefused(rp, token) =>
        assert forall r :: At(states[j].mirror, r) == if r == rp && rp in a.mirror && a.mirror[rp].id == token.id then None else At(a.mirror, r);
      case _ =>
    }
  }
}
