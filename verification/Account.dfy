/** The account object: the locked sections of its methods, updating its fields in place. */
module Account {
  import opened AuthTypes
  import opened Wrappers
  import opened BundleMerge
  import opened AccountSpec

  lemma WithoutRejectedAt(tokens: TokenMap, rejected: TokenMap, rp: RelyingParty)
    ensures At(WithoutRejected(tokens, rejected), rp) ==
            if rp in tokens && rp in rejected && rejected[rp].id == tokens[rp].id then None else At(tokens, rp)
  {
  }

  class Account {
    const client: string
    var binding: string
    var proofKey: Option<nat>
    var deviceToken: Option<Token>
    var session: Session
    var xstsTokens: TokenMap
    var environment: Option<LiveEnvironment>
    var cachedEnv: Option<Environment>
    var service: Option<Token>
    var services: bool // a native token source exists
    var serviceGen: nat
    var resets: nat
    var persisted: Option<Bundle>
    var synced: Synced
    var rejected: TokenMap
    var rejectedService: Option<Token>

    function State(): AccountState
      reads this
    {
      AccountState(binding, client, proofKey, deviceToken, session, xstsTokens, environment, cachedEnv, service, services,
                   serviceGen, resets, persisted, synced, rejected, rejectedService)
    }

    constructor (client: string, binding: string, proofKey: Option<nat>)
      ensures HoldsNoRejection(State()) && SyncedNamesPersisted(State())
      ensures State() == AccountState(binding, client, proofKey, None, Session(0, EMPTY_SNAPSHOT), map[], None, None, None,
                                      false, 0, 0, None, NOTHING_SYNCED, map[], None)
    {
      this.client, this.binding, this.proofKey := client, binding, proofKey;
      deviceToken, session, xstsTokens := None, Session(0, EMPTY_SNAPSHOT), map[];
      environment, cachedEnv, service, services := None, None, None, false;
      serviceGen, resets, persisted, synced := 0, 0, None, NOTHING_SYNCED;
      rejected, rejectedService := map[], None;
    }

    method MergeLocalLocked(b: Bundle, snapshot: Option<Snapshot>, now: int) returns (merged: Bundle)
      ensures merged == MergedFile(State(), b, snapshot, now)
    {
      hide MergeXsts, ValidEnvironment;
      merged := b;
      var live := if environment.Some? && ValidEnvironment(environment.value.environment)
                  then Some(environment.value.environment) else None;
      if Fresher(deviceToken, b.device, now) {
        merged := merged.(device := deviceToken);
      }
      if Valid(service, now) && Id(service) != synced.service && SameEnvironment(b.environment, live) &&
         (b.service.None? || b.service.value.notAfter < service.value.notAfter) {
        merged := merged.(service := service);
      }
      if b.sisu.None? {
        return;
      }
      var local := if snapshot.Some? then snapshot.value else EMPTY_SNAPSHOT;
      var tokens := MergeXstsLoop(b.sisu.value.xsts, local.xsts, synced, now);
      tokens := MergeXstsLoop(tokens, xstsTokens, synced, now);
      merged := merged.(sisu := Some(Snapshot(MergeSecret(b.sisu.value.title, local.title, now),
                                              MergeSecret(b.sisu.value.user, local.user, now), tokens)));
    }

    // A new SISU session and the mirror of its tokens; SISU keeps its own copy of the map.
    method ReplaceSession(key: Option<nat>, device: Option<Token>, secrets: Snapshot)
      modifies `proofKey, `deviceToken, `session, `xstsTokens
      ensures proofKey == key && deviceToken == device
      ensures session == Session(old(session.serial) + 1, secrets) && xstsTokens == secrets.xsts
    {
      proofKey, deviceToken, session, xstsTokens := key, device, Session(session.serial + 1, secrets), secrets.xsts;
    }

    // A changed environment is checked against discovery once more.
    method RestoreEnvironment(changed: bool, restored: Option<Environment>)
      modifies `environment, `cachedEnv, `services
      ensures environment == (if changed then None else old(environment)) && cachedEnv == restored && !services
    {
      services := false;
      if changed {
        environment := None;
      }
      cachedEnv := restored;
    }

    // The fields a restored bundle replaces.
    method TakeOver(b: Bundle, changed: bool, restored: Option<Token>)
      requires b.sisu.Some?
      modifies `proofKey, `deviceToken, `session, `xstsTokens, `environment, `cachedEnv, `service, `services
      ensures proofKey == b.proofKey && deviceToken == b.device && xstsTokens == b.sisu.value.xsts
      ensures session == Session(old(session.serial) + 1, b.sisu.value)
      ensures environment == (if changed then None else old(environment)) && cachedEnv == b.environment
      ensures service == restored && !services
    {
      ReplaceSession(b.proofKey, b.device, b.sisu.value);
      RestoreEnvironment(changed, b.environment);
      service := restored;
    }

    method Restore(b: Bundle, now: int) returns (ok: bool)
      modifies this
      ensures ok == Restorable(old(State()), b)
      ensures State() == if ok then AccountSpec.Restore(old(State()), b, now) else old(State())
    {
      hide HoldsNoRejection, SyncedNamesPersisted, ValidEnvironment;
      ok := Restorable(State(), b);
      if !ok {
        return;
      }
      var usable := if Valid(b.service, now) && b.environment.Some? then b.service else None;
      var changed := !SameEnvironment(LiveEnv(State()), b.environment);
      var replaced := service.None? || b.environment.None? || b.service.None? || service.value.id != b.service.value.id;
      TakeOver(b, changed, if replaced then usable else service);
    }

    // Re-applies the remembered XSTS rejections to a session restored a moment ago.
    method EvictRejectedLocked()
      requires xstsTokens == session.secrets.xsts
      modifies `session, `xstsTokens
      ensures xstsTokens == WithoutRejected(old(xstsTokens), rejected)
      ensures session == old(session).(secrets := old(session.secrets).(xsts := xstsTokens))
    {
      ghost var tokens, was := xstsTokens, session;
      var left := rejected.Keys;
      while left != {}
        invariant left <= rejected.Keys
        invariant session == was.(secrets := was.secrets.(xsts := xstsTokens))
        invariant forall rp :: At(xstsTokens, rp) ==
                    if rp in rejected.Keys - left && rp in tokens && rejected[rp].id == tokens[rp].id
                    then None else At(tokens, rp)
      {
        var rp :| rp in left;
        session := SisuInvalidate(State(), rp, rejected[rp].id).session;
        if rp in xstsTokens && xstsTokens[rp].id == rejected[rp].id {
          xstsTokens := xstsTokens - {rp};
        }
        left := left - {rp};
      }
      forall rp ensures At(xstsTokens, rp) == At(WithoutRejected(tokens, rejected), rp) {
        WithoutRejectedAt(tokens, rejected, rp);
      }
      SameAtEveryKey(xstsTokens, WithoutRejected(tokens, rejected));
    }

    // What adopting does after the restore; `before` is the service token the account came with.
    method SettleAdopted(fingerprint: Bundle, names: Synced, before: Option<Token>)
      requires xstsTokens == session.secrets.xsts
      modifies `persisted, `synced, `session, `xstsTokens, `service, `serviceGen
      ensures persisted == Some(fingerprint) && synced == names
      ensures xstsTokens == WithoutRejected(old(xstsTokens), rejected)
      ensures session == old(session).(secrets := old(session.secrets).(xsts := xstsTokens))
      ensures service == if old(RejectedService(State(), service)) then None else old(service)
      ensures serviceGen == old(serviceGen) + if service != before then 1 else 0
    {
      persisted, synced := Some(fingerprint), names;
      EvictRejectedLocked();
      if RejectedService(State(), service) {
        service := None;
      }
      if service != before {
        serviceGen := serviceGen + 1;
      }
    }

    method AdoptLocked(b: Bundle, fingerprint: Bundle, names: Synced, now: int) returns (ok: bool)
      modifies this
      ensures ok == Restorable(old(State()), b)
      ensures State() == if ok then Adopt(old(State()), b, fingerprint, names, now) else old(State())
      ensures ok ==> HoldsNoRejection(State())
    {
      var before := service;
      ok := Restore(b, now);
      if !ok {
        return;
      }
      SettleAdopted(fingerprint, names, before);
    }

    // `file` is the bundle on disk, if one can be read.
    method ReloadLocked(file: Option<Bundle>, now: int)
      modifies this
      ensures State() == Reload(old(State()), file, now)
    {
      if file.None? || file == persisted || file.value.oauthBinding != binding || file.value.clientBinding != client {
        return;
      }
      var names := SyncedFrom(file.value);
      var merged := MergeLocalLocked(file.value, None, now);
      var _ := AdoptLocked(merged, file.value, names, now);
    }

    method PersistLocked(snapshot: Snapshot, fits: bool, saved: bool) returns (written: Option<Bundle>)
      modifies `persisted, `synced
      ensures var r := Persist(old(State()), snapshot, fits, saved); State() == r.account && written == r.written
    {
      written := None;
      if deviceToken.None? || proofKey.None? {
        return;
      }
      var known := if environment.Some? && ValidEnvironment(environment.value.environment) then Some(environment.value.environment) else cachedEnv;
      var kept := snapshot.(xsts := WithoutRejected(snapshot.xsts, rejected));
      var b := Bundle(binding, client, known, deviceToken, proofKey, Some(kept), service);
      if !fits || Some(b) == persisted || !saved {
        return;
      }
      persisted, synced := Some(b), SyncedFrom(b);
      written := Some(b);
    }

    // The locked part of one publication; a session replaced since `snapshot` was taken asks for a retry.
    method PublishLocked(serial: nat, snapshot: Snapshot, file: Option<Bundle>, now: int, fits: bool, saved: bool)
      returns (retry: bool, written: Option<Bundle>)
      requires HoldsNoRejection(State())
      modifies this
      ensures retry == (old(session.serial) != serial)
      ensures if retry then State() == old(State()) && written.None?
              else var r := Commit(old(State()), snapshot, file, now, fits, saved); State() == r.account && written == r.written
      ensures HoldsNoRejection(State())
      ensures written.Some? ==> BundleHoldsNoRejection(State(), written.value)
    {
      hide Merge, Adopt, Restorable, BundleHoldsNoRejection, HoldsNoRejection;
      CommitWritesNoRejection(State(), snapshot, file, now, fits, saved);
      retry, written := session.serial != serial, None;
      if retry {
        return;
      }
      var latest := snapshot;
      if file.Some? && file != persisted && file.value.oauthBinding == binding && file.value.clientBinding == client {
        var names := SyncedFrom(file.value);
        var merged := MergeLocalLocked(file.value, Some(snapshot), now);
        var adopted := AdoptLocked(merged, file.value, names, now);
        if adopted {
          latest := session.secrets;
        } else {
          persisted := file;
        }
      }
      written := PersistLocked(latest, fits, saved);
    }

    // A token a request on session `serial` came back with; `refused` asks the caller to evict it from SISU.
    method InstallXstsLocked(serial: nat, rp: RelyingParty, t: Token, device: Option<Token>) returns (installed: bool, refused: bool)
      requires HoldsNoRejection(State())
      modifies `xstsTokens, `deviceToken
      ensures installed == InstallsXsts(old(State()), serial, rp, t)
      ensures refused == (old(session.serial) == serial && RejectedXsts(old(State()), rp, Some(t)))
      ensures State() == InstallXsts(old(State()), serial, rp, t, device)
      ensures HoldsNoRejection(State())
    {
      installed, refused := false, false;
      if session.serial != serial {
        return;
      }
      if RejectedXsts(State(), rp, Some(t)) {
        refused := true;
        return;
      }
      ghost var before := xstsTokens;
      xstsTokens := xstsTokens[rp := t];
      if device.Some? && deviceToken != device {
        deviceToken := device;
      }
      installed := true;
      forall r ensures !RejectedXsts(State(), r, At(xstsTokens, r)) {
        assert !RejectedXsts(old(State()), r, At(before, r));
      }
    }

    method RejectXstsLocked(rp: RelyingParty, t: Token)
      requires HoldsNoRejection(State())
      modifies `rejected, `xstsTokens
      ensures State() == RejectXsts(old(State()), rp, t)
      ensures HoldsNoRejection(State())
    {
      ghost var before := xstsTokens;
      rejected := rejected[rp := t];
      if RejectedXsts(State(), rp, At(xstsTokens, rp)) {
        xstsTokens := xstsTokens - {rp};
      }
      forall r ensures !RejectedXsts(State(), r, At(xstsTokens, r)) {
        assert !RejectedXsts(old(State()), r, At(before, r));
      }
    }

    // The end of a foreground exchange: install, or report the fresher token that won, or try again.
    method FinishExchangeLocked(ticket: Ticket, environmentSerial: nat, t: Token, now: int) returns (done: Option<Token>)
      requires HoldsNoRejection(State())
      modifies `service, `services, `serviceGen
      ensures State() == Exchange(old(State()), ticket, environmentSerial, t, now)
      ensures done.Some? <==>
                && environment.Some? && environment.value.serial == environmentSerial
                && resets == ticket.resets && old(serviceGen) == ticket.serviceGen
                && !(rejectedService.Some? && rejectedService.value.id == t.id)
      ensures HoldsNoRejection(State())
      ensures done.Some? ==> done == service && !RejectedService(State(), done)
    {
      if resets != ticket.resets || serviceGen != ticket.serviceGen ||
         environment.None? || environment.value.serial != environmentSerial || RejectedService(State(), Some(t)) {
        return None;
      }
      if service.Some? && service != ticket.seed && Valid(service, now) && t.notAfter < service.value.notAfter {
        return service;
      }
      var reused := Id(ticket.seed) == Some(t.id);
      service, services := Some(t), true;
      if !reused {
        serviceGen := serviceGen + 1;
      }
      return service;
    }

    method InstallServiceRefreshLocked(ticket: Ticket, environmentSerial: nat, t: Token) returns (installed: bool)
      requires HoldsNoRejection(State())
      modifies `service, `services, `serviceGen
      ensures installed == RefreshInstalls(old(State()), ticket, environmentSerial, t)
      ensures installed ==> service == Some(t) && environment.Some? && environment.value.serial == environmentSerial
      ensures State() == Refresh(old(State()), ticket, environmentSerial, t)
      ensures HoldsNoRejection(State())
    {
      if resets != ticket.resets || serviceGen != ticket.serviceGen ||
         environment.None? || environment.value.serial != environmentSerial || RejectedService(State(), Some(t)) ||
         (service.Some? && service != ticket.seed && t.notAfter < service.value.notAfter) {
        return false;
      }
      service, services, serviceGen := Some(t), true, serviceGen + 1;
      return true;
    }

    method RejectServiceLocked(t: Token)
      requires HoldsNoRejection(State())
      modifies `rejectedService, `service, `services, `serviceGen
      ensures State() == RejectService(old(State()), t)
      ensures HoldsNoRejection(State())
    {
      rejectedService := Some(t);
      if service.Some? && service.value.id == t.id {
        service, services, serviceGen := None, false, serviceGen + 1;
      }
      assert forall rp :: RejectedXsts(State(), rp, At(xstsTokens, rp)) == old(RejectedXsts(State(), rp, At(xstsTokens, rp)));
    }

    method DiscoverLocked(found: LiveEnvironment)
      modifies `service, `services, `serviceGen, `environment, `cachedEnv
      ensures State() == Discover(old(State()), found)
    {
      if !SameEnvironment(cachedEnv, Some(found.environment)) {
        service, services, serviceGen := None, false, serviceGen + 1;
      }
      environment, cachedEnv := Some(found), Some(found.environment);
    }

    method ResetLocked(newBinding: string)
      modifies this
      ensures State() == Reset(old(State()), newBinding)
      ensures HoldsNoRejection(State()) && SyncedNamesPersisted(State())
    {
      ReplaceSession(proofKey, None, EMPTY_SNAPSHOT);
      RestoreEnvironment(true, None);
      ForgetService();
      ForgetSync();
      binding, resets := newBinding, resets + 1;
    }

    method ForgetService()
      modifies `service, `services, `serviceGen, `rejectedService
      ensures service == None && !services && serviceGen == old(serviceGen) + 1 && rejectedService == None
    {
      service, services, serviceGen, rejectedService := None, false, serviceGen + 1, None;
    }

    method ForgetSync()
      modifies `persisted, `synced, `rejected
      ensures persisted == None && synced == NOTHING_SYNCED && rejected == map[]
    {
      persisted, synced, rejected := None, NOTHING_SYNCED, map[];
    }

    method ApplyBindingLocked(newBinding: string, adopt: bool)
      modifies this
      ensures State() == ApplyBinding(old(State()), newBinding, adopt)
    {
      if newBinding != binding {
        if adopt {
          binding := newBinding;
        } else {
          ResetLocked(newBinding);
        }
      }
    }
  }
}
