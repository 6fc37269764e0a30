/** What each locked section leaves in an account's fields, said of the fields themselves. */
module AccountSections {
  import opened AuthTypes
  import opened Wrappers
  import opened BundleMerge
  import opened AccountSpec

  // An address the account may talk to, and an environment made of such addresses.
  predicate Secure(u: Url) {
    u.https && u.hasHost && !u.hasUser
  }

  predicate Trusted(e: Environment) {
    Secure(e.serviceUri) && Secure(e.issuer) && e.titleId != ""
  }

  // Whether token `t` is the one an account has been told is refused.
  predicate Refuses(refused: Option<Token>, t: Option<Token>) {
    refused.Some? && t.Some? && refused.value.id == t.value.id
  }

  // `tokens` without the one refused for each relying party.
  ghost predicate Cleared(tokens: TokenMap, was: TokenMap, refused: TokenMap) {
    forall rp :: At(tokens, rp) == if Refuses(At(refused, rp), At(was, rp)) then None else At(was, rp)
  }

  // ---- Reading the file ----

  // A bundle this account has not seen, of its own sign-in and client.
  predicate IsNews(a: AccountState, file: Option<Bundle>) {
    file.Some? && file != a.persisted && file.value.oauthBinding == a.binding && file.value.clientBinding == a.client
  }

  // A bundle that has every part, the account's own key if it has one, and no environment it may not use.
  predicate IsComplete(a: AccountState, b: Bundle) {
    && b.device.Some? && b.sisu.Some? && b.proofKey.Some? && (a.proofKey.Some? ==> a.proofKey.value == b.proofKey.value)
    && (b.environment.Some? ==> Trusted(b.environment.value))
  }

  // The service token after adopting: the account's own object while the bundle names the same token, otherwise
  // the bundle's if it is valid in a known environment; a refused one is never kept.
  function AdoptedService(a: AccountState, b: Bundle, now: int): Option<Token> {
    var same := a.service.Some? && b.service.Some? && a.service.value.id == b.service.value.id && b.environment.Some?;
    var kept := if same then a.service
                else if b.service.Some? && b.environment.Some? && now < b.service.value.notAfter then b.service else None;
    if Refuses(a.rejectedService, kept) then None else kept
  }

  // What an account is after adopting bundle `b`, merged from `file`.
  ghost predicate Adopted(a: AccountState, b: Bundle, file: Bundle, now: int, r: AccountState) {
    && r.deviceToken == b.device && r.proofKey == b.proofKey && b.sisu.Some?
    && r.session.serial == a.session.serial + 1
    && r.session.secrets.title == b.sisu.value.title && r.session.secrets.user == b.sisu.value.user
    && Cleared(r.session.secrets.xsts, b.sisu.value.xsts, a.rejected) && r.mirror == r.session.secrets.xsts
    && r.cachedEnv == b.environment
    && r.environment == (if a.environment.Some? && b.environment == Some(a.environment.value.environment) then a.environment else None)
    && r.service == AdoptedService(a, b, now) && !r.services
    && r.serviceGen == a.serviceGen + (if r.service == a.service then 0 else 1)
    && r.persisted == Some(file)
    && r.synced.service == (if file.service.Some? then Some(file.service.value.id) else None)
    && (forall rp :: SyncedXsts(r.synced, rp) ==
          if file.sisu.Some? && rp in file.sisu.value.xsts then Some(file.sisu.value.xsts[rp].id) else None)
    && r.rejected == a.rejected && r.rejectedService == a.rejectedService && r.resets == a.resets
    && r.binding == a.binding && r.client == a.client
  }

  // A reload adopts the merged bundle if it is news and complete, and otherwise changes nothing.
  lemma ReloadedExactlyWhen(a: AccountState, file: Option<Bundle>, now: int)
    ensures var r := Reload(a, file, now);
            if IsNews(a, file) && IsComplete(a, MergedFile(a, file.value, None, now))
            then Adopted(a, MergedFile(a, file.value, None, now), file.value, now, r) else r == a
  {
    if IsNews(a, file) && IsComplete(a, MergedFile(a, file.value, None, now)) {
      AdoptIsAdopted(a, MergedFile(a, file.value, None, now), file.value, now);
    }
  }

  lemma AdoptIsAdopted(a: AccountState, b: Bundle, file: Bundle, now: int)
    requires IsComplete(a, b)
    ensures Restorable(a, b) && Adopted(a, b, file, now, Adopt(a, b, file, SyncedFrom(file), now))
  {
  }

  // A publication first adopts the file's bundle, merged with its snapshot as well, if it is news and complete;
  // news that is not complete is only marked as seen, for the publication to replace.
  lemma CaughtUpExactlyWhen(a: AccountState, snapshot: Snapshot, file: Option<Bundle>, now: int)
    ensures var r := CatchUp(a, snapshot, file, now);
            if !IsNews(a, file) then r == Ready(a, snapshot)
            else if IsComplete(a, MergedFile(a, file.value, Some(snapshot), now))
            then Adopted(a, MergedFile(a, file.value, Some(snapshot), now), file.value, now, r.account) && r.snapshot == r.account.session.secrets
            else r == Ready(a.(persisted := file), snapshot)
  {
    if IsNews(a, file) && IsComplete(a, MergedFile(a, file.value, Some(snapshot), now)) {
      AdoptIsAdopted(a, MergedFile(a, file.value, Some(snapshot), now), file.value, now);
    }
  }

  // What the merge is given: the account's own credentials, and its environment if that may be used.
  lemma MergesItsOwn(a: AccountState, file: Bundle, snapshot: Option<Snapshot>, now: int)
    ensures MergedFile(a, file, snapshot, now) ==
            Merge(file, Local(a.deviceToken, a.service,
                              if a.environment.Some? && Trusted(a.environment.value.environment) then Some(a.environment.value.environment) else None,
                              a.synced, a.mirror), snapshot, now)
  {
  }

  // ---- XSTS tokens ----

  // A result is installed on the session it was requested on unless it is the refused one, and takes the device
  // token read beside it along; the other relying parties keep theirs.
  lemma XstsInstalledExactlyWhen(a: AccountState, serial: nat, rp: RelyingParty, t: Token, device: Option<Token>)
    ensures var r := InstallXsts(a, serial, rp, t, device);
            var installs := serial == a.session.serial && !Refuses(At(a.rejected, rp), Some(t));
            && (forall p :: At(r.mirror, p) == if installs && p == rp then Some(t) else At(a.mirror, p))
            && r.deviceToken == (if installs && device.Some? then device else a.deviceToken)
            && r == a.(mirror := r.mirror, deviceToken := r.deviceToken)
  {
  }

  // A refusal is remembered in place of an earlier one, and the mirror loses that very token.
  lemma XstsRefused(a: AccountState, rp: RelyingParty, t: Token)
    ensures var r := RejectXsts(a, rp, t);
            && (forall p :: At(r.rejected, p) == if p == rp then Some(t) else At(a.rejected, p))
            && (forall p :: At(r.mirror, p) == if p == rp && Refuses(Some(t), At(a.mirror, rp)) then None else At(a.mirror, p))
            && r == a.(rejected := r.rejected, mirror := r.mirror)
  {
  }

  // SISU gains the token it issues, and drops a refused one only if it is still the one it holds.
  lemma SisuChanges(a: AccountState, rp: RelyingParty, t: Token, id: nat)
    ensures var issued, dropped := WithSisuToken(a, rp, t), SisuInvalidate(a, rp, id);
            && (forall p :: At(issued.session.secrets.xsts, p) == if p == rp then Some(t) else At(a.session.secrets.xsts, p))
            && (forall p :: At(dropped.session.secrets.xsts, p) ==
                  if p == rp && Id(At(a.session.secrets.xsts, rp)) == Some(id) then None else At(a.session.secrets.xsts, p))
            && issued == a.(session := a.session.(secrets := a.session.secrets.(xsts := issued.session.secrets.xsts)))
            && dropped == a.(session := a.session.(secrets := a.session.secrets.(xsts := dropped.session.secrets.xsts)))
  {
  }

  // ---- The service token, the environment and the sign-in ----

  // A refused service token is remembered, and leaves the slot, under a new generation, if it is there.
  lemma ServiceRefusedExactly(a: AccountState, t: Token)
    ensures var r := RejectService(a, t);
            var held := a.service.Some? && a.service.value.id == t.id;
            r == a.(rejectedService := Some(t), service := if held then None else a.service,
                    services := a.services && !held, serviceGen := a.serviceGen + if held then 1 else 0)
  {
  }

  // A discovery is kept; only one that differs from the last known environment costs the service token.
  lemma DiscoveredExactly(a: AccountState, found: LiveEnvironment)
    ensures var r := Discover(a, found);
            var known := a.cachedEnv == Some(found.environment);
            r == a.(environment := Some(found), cachedEnv := Some(found.environment),
                    service := if known then a.service else None, services := a.services && known,
                    serviceGen := a.serviceGen + if known then 0 else 1)
  {
  }

  // Another sign-in empties the account but for its client and key, replaces its session, and moves both
  // counters; a rotation of the same sign-in, or nothing new, leaves everything else as it is.
  lemma BindingAppliedExactly(a: AccountState, binding: string, adopt: bool)
    ensures var r := ApplyBinding(a, binding, adopt);
            && r.binding == binding && r.client == a.client && r.proofKey == a.proofKey
            && (binding == a.binding || adopt ==> r == a.(binding := binding))
            && (binding != a.binding && !adopt ==>
                  && Untouched(r) && r.session.serial == a.session.serial + 1 && !r.services && r.cachedEnv.None?
                  && r.serviceGen == a.serviceGen + 1 && r.resets == a.resets + 1)
  {
  }
}
