/**
 What each locked section of an account does to its state, as functions of that state.
 The class in Account is proved against these; the protocol proofs are about them.
 */
module AccountSpec {
  import opened AuthTypes
  import opened Wrappers
  import opened BundleMerge

  // SISU's session. `serial` is its identity: every restore and reset replaces it.
  datatype Session = Session(serial: nat, secrets: Snapshot)

  // A discovered environment. `serial` is the identity an exchange compares.
  datatype LiveEnvironment = LiveEnvironment(serial: nat, environment: Environment)

  datatype AccountState = AccountState(
    binding: string,
    client: string,
    proofKey: Option<nat>,
    deviceToken: Option<Token>,
    session: Session,
    mirror: TokenMap,
    environment: Option<LiveEnvironment>,
    cachedEnv: Option<Environment>,
    service: Option<Token>,
    services: bool,
    serviceGen: nat,
    resets: nat,
    persisted: Option<Bundle>,
    synced: Synced,
    rejected: TokenMap,
    rejectedService: Option<Token>)

  function LiveEnv(a: AccountState): Option<Environment> {
    if a.environment.Some? && ValidEnvironment(a.environment.value.environment)
    then Some(a.environment.value.environment) else None
  }

  function LocalOf(a: AccountState): Local {
    Local(a.deviceToken, a.service, LiveEnv(a), a.synced, a.mirror)
  }

  predicate RejectedXsts(a: AccountState, rp: RelyingParty, t: Option<Token>) {
    t.Some? && rp in a.rejected && a.rejected[rp].id == t.value.id
  }

  predicate RejectedService(a: AccountState, t: Option<Token>) {
    t.Some? && a.rejectedService.Some? && a.rejectedService.value.id == t.value.id
  }

  function WithoutRejected(tokens: TokenMap, rejected: TokenMap): TokenMap {
    map rp | rp in tokens && !(rp in rejected && rejected[rp].id == tokens[rp].id) :: tokens[rp]
  }

  // ---- Restoring, adopting and reloading a bundle ----

  predicate Restorable(a: AccountState, b: Bundle) {
    && b.device.Some? && b.proofKey.Some? && b.sisu.Some?
    && (a.proofKey.Some? ==> a.proofKey == b.proofKey)
    && (b.environment.Some? ==> ValidEnvironment(b.environment.value))
  }

  function Restore(a: AccountState, b: Bundle, now: int): AccountState
    requires Restorable(a, b)
  {
    var usable := if Valid(b.service, now) && b.environment.Some? then b.service else None;
    a.(proofKey := b.proofKey,
       deviceToken := b.device,
       session := Session(a.session.serial + 1, b.sisu.value),
       mirror := b.sisu.value.xsts,
       environment := if SameEnvironment(LiveEnv(a), b.environment) then a.environment else None,
       cachedEnv := b.environment,
       service := if a.service.None? || b.environment.None? || b.service.None? || a.service.value.id != b.service.value.id
                  then usable else a.service,
       services := false)
  }

  // `b` is already merged; `fingerprint` is the bundle as published.
  function Adopt(a: AccountState, b: Bundle, fingerprint: Bundle, synced: Synced, now: int): AccountState
    requires Restorable(a, b)
  {
    var r := Restore(a, b, now);
    var service := if RejectedService(a, r.service) then None else r.service;
    r.(persisted := Some(fingerprint),
       synced := synced,
       session := r.session.(secrets := r.session.secrets.(xsts := WithoutRejected(r.session.secrets.xsts, a.rejected))),
       mirror := WithoutRejected(r.mirror, a.rejected),
       service := service,
       serviceGen := a.serviceGen + if service != a.service then 1 else 0)
  }

  predicate Unseen(a: AccountState, file: Option<Bundle>) {
    && file.Some? && file != a.persisted
    && file.value.oauthBinding == a.binding && file.value.clientBinding == a.client
  }

  function MergedFile(a: AccountState, file: Bundle, snapshot: Option<Snapshot>, now: int): Bundle {
    Merge(file, LocalOf(a), snapshot, now)
  }

  function Reload(a: AccountState, file: Option<Bundle>, now: int): AccountState {
    if Unseen(a, file) && Restorable(a, MergedFile(a, file.value, None, now))
    then Adopt(a, MergedFile(a, file.value, None, now), file.value, SyncedFrom(file.value), now)
    else a
  }

  // ---- Publishing ----

  function BundleOf(a: AccountState, snapshot: Snapshot): Bundle {
    Bundle(a.binding, a.client,
           if LiveEnv(a).Some? then LiveEnv(a) else a.cachedEnv,
           a.deviceToken, a.proofKey,
           Some(snapshot.(xsts := WithoutRejected(snapshot.xsts, a.rejected))),
           a.service)
  }

  datatype Published = Published(account: AccountState, written: Option<Bundle>)

  // `fits` and `saved` are the size check and the file write, neither of which this account decides.
  function Persist(a: AccountState, snapshot: Snapshot, fits: bool, saved: bool): Published {
    var b := BundleOf(a, snapshot);
    if a.deviceToken.None? || a.proofKey.None? || !fits || a.persisted == Some(b) || !saved then Published(a, None)
    else Published(a.(persisted := Some(b), synced := SyncedFrom(b)), Some(b))
  }

  datatype Ready = Ready(account: AccountState, snapshot: Snapshot)

  // A bundle this account has not seen is adopted first; an unusable one is only marked for replacement.
  function CatchUp(a: AccountState, snapshot: Snapshot, file: Option<Bundle>, now: int): Ready {
    if !Unseen(a, file) then Ready(a, snapshot)
    else
      var merged := MergedFile(a, file.value, Some(snapshot), now);
      if Restorable(a, merged) then
        var adopted := Adopt(a, merged, file.value, SyncedFrom(file.value), now);
        Ready(adopted, adopted.session.secrets)
      else Ready(a.(persisted := file), snapshot)
  }

  // The part of a publication under both leases and the gate, for an unchanged session.
  function Commit(a: AccountState, snapshot: Snapshot, file: Option<Bundle>, now: int, fits: bool, saved: bool): Published {
    var ready := CatchUp(a, snapshot, file, now);
    Persist(ready.account, ready.snapshot, fits, saved)
  }

  lemma PersistKeeps(a: AccountState, snapshot: Snapshot, fits: bool, saved: bool)
    ensures var r := Persist(a, snapshot, fits, saved);
            && r.account == a.(persisted := r.account.persisted, synced := r.account.synced)
            && (r.written.Some? ==> r.written.value == BundleOf(a, snapshot) && r.account.persisted == r.written)
  {
  }

  // ---- XSTS tokens ----

  function WithSisuToken(a: AccountState, rp: RelyingParty, t: Token): AccountState {
    a.(session := a.session.(secrets := a.session.secrets.(xsts := a.session.secrets.xsts[rp := t])))
  }

  function SisuInvalidate(a: AccountState, rp: RelyingParty, id: nat): AccountState {
    if rp in a.session.secrets.xsts && a.session.secrets.xsts[rp].id == id
    then a.(session := a.session.(secrets := a.session.secrets.(xsts := a.session.secrets.xsts - {rp})))
    else a
  }

  predicate InstallsXsts(a: AccountState, serial: nat, rp: RelyingParty, t: Token) {
    a.session.serial == serial && !RejectedXsts(a, rp, Some(t))
  }

  // `device` is the device token read beside it, when that read succeeded.
  function InstallXsts(a: AccountState, serial: nat, rp: RelyingParty, t: Token, device: Option<Token>): AccountState {
    if InstallsXsts(a, serial, rp, t)
    then a.(mirror := a.mirror[rp := t], deviceToken := if device.Some? then device else a.deviceToken)
    else a
  }

  function RejectXsts(a: AccountState, rp: RelyingParty, t: Token): AccountState {
    a.(rejected := a.rejected[rp := t],
       mirror := if rp in a.mirror && a.mirror[rp].id == t.id then a.mirror - {rp} else a.mirror)
  }

  // ---- Service tokens ----

  // What an exchange reads under the gate before it leaves for the network.
  datatype Ticket = Ticket(seed: Option<Token>, resets: nat, serviceGen: nat)

  function TicketOf(a: AccountState): Ticket {
    Ticket(a.service, a.resets, a.serviceGen)
  }

  predicate Superseded(a: AccountState, ticket: Ticket, environment: nat, t: Token) {
    || a.resets != ticket.resets || a.serviceGen != ticket.serviceGen
    || a.environment.None? || a.environment.value.serial != environment
    || RejectedService(a, Some(t))
  }

  predicate Overtaken(a: AccountState, ticket: Ticket, t: Token) {
    a.service.Some? && a.service != ticket.seed && t.notAfter < a.service.value.notAfter
  }

  // The foreground exchange gives way to a fresher token only while that token is valid.
  predicate ExchangeInstalls(a: AccountState, ticket: Ticket, environment: nat, t: Token, now: int) {
    !Superseded(a, ticket, environment, t) && !(Overtaken(a, ticket, t) && Valid(a.service, now))
  }

  function Exchange(a: AccountState, ticket: Ticket, environment: nat, t: Token, now: int): AccountState {
    if !ExchangeInstalls(a, ticket, environment, t, now) then a
    else a.(service := Some(t), services := true,
            serviceGen := a.serviceGen + if Id(ticket.seed) == Some(t.id) then 0 else 1)
  }

  predicate RefreshInstalls(a: AccountState, ticket: Ticket, environment: nat, t: Token) {
    !Superseded(a, ticket, environment, t) && !Overtaken(a, ticket, t)
  }

  function Refresh(a: AccountState, ticket: Ticket, environment: nat, t: Token): AccountState {
    if !RefreshInstalls(a, ticket, environment, t) then a
    else a.(service := Some(t), services := true, serviceGen := a.serviceGen + 1)
  }

  predicate RejectionClears(a: AccountState, t: Token) {
    a.service.Some? && a.service.value.id == t.id
  }

  function RejectService(a: AccountState, t: Token): AccountState {
    var r := a.(rejectedService := Some(t));
    if RejectionClears(a, t) then r.(service := None, services := false, serviceGen := a.serviceGen + 1) else r
  }

  function Discover(a: AccountState, found: LiveEnvironment): AccountState {
    var r := if SameEnvironment(a.cachedEnv, Some(found.environment)) then a
             else a.(service := None, services := false, serviceGen := a.serviceGen + 1);
    r.(environment := Some(found), cachedEnv := Some(found.environment))
  }

  // ---- The OAuth binding ----

  function Reset(a: AccountState, binding: string): AccountState {
    AccountState(binding, a.client, a.proofKey, None,
                 Session(a.session.serial + 1, EMPTY_SNAPSHOT), map[],
                 None, None, None, false, a.serviceGen + 1, a.resets + 1,
                 None, NOTHING_SYNCED, map[], None)
  }

  function ApplyBinding(a: AccountState, binding: string, adopt: bool): AccountState {
    if binding == a.binding then a
    else if adopt then a.(binding := binding)
    else Reset(a, binding)
  }

  // ---- What every locked section keeps ----

  // Neither slot holds the credential whose rejection is remembered.
  ghost predicate HoldsNoRejection(a: AccountState) {
    && !RejectedService(a, a.service)
    && forall rp :: !RejectedXsts(a, rp, At(a.mirror, rp))
  }

  ghost predicate BundleHoldsNoRejection(a: AccountState, b: Bundle) {
    && !RejectedService(a, b.service)
    && (b.sisu.Some? ==> forall rp :: !RejectedXsts(a, rp, At(b.sisu.value.xsts, rp)))
  }

  // `persisted` and `synced` describe the same bundle.
  predicate SyncedNamesPersisted(a: AccountState) {
    a.synced == if a.persisted.Some? then SyncedFrom(a.persisted.value) else NOTHING_SYNCED
  }

  lemma AdoptedSlots(a: AccountState, b: Bundle, fingerprint: Bundle, synced: Synced, now: int)
    requires Restorable(a, b)
    ensures var r := Adopt(a, b, fingerprint, synced, now);
            && HoldsNoRejection(r)
            && r.mirror == r.session.secrets.xsts == WithoutRejected(b.sisu.value.xsts, a.rejected)
            && (r.service != a.service <==> r.serviceGen != a.serviceGen)
            && (r.service.Some? ==> b.service.Some? && r.service.value.id == b.service.value.id)
  {
  }

  lemma CaughtUp(a: AccountState, snapshot: Snapshot, file: Option<Bundle>, now: int)
    ensures var r := CatchUp(a, snapshot, file, now).account;
            && (HoldsNoRejection(a) ==> HoldsNoRejection(r))
            && r.rejected == a.rejected && r.rejectedService == a.rejectedService && r.resets == a.resets
            && r.serviceGen == a.serviceGen + if r.service != a.service then 1 else 0
  {
    if Unseen(a, file) {
      var merged := MergedFile(a, file.value, Some(snapshot), now);
      if Restorable(a, merged) {
        AdoptedSlots(a, merged, file.value, SyncedFrom(file.value), now);
      }
    }
  }

  // No written bundle holds a remembered rejection, however old its snapshot.
  lemma CommitWritesNoRejection(a: AccountState, snapshot: Snapshot, file: Option<Bundle>, now: int, fits: bool, saved: bool)
    requires HoldsNoRejection(a)
    ensures var r := Commit(a, snapshot, file, now, fits, saved);
            && HoldsNoRejection(r.account)
            && (r.written.Some? ==> BundleHoldsNoRejection(a, r.written.value) && BundleHoldsNoRejection(r.account, r.written.value))
  {
    CaughtUp(a, snapshot, file, now);
    var ready := CatchUp(a, snapshot, file, now);
    PersistKeeps(ready.account, ready.snapshot, fits, saved);
  }

  // The tokens of SISU a publication writes: the snapshot taken for it or, once another bundle has been
  // adopted, what the restored session holds.
  function WrittenTokens(before: AccountState, after: AccountState, snapshot: Snapshot): Snapshot {
    if after.session == before.session then snapshot else after.session.secrets
  }

  // The environment an account knows: the one it discovered, if its addresses are usable, or the cached one.
  function KnownEnvironment(a: AccountState): Option<Environment> {
    if a.environment.Some? && ValidEnvironment(a.environment.value.environment) then Some(a.environment.value.environment)
    else a.cachedEnv
  }

  // A token the account writes: none that it refuses.
  predicate Keeps(a: AccountState, rp: RelyingParty, tokens: TokenMap) {
    rp in tokens && (rp in a.rejected ==> a.rejected[rp].id != tokens[rp].id)
  }

  // The bundle `b` holds exactly what account `w` has, with these tokens of SISU's.
  ghost predicate Says(b: Bundle, w: AccountState, tokens: Snapshot) {
    && b.oauthBinding == w.binding && b.clientBinding == w.client && b.device == w.deviceToken && b.proofKey == w.proofKey
    && b.environment == KnownEnvironment(w) && b.service == w.service
    && b.sisu.Some? && b.sisu.value.title == tokens.title && b.sisu.value.user == tokens.user
    && (forall rp :: At(b.sisu.value.xsts, rp) == if Keeps(w, rp, tokens.xsts) then Some(tokens.xsts[rp]) else None)
  }

  lemma BundleSays(a: AccountState, snapshot: Snapshot, b: Bundle)
    ensures Says(b, a, snapshot) <==> b == BundleOf(a, snapshot)
  {
    var other := BundleOf(a, snapshot);
    if Says(b, a, snapshot) {
      forall rp ensures At(b.sisu.value.xsts, rp) == At(other.sisu.value.xsts, rp) {
      }
      SameAtEveryKey(b.sisu.value.xsts, other.sisu.value.xsts);
    }
  }

  lemma PersistSays(a: AccountState, snapshot: Snapshot, fits: bool, saved: bool)
    ensures var r := Persist(a, snapshot, fits, saved);
            && (r.written.Some? ==> Says(r.written.value, r.account, snapshot) && r.account.persisted == r.written)
            && (r.written.Some? ==> r.account.synced == SyncedFrom(r.written.value))
            && (r.written.None? ==> r.account == a)
            && (r.written.None? <==>
                  a.deviceToken.None? || a.proofKey.None? || !fits || !saved || (a.persisted.Some? && Says(a.persisted.value, a, snapshot)))
            && r.account == a.(persisted := r.account.persisted, synced := r.account.synced)
  {
    hide Says;
    if a.persisted.Some? { BundleSays(a, snapshot, a.persisted.value); }
    var w := Persist(a, snapshot, fits, saved).account;
    BundleSays(w, snapshot, BundleOf(w, snapshot));
    SameBundle(a, snapshot, w.persisted, w.synced);
  }

  lemma SameBundle(a: AccountState, snapshot: Snapshot, persisted: Option<Bundle>, synced: Synced)
    ensures BundleOf(a.(persisted := persisted, synced := synced), snapshot) == BundleOf(a, snapshot)
  {
  }

  lemma SaysTheSame(b: Bundle, a: AccountState, tokens: Snapshot, persisted: Option<Bundle>, synced: Synced)
    ensures Says(b, a.(persisted := persisted, synced := synced), tokens) == Says(b, a, tokens)
  {
    var w := a.(persisted := persisted, synced := synced);
    assert forall rp :: Keeps(w, rp, tokens.xsts) == Keeps(a, rp, tokens.xsts);
  }

  // The bundle the account last saw, once it has looked at the file.
  function LastSeen(a: AccountState, file: Option<Bundle>): Option<Bundle> {
    if file.Some? && file.value.oauthBinding == a.binding && file.value.clientBinding == a.client then file else a.persisted
  }

  lemma CatchUpSees(a: AccountState, snapshot: Snapshot, file: Option<Bundle>, now: int)
    ensures var r := CatchUp(a, snapshot, file, now);
            && r.account.persisted == LastSeen(a, file) && r.snapshot == WrittenTokens(a, r.account, snapshot)
            && (r.account.session == a.session || r.account.session.serial == a.session.serial + 1)
            && r.account.binding == a.binding && r.account.client == a.client
  {
  }

  // What a publication writes, and exactly when it writes nothing: a part is missing, the bundle does not fit
  // or is not saved, or the bundle last seen says the same already.
  lemma CommitWrites(a: AccountState, snapshot: Snapshot, file: Option<Bundle>, now: int, fits: bool, saved: bool)
    ensures var r := Commit(a, snapshot, file, now, fits, saved);
            var w, tokens, last := r.account, WrittenTokens(a, r.account, snapshot), LastSeen(a, file);
            && (r.written.Some? ==> Says(r.written.value, w, tokens) && w.persisted == r.written && w.synced == SyncedFrom(r.written.value))
            && (r.written.None? <==>
                  w.deviceToken.None? || w.proofKey.None? || !fits || !saved || (last.Some? && Says(last.value, w, tokens)))
            && (w.session == a.session || w.session.serial == a.session.serial + 1)
            && w.binding == a.binding && w.client == a.client
  {
    hide Says, CatchUp, Persist, LastSeen;
    var ready := CatchUp(a, snapshot, file, now);
    CatchUpSees(a, snapshot, file, now);
    PersistSays(ready.account, ready.snapshot, fits, saved);
    var w := Persist(ready.account, ready.snapshot, fits, saved).account;
    if LastSeen(a, file).Some? {
      SaysTheSame(LastSeen(a, file).value, ready.account, ready.snapshot, w.persisted, w.synced);
    }
  }

  // An account before it has loaded, derived or refused anything.
  predicate Untouched(a: AccountState) {
    && a.deviceToken.None? && a.session.secrets == EMPTY_SNAPSHOT && a.mirror == map[] && a.environment.None?
    && a.service.None? && a.persisted.None? && a.synced == NOTHING_SYNCED && a.rejected == map[] && a.rejectedService.None?
  }

  // What one account publishes another of the same sign-in restores: every credential the writer has left
  // and does not refuse, each in its own place; the service token while it is valid and its environment known.
  lemma PublishedIsRestored(a: AccountState, snapshot: Snapshot, file: Option<Bundle>, now: int, fits: bool, saved: bool,
                            reader: AccountState, later: int)
    requires a.cachedEnv.Some? ==> ValidEnvironment(a.cachedEnv.value)
    requires Commit(a, snapshot, file, now, fits, saved).written.Some?
    requires Untouched(reader) && reader.binding == a.binding && reader.client == a.client
    requires reader.proofKey in {None, Commit(a, snapshot, file, now, fits, saved).account.proofKey}
    ensures var r := Commit(a, snapshot, file, now, fits, saved);
            var w, tokens, got := r.account, WrittenTokens(a, r.account, snapshot), Reload(reader, r.written, later);
            && got.deviceToken == w.deviceToken && got.proofKey == w.proofKey && got.cachedEnv == KnownEnvironment(w)
            && got.session.secrets.title == tokens.title && got.session.secrets.user == tokens.user
            && (forall rp :: At(got.session.secrets.xsts, rp) == if Keeps(w, rp, tokens.xsts) then Some(tokens.xsts[rp]) else None)
            && got.mirror == got.session.secrets.xsts
            && got.service == (if w.service.Some? && later < w.service.value.notAfter && KnownEnvironment(w).Some? then w.service else None)
            && got.persisted == r.written && got.synced == w.synced && got.session.serial != reader.session.serial
  {
    CommitWrites(a, snapshot, file, now, fits, saved);
    var r := Commit(a, snapshot, file, now, fits, saved);
    CommitKnowsValid(a, snapshot, file, now, fits, saved);
    ReaderRestores(reader, r.written.value, later);
  }

  lemma CommitKnowsValid(a: AccountState, snapshot: Snapshot, file: Option<Bundle>, now: int, fits: bool, saved: bool)
    requires a.cachedEnv.Some? ==> ValidEnvironment(a.cachedEnv.value)
    ensures var w := Commit(a, snapshot, file, now, fits, saved).account;
            KnownEnvironment(w).Some? ==> ValidEnvironment(KnownEnvironment(w).value)
  {
  }

  lemma ReaderRestores(reader: AccountState, b: Bundle, now: int)
    requires Untouched(reader) && reader.binding == b.oauthBinding && reader.client == b.clientBinding
    requires b.device.Some? && b.proofKey.Some? && reader.proofKey in {None, b.proofKey} && b.sisu.Some?
    requires b.environment.Some? ==> ValidEnvironment(b.environment.value)
    ensures var got := Reload(reader, Some(b), now);
            && got.deviceToken == b.device && got.proofKey == b.proofKey && got.cachedEnv == b.environment
            && got.session == Session(reader.session.serial + 1, b.sisu.value) && got.mirror == b.sisu.value.xsts
            && got.service == (if b.service.Some? && now < b.service.value.notAfter && b.environment.Some? then b.service else None)
            && got.persisted == Some(b) && got.synced == SyncedFrom(b)
  {
    var merged := MergedFile(reader, b, None, now);
    forall rp ensures At(merged.sisu.value.xsts, rp) == At(b.sisu.value.xsts, rp) {
      MergedXstsAt(b, LocalOf(reader), None, now, rp);
    }
    SameAtEveryKey(merged.sisu.value.xsts, b.sisu.value.xsts);
    assert WithoutRejected(merged.sisu.value.xsts, map[]) == merged.sisu.value.xsts;
  }

  // `synced` stops naming the bundle `persisted` stands for only when an unusable bundle was found
  // and its replacement was not written.
  lemma CommitKeepsSyncedNames(a: AccountState, snapshot: Snapshot, file: Option<Bundle>, now: int, fits: bool, saved: bool)
    requires SyncedNamesPersisted(a)
    ensures var r := Commit(a, snapshot, file, now, fits, saved);
            var unusable := Unseen(a, file) && !Restorable(a, MergedFile(a, file.value, Some(snapshot), now));
            SyncedNamesPersisted(r.account) <==>
              !unusable || r.written.Some? || a.synced == SyncedFrom(file.value)
  {
  }
}
