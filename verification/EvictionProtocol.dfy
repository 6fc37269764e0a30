/**
 Any number of accounts sharing one bundle file, stepping in any order. Each account also has a
 SISU session with its own token map, XSTS requests whose results are still on their way, invalidations
 that have not reached SISU yet, at most one publication holding a snapshot, and service exchanges in
 flight. All accounts share one OAuth binding, one client binding and one proof key.
 */
module EvictionProtocol {
  import opened AuthTypes
  import opened Wrappers
  import opened BundleMerge
  import opened AccountSpec

  type Name = (RelyingParty, nat)

  datatype Scope = Scope(binding: string, client: string, key: nat)

  // An XSTS token a request on session `serial` obtained but has not installed.
  datatype Result = Result(serial: nat, rp: RelyingParty, token: Token)

  datatype Pending = Pending(serial: nat, secrets: Snapshot)

  datatype Flight = Flight(ticket: Ticket, environment: nat, token: Token)

  datatype Process = Process(
    account: AccountState,
    results: set<Result>,
    pending: Option<Pending>,
    evictions: set<Name>,
    flights: set<Flight>,
    seen: set<Name>,
    seenService: set<nat>,
    own: set<nat>)

  // `published` and `evicted` name what any bundle ever held and what an account published the
  // eviction of; `issued` is every credential that exists.
  datatype System = System(
    now: int,
    file: Option<Bundle>,
    processes: map<nat, Process>,
    published: set<Name>,
    publishedService: set<nat>,
    evicted: set<Name>,
    evictedService: set<nat>,
    issued: set<nat>)

  function Names(tokens: TokenMap): (names: set<Name>)
    ensures forall n :: n in names <==> n.0 in tokens && tokens[n.0].id == n.1
  {
    set rp | rp in tokens :: (rp, tokens[rp].id)
  }

  function BundleNames(b: Bundle): set<Name> {
    if b.sisu.Some? then Names(b.sisu.value.xsts) else {}
  }

  function FileNames(file: Option<Bundle>): set<Name> {
    if file.Some? then BundleNames(file.value) else {}
  }

  function ServiceName(t: Option<Token>): set<nat> {
    if t.Some? then {t.value.id} else {}
  }

  function SisuTokens(a: AccountState): TokenMap {
    a.session.secrets.xsts
  }

  function Noted(q: Process): Process {
    q.(seen := q.seen + Names(SisuTokens(q.account)),
       seenService := q.seenService + ServiceName(q.account.service),
       own := q.own + ServiceName(q.account.service))
  }

  function NewAccount(scope: Scope): AccountState {
    AccountState(scope.binding, scope.client, Some(scope.key), None, Session(0, EMPTY_SNAPSHOT), map[],
                 None, None, None, false, 0, 0, None, NOTHING_SYNCED, map[], None)
  }

  // ---- Steps ----

  datatype Action =
    | Tick(elapsed: nat)
    | Open(p: nat)
    | Issue(p: nat, rp: RelyingParty, token: Token)
    | ReadCached(p: nat, rp: RelyingParty)
    | Return(p: nat, result: Result, device: Option<Token>)
    | Refuse(p: nat, rp: RelyingParty, token: Token)
    | ForgetInSisu(p: nat, rp: RelyingParty, id: nat, replaced: bool)
    | LoadFile(p: nat)
    | TakeSnapshot(p: nat)
    | Abandon(p: nat)
    | Write(p: nat, fits: bool, saved: bool)
    | Depart(p: nat, environment: nat, token: Token)
    | Arrive(p: nat, flight: Flight, background: bool)
    | RefuseService(p: nat, token: Token)
    | FindEnvironment(p: nat, found: LiveEnvironment)
    | NewDevice(p: nat, token: Token)

  predicate Enabled(s: System, act: Action) {
    if act.Tick? then true
    else if act.Open? then act.p !in s.processes
    else
      act.p in s.processes &&
      var q := s.processes[act.p];
      match act
      case Issue(_, rp, token) => !Valid(At(SisuTokens(q.account), rp), s.now) && token.id !in s.issued
      case ReadCached(_, rp) => Valid(At(SisuTokens(q.account), rp), s.now)
      case Return(_, result, _) => result in q.results
      case ForgetInSisu(_, rp, id, _) => (rp, id) in q.evictions
      case TakeSnapshot(_) => q.pending.None?
      case Write(_, _, _) => q.pending.Some? && q.pending.value.serial == q.account.session.serial
      case Depart(_, _, token) => token.id !in s.issued || Id(q.account.service) == Some(token.id)
      case Arrive(_, flight, _) => flight in q.flights
      case FindEnvironment(_, found) => ValidEnvironment(found.environment)
      case _ => true
  }

  // What one account's own step does to it, for the steps that neither read nor write the file.
  function Stepped(s: System, q: Process, act: Action): Process
    requires !act.Tick? && !act.Open?
  {
    var a := q.account;
    match act
    case Issue(_, rp, token) =>
      q.(account := WithSisuToken(a, rp, token), results := q.results + {Result(a.session.serial, rp, token)})
    case ReadCached(_, rp) =>
      if rp in SisuTokens(a) then q.(results := q.results + {Result(a.session.serial, rp, SisuTokens(a)[rp])}) else q
    case Return(_, r, device) =>
      q.(account := InstallXsts(a, r.serial, r.rp, r.token, device),
         results := q.results - {r},
         evictions := if r.serial == a.session.serial && RejectedXsts(a, r.rp, Some(r.token))
                      then q.evictions + {(r.rp, r.token.id)} else q.evictions)
    case Refuse(_, rp, token) => q.(account := RejectXsts(a, rp, token), evictions := q.evictions + {(rp, token.id)})
    case ForgetInSisu(_, rp, id, replaced) =>
      q.(account := if replaced then a else SisuInvalidate(a, rp, id), evictions := q.evictions - {(rp, id)})
    case TakeSnapshot(_) => q.(pending := Some(Pending(a.session.serial, a.session.secrets)))
    case Abandon(_) => q.(pending := None)
    case Depart(_, environment, token) =>
      q.(flights := q.flights + {Flight(TicketOf(a), environment, token)}, own := q.own + {token.id})
    case Arrive(_, f, background) =>
      q.(account := if background then Refresh(a, f.ticket, f.environment, f.token)
                    else Exchange(a, f.ticket, f.environment, f.token, s.now),
         flights := q.flights - {f})
    case RefuseService(_, token) => q.(account := RejectService(a, token))
    case FindEnvironment(_, found) => q.(account := Discover(a, found))
    case NewDevice(_, token) => q.(account := a.(deviceToken := Some(token)))
    case LoadFile(_) => q.(account := Reload(a, s.file, s.now))
    case Write(_, fits, saved) =>
      q.(account := Commit(a, if q.pending.Some? then q.pending.value.secrets else EMPTY_SNAPSHOT,
                           s.file, s.now, fits, saved).account,
         pending := None)
  }

  function Written(s: System, act: Action): Option<Bundle>
    requires act.Write? && act.p in s.processes
  {
    var q := s.processes[act.p];
    Commit(q.account, if q.pending.Some? then q.pending.value.secrets else EMPTY_SNAPSHOT,
           s.file, s.now, act.fits, act.saved).written
  }

  // The rejections a published bundle carries out: those of credentials the account really held.
  function Carried(q: Process): set<Name> {
    set rp | rp in q.account.rejected && (rp, q.account.rejected[rp].id) in q.seen :: (rp, q.account.rejected[rp].id)
  }

  function CarriedService(q: Process): set<nat> {
    ServiceName(q.account.rejectedService) * q.seenService
  }

  function Next(scope: Scope, s: System, act: Action): System
    requires Enabled(s, act)
  {
    match act
    case Tick(elapsed) => s.(now := s.now + elapsed)
    case Open(p) =>
      var q := Process(Reload(NewAccount(scope), s.file, s.now), {}, None, {}, {}, {}, {}, {});
      s.(processes := s.processes[p := Noted(q)])
    case Write(p, _, _) =>
      var q := Noted(Stepped(s, s.processes[p], act));
      var b := Written(s, act);
      if b.None? then s.(processes := s.processes[p := q])
      else s.(processes := s.processes[p := q],
              file := b,
              published := s.published + BundleNames(b.value),
              publishedService := s.publishedService + ServiceName(b.value.service),
              evicted := s.evicted + Carried(q),
              evictedService := s.evictedService + CarriedService(q))
    case _ =>
      s.(processes := s.processes[act.p := Noted(Stepped(s, s.processes[act.p], act))],
         issued := s.issued + if act.Issue? || act.Depart? then {act.token.id} else {})
  }

  // ---- The invariant ----

  ghost predicate InScope(scope: Scope, a: AccountState) {
    a.binding == scope.binding && a.client == scope.client && a.proofKey == Some(scope.key)
  }

  predicate BundleInScope(scope: Scope, b: Bundle) {
    && b.oauthBinding == scope.binding && b.clientBinding == scope.client && b.proofKey == Some(scope.key)
    && b.device.Some? && b.sisu.Some?
    && (b.environment.Some? ==> ValidEnvironment(b.environment.value))
  }

  predicate Refused(a: AccountState, rp: RelyingParty, t: Token) {
    RejectedXsts(a, rp, Some(t))
  }

  // An evicted token the account knows from the bundle it is in step with: the file no longer has it, and
  // the next bundle the account adopts ends every copy.
  predicate Doomed(a: AccountState, rp: RelyingParty, id: nat, evicted: set<Name>) {
    (rp, id) in evicted && SyncedXsts(a.synced, rp) == Some(id)
  }

  // A published token SISU holds, unless refused, is named in `synced`; only an account's own
  // unpublished tokens are not.
  ghost predicate TokensNamed(a: AccountState, tokens: TokenMap, published: set<Name>, evicted: set<Name>) {
    forall rp :: rp in tokens && !Refused(a, rp, tokens[rp]) && (rp, tokens[rp].id) in published + evicted ==>
      SyncedXsts(a.synced, rp) == Some(tokens[rp].id)
  }

  // The mirror and every result of the present session are backed by SISU's map while valid.
  ghost predicate Backed(a: AccountState, rp: RelyingParty, t: Token, now: int, evicted: set<Name>) {
    now < t.notAfter && !Refused(a, rp, t) && !Doomed(a, rp, t.id, evicted) ==> rp in SisuTokens(a) && SisuTokens(a)[rp] == t
  }

  ghost predicate SnapshotGood(a: AccountState, tokens: TokenMap, now: int, published: set<Name>, evicted: set<Name>) {
    && TokensNamed(a, tokens, published, evicted)
    && AllBacked(a, tokens, now, evicted)
    && (forall rp :: rp in SisuTokens(a) && (rp, SisuTokens(a)[rp].id) in published - evicted && !Refused(a, rp, SisuTokens(a)[rp]) ==>
          rp in tokens && tokens[rp] == SisuTokens(a)[rp])
  }

  predicate AllSeen(tokens: TokenMap, seen: set<Name>) {
    forall rp :: rp in tokens ==> (rp, tokens[rp].id) in seen
  }

  ghost predicate AllBacked(a: AccountState, tokens: TokenMap, now: int, evicted: set<Name>) {
    forall rp :: rp in tokens ==> Backed(a, rp, tokens[rp], now, evicted)
  }

  ghost predicate ResultsGood(q: Process, now: int, evicted: set<Name>) {
    forall r :: r in q.results ==>
      && r.serial <= q.account.session.serial
      && (r.serial == q.account.session.serial ==> Backed(q.account, r.rp, r.token, now, evicted) && (r.rp, r.token.id) in q.seen)
  }

  ghost predicate PendingGood(q: Process, now: int, published: set<Name>, evicted: set<Name>) {
    q.pending.Some? ==>
      && q.pending.value.serial <= q.account.session.serial
      && (q.pending.value.serial == q.account.session.serial ==>
            && SnapshotGood(q.account, q.pending.value.secrets.xsts, now, published, evicted)
            && AllSeen(q.pending.value.secrets.xsts, q.seen))
  }

  // An invalidation still to reach SISU is for the remembered rejection, or for one whose eviction is
  // published and which SISU does not hold or the next adopted bundle ends.
  ghost predicate EvictionsGood(q: Process, evicted: set<Name>) {
    forall e :: e in q.evictions ==>
      || (e.0 in q.account.rejected && q.account.rejected[e.0].id == e.1)
      || (e in evicted && Id(At(SisuTokens(q.account), e.0)) != Some(e.1))
      || Doomed(q.account, e.0, e.1, evicted)
  }

  ghost predicate XstsGood(q: Process, now: int, published: set<Name>, evicted: set<Name>) {
    && TokensNamed(q.account, SisuTokens(q.account), published, evicted)
    && AllSeen(SisuTokens(q.account), q.seen)
    && AllSeen(q.account.mirror, q.seen)
    && AllBacked(q.account, q.account.mirror, now, evicted)
    && ResultsGood(q, now, evicted)
    && PendingGood(q, now, published, evicted)
    && EvictionsGood(q, evicted)
  }

  predicate Minted(f: Flight) {
    Id(f.ticket.seed) != Some(f.token.id)
  }

  ghost predicate FlightGood(q: Process, f: Flight, published: set<nat>, evicted: set<nat>) {
    && f.ticket.serviceGen <= q.account.serviceGen
    && (f.ticket.serviceGen == q.account.serviceGen ==> Id(f.ticket.seed) == Id(q.account.service))
    && f.token.id in q.own
    && (Minted(f) ==> f.token.id !in q.seenService && f.token.id !in published && f.token.id !in evicted)
  }

  ghost predicate ServiceGood(q: Process, published: set<nat>, evicted: set<nat>) {
    var a := q.account;
    && ServiceName(a.service) <= q.seenService <= q.own
    && (a.service.Some? && a.service.value.id in published ==> a.synced.service == Some(a.service.value.id))
    && (a.service.Some? && a.service.value.id in evicted ==> a.service.value.id in published)
    && (forall f :: f in q.flights ==> FlightGood(q, f, published, evicted))
    && (forall f, g :: f in q.flights && g in q.flights && Minted(f) && Minted(g) && f.token.id == g.token.id ==> f == g)
  }

  ghost predicate Good(scope: Scope, q: Process, s: System) {
    && InScope(scope, q.account)
    && HoldsNoRejection(q.account)
    && SyncedNamesPersisted(q.account)
    && (q.account.cachedEnv.Some? ==> ValidEnvironment(q.account.cachedEnv.value))
    && XstsGood(q, s.now, s.published, s.evicted)
    && ServiceGood(q, s.publishedService, s.evictedService)
  }

  // Two accounts have both seen a token only if it was published.
  ghost predicate Exclusive(s: System) {
    forall p, q :: p in s.processes && q in s.processes && p != q ==>
      && s.processes[p].seen * s.processes[q].seen <= s.published
      && s.processes[p].own * s.processes[q].own <= s.publishedService
  }

  ghost predicate Known(s: System) {
    && s.publishedService <= s.issued && s.evictedService <= s.issued
    && (forall n :: n in s.published ==> n.1 in s.issued)
    && (forall n :: n in s.evicted ==> n.1 in s.issued)
    && (forall p :: p in s.processes ==> s.processes[p].own <= s.issued)
    && (forall p, n :: p in s.processes && n in s.processes[p].seen ==> n.1 in s.issued)
  }

  ghost predicate FileGood(scope: Scope, s: System) {
    match s.file
    case None => s.published == {} && s.publishedService == {} && s.evicted == {} && s.evictedService == {}
    case Some(b) =>
      && BundleInScope(scope, b)
      && BundleNames(b) <= s.published - s.evicted
      && ServiceName(b.service) <= s.publishedService - s.evictedService
  }

  ghost predicate Inv(scope: Scope, s: System) {
    && FileGood(scope, s) && Exclusive(s) && Known(s)
    && forall p :: p in s.processes ==> Good(scope, s.processes[p], s)
  }
}
