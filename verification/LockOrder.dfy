/**
 Every lock, lease and gate of the credential cache, taken in one order with one exception: a SISU
 session made under the account gate is used there before anyone else can know it. Accounts have their
 own gates and sessions, may share a sign-in source, and all share the two file leases. What an operation
 awaits without holding a lock (a flight, a publication, the end of the last operation) is ranked as well.
 */
module LockOrder {
  // A lock as an operation names it; the account, the source and the session are the operation's own.
  datatype Place = PublishGate | Sisu | OAuthGate | SourceGate | DerivedLease | OAuthLease | Gate | FlightMutex | ActiveMutex

  function Rank(p: Place): nat {
    match p
    case PublishGate => 0
    case Sisu => 1
    case OAuthGate => 2
    case SourceGate => 3
    case DerivedLease => 4
    case OAuthLease => 5
    case Gate => 6
    case FlightMutex => 7
    case ActiveMutex => 8
  }

  datatype Kind = Device | Xsts | Environment | PlayFab | Service

  // A flight's callers await its delivery, the delivery awaits the derivation's result; whoever publishes
  // awaits the publication, and closing awaits the last operation.
  datatype Awaited = Flight(kind: Kind) | Result(kind: Kind) | Publication | LastOperation

  // `Attempt` waits only so long, and then goes on behind the next `skip` instructions. `Look` reads which
  // session the account has, `Renew` replaces it.
  datatype Instr =
    | Take(place: Place)
    | Give(place: Place)
    | Attempt(place: Place, skip: nat)
    | Look
    | Renew
    | Await(what: Awaited)

  type Program = seq<Instr>

  // ---- What each operation takes and gives back, in its own order ----

  function Held(p: Place, inner: Program): Program {
    [Take(p)] + inner + [Give(p)]
  }

  // A lease whose wait may time out: the file is then left alone and the operation goes on.
  function Leased(p: Place, inner: Program): Program {
    [Attempt(p, |inner| + 1)] + inner + [Give(p)]
  }

  function Repeated(code: Program, n: nat): Program {
    if n == 0 then [] else code + Repeated(code, n - 1)
  }

  // Under the gate a restored session replaces the old one, and every remembered rejection is evicted from it.
  function Adoption(evictions: nat): Program {
    [Renew] + Repeated(Held(Sisu, []), evictions)
  }

  datatype Catching = Unchanged | Adopted(evictions: nat)

  function ReloadLocked(c: Catching): Program {
    match c
    case Unchanged => []
    case Adopted(n) => Adoption(n)
  }

  // The OAuth source's own gate and lease, then the account gate, under the gate ordering OAuth reads.
  function CurrentOAuth(resets: bool): Program {
    Held(OAuthGate, Held(SourceGate, Held(OAuthLease, [])) + Held(Gate, if resets then [Renew] else []))
  }

  // A snapshot of the session, then both leases, the gate and, after adopting, a snapshot of the restored session.
  function PublishOnce(c: Catching): Program {
    Held(Gate, [Look]) + Held(Sisu, []) +
    Leased(DerivedLease, Leased(OAuthLease, Held(Gate, ReloadLocked(c) + if c.Adopted? then Held(Sisu, []) else [])))
  }

  function PublishRounds(rounds: seq<Catching>): Program {
    if rounds == [] then [] else PublishOnce(rounds[0]) + PublishRounds(rounds[1..])
  }

  // What happens between two points at which an operation holds nothing.
  datatype Phase =
    | UseState                      // the gate, briefly
    | ReadSession                   // the gate, to learn the account's session
    | CountOperation                // beginning or ending an operation
    | JoinFlight(starts: bool)      // a flight is looked up, and begun if there is none
    | LeaveFlight                   // a flight is deregistered
    | AwaitResult(what: Awaited)
    | ApplyBinding(resets: bool)
    | Reload(c: Catching)
    | AskSisu(refreshes: bool)      // SISU keeps its lock while it asks the account for the OAuth token
    | Publish(rounds: seq<Catching>)
    | ReadSource                    // opening an account reads its source before the account is shared
    | LeaseOAuth                    // opening a source
    | LeaseBoth                     // signing out

  function PhaseCode(phase: Phase): Program {
    match phase
    case UseState => Held(Gate, [])
    case ReadSession => Held(Gate, [Look])
    case CountOperation => Held(ActiveMutex, [])
    case JoinFlight(starts) => Held(FlightMutex, if starts then Held(ActiveMutex, []) else [])
    case LeaveFlight => Held(FlightMutex, [])
    case AwaitResult(what) => [Await(what)]
    case ApplyBinding(resets) => CurrentOAuth(resets)
    case Reload(c) => Leased(DerivedLease, Held(Gate, ReloadLocked(c)))
    case AskSisu(refreshes) => Held(Sisu, if refreshes then CurrentOAuth(false) else [])
    case Publish(rounds) => Held(PublishGate, PublishRounds(rounds))
    case ReadSource => Held(SourceGate, Held(OAuthLease, []))
    case LeaseOAuth => Held(OAuthLease, [])
    case LeaseBoth => Held(DerivedLease, Held(OAuthLease, []))
  }

  function Code(phases: seq<Phase>): Program {
    if phases == [] then [] else PhaseCode(phases[0]) + Code(phases[1..])
  }

  // One attempt to derive an XSTS token; a result that was refused meanwhile is evicted from SISU at once.
  datatype Try = Try(refreshes: bool, refused: bool)

  function Tries(tries: seq<Try>): seq<Phase> {
    if tries == [] then []
    else [ReadSession, AskSisu(tries[0].refreshes), UseState] + (if tries[0].refused then [AskSisu(false)] else []) + Tries(tries[1..])
  }

  function Prepare(resets: bool, c: Catching): seq<Phase> {
    [ApplyBinding(resets), Reload(c)]
  }

  function Flown(kind: Kind, starts: bool): seq<Phase> {
    [JoinFlight(starts), AwaitResult(Flight(kind))]
  }

  // A credential read from the cache or, failing that, awaited from its flight.
  function Ensured(kind: Kind, starts: bool): seq<Phase> {
    [UseState] + Flown(kind, starts)
  }

  function Requested(kind: Kind, resets: bool, c: Catching, starts: bool): seq<Phase> {
    [CountOperation] + Prepare(resets, c) + Ensured(kind, starts) + [CountOperation]
  }

  function PlayFabSession(starts: bool): seq<Phase> {
    [UseState] + Ensured(Environment, starts) + Flown(PlayFab, starts)
  }

  function ServiceToken(starts: bool): seq<Phase> {
    Ensured(Environment, starts) + Ensured(Service, starts)
  }

  // What a service exchange asks for on its way: the environment and the PlayFab session.
  function Exchange(starts: bool): seq<Phase> {
    Ensured(Environment, starts) + [UseState] + PlayFabSession(starts) + [UseState]
  }

  function Exchanges(starts: bool, attempts: nat): seq<Phase> {
    if attempts == 0 then [] else Exchange(starts) + Exchanges(starts, attempts - 1)
  }

  // A publication runs on its own; the operation that asked for it waits a moment.
  const ASK_TO_PUBLISH: seq<Phase> := [CountOperation, AwaitResult(Publication)]

  datatype Operation =
    | OpeningSource | OpeningAccount | SigningOut | Closing | ReadingKey
    | ReadingToken(resets: bool)
    | Requesting(kind: Kind, resets: bool, c: Catching, starts: bool) // a device, XSTS or environment request
    | RequestingPlayFab(resets: bool, c: Catching, starts: bool)
    | RequestingService(resets: bool, c: Catching, starts: bool)
    | Minting(resets: bool, c: Catching, starts: bool)
    | FlyingXsts(tries: seq<Try>)
    | FlyingDevice
    | FlyingEnvironment
    | FlyingPlayFab(resets: bool, c: Catching, starts: bool)
    | FlyingService(starts: bool, attempts: nat)
    | DeliveringFlight(kind: Kind)
    | RefreshingAhead(resets: bool, c: Catching, starts: bool, valid: bool)
    | RefusingXsts(c: Catching)
    | RefusingService(c: Catching)
    | Publishing(rounds: seq<Catching>)

  function Phases(op: Operation): seq<Phase> {
    match op
    case OpeningSource => [LeaseOAuth]
    case OpeningAccount => [ReadSource]
    case SigningOut => [LeaseBoth]
    case Closing => [CountOperation, AwaitResult(LastOperation), UseState]
    case ReadingKey => [UseState]
    case ReadingToken(resets) => [CountOperation, ApplyBinding(resets), CountOperation]
    case Requesting(kind, resets, c, starts) => Requested(kind, resets, c, starts)
    case RequestingPlayFab(resets, c, starts) => [CountOperation] + Prepare(resets, c) + PlayFabSession(starts) + [CountOperation]
    case RequestingService(resets, c, starts) => [CountOperation] + Prepare(resets, c) + ServiceToken(starts) + [CountOperation]
    case Minting(resets, c, starts) =>
      [CountOperation] + Requested(Environment, resets, c, starts) +
      [CountOperation] + Prepare(resets, c) + ServiceToken(starts) + [CountOperation, CountOperation]
    case FlyingXsts(tries) => Tries(tries) + ASK_TO_PUBLISH + [CountOperation]
    case FlyingDevice => [UseState, UseState] + ASK_TO_PUBLISH + [CountOperation]
    case FlyingEnvironment => [UseState, UseState, CountOperation]
    case FlyingPlayFab(resets, c, starts) => [UseState] + Requested(Xsts, resets, c, starts) + [UseState, CountOperation]
    case FlyingService(starts, attempts) => Exchanges(starts, attempts) + ASK_TO_PUBLISH + [CountOperation]
    case DeliveringFlight(kind) => [AwaitResult(Result(kind)), LeaveFlight]
    case RefreshingAhead(resets, c, starts, valid) =>
      [CountOperation] + Prepare(resets, c) + [UseState] +
      (if valid then Exchange(starts) + ASK_TO_PUBLISH else ServiceToken(starts)) + [CountOperation]
    case RefusingXsts(c) => [CountOperation, UseState, Reload(c), ReadSession, AskSisu(false)] + ASK_TO_PUBLISH + [CountOperation]
    case RefusingService(c) => [CountOperation, Reload(c), UseState] + ASK_TO_PUBLISH + [CountOperation]
    case Publishing(rounds) => [UseState, UseState, Publish(rounds), CountOperation]
  }

  // ---- The order ----

  // A session this operation made (`own`) under the gate it still holds may be locked out of order.
  predicate MayTake(held: set<Place>, own: bool, p: Place) {
    (forall h :: h in held ==> Rank(h) < Rank(p)) || (p == Sisu && own && Sisu !in held)
  }

  // Each lock taken ranks above every lock held, save a session of its own's; the session changes hands only
  // under the gate and out of use; nothing is held while awaiting a result, and nothing stays held.
  ghost predicate Ordered(held: set<Place>, own: bool, code: Program)
    decreases |code|
  {
    if code == [] then held == {}
    else match code[0]
      case Take(p) => MayTake(held, own, p) && Ordered(held + {p}, own, code[1..])
      case Give(p) => p in held && (p == Gate ==> Sisu !in held || !own) && Ordered(held - {p}, own && p != Gate, code[1..])
      case Attempt(p, skip) =>
        && MayTake(held, own, p) && Ordered(held + {p}, own, code[1..])
        && skip <= |code| - 1 && Ordered(held, own, code[1 + skip..])
      case Look => Gate in held && Sisu !in held && Ordered(held, own, code[1..])
      case Renew => Gate in held && Sisu !in held && Ordered(held, true, code[1..])
      case Await(_) => held == {} && Ordered(held, own, code[1..])
  }

  // A program that can run while `held` is held, and leaves `held` as it was and the session as `after` says.
  ghost predicate Nests(held: set<Place>, own: bool, code: Program, after: bool) {
    forall rest: Program :: Ordered(held, after, rest) ==> Ordered(held, own, code + rest)
  }

  lemma NestsNothing(held: set<Place>, own: bool)
    ensures Nests(held, own, [], own)
  {
    forall rest: Program | Ordered(held, own, rest) ensures Ordered(held, own, [] + rest) {
      assert [] + rest == rest;
    }
  }

  lemma NestsBoth(held: set<Place>, first: bool, p: Program, then_: bool, q: Program, last: bool)
    requires Nests(held, first, p, then_) && Nests(held, then_, q, last)
    ensures Nests(held, first, p + q, last)
  {
    forall rest: Program | Ordered(held, last, rest) ensures Ordered(held, first, (p + q) + rest) {
      assert (p + q) + rest == p + (q + rest);
    }
  }

  lemma OrderedTake(held: set<Place>, own: bool, p: Place, tail: Program)
    requires MayTake(held, own, p) && Ordered(held + {p}, own, tail)
    ensures Ordered(held, own, [Take(p)] + tail)
  {
    assert ([Take(p)] + tail)[1..] == tail;
  }

  lemma OrderedGive(held: set<Place>, own: bool, p: Place, tail: Program)
    requires p !in held && (p == Gate ==> Sisu !in held || !own) && Ordered(held, own && p != Gate, tail)
    ensures Ordered(held + {p}, own, [Give(p)] + tail)
  {
    assert ([Give(p)] + tail)[1..] == tail && held + {p} - {p} == held;
  }

  lemma OrderedSkip(held: set<Place>, own: bool, p: Place, skip: nat, tail: Program)
    requires skip <= |tail| && MayTake(held, own, p) && Ordered(held + {p}, own, tail) && Ordered(held, own, tail[skip..])
    ensures Ordered(held, own, [Attempt(p, skip)] + tail)
  {
    var code := [Attempt(p, skip)] + tail;
    assert code[1..] == tail && code[1 + skip..] == tail[skip..];
  }

  lemma Behind(first: Program, second: Program, rest: Program)
    ensures (first + (second + rest))[|first| + |second|..] == rest
  {
    assert first + (second + rest) == (first + second) + rest;
  }

  lemma OrderedAttempt(held: set<Place>, own: bool, p: Place, inner: Program, rest: Program)
    requires MayTake(held, own, p) && Ordered(held + {p}, own, inner + ([Give(p)] + rest)) && Ordered(held, own, rest)
    ensures Ordered(held, own, [Attempt(p, |inner| + 1)] + (inner + ([Give(p)] + rest)))
  {
    hide Ordered;
    Behind(inner, [Give(p)], rest);
    OrderedSkip(held, own, p, |inner| + 1, inner + ([Give(p)] + rest));
  }

  lemma GivesBack(held: set<Place>, own: bool, p: Place, inner: Program, after: bool, rest: Program)
    requires p !in held && Nests(held + {p}, own, inner, after) && Ordered(held, after && p != Gate, rest)
    requires p == Gate ==> Sisu !in held
    ensures Ordered(held + {p}, own, inner + ([Give(p)] + rest))
  {
    hide Ordered;
    OrderedGive(held, after, p, rest);
  }

  lemma NestsHeld(held: set<Place>, own: bool, p: Place, inner: Program, after: bool)
    requires p !in held && MayTake(held, own, p) && Nests(held + {p}, own, inner, after)
    requires p == Gate ==> Sisu !in held
    ensures Nests(held, own, Held(p, inner), after && p != Gate)
  {
    hide Ordered;
    forall rest: Program | Ordered(held, after && p != Gate, rest) ensures Ordered(held, own, Held(p, inner) + rest) {
      GivesBack(held, own, p, inner, after, rest);
      OrderedTake(held, own, p, inner + ([Give(p)] + rest));
      assert Held(p, inner) + rest == [Take(p)] + (inner + ([Give(p)] + rest));
    }
  }

  lemma NestsLeased(held: set<Place>, own: bool, p: Place, inner: Program)
    requires p !in held && p != Gate && MayTake(held, own, p) && Nests(held + {p}, own, inner, own)
    ensures Nests(held, own, Leased(p, inner), own)
  {
    hide Ordered;
    forall rest: Program | Ordered(held, own, rest) ensures Ordered(held, own, Leased(p, inner) + rest) {
      GivesBack(held, own, p, inner, own, rest);
      OrderedAttempt(held, own, p, inner, rest);
      assert Leased(p, inner) + rest == [Attempt(p, |inner| + 1)] + (inner + ([Give(p)] + rest));
    }
  }

  lemma {:induction false} NestsRepeated(held: set<Place>, own: bool, code: Program, n: nat)
    requires Nests(held, own, code, own)
    ensures Nests(held, own, Repeated(code, n), own)
  {
    if n == 0 {
      NestsNothing(held, own);
    } else {
      NestsRepeated(held, own, code, n - 1);
      NestsBoth(held, own, code, own, Repeated(code, n - 1), own);
    }
  }

  lemma BriefNests(held: set<Place>, own: bool, p: Place)
    requires p !in held && p != Gate && MayTake(held, own, p)
    ensures Nests(held, own, Held(p, []), own)
  {
    NestsNothing(held + {p}, own);
    NestsHeld(held, own, p, [], own);
  }

  // A single instruction on the account's session, under the gate.
  lemma SessionNests(held: set<Place>, own: bool, renews: bool)
    requires Gate in held && Sisu !in held
    ensures Nests(held, own, [if renews then Renew else Look], renews || own)
  {
    var code := [if renews then Renew else Look];
    forall rest: Program | Ordered(held, renews || own, rest) ensures Ordered(held, own, code + rest) {
      assert (code + rest)[1..] == rest;
    }
  }

  // The gate, around something that uses or replaces the session.
  lemma GateNests(held: set<Place>, inner: Program, after: bool)
    requires Sisu !in held && (forall h :: h in held ==> Rank(h) < 6) && Nests(held + {Gate}, false, inner, after)
    ensures Nests(held, false, Held(Gate, inner), false)
  {
    NestsHeld(held, false, Gate, inner, after);
  }

  lemma TouchNests(held: set<Place>)
    requires Sisu !in held && forall h :: h in held ==> Rank(h) < 6
    ensures Nests(held, false, Held(Gate, []), false) && Nests(held, false, Held(Gate, [Look]), false)
    ensures Nests(held, false, Held(Gate, [Renew]), false)
  {
    NestsNothing(held + {Gate}, false);
    GateNests(held, [], false);
    SessionNests(held + {Gate}, false, false);
    GateNests(held, [Look], false);
    SessionNests(held + {Gate}, false, true);
    GateNests(held, [Renew], true);
  }

  // The exception: under gate and leases, the restored session's own lock.
  lemma AdoptionNests(held: set<Place>, n: nat)
    requires Gate in held && Sisu !in held
    ensures Nests(held, false, Adoption(n), true)
  {
    SessionNests(held, false, true);
    BriefNests(held, true, Sisu);
    NestsRepeated(held, true, Held(Sisu, []), n);
    NestsBoth(held, false, [Renew], true, Repeated(Held(Sisu, []), n), true);
  }

  lemma ReloadNests(held: set<Place>, c: Catching)
    requires Sisu !in held && forall h :: h in held ==> Rank(h) < 6
    ensures Nests(held, false, Held(Gate, ReloadLocked(c)), false)
  {
    match c
    case Unchanged => TouchNests(held);
    case Adopted(n) =>
      AdoptionNests(held + {Gate}, n);
      GateNests(held, Adoption(n), true);
  }

  lemma WriteNests(held: set<Place>, c: Catching)
    requires Sisu !in held && forall h :: h in held ==> Rank(h) < 6
    ensures Nests(held, false, Held(Gate, ReloadLocked(c) + if c.Adopted? then Held(Sisu, []) else []), false)
  {
    match c
    case Unchanged =>
      TouchNests(held);
      assert ReloadLocked(c) + [] == [];
    case Adopted(n) =>
      AdoptionNests(held + {Gate}, n);
      BriefNests(held + {Gate}, true, Sisu);
      NestsBoth(held + {Gate}, false, Adoption(n), true, Held(Sisu, []), true);
      GateNests(held, Adoption(n) + Held(Sisu, []), true);
  }

  lemma CurrentOAuthNests(held: set<Place>, resets: bool)
    requires forall h :: h in held ==> Rank(h) < 2
    requires resets ==> Sisu !in held
    ensures Nests(held, false, CurrentOAuth(resets), false)
  {
    var h1 := held + {OAuthGate};
    BriefNests(h1 + {SourceGate}, false, OAuthLease);
    NestsHeld(h1, false, SourceGate, Held(OAuthLease, []), false);
    if resets {
      TouchNests(h1);
    } else {
      NestsNothing(h1 + {Gate}, false);
      EmptyGateNests(h1);
    }
    var inner := Held(Gate, if resets then [Renew] else []);
    NestsBoth(h1, false, Held(SourceGate, Held(OAuthLease, [])), false, inner, false);
    NestsHeld(held, false, OAuthGate, Held(SourceGate, Held(OAuthLease, [])) + inner, false);
  }

  // A gate entered and left while SISU's own lock is held, as in its callback for the OAuth token.
  lemma EmptyGateNests(held: set<Place>)
    requires forall h :: h in held ==> Rank(h) < 6
    ensures Nests(held, false, Held(Gate, []), false)
  {
    forall rest: Program | Ordered(held, false, rest) ensures Ordered(held, false, Held(Gate, []) + rest) {
      var code := Held(Gate, []) + rest;
      assert code[1..] == [Give(Gate)] + rest && ([Give(Gate)] + rest)[1..] == rest;
      assert held + {Gate} - {Gate} == held;
    }
  }

  lemma PublishOnceNests(held: set<Place>, c: Catching)
    requires forall h :: h in held ==> Rank(h) < 1
    ensures Nests(held, false, PublishOnce(c), false)
  {
    TouchNests(held);
    BriefNests(held, false, Sisu);
    var h1 := held + {DerivedLease};
    WriteNests(h1 + {OAuthLease}, c);
    var write := Held(Gate, ReloadLocked(c) + if c.Adopted? then Held(Sisu, []) else []);
    NestsLeased(h1, false, OAuthLease, write);
    NestsLeased(held, false, DerivedLease, Leased(OAuthLease, write));
    NestsBoth(held, false, Held(Gate, [Look]), false, Held(Sisu, []), false);
    NestsBoth(held, false, Held(Gate, [Look]) + Held(Sisu, []), false, Leased(DerivedLease, Leased(OAuthLease, write)), false);
  }

  lemma {:induction false} PublishRoundsNest(held: set<Place>, rounds: seq<Catching>)
    requires forall h :: h in held ==> Rank(h) < 1
    ensures Nests(held, false, PublishRounds(rounds), false)
  {
    if rounds == [] {
      NestsNothing(held, false);
    } else {
      PublishOnceNests(held, rounds[0]);
      PublishRoundsNest(held, rounds[1..]);
      NestsBoth(held, false, PublishOnce(rounds[0]), false, PublishRounds(rounds[1..]), false);
    }
  }

  lemma PhaseNests(phase: Phase)
    ensures Nests({}, false, PhaseCode(phase), false)
  {
    match phase
    case UseState => TouchNests({});
    case ReadSession => TouchNests({});
    case CountOperation => BriefNests({}, false, ActiveMutex);
    case JoinFlight(starts) =>
      BriefNests({} + {FlightMutex}, false, ActiveMutex);
      NestsHeld({}, false, FlightMutex, Held(ActiveMutex, []), false);
      BriefNests({}, false, FlightMutex);
    case LeaveFlight => BriefNests({}, false, FlightMutex);
    case AwaitResult(what) =>
      forall rest: Program | Ordered({}, false, rest) ensures Ordered({}, false, [Await(what)] + rest) {
        assert ([Await(what)] + rest)[1..] == rest;
      }
    case ApplyBinding(resets) => CurrentOAuthNests({}, resets);
    case Reload(c) =>
      ReloadNests({} + {DerivedLease}, c);
      NestsLeased({}, false, DerivedLease, Held(Gate, ReloadLocked(c)));
    case AskSisu(refreshes) =>
      CurrentOAuthNests({} + {Sisu}, false);
      NestsHeld({}, false, Sisu, CurrentOAuth(false), false);
      BriefNests({}, false, Sisu);
    case Publish(rounds) =>
      PublishRoundsNest({} + {PublishGate}, rounds);
      NestsHeld({}, false, PublishGate, PublishRounds(rounds), false);
    case ReadSource =>
      BriefNests({} + {SourceGate}, false, OAuthLease);
      NestsHeld({}, false, SourceGate, Held(OAuthLease, []), false);
    case LeaseOAuth => BriefNests({}, false, OAuthLease);
    case LeaseBoth =>
      BriefNests({} + {DerivedLease}, false, OAuthLease);
      NestsHeld({}, false, DerivedLease, Held(OAuthLease, []), false);
  }

  lemma {:induction false} PhasesAreOrdered(phases: seq<Phase>)
    ensures Ordered({}, false, Code(phases))
  {
    if phases != [] {
      PhaseNests(phases[0]);
      PhasesAreOrdered(phases[1..]);
    }
  }

  // Every operation takes its locks in rank order, save a session of its own's, and gives all of them back.
  lemma EveryOperationIsOrdered(op: Operation)
    ensures Ordered({}, false, Code(Phases(op)))
  {
    PhasesAreOrdered(Phases(op));
  }

  // Without the exception adoption would break the order: a session others know may not be locked here.
  lemma AdoptionNeedsException(rest: Program)
    ensures !Ordered({}, false, [Take(DerivedLease), Take(Gate)] + ([Take(Sisu)] + rest))
  {
    var tail := [Take(Sisu)] + rest;
    assert Gate in {} + {DerivedLease} + {Gate} && Rank(Gate) >= Rank(Sisu);
    assert !Ordered({} + {DerivedLease} + {Gate}, false, tail);
    NotOrdered({} + {DerivedLease}, false, Gate, tail);
    NotOrdered({}, false, DerivedLease, [Take(Gate)] + tail);
    assert [Take(DerivedLease), Take(Gate)] + tail == [Take(DerivedLease)] + ([Take(Gate)] + tail);
  }

  lemma NotOrdered(held: set<Place>, own: bool, p: Place, tail: Program)
    requires !Ordered(held + {p}, own, tail)
    ensures !Ordered(held, own, [Take(p)] + tail)
  {
    assert ([Take(p)] + tail)[1..] == tail;
  }

  // ---- Who awaits whom ----

  // Service tokens are derived with the PlayFab session, and that with an XSTS token.
  function Depth(kind: Kind): nat {
    match kind
    case PlayFab => 1
    case Service => 2
    case _ => 0
  }

  function AwaitRank(what: Awaited): nat {
    match what
    case Publication => 0
    case Result(kind) => 2 * Depth(kind) + 1
    case Flight(kind) => 2 * Depth(kind) + 2
    case LastOperation => 8
  }

  function OpRank(op: Operation): nat {
    match op
    case Publishing(_) => 0
    case FlyingXsts(_) => 1
    case FlyingDevice => 1
    case FlyingEnvironment => 1
    case FlyingPlayFab(_, _, _) => 3
    case FlyingService(_, _) => 5
    case DeliveringFlight(kind) => AwaitRank(Flight(kind))
    case Closing => 9
    case _ => 7
  }

  // The operations whose end, or whose progress up to it, is awaited; Close waits for those that were counted.
  predicate Serves(op: Operation, what: Awaited) {
    match what
    case Publication => op.Publishing?
    case Result(Device) => op.FlyingDevice?
    case Result(Xsts) => op.FlyingXsts?
    case Result(Environment) => op.FlyingEnvironment?
    case Result(PlayFab) => op.FlyingPlayFab?
    case Result(Service) => op.FlyingService?
    case Flight(kind) => op == DeliveringFlight(kind)
    case LastOperation =>
      !op.Closing? && !op.DeliveringFlight? && !op.OpeningSource? && !op.OpeningAccount? && !op.SigningOut? && !op.ReadingKey?
  }

  // Everything this code awaits ranks below `bound`.
  ghost predicate AwaitsBelow(code: Program, bound: nat) {
    forall k :: 0 <= k < |code| && code[k].Await? ==> AwaitRank(code[k].what) < bound
  }

  lemma BelowBoth(p: Program, q: Program, bound: nat)
    requires AwaitsBelow(p, bound) && AwaitsBelow(q, bound)
    ensures AwaitsBelow(p + q, bound)
  {
  }

  lemma OneBelow(instr: Instr, bound: nat)
    requires instr.Await? ==> AwaitRank(instr.what) < bound
    ensures AwaitsBelow([], bound) && AwaitsBelow([instr], bound)
  {
  }

  lemma HeldBelow(p: Place, inner: Program, bound: nat)
    requires AwaitsBelow(inner, bound)
    ensures AwaitsBelow(Held(p, inner), bound) && AwaitsBelow(Leased(p, inner), bound)
  {
    hide AwaitsBelow;
    OneBelow(Take(p), bound);
    OneBelow(Attempt(p, |inner| + 1), bound);
    OneBelow(Give(p), bound);
    BelowBoth([Take(p)], inner, bound);
    BelowBoth([Attempt(p, |inner| + 1)], inner, bound);
    BelowBoth([Take(p)] + inner, [Give(p)], bound);
    BelowBoth([Attempt(p, |inner| + 1)] + inner, [Give(p)], bound);
  }

  lemma BriefBelow(p: Place, bound: nat)
    ensures AwaitsBelow(Held(p, []), bound)
  {
    OneBelow(Look, bound);
    HeldBelow(p, [], bound);
  }

  lemma {:induction false} RepeatedBelow(code: Program, n: nat, bound: nat)
    requires AwaitsBelow(code, bound)
    ensures AwaitsBelow(Repeated(code, n), bound)
  {
    hide AwaitsBelow;
    if n == 0 {
      OneBelow(Look, bound);
    } else {
      RepeatedBelow(code, n - 1, bound);
      BelowBoth(code, Repeated(code, n - 1), bound);
    }
  }

  lemma ReloadBelow(c: Catching, bound: nat)
    ensures AwaitsBelow(ReloadLocked(c), bound)
  {
    hide AwaitsBelow;
    OneBelow(Renew, bound);
    if c.Adopted? {
      BriefBelow(Sisu, bound);
      RepeatedBelow(Held(Sisu, []), c.evictions, bound);
      BelowBoth([Renew], Repeated(Held(Sisu, []), c.evictions), bound);
    }
  }

  lemma CurrentOAuthBelow(resets: bool, bound: nat)
    ensures AwaitsBelow(CurrentOAuth(resets), bound)
  {
    hide AwaitsBelow;
    OneBelow(Renew, bound);
    BriefBelow(OAuthLease, bound);
    HeldBelow(SourceGate, Held(OAuthLease, []), bound);
    HeldBelow(Gate, if resets then [Renew] else [], bound);
    BelowBoth(Held(SourceGate, Held(OAuthLease, [])), Held(Gate, if resets then [Renew] else []), bound);
    HeldBelow(OAuthGate, Held(SourceGate, Held(OAuthLease, [])) + Held(Gate, if resets then [Renew] else []), bound);
  }

  lemma PublishOnceBelow(c: Catching, bound: nat)
    ensures AwaitsBelow(PublishOnce(c), bound)
  {
    hide AwaitsBelow;
    OneBelow(Look, bound);
    HeldBelow(Gate, [Look], bound);
    BriefBelow(Sisu, bound);
    ReloadBelow(c, bound);
    var last := if c.Adopted? then Held(Sisu, []) else [];
    BelowBoth(ReloadLocked(c), last, bound);
    var write := Held(Gate, ReloadLocked(c) + last);
    HeldBelow(Gate, ReloadLocked(c) + last, bound);
    HeldBelow(OAuthLease, write, bound);
    HeldBelow(DerivedLease, Leased(OAuthLease, write), bound);
    BelowBoth(Held(Gate, [Look]), Held(Sisu, []), bound);
    BelowBoth(Held(Gate, [Look]) + Held(Sisu, []), Leased(DerivedLease, Leased(OAuthLease, write)), bound);
  }

  lemma {:induction false} PublishRoundsBelow(rounds: seq<Catching>, bound: nat)
    ensures AwaitsBelow(PublishRounds(rounds), bound)
  {
    hide AwaitsBelow;
    if rounds == [] {
      OneBelow(Look, bound);
    } else {
      PublishOnceBelow(rounds[0], bound);
      PublishRoundsBelow(rounds[1..], bound);
      BelowBoth(PublishOnce(rounds[0]), PublishRounds(rounds[1..]), bound);
    }
  }

  lemma PhaseBelow(phase: Phase, bound: nat)
    requires phase.AwaitResult? ==> AwaitRank(phase.what) < bound
    ensures AwaitsBelow(PhaseCode(phase), bound)
  {
    hide AwaitsBelow;
    OneBelow(Look, bound);
    match phase
    case UseState => BriefBelow(Gate, bound);
    case ReadSession => HeldBelow(Gate, [Look], bound);
    case CountOperation => BriefBelow(ActiveMutex, bound);
    case JoinFlight(starts) =>
      BriefBelow(ActiveMutex, bound);
      HeldBelow(FlightMutex, if starts then Held(ActiveMutex, []) else [], bound);
    case LeaveFlight => BriefBelow(FlightMutex, bound);
    case AwaitResult(what) => OneBelow(Await(what), bound);
    case ApplyBinding(resets) => CurrentOAuthBelow(resets, bound);
    case Reload(c) =>
      ReloadBelow(c, bound);
      HeldBelow(Gate, ReloadLocked(c), bound);
      HeldBelow(DerivedLease, Held(Gate, ReloadLocked(c)), bound);
    case AskSisu(refreshes) =>
      CurrentOAuthBelow(false, bound);
      HeldBelow(Sisu, if refreshes then CurrentOAuth(false) else [], bound);
    case Publish(rounds) =>
      PublishRoundsBelow(rounds, bound);
      HeldBelow(PublishGate, PublishRounds(rounds), bound);
    case ReadSource =>
      BriefBelow(OAuthLease, bound);
      HeldBelow(SourceGate, Held(OAuthLease, []), bound);
    case LeaseOAuth => BriefBelow(OAuthLease, bound);
    case LeaseBoth =>
      BriefBelow(OAuthLease, bound);
      HeldBelow(DerivedLease, Held(OAuthLease, []), bound);
  }

  ghost predicate PhasesBelow(phases: seq<Phase>, bound: nat) {
    forall phase :: phase in phases && phase.AwaitResult? ==> AwaitRank(phase.what) < bound
  }

  lemma {:induction false} CodeBelow(phases: seq<Phase>, bound: nat)
    requires PhasesBelow(phases, bound)
    ensures AwaitsBelow(Code(phases), bound)
  {
    hide AwaitsBelow;
    if phases == [] {
      OneBelow(Look, bound);
    } else {
      PhaseBelow(phases[0], bound);
      CodeBelow(phases[1..], bound);
      BelowBoth(PhaseCode(phases[0]), Code(phases[1..]), bound);
    }
  }

  lemma {:induction false} TriesBelow(tries: seq<Try>, bound: nat)
    ensures PhasesBelow(Tries(tries), bound)
  {
    if tries != [] { TriesBelow(tries[1..], bound); }
  }

  lemma {:induction false} ExchangesBelow(starts: bool, attempts: nat)
    ensures PhasesBelow(Exchanges(starts, attempts), 5)
  {
    if attempts > 0 { ExchangesBelow(starts, attempts - 1); }
  }

  lemma PiecesBelow(kind: Kind, resets: bool, c: Catching, starts: bool, bound: nat)
    ensures PhasesBelow(Prepare(resets, c), bound)
    ensures AwaitRank(Flight(kind)) < bound ==> PhasesBelow(Requested(kind, resets, c, starts), bound)
    ensures 4 < bound ==> PhasesBelow(PlayFabSession(starts), bound) && PhasesBelow(Exchange(starts), bound)
    ensures 6 < bound ==> PhasesBelow(ServiceToken(starts), bound)
  {
  }

  lemma FlightsBelow(op: Operation)
    requires OpRank(op) < 7
    ensures PhasesBelow(Phases(op), OpRank(op))
  {
    hide Requested, Exchanges, Tries;
    match op
    case FlyingXsts(tries) => TriesBelow(tries, 1);
    case FlyingPlayFab(resets, c, starts) => PiecesBelow(Xsts, resets, c, starts, 3);
    case FlyingService(starts, attempts) => ExchangesBelow(starts, attempts);
    case _ =>
  }

  lemma MintingBelow(op: Operation)
    requires op.Minting?
    ensures PhasesBelow(Phases(op), 7)
  {
    hide Prepare, Requested, ServiceToken;
    PiecesBelow(Environment, op.resets, op.c, op.starts, 7);
  }

  lemma RequestsBelow(op: Operation)
    requires OpRank(op) >= 7
    ensures PhasesBelow(Phases(op), OpRank(op))
  {
    hide Prepare, Requested, PlayFabSession, Exchange, ServiceToken;
    match op
    case Requesting(kind, resets, c, starts) => PiecesBelow(kind, resets, c, starts, 7);
    case RequestingPlayFab(resets, c, starts) => PiecesBelow(PlayFab, resets, c, starts, 7);
    case RequestingService(resets, c, starts) => PiecesBelow(Service, resets, c, starts, 7);
    case Minting(_, _, _) => MintingBelow(op);
    case RefreshingAhead(resets, c, starts, _) => PiecesBelow(Service, resets, c, starts, 7);
    case _ =>
  }

  // Everything an operation awaits is served by operations ranked below it.
  lemma OperationsAwaitLower(op: Operation)
    ensures AwaitsBelow(Code(Phases(op)), OpRank(op))
  {
    if OpRank(op) < 7 { FlightsBelow(op); } else { RequestsBelow(op); }
    CodeBelow(Phases(op), OpRank(op));
  }

  lemma ServersRankLow(op: Operation, what: Awaited)
    requires Serves(op, what)
    ensures OpRank(op) <= AwaitRank(what)
  {
  }

  // ---- Concurrent operations ----

  // A lock itself; `serial` is the identity of a session.
  datatype Lock =
    | AccountLock(place: Place, account: nat)
    | SourceLock(source: nat)
    | SessionLock(account: nat, serial: nat)
    | FileLease(place: Place)

  // `serial` is the session the operation last looked up or made; `own` whether it made it under the gate it holds.
  datatype Thread = Thread(op: Operation, account: nat, source: nat, serial: nat, own: bool, held: set<Place>, rest: Program)

  function LockOf(t: Thread, p: Place): Lock {
    match p
    case Sisu => SessionLock(t.account, t.serial)
    case SourceGate => SourceLock(t.source)
    case DerivedLease => FileLease(p)
    case OAuthLease => FileLease(p)
    case _ => AccountLock(p, t.account)
  }

  predicate Holds(t: Thread, l: Lock) {
    exists p :: p in t.held && LockOf(t, p) == l
  }

  // `sessions` is each account's present session; every account starts with session 0.
  datatype State = State(threads: seq<Thread>, sessions: map<nat, nat>)

  function Session(s: State, account: nat): nat {
    if account in s.sessions then s.sessions[account] else 0
  }

  predicate Free(s: State, l: Lock) {
    forall j :: 0 <= j < |s.threads| ==> !Holds(s.threads[j], l)
  }

  // The lock a thread is about to take.
  predicate Wants(t: Thread, p: Place) {
    t.rest != [] && (t.rest[0] == Take(p) || (t.rest[0].Attempt? && t.rest[0].place == p))
  }

  predicate CanStep(s: State, i: nat)
    requires i < |s.threads|
  {
    var t := s.threads[i];
    t.rest != [] && (t.rest[0].Take? || t.rest[0].Attempt? ==> Free(s, LockOf(t, t.rest[0].place)))
  }

  function Stepped(s: State, t: Thread): Thread
    requires t.rest != []
  {
    var next := t.(rest := t.rest[1..]);
    match t.rest[0]
    case Take(p) => next.(held := t.held + {p})
    case Attempt(p, _) => next.(held := t.held + {p})
    case Give(p) => next.(held := t.held - {p}, own := t.own && p != Gate)
    case Look => next.(serial := Session(s, t.account))
    case Renew => next.(serial := Session(s, t.account) + 1, own := true)
    case Await(_) => next
  }

  function Step(s: State, i: nat): State
    requires i < |s.threads| && CanStep(s, i)
  {
    var t := s.threads[i];
    State(s.threads[i := Stepped(s, t)],
          if t.rest[0].Renew? then s.sessions[t.account := Session(s, t.account) + 1] else s.sessions)
  }

  // A bounded wait that ran out.
  predicate TimesOut(before: Thread, after: Thread) {
    && before.rest != [] && before.rest[0].Attempt? && before.rest[0].skip < |before.rest|
    && after == before.(rest := before.rest[1 + before.rest[0].skip..])
  }

  // A waiter whose context ends gives up; what it still does gives its locks back in an order that fits.
  ghost predicate GivesUp(before: Thread, after: Thread) {
    && before.rest != [] && (before.rest[0].Take? || before.rest[0].Attempt? || before.rest[0].Await?)
    && after == before.(rest := after.rest) && Ordered(after.held, after.own, after.rest)
    && (forall k :: 0 <= k < |after.rest| ==> after.rest[k].Give? || after.rest[k] == Take(ActiveMutex))
  }

  ghost predicate Next(s: State, s': State) {
    || (exists i: nat :: i < |s.threads| && CanStep(s, i) && s' == Step(s, i))
    || (exists i: nat, t: Thread ::
          i < |s.threads| && (TimesOut(s.threads[i], t) || GivesUp(s.threads[i], t)) && s' == s.(threads := s.threads[i := t]))
    || (exists op: Operation, account: nat, source: nat ::
          s' == s.(threads := s.threads + [Thread(op, account, source, 0, false, {}, Code(Phases(op)))]))
  }

  // ---- What every reachable state satisfies ----

  predicate Apart(t: Thread, u: Thread) {
    && (forall p :: p in t.held && p in u.held ==> LockOf(t, p) != LockOf(u, p))
    && (t.own && u.account == t.account ==> u.serial != t.serial)
    && (u.own && u.account == t.account ==> t.serial != u.serial)
  }

  ghost predicate ThreadGood(s: State, t: Thread) {
    && Ordered(t.held, t.own, t.rest) && t.serial <= Session(s, t.account)
    && (t.own ==> Gate in t.held && t.serial == Session(s, t.account) && t.serial > 0)
  }

  // No two operations hold one lock, and nobody else knows a session made under a gate still held.
  ghost predicate Inv(s: State) {
    && (forall i :: 0 <= i < |s.threads| ==> ThreadGood(s, s.threads[i]))
    && (forall i, j :: 0 <= i < j < |s.threads| ==> Apart(s.threads[i], s.threads[j]))
  }

  lemma ApartBoth(s: State, i: nat, j: nat)
    requires Inv(s) && i < |s.threads| && j < |s.threads| && i != j
    ensures Apart(s.threads[i], s.threads[j]) && Apart(s.threads[j], s.threads[i])
  {
    if i < j { assert Apart(s.threads[i], s.threads[j]); } else { assert Apart(s.threads[j], s.threads[i]); }
  }

  lemma HoldsPlace(t: Thread, u: Thread, p: Place)
    ensures Holds(u, LockOf(t, p)) ==> p in u.held && LockOf(u, p) == LockOf(t, p)
    ensures p in t.held ==> Holds(t, LockOf(t, p))
  {
  }

  // One thread's step, against a thread that stands still.
  lemma StepApart(s: State, i: nat, j: nat)
    requires Inv(s) && i < |s.threads| && j < |s.threads| && i != j && CanStep(s, i)
    ensures Apart(Stepped(s, s.threads[i]), s.threads[j]) && Apart(s.threads[j], Stepped(s, s.threads[i]))
  {
    hide Ordered, Session;
    var t, u := s.threads[i], s.threads[j];
    ApartBoth(s, i, j);
    assert ThreadGood(s, t) && ThreadGood(s, u);
    StepFacts(t);
    if t.rest[0].Take? || t.rest[0].Attempt? {
      HoldsPlace(t, u, t.rest[0].place);
      HoldsPlace(u, u, t.rest[0].place);
    }
  }

  // What the order says about a thread's next instruction.
  lemma StepFacts(t: Thread)
    requires Ordered(t.held, t.own, t.rest) && t.rest != []
    ensures t.rest[0].Look? || t.rest[0].Renew? ==> Gate in t.held && Sisu !in t.held
    ensures t.rest[0].Give? ==> t.rest[0].place in t.held
    ensures t.rest[0].Take? || t.rest[0].Attempt? ==> MayTake(t.held, t.own, t.rest[0].place)
  {
  }

  lemma StepGood(s: State, i: nat)
    requires Inv(s) && i < |s.threads| && CanStep(s, i)
    ensures ThreadGood(Step(s, i), Stepped(s, s.threads[i]))
  {
    assert ThreadGood(s, s.threads[i]);
  }

  lemma OtherGood(s: State, i: nat, j: nat)
    requires Inv(s) && i < |s.threads| && j < |s.threads| && i != j && CanStep(s, i)
    ensures ThreadGood(Step(s, i), s.threads[j])
  {
    hide Ordered;
    var t, u := s.threads[i], s.threads[j];
    ApartBoth(s, i, j);
    assert ThreadGood(s, t) && ThreadGood(s, u);
    StepFacts(t);
    var gates := (LockOf(t, Gate), LockOf(u, Gate));
  }

  lemma StepKeeps(s: State, i: nat)
    requires Inv(s) && i < |s.threads| && CanStep(s, i)
    ensures Inv(Step(s, i))
  {
    hide ThreadGood, Apart, Stepped, CanStep;
    var s' := Step(s, i);
    forall j | 0 <= j < |s'.threads| ensures ThreadGood(s', s'.threads[j]) {
      if j == i { StepGood(s, i); } else { OtherGood(s, i, j); }
    }
    forall j, k | 0 <= j < k < |s'.threads| ensures Apart(s'.threads[j], s'.threads[k]) {
      if j == i { StepApart(s, i, k); } else if k == i { StepApart(s, i, j); }
    }
  }

  lemma ReplacedKeeps(s: State, i: nat, t: Thread)
    requires Inv(s) && i < |s.threads| && t == s.threads[i].(rest := t.rest) && Ordered(t.held, t.own, t.rest)
    ensures Inv(s.(threads := s.threads[i := t]))
  {
    hide Ordered;
    var s' := s.(threads := s.threads[i := t]);
    assert ThreadGood(s, s.threads[i]);
    forall j | 0 <= j < |s'.threads| ensures ThreadGood(s', s'.threads[j]) {
      assert ThreadGood(s, s.threads[j]);
    }
    forall j, k | 0 <= j < k < |s'.threads| ensures Apart(s'.threads[j], s'.threads[k]) {
      assert Apart(s.threads[j], s.threads[k]);
    }
  }

  lemma SpawnKeeps(s: State, op: Operation, account: nat, source: nat)
    requires Inv(s)
    ensures Inv(s.(threads := s.threads + [Thread(op, account, source, 0, false, {}, Code(Phases(op)))]))
  {
    hide Ordered, Code, Phases;
    EveryOperationIsOrdered(op);
    var t := Thread(op, account, source, 0, false, {}, Code(Phases(op)));
    var s' := s.(threads := s.threads + [t]);
    forall j | 0 <= j < |s'.threads| ensures ThreadGood(s', s'.threads[j]) {
      if j < |s.threads| { assert ThreadGood(s, s.threads[j]); }
    }
    forall j, k | 0 <= j < k < |s'.threads| ensures Apart(s'.threads[j], s'.threads[k]) {
      assert ThreadGood(s, s.threads[j]);
      if k < |s.threads| { assert Apart(s.threads[j], s.threads[k]); }
    }
  }

  lemma NextKeeps(s: State, s': State)
    requires Inv(s) && Next(s, s')
    ensures Inv(s')
  {
    hide Inv, CanStep, Step, Ordered, Code, Phases;
    if i: nat :| i < |s.threads| && CanStep(s, i) && s' == Step(s, i) {
      StepKeeps(s, i);
    } else if i: nat, t: Thread :|
        i < |s.threads| && (TimesOut(s.threads[i], t) || GivesUp(s.threads[i], t)) && s' == s.(threads := s.threads[i := t]) {
      TimeoutOrdered(s, i, t);
      ReplacedKeeps(s, i, t);
    } else {
      var op: Operation, account: nat, source: nat :|
        s' == s.(threads := s.threads + [Thread(op, account, source, 0, false, {}, Code(Phases(op)))]);
      SpawnKeeps(s, op, account, source);
    }
  }

  lemma TimeoutOrdered(s: State, i: nat, t: Thread)
    requires Inv(s) && i < |s.threads| && (TimesOut(s.threads[i], t) || GivesUp(s.threads[i], t))
    ensures Ordered(t.held, t.own, t.rest) && t == s.threads[i].(rest := t.rest)
  {
    assert ThreadGood(s, s.threads[i]);
  }

  ghost predicate Run(states: seq<State>) {
    && states != [] && states[0] == State([], map[])
    && forall k :: 0 <= k < |states| - 1 ==> Next(states[k], states[k + 1])
  }

  lemma {:induction false} RunKeepsInvariant(states: seq<State>, k: nat)
    requires Run(states) && k < |states|
    ensures Inv(states[k])
    decreases k
  {
    hide Next;
    if k > 0 {
      hide Inv;
      RunKeepsInvariant(states, k - 1);
      NextKeeps(states[k - 1], states[k]);
    }
  }

  // What every operation still awaits ranks below it.
  ghost predicate AwaitsLower(s: State) {
    forall i :: 0 <= i < |s.threads| ==> AwaitsBelow(s.threads[i].rest, OpRank(s.threads[i].op))
  }

  lemma NextAwaitsLower(s: State, s': State)
    requires AwaitsLower(s) && Next(s, s')
    ensures AwaitsLower(s')
  {
    hide Ordered, Code, Phases, OpRank, AwaitRank;
    if i: nat :| i < |s.threads| && CanStep(s, i) && s' == Step(s, i) {
      assert s'.threads[i].rest == s.threads[i].rest[1..];
    } else if i: nat, t: Thread :|
        i < |s.threads| && (TimesOut(s.threads[i], t) || GivesUp(s.threads[i], t)) && s' == s.(threads := s.threads[i := t]) {
      assert AwaitsBelow(t.rest, OpRank(t.op));
    } else {
      var op: Operation, account: nat, source: nat :|
        s' == s.(threads := s.threads + [Thread(op, account, source, 0, false, {}, Code(Phases(op)))]);
      OperationsAwaitLower(op);
    }
  }

  lemma {:induction false} RunAwaitsLower(states: seq<State>, k: nat)
    requires Run(states) && k < |states|
    ensures AwaitsLower(states[k])
    decreases k
  {
    hide Next;
    if k > 0 {
      RunAwaitsLower(states, k - 1);
      NextAwaitsLower(states[k - 1], states[k]);
    }
  }

  // Nobody ever holds or is about to take the lock of a session another operation made under the gate it
  // still holds, so that operation never waits for it.
  lemma OwnSessionIsUncontended(states: seq<State>, k: nat, i: nat, j: nat)
    requires Run(states) && k < |states| && i < |states[k].threads| && j < |states[k].threads| && i != j
    requires states[k].threads[i].own
    ensures LockOf(states[k].threads[j], Sisu) != LockOf(states[k].threads[i], Sisu)
    ensures !Holds(states[k].threads[j], LockOf(states[k].threads[i], Sisu))
  {
    RunKeepsInvariant(states, k);
    ApartBoth(states[k], i, j);
    HoldsPlace(states[k].threads[i], states[k].threads[j], Sisu);
  }

  // ---- Waiting ----

  // Thread i wants a lock that thread j holds.
  ghost predicate Waits(s: State, i: nat, j: nat) {
    && i < |s.threads| && j < |s.threads| && i != j
    && exists p :: Wants(s.threads[i], p) && Holds(s.threads[j], LockOf(s.threads[i], p))
  }

  function WantedRank(t: Thread): nat {
    if t.rest != [] && (t.rest[0].Take? || t.rest[0].Attempt?) then Rank(t.rest[0].place) else 0
  }

  // Thread i awaits what thread j, not finished yet, is to bring about.
  predicate Awaits(s: State, i: nat, j: nat) {
    && i < |s.threads| && j < |s.threads|
    && s.threads[i].rest != [] && s.threads[i].rest[0].Await? && s.threads[j].rest != []
    && s.threads[j].account == s.threads[i].account && Serves(s.threads[j].op, s.threads[i].rest[0].what)
  }

  // Each operation of the chain waits for a lock the next one holds, or for what the next one does.
  ghost predicate WaitingChain(s: State, chain: seq<nat>) {
    |chain| >= 2 && forall c :: 0 <= c < |chain| - 1 ==> Waits(s, chain[c], chain[c + 1]) || Awaits(s, chain[c], chain[c + 1])
  }

  ghost predicate LockChain(s: State, chain: seq<nat>) {
    |chain| >= 2 && forall c :: 0 <= c < |chain| - 1 ==> Waits(s, chain[c], chain[c + 1])
  }

  // Whoever waits for a waiter wants a lock of lower rank: the exception never waits.
  lemma WaitingClimbs(s: State, i: nat, j: nat, k: nat)
    requires Inv(s) && Waits(s, i, j) && Waits(s, j, k)
    ensures WantedRank(s.threads[i]) < WantedRank(s.threads[j])
  {
    hide Ordered;
    var t, u, v := s.threads[i], s.threads[j], s.threads[k];
    var p :| Wants(t, p) && Holds(u, LockOf(t, p));
    var q :| Wants(u, q) && Holds(v, LockOf(u, q));
    HoldsPlace(t, u, p);
    HoldsPlace(u, v, q);
    assert ThreadGood(s, u);
    StepFacts(u);
    ApartBoth(s, j, k);
  }

  lemma {:induction false} ChainClimbs(s: State, chain: seq<nat>, next: nat)
    requires Inv(s) && LockChain(s, chain) && Waits(s, chain[|chain| - 1], next)
    ensures Waits(s, chain[0], chain[1])
    ensures WantedRank(s.threads[chain[0]]) < WantedRank(s.threads[chain[|chain| - 1]])
    decreases |chain|
  {
    hide Inv, Waits, WantedRank;
    assert Waits(s, chain[0], chain[1]);
    if |chain| == 2 {
      InRange(s, chain[0], chain[1], next);
      WaitingClimbs(s, chain[0], chain[1], next);
    } else {
      assert Waits(s, chain[1], chain[2]);
      assert forall c :: 0 <= c < |chain[1..]| - 1 ==> Waits(s, chain[1..][c], chain[1..][c + 1]) by {
        forall c | 0 <= c < |chain[1..]| - 1 ensures Waits(s, chain[1..][c], chain[1..][c + 1]) {
          assert Waits(s, chain[c + 1], chain[c + 2]);
        }
      }
      InRange(s, chain[0], chain[1], chain[2]);
      WaitingClimbs(s, chain[0], chain[1], chain[2]);
      ChainClimbs(s, chain[1..], next);
    }
  }

  lemma InRange(s: State, i: nat, j: nat, k: nat)
    requires Waits(s, i, j) && Waits(s, j, k)
    ensures i < |s.threads| && j < |s.threads| && k < |s.threads|
  {
  }

  lemma AwaitsDrop(s: State, i: nat, j: nat)
    requires AwaitsLower(s) && Awaits(s, i, j)
    ensures OpRank(s.threads[j].op) < OpRank(s.threads[i].op)
  {
    ServersRankLow(s.threads[j].op, s.threads[i].rest[0].what);
  }

  // Whoever is waited for holds a lock, and so awaits nothing.
  lemma HolderAwaitsNothing(s: State, i: nat, j: nat, k: nat)
    requires Inv(s) && Waits(s, i, j)
    ensures !Awaits(s, j, k)
  {
    var p :| Wants(s.threads[i], p) && Holds(s.threads[j], LockOf(s.threads[i], p));
    HoldsPlace(s.threads[i], s.threads[j], p);
    assert ThreadGood(s, s.threads[j]);
  }

  // Behind a wait for a lock there are only waits for locks.
  lemma {:induction false} LocksFromThere(s: State, chain: seq<nat>, c: nat)
    requires Inv(s) && WaitingChain(s, chain) && Waits(s, chain[0], chain[1]) && c < |chain| - 1
    ensures Waits(s, chain[c], chain[c + 1])
    decreases c
  {
    hide Inv, Waits, Awaits;
    if c > 0 {
      LocksFromThere(s, chain, c - 1);
      HolderAwaitsNothing(s, chain[c - 1], chain[c], chain[c + 1]);
    }
  }

  // Behind an await come lower and lower operations, until the first wait for a lock.
  lemma {:induction false} AwaitsFromThere(s: State, chain: seq<nat>, c: nat)
    requires Inv(s) && AwaitsLower(s) && WaitingChain(s, chain) && Awaits(s, chain[0], chain[1]) && c < |chain| - 1
    ensures chain[0] < |s.threads| && chain[c + 1] < |s.threads|
    ensures Waits(s, chain[c], chain[c + 1]) || OpRank(s.threads[chain[c + 1]].op) < OpRank(s.threads[chain[0]].op)
    decreases c
  {
    hide Inv, AwaitsLower, OpRank;
    assert Waits(s, chain[c], chain[c + 1]) || Awaits(s, chain[c], chain[c + 1]);
    if c > 0 {
      AwaitsFromThere(s, chain, c - 1);
      if Waits(s, chain[c - 1], chain[c]) {
        HolderAwaitsNothing(s, chain[c - 1], chain[c], chain[c + 1]);
      } else if Awaits(s, chain[c], chain[c + 1]) {
        AwaitsDrop(s, chain[c], chain[c + 1]);
      }
    } else {
      AwaitsDrop(s, chain[0], chain[1]);
    }
  }

  // No reachable state holds a cycle of operations each waiting for a lock of the next, or for its work.
  lemma NoDeadlock(states: seq<State>, k: nat, chain: seq<nat>)
    requires Run(states) && k < |states| && WaitingChain(states[k], chain)
    ensures chain[0] != chain[|chain| - 1]
  {
    hide Inv, AwaitsLower, Waits, Awaits, WantedRank, OpRank, Next;
    var s, last := states[k], |chain| - 1;
    RunKeepsInvariant(states, k);
    RunAwaitsLower(states, k);
    if chain[0] == chain[last] {
      if Waits(s, chain[0], chain[1]) {
        forall c | 0 <= c < last ensures Waits(s, chain[c], chain[c + 1]) {
          LocksFromThere(s, chain, c);
        }
        ChainClimbs(s, chain, chain[1]);
      } else {
        AwaitsFromThere(s, chain, last - 1);
        HolderAwaitsNothing(s, chain[last - 1], chain[0], chain[1]);
      }
    }
  }

  // A step that needs nobody else's: no lock another holds, and nothing another has still to bring about.
  ghost predicate Ready(s: State, i: nat) {
    i < |s.threads| && CanStep(s, i) && forall j :: !Awaits(s, i, j)
  }

  // While any operation is unfinished one of them can go on, without anyone giving up or timing out.
  lemma Progress(states: seq<State>, k: nat, i: nat) returns (ready: nat)
    requires Run(states) && k < |states| && i < |states[k].threads| && states[k].threads[i].rest != []
    ensures Ready(states[k], ready)
  {
    hide Next;
    RunKeepsInvariant(states, k);
    RunAwaitsLower(states, k);
    ready := FindReady(states[k], i);
  }

  // The holder of a wanted lock, unfinished, and itself wanting one of higher rank if it cannot step.
  lemma Holder(s: State, i: nat) returns (j: nat)
    requires Inv(s) && i < |s.threads| && s.threads[i].rest != [] && !CanStep(s, i)
    ensures j < |s.threads| && s.threads[j].rest != [] && s.threads[j].held != {}
    ensures !CanStep(s, j) ==> WantedRank(s.threads[i]) < WantedRank(s.threads[j])
  {
    var t := s.threads[i];
    var l := LockOf(t, t.rest[0].place);
    j :| 0 <= j < |s.threads| && Holds(s.threads[j], l);
    var u := s.threads[j];
    assert ThreadGood(s, u) && ThreadGood(s, t);
    HoldsPlace(t, u, t.rest[0].place);
    StepFacts(t);
    assert i != j;
    if !CanStep(s, j) {
      var m :| 0 <= m < |s.threads| && Holds(s.threads[m], LockOf(u, u.rest[0].place));
      HoldsPlace(u, s.threads[m], u.rest[0].place);
      StepFacts(u);
      if m != j { ApartBoth(s, j, m); }
    }
  }

  // The last holder on the way from a thread that cannot step.
  lemma {:induction false} FindHolder(s: State, i: nat) returns (j: nat)
    requires Inv(s) && i < |s.threads| && s.threads[i].rest != [] && !CanStep(s, i)
    ensures j < |s.threads| && CanStep(s, j) && s.threads[j].held != {}
    decreases 9 - WantedRank(s.threads[i])
  {
    hide Inv, CanStep;
    j := Holder(s, i);
    if !CanStep(s, j) {
      j := FindHolder(s, j);
    }
  }

  lemma HoldingAwaitsNothing(s: State, i: nat, j: nat)
    requires Inv(s) && i < |s.threads| && s.threads[i].held != {}
    ensures !Awaits(s, i, j)
  {
    assert ThreadGood(s, s.threads[i]);
  }

  lemma {:induction false} FindReady(s: State, i: nat) returns (ready: nat)
    requires Inv(s) && AwaitsLower(s) && i < |s.threads| && s.threads[i].rest != []
    ensures Ready(s, ready)
    decreases OpRank(s.threads[i].op)
  {
    hide Inv, AwaitsLower, CanStep, OpRank, Serves;
    if !CanStep(s, i) {
      ready := FindHolder(s, i);
      forall j ensures !Awaits(s, ready, j) {
        HoldingAwaitsNothing(s, ready, j);
      }
    } else if j: nat :| Awaits(s, i, j) {
      AwaitsDrop(s, i, j);
      ready := FindReady(s, j);
    } else {
      ready := i;
    }
  }
}
