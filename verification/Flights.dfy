/** Shared derivations and shutdown: one flight per key, and a drain that waits for everything begun. */
module Flights {
  import opened Wrappers

  type Key = string

  // The state the account's two mutexes guard. Channels are numbered; `idle` is the one drains wait on.
  datatype Board = Board(
    flights: map<Key, nat>,
    active: int,
    closing: bool,
    closed: bool,
    idle: Option<nat>,
    closedChannels: set<nat>,
    channels: nat)

  function Begin(b: Board): Option<Board> {
    if b.closing || b.closed then None else Some(b.(active := b.active + 1))
  }

  function End(b: Board): Board {
    if b.active - 1 == 0 && b.idle.Some?
    then b.(active := 0, closedChannels := b.closedChannels + {b.idle.value}, idle := None)
    else b.(active := b.active - 1)
  }

  // Joins the flight under `key`, or registers `f` for it; nothing starts once a drain has begun.
  function Join(b: Board, key: Key, f: nat): (Board, Option<nat>) {
    if key in b.flights then (b, Some(b.flights[key]))
    else if Begin(b).None? then (b, None)
    else (Begin(b).value.(flights := b.flights[key := f]), Some(f))
  }

  function Deregister(b: Board, key: Key): Board {
    b.(flights := b.flights - {key})
  }

  // Refuses new work; the answer is the channel to wait on, if anything still runs.
  function StartDrain(b: Board): (Board, Option<nat>) {
    var c := b.(closing := true);
    if b.active == 0 then (c, None)
    else if b.idle.Some? then (c, b.idle)
    else (c.(idle := Some(b.channels), channels := b.channels + 1), Some(b.channels))
  }

  // ---- The board as the account keeps it ----

  class FlightBoard {
    var flights: map<Key, nat>
    var active: int
    var closing: bool
    var closed: bool
    var idle: Option<nat>
    var closedChannels: set<nat>
    var channels: nat

    function View(): Board
      reads this
    {
      Board(flights, active, closing, closed, idle, closedChannels, channels)
    }

    constructor ()
      ensures View() == Board(map[], 0, false, false, None, {}, 0)
    {
      flights, active, closing, closed, idle, closedChannels, channels := map[], 0, false, false, None, {}, 0;
    }

    method BeginOperation() returns (ok: bool)
      modifies `active
      ensures ok == Begin(old(View())).Some?
      ensures View() == if ok then Begin(old(View())).value else old(View())
    {
      if closing || closed {
        return false;
      }
      active := active + 1;
      return true;
    }

    method EndOperation()
      modifies `active, `idle, `closedChannels
      ensures View() == End(old(View()))
    {
      active := active - 1;
      if active == 0 && idle.Some? {
        closedChannels := closedChannels + {idle.value};
        idle := None;
      }
    }

    method JoinFlight(key: Key, f: nat) returns (joined: Option<nat>)
      modifies `flights, `active
      ensures View() == Join(old(View()), key, f).0 && joined == Join(old(View()), key, f).1
    {
      if key in flights {
        return Some(flights[key]);
      }
      var ok := BeginOperation();
      if !ok {
        return None;
      }
      flights := flights[key := f];
      return Some(f);
    }

    method DeregisterFlight(key: Key)
      modifies `flights
      ensures View() == Deregister(old(View()), key)
    {
      flights := flights - {key};
    }

    method BeginDrain() returns (wait: Option<nat>)
      modifies `closing, `idle, `channels
      ensures View() == StartDrain(old(View())).0 && wait == StartDrain(old(View())).1
    {
      closing := true;
      if active == 0 {
        return None;
      }
      if idle.None? {
        idle, channels := Some(channels), channels + 1;
      }
      return idle;
    }
  }

  // ---- Flights, other operations and drains, stepping in any order ----

  datatype Stage = Waiting | Taken(result: int) | Deregistered(result: int) | Stored | Finished

  // `value` is what callers read once `closes` reports the done channel closed.
  datatype Flight = Flight(key: Key, stage: Stage, value: Option<int>, closes: nat)

  // `runs` are derivations whose operation has not ended, `delivered` what they computed so far.
  datatype System = System(
    board: Board,
    flights: map<nat, Flight>,
    runs: set<nat>,
    delivered: map<nat, int>,
    operations: set<nat>,
    drains: map<nat, Option<nat>>,
    begun: nat,
    ended: nat)

  datatype Action =
    | BeginOp(o: nat)
    | EndOp(o: nat)
    | Await(key: Key, f: nat)
    | Deliver(f: nat, result: int)
    | EndRun(f: nat)
    | Take(f: nat, timeout: bool, error: int)
    | Delist(f: nat)
    | Store(f: nat)
    | CloseDone(f: nat)
    | CancelAccount
    | Drain(d: nat)
    | Return(d: nat)

  predicate Enabled(s: System, act: Action) {
    match act
    case BeginOp(o) => o !in s.operations
    case EndOp(o) => o in s.operations
    case Await(_, f) => f !in s.flights && f !in s.runs
    case Deliver(f, _) => f in s.runs && f !in s.delivered
    case EndRun(f) => f in s.runs && f in s.delivered
    case Take(f, timeout, _) => f in s.flights && s.flights[f].stage.Waiting? && (timeout || f in s.delivered)
    case Delist(f) => f in s.flights && s.flights[f].stage.Taken?
    case Store(f) => f in s.flights && s.flights[f].stage.Deregistered?
    case CloseDone(f) => f in s.flights && s.flights[f].stage.Stored?
    case CancelAccount => true
    case Drain(d) => d !in s.drains
    case Return(d) => d in s.drains && s.drains[d].Some? && s.drains[d].value in s.board.closedChannels
  }

  function Next(s: System, act: Action): System
    requires Enabled(s, act)
  {
    match act
    case BeginOp(o) =>
      var b := Begin(s.board);
      if b.None? then s else s.(board := b.value, operations := s.operations + {o}, begun := s.begun + 1)
    case EndOp(o) => s.(board := End(s.board), operations := s.operations - {o}, ended := s.ended + 1)
    case Await(key, f) =>
      var (b, joined) := Join(s.board, key, f);
      if joined == Some(f) && key !in s.board.flights
      then s.(board := b, flights := s.flights[f := Flight(key, Waiting, None, 0)], runs := s.runs + {f}, begun := s.begun + 1)
      else s
    case Deliver(f, result) => s.(delivered := s.delivered[f := result])
    case EndRun(f) => s.(board := End(s.board), runs := s.runs - {f}, ended := s.ended + 1)
    case Take(f, timeout, error) =>
      var result := if timeout || f !in s.delivered then error else s.delivered[f];
      s.(flights := s.flights[f := s.flights[f].(stage := Taken(result))])
    case Delist(f) =>
      var t := s.flights[f];
      s.(board := Deregister(s.board, t.key), flights := s.flights[f := t.(stage := Deregistered(t.stage.result))])
    case Store(f) =>
      var t := s.flights[f];
      s.(flights := s.flights[f := t.(stage := Stored, value := Some(t.stage.result))])
    case CloseDone(f) =>
      var t := s.flights[f];
      s.(flights := s.flights[f := t.(stage := Finished, closes := t.closes + 1)])
    case CancelAccount => s.(board := s.board.(closed := true))
    case Drain(d) =>
      var (b, wait) := StartDrain(s.board);
      s.(board := b, drains := s.drains[d := wait])
    case Return(d) => s.(drains := s.drains[d := None])
  }

  predicate Registered(t: Flight) {
    t.stage.Waiting? || t.stage.Taken?
  }

  ghost predicate FlightsGood(s: System) {
    && (forall key :: key in s.board.flights ==>
          s.board.flights[key] in s.flights && s.flights[s.board.flights[key]].key == key && Registered(s.flights[s.board.flights[key]]))
    && (forall f :: f in s.flights && Registered(s.flights[f]) ==>
          s.flights[f].key in s.board.flights && s.board.flights[s.flights[f].key] == f)
    && (forall f :: f in s.flights ==>
          && s.flights[f].closes == (if s.flights[f].stage.Finished? then 1 else 0)
          && (s.flights[f].value.Some? <==> s.flights[f].stage.Stored? || s.flights[f].stage.Finished?))
  }

  ghost predicate ActiveGood(s: System) {
    s.board.active == |s.operations| + |s.runs| == s.begun - s.ended
  }

  // A drain either waits on the open idle channel, or on a closed one, or has returned.
  ghost predicate DrainsGood(s: System) {
    && (s.board.idle.Some? ==> s.board.closing && s.board.active > 0 && s.board.idle.value < s.board.channels &&
                               s.board.idle.value !in s.board.closedChannels)
    && (forall c :: c in s.board.closedChannels ==> c < s.board.channels && s.board.closing && s.board.active == 0)
    && (forall d :: d in s.drains ==>
          && s.board.closing
          && (s.drains[d].None? ==> s.board.active == 0)
          && (s.drains[d].Some? ==> s.board.idle == s.drains[d] || s.drains[d].value in s.board.closedChannels))
  }

  ghost predicate CountsGood(s: System) {
    ActiveGood(s) && DrainsGood(s)
  }

  ghost predicate Inv(s: System) {
    FlightsGood(s) && CountsGood(s)
  }

  lemma AwaitKeepsFlights(s: System, key: Key, f: nat)
    requires FlightsGood(s) && Enabled(s, Await(key, f))
    ensures FlightsGood(Next(s, Await(key, f)))
  {
  }

  lemma DelistKeepsFlights(s: System, f: nat)
    requires FlightsGood(s) && Enabled(s, Delist(f))
    ensures FlightsGood(Next(s, Delist(f)))
  {
  }

  // A flight that moves on without being registered or deregistered.
  lemma RestageKeepsFlights(s: System, f: nat, t: Flight)
    requires FlightsGood(s) && f in s.flights && t.key == s.flights[f].key && Registered(t) == Registered(s.flights[f])
    requires t.closes == (if t.stage.Finished? then 1 else 0) && (t.value.Some? <==> t.stage.Stored? || t.stage.Finished?)
    ensures FlightsGood(s.(flights := s.flights[f := t]))
  {
  }

  lemma StepKeepsFlights(s: System, act: Action)
    requires FlightsGood(s) && Enabled(s, act)
    ensures FlightsGood(Next(s, act))
  {
    match act
    case Await(key, f) => AwaitKeepsFlights(s, key, f);
    case Delist(f) => DelistKeepsFlights(s, f);
    case Take(f, _, _) => RestageKeepsFlights(s, f, Next(s, act).flights[f]);
    case Store(f) => RestageKeepsFlights(s, f, Next(s, act).flights[f]);
    case CloseDone(f) => RestageKeepsFlights(s, f, Next(s, act).flights[f]);
    case _ =>
      assert Next(s, act).flights == s.flights && Next(s, act).board.flights == s.board.flights;
  }

  lemma EndKeepsActive(s: System, act: Action)
    requires ActiveGood(s) && Enabled(s, act) && (act.EndRun? || act.EndOp?)
    ensures ActiveGood(Next(s, act))
  {
    assert Next(s, act).board.active == s.board.active - 1;
    if act.EndRun? {
      assert |s.runs - {act.f}| == |s.runs| - 1;
    } else {
      assert |s.operations - {act.o}| == |s.operations| - 1;
    }
  }

  lemma BeginKeepsActive(s: System, act: Action)
    requires ActiveGood(s) && Enabled(s, act) && (act.BeginOp? || act.Await?)
    ensures ActiveGood(Next(s, act))
  {
    if act.BeginOp? {
      assert |s.operations + {act.o}| == |s.operations| + 1;
    } else {
      assert |s.runs + {act.f}| == |s.runs| + 1;
    }
  }

  lemma StepKeepsActive(s: System, act: Action)
    requires ActiveGood(s) && Enabled(s, act)
    ensures ActiveGood(Next(s, act))
  {
    if act.EndRun? || act.EndOp? {
      EndKeepsActive(s, act);
    } else if act.BeginOp? || act.Await? {
      BeginKeepsActive(s, act);
    } else {
      assert Next(s, act).board.active == s.board.active;
    }
  }

  lemma StepKeepsDrains(s: System, act: Action)
    requires CountsGood(s) && Enabled(s, act)
    ensures DrainsGood(Next(s, act))
  {
    match act
    case EndRun(f) => assert s.runs != {} && s.board.active > 0;
    case EndOp(o) => assert s.operations != {} && s.board.active > 0;
    case _ =>
  }

  ghost predicate Initial(s: System) {
    && s.board == Board(map[], 0, false, false, None, {}, 0)
    && s.flights == map[] && s.runs == {} && s.operations == {} && s.drains == map[] && s.delivered == map[] && s.begun == s.ended == 0
  }

  ghost predicate Run(states: seq<System>, acts: seq<Action>) {
    && |states| == |acts| + 1 && Initial(states[0])
    && forall i :: 0 <= i < |acts| ==> Enabled(states[i], acts[i]) && states[i + 1] == Next(states[i], acts[i])
  }

  lemma {:induction false} RunKeepsInvariant(states: seq<System>, acts: seq<Action>, i: nat)
    requires Run(states, acts) && i < |states|
    ensures Inv(states[i])
    decreases i
  {
    if i > 0 {
      RunKeepsInvariant(states, acts, i - 1);
      StepKeepsFlights(states[i - 1], acts[i - 1]);
      StepKeepsActive(states[i - 1], acts[i - 1]);
      StepKeepsDrains(states[i - 1], acts[i - 1]);
    }
  }

  // Two flights of one key are never both registered, and each deregisters itself.
  lemma OneFlightPerKey(states: seq<System>, acts: seq<Action>, i: nat, f: nat, g: nat)
    requires Run(states, acts) && i < |states|
    requires f in states[i].flights && g in states[i].flights
    requires Registered(states[i].flights[f]) && Registered(states[i].flights[g])
    requires states[i].flights[f].key == states[i].flights[g].key
    ensures f == g
    ensures states[i].flights[f].key in states[i].board.flights && states[i].board.flights[states[i].flights[f].key] == f
  {
    RunKeepsInvariant(states, acts, i);
  }

  // A flight's callers are released once, and find its result there.
  lemma ClosedOnceWithResult(states: seq<System>, acts: seq<Action>, i: nat, f: nat)
    requires Run(states, acts) && i < |states| && f in states[i].flights
    ensures states[i].flights[f].closes <= 1
    ensures states[i].flights[f].closes == 1 ==> states[i].flights[f].value.Some?
    ensures i < |acts| && acts[i] == CloseDone(f) ==> states[i].flights[f].closes == 0 && states[i + 1].flights[f].closes == 1
  {
    RunKeepsInvariant(states, acts, i);
  }

  // The counter is exact, and a drain still waiting on an open channel has something to wait for.
  lemma DrainsAreWoken(states: seq<System>, acts: seq<Action>, i: nat, d: nat)
    requires Run(states, acts) && i < |states| && d in states[i].drains
    ensures states[i].board.active == |states[i].operations| + |states[i].runs| == states[i].begun - states[i].ended
    ensures states[i].drains[d].Some? && states[i].drains[d].value !in states[i].board.closedChannels ==>
              states[i].board.idle == states[i].drains[d] && states[i].operations + states[i].runs != {}
    ensures states[i].board.active == 0 && states[i].drains[d].Some? ==> Enabled(states[i], Return(d))
  {
    RunKeepsInvariant(states, acts, i);
    if states[i].operations + states[i].runs == {} {
      assert states[i].operations == {} && states[i].runs == {};
    }
  }

  lemma ReturnedMeansIdle(s: System, d: nat)
    requires CountsGood(s) && d in s.drains && s.drains[d].None?
    ensures s.operations == {} && s.runs == {} && s.board.closing
  {
  }

  lemma ReturnedStays(s: System, act: Action, d: nat)
    requires CountsGood(s) && Enabled(s, act) && d in s.drains && s.drains[d].None?
    ensures var t := Next(s, act); d in t.drains && t.drains[d].None? && t.begun == s.begun
  {
    ReturnedMeansIdle(s, d);
  }

  // After any drain has returned nothing runs, and nothing ever starts again.
  lemma {:induction false} DrainIsFinal(states: seq<System>, acts: seq<Action>, i: nat, j: nat, d: nat)
    requires Run(states, acts) && i <= j < |states|
    requires d in states[i].drains && states[i].drains[d].None?
    ensures d in states[j].drains && states[j].drains[d].None?
    ensures states[j].operations == {} && states[j].runs == {} && states[j].begun == states[i].begun
    decreases j - i
  {
    if i < j {
      DrainIsFinal(states, acts, i, j - 1, d);
      RunKeepsInvariant(states, acts, j - 1);
      ReturnedStays(states[j - 1], acts[j - 1], d);
    }
    RunKeepsInvariant(states, acts, j);
    ReturnedMeansIdle(states[j], d);
  }
}
