/**
 Retiring far-terrain sessions: each frame every session hands over some finished summaries, and a
 session whose inbox has run dry is written out and dropped from the list while the list is walked.
 */
module FarTerrain {
  datatype Summary = Summary(dimension: int, x: int, z: int, bytes: nat, hash: nat)

  // What an inbox receives. A superseded result and a step of unfinished work cost a turn and deliver nothing.
  datatype Event = Finished(summary: Summary) | Stale(bytes: nat) | Unfinished

  // `inFlight` counts issued work that has not reported yet.
  datatype Retiring = Retiring(id: nat, dimension: int, ready: seq<Event>, inFlight: nat, columns: seq<Summary>)

  datatype Budget = Budget(columns: nat, bytes: nat, used: bool)

  const COLUMNS_PER_UPDATE := 256
  const BYTES_PER_UPDATE := 262_144
  const USIZE_MAX := 0xFFFF_FFFF_FFFF_FFFF

  const PER_TURN := Budget(COLUMNS_PER_UPDATE, BYTES_PER_UPDATE, false)
  const UNLIMITED := Budget(USIZE_MAX, USIZE_MAX, false)

  predicate Allows(b: Budget, bytes: nat) {
    b.columns > 0 && (bytes <= b.bytes || !b.used)
  }

  function Charge(b: Budget, bytes: nat): Budget
    requires Allows(b, bytes)
  {
    Budget(b.columns - 1, if bytes < b.bytes then b.bytes - bytes else 0, true)
  }

  // How many of `costs`, taken in order, the budget admits, and what is left of it.
  function Admitted(costs: seq<nat>, b: Budget): (r: (nat, Budget))
    ensures r.0 <= |costs| && r.1.columns + r.0 == b.columns
    ensures r.0 < |costs| ==> !Allows(r.1, costs[r.0])
  {
    if costs == [] || !Allows(b, costs[0]) then (0, b)
    else
      var rest := Admitted(costs[1..], Charge(b, costs[0]));
      (rest.0 + 1, rest.1)
  }

  function Sum(costs: seq<nat>): nat {
    if costs == [] then 0 else costs[0] + Sum(costs[1..])
  }

  function Cost(e: Event): nat {
    match e
    case Finished(s) => s.bytes
    case Stale(bytes) => bytes
    case Unfinished => 0
  }

  function Costs(events: seq<Event>): (costs: seq<nat>)
    ensures |costs| == |events|
  {
    seq(|events|, i requires 0 <= i < |events| => Cost(events[i]))
  }

  function Sizes(columns: seq<Summary>): (costs: seq<nat>)
    ensures |costs| == |columns|
  {
    seq(|columns|, i requires 0 <= i < |columns| => columns[i].bytes)
  }

  // The summaries `events` deliver to a session of `dimension`.
  function Delivered(events: seq<Event>, dimension: int): seq<Summary> {
    if events == [] then []
    else (if events[0].Finished? && events[0].summary.dimension == dimension then [events[0].summary] else []) + Delivered(events[1..], dimension)
  }

  function Resumed(events: seq<Event>): nat {
    if events == [] then 0 else (if events[0].Unfinished? then 1 else 0) + Resumed(events[1..])
  }

  predicate Idle(r: Retiring) {
    r.ready == [] && r.inFlight == 0
  }

  // ---- One session's turn ----

  datatype Mode = Sharing | Waiting | Expired

  function InboxBudget(mode: Mode, b: Budget): Budget {
    match mode
    case Sharing => b
    case Waiting => PER_TURN
    case Expired => UNLIMITED
  }

  function Collected(r: Retiring, b: Budget): Retiring {
    var n := Admitted(Costs(r.ready), b).0;
    r.(ready := r.ready[n..], inFlight := r.inFlight + Resumed(r.ready[..n]), columns := r.columns + Delivered(r.ready[..n], r.dimension))
  }

  function Remaining(r: Retiring, mode: Mode, b: Budget): Budget {
    if mode.Sharing? then Admitted(Costs(r.ready), b).1 else b
  }

  // How many of its columns the session writes out in this turn.
  function Written(r: Retiring, mode: Mode, b: Budget): (n: nat)
    ensures n <= |Collected(r, InboxBudget(mode, b)).columns|
  {
    var next := Collected(r, InboxBudget(mode, b));
    if Idle(next) || mode.Expired? then Admitted(Sizes(next.columns), Remaining(r, mode, b)).0 else 0
  }

  function Visited(r: Retiring, mode: Mode, b: Budget): Retiring {
    var next := Collected(r, InboxBudget(mode, b));
    next.(columns := next.columns[Written(r, mode, b)..])
  }

  function Saved(r: Retiring, mode: Mode, b: Budget): seq<Summary> {
    Collected(r, InboxBudget(mode, b)).columns[..Written(r, mode, b)]
  }

  function Spent(r: Retiring, mode: Mode, b: Budget): Budget {
    var next := Collected(r, InboxBudget(mode, b));
    if Idle(next) || mode.Expired? then Admitted(Sizes(next.columns), Remaining(r, mode, b)).1 else Remaining(r, mode, b)
  }

  predicate Leaves(r: Retiring, mode: Mode, b: Budget) {
    var next := Collected(r, InboxBudget(mode, b));
    (Idle(next) || mode.Expired?) && Written(r, mode, b) == |next.columns|
  }

  // ---- A round over every session ----

  type Store = map<nat, seq<Summary>>

  function Held(store: Store, id: nat): seq<Summary> {
    if id in store then store[id] else []
  }

  function Persist(store: Store, id: nat, columns: seq<Summary>): Store {
    store[id := Held(store, id) + columns]
  }

  function Keeps(r: Retiring, mode: Mode, b: Budget): (kept: seq<Retiring>) {
    if Leaves(r, mode, b) then [] else [Visited(r, mode, b)]
  }

  // A session that stays is written to only when its inbox is idle or time is up.
  function Store1(r: Retiring, store: Store, mode: Mode, b: Budget): Store {
    if Idle(Collected(r, InboxBudget(mode, b))) || mode.Expired? then Persist(store, r.id, Saved(r, mode, b)) else store
  }

  datatype Outcome = Outcome(kept: seq<Retiring>, store: Store, budget: Budget)

  function Round(rs: seq<Retiring>, store: Store, mode: Mode, b: Budget): Outcome {
    if rs == [] then Outcome([], store, b)
    else
      var rest := Round(rs[1..], Store1(rs[0], store, mode, b), mode, Spent(rs[0], mode, b));
      rest.(kept := Keeps(rs[0], mode, b) + rest.kept)
  }

  // The rest of a round, with `kept` already walked past.
  function After(kept: seq<Retiring>, rest: seq<Retiring>, store: Store, mode: Mode, b: Budget): Outcome {
    var o := Round(rest, store, mode, b);
    o.(kept := kept + o.kept)
  }

  lemma AfterNone(rs: seq<Retiring>, kept: seq<Retiring>, store: Store, mode: Mode, b: Budget)
    ensures After([], rs, store, mode, b) == Round(rs, store, mode, b)
    ensures After(kept, [], store, mode, b) == Outcome(kept, store, b)
  {
    assert kept + [] == kept && [] + Round(rs, store, mode, b).kept == Round(rs, store, mode, b).kept;
  }

  lemma AfterOne(kept: seq<Retiring>, rest: seq<Retiring>, store: Store, mode: Mode, b: Budget)
    requires rest != []
    ensures After(kept, rest, store, mode, b) ==
            After(kept + Keeps(rest[0], mode, b), rest[1..], Store1(rest[0], store, mode, b), mode, Spent(rest[0], mode, b))
  {
    var o := Round(rest[1..], Store1(rest[0], store, mode, b), mode, Spent(rest[0], mode, b));
    assert kept + (Keeps(rest[0], mode, b) + o.kept) == kept + Keeps(rest[0], mode, b) + o.kept;
  }

  // ---- Rounds until time is up or nothing is left to wait for ----

  // Whether time is up when a round starts, and what reports, and to whom, while waiting after it.
  datatype Turn = Turn(expired: bool, reports: seq<(nat, Event)>)

  function Arrive(rs: seq<Retiring>, reports: seq<(nat, Event)>): seq<Retiring>
    decreases |reports|
  {
    if reports == [] then rs
    else
      var (k, e) := reports[0];
      Arrive(if k < |rs| && rs[k].inFlight > 0 then rs[k := rs[k].(ready := rs[k].ready + [e], inFlight := rs[k].inFlight - 1)] else rs,
             reports[1..])
  }

  function ModeOf(waiting: bool, expired: bool): Mode {
    if expired then Expired else if waiting then Waiting else Sharing
  }

  predicate Done(rs: seq<Retiring>, waiting: bool, expired: bool) {
    !waiting || expired || forall i :: 0 <= i < |rs| ==> Idle(rs[i])
  }

  function Drained(rs: seq<Retiring>, store: Store, b: Budget, waiting: bool, turns: seq<Turn>): Outcome
    decreases |turns|
  {
    if turns == [] then Outcome(rs, store, b)
    else
      var o := Round(rs, store, ModeOf(waiting, turns[0].expired), b);
      if Done(o.kept, waiting, turns[0].expired) then o
      else Drained(Arrive(o.kept, turns[0].reports), o.store, o.budget, waiting, turns[1..])
  }

  class SummaryBudget {
    var columns: nat
    var bytes: nat
    var used: bool

    function View(): Budget
      reads this
    {
      Budget(columns, bytes, used)
    }

    constructor (b: Budget)
      ensures View() == b
    {
      columns, bytes, used := b.columns, b.bytes, b.used;
    }

    method Take(n: nat) returns (taken: bool)
      modifies this
      ensures taken == Allows(old(View()), n)
      ensures View() == if taken then Charge(old(View()), n) else old(View())
    {
      if columns == 0 || (n > bytes && used) {
        return false;
      }
      columns, bytes, used := columns - 1, if n < bytes then bytes - n else 0, true;
      return true;
    }
  }

  class Sessions {
    var retiring: seq<Retiring>
    var store: Store

    constructor ()
      ensures retiring == [] && store == map[]
    {
      retiring, store := [], map[];
    }

    // Takes what the budget admits from the front of an inbox.
    method Drain(ready: seq<Event>, budget: SummaryBudget) returns (n: nat)
      modifies budget
      ensures (n, budget.View()) == Admitted(Costs(ready), old(budget.View()))
    {
      n := 0;
      while n < |ready|
        invariant n <= |ready|
        invariant Admitted(Costs(ready), old(budget.View())) ==
                  (n + Admitted(Costs(ready)[n..], budget.View()).0, Admitted(Costs(ready)[n..], budget.View()).1)
      {
        var taken := budget.Take(Cost(ready[n]));
        if !taken {
          return;
        }
        assert Costs(ready)[n..][1..] == Costs(ready)[n + 1..];
        n := n + 1;
      }
    }

    method TakeColumns(columns: seq<Summary>, budget: SummaryBudget) returns (n: nat)
      modifies budget
      ensures (n, budget.View()) == Admitted(Sizes(columns), old(budget.View()))
    {
      n := 0;
      while n < |columns|
        invariant n <= |columns|
        invariant Admitted(Sizes(columns), old(budget.View())) ==
                  (n + Admitted(Sizes(columns)[n..], budget.View()).0, Admitted(Sizes(columns)[n..], budget.View()).1)
      {
        var taken := budget.Take(columns[n].bytes);
        if !taken {
          return;
        }
        assert Sizes(columns)[n..][1..] == Sizes(columns)[n + 1..];
        n := n + 1;
      }
    }

    method Collect(r: Retiring, budget: SummaryBudget, mode: Mode) returns (next: Retiring)
      modifies budget
      ensures next == Collected(r, InboxBudget(mode, old(budget.View())))
      ensures budget.View() == Remaining(r, mode, old(budget.View()))
    {
      var n: nat;
      match mode {
        case Sharing =>
          n := Drain(r.ready, budget);
        case Waiting =>
          var turn := new SummaryBudget(PER_TURN);
          n := Drain(r.ready, turn);
        case Expired =>
          var turn := new SummaryBudget(UNLIMITED);
          n := Drain(r.ready, turn);
      }
      next := r.(ready := r.ready[n..], inFlight := r.inFlight + Resumed(r.ready[..n]),
                 columns := r.columns + Delivered(r.ready[..n], r.dimension));
    }

    // One session's turn: collect, and write out what the budget admits once nothing more is coming.
    method TakeTurn(r: Retiring, budget: SummaryBudget, mode: Mode) returns (next: Retiring, leaves: bool)
      modifies `store, budget
      ensures next == Visited(r, mode, old(budget.View())) && leaves == Leaves(r, mode, old(budget.View()))
      ensures store == Store1(r, old(store), mode, old(budget.View()))
      ensures budget.View() == Spent(r, mode, old(budget.View()))
    {
      next := Collect(r, budget, mode);
      leaves := false;
      if Idle(next) || mode.Expired? {
        var n := TakeColumns(next.columns, budget);
        store := Persist(store, r.id, next.columns[..n]);
        leaves := n == |next.columns|;
        next := next.(columns := next.columns[n..]);
      }
    }

    // Walks the list by index, removing sessions on the way; `turns` names who had a turn.
    method DrainRetiringRound(budget: SummaryBudget, mode: Mode) returns (turns: seq<nat>)
      modifies this, budget
      ensures Outcome(retiring, store, budget.View()) == Round(old(retiring), old(store), mode, old(budget.View()))
      ensures |turns| == |old(retiring)| && forall k :: 0 <= k < |turns| ==> turns[k] == old(retiring)[k].id
    {
      hide After, Round, Store1, Spent, Visited, Leaves, Collected, Written;
      var index := 0;
      turns := [];
      ghost var was, kept := retiring, [];
      AfterNone(was, [], store, mode, budget.View());
      while index < |retiring|
        invariant |turns| <= |was| && index <= |retiring|
        invariant forall k :: 0 <= k < |turns| ==> turns[k] == was[k].id
        invariant kept == retiring[..index] && retiring[index..] == was[|turns|..]
        invariant Round(was, old(store), mode, old(budget.View())) == After(kept, was[|turns|..], store, mode, budget.View())
        decreases |retiring| - index
      {
        var r := retiring[index];
        assert was[|turns|..][0] == r && was[|turns|..][1..] == was[|turns| + 1..];
        AfterOne(kept, was[|turns|..], store, mode, budget.View());
        kept := kept + Keeps(r, mode, budget.View());
        var next, leaves := TakeTurn(r, budget, mode);
        if leaves {
          retiring := retiring[..index] + retiring[index + 1..];
        } else {
          retiring := retiring[..index] + [next] + retiring[index + 1..];
          index := index + 1;
        }
        turns := turns + [r.id];
      }
      AfterNone([], kept, store, mode, budget.View());
    }

    // Gives every session a turn, then waits, until time is up or no session has work in flight.
    method DrainRetiringWith(budget: SummaryBudget, waiting: bool, turns: seq<Turn>)
      requires turns != [] && turns[|turns| - 1].expired
      modifies this, budget
      ensures Outcome(retiring, store, budget.View()) == Drained(old(retiring), old(store), old(budget.View()), waiting, turns)
    {
      hide Round, Arrive, Idle;
      var i := 0;
      while true
        invariant i < |turns|
        invariant Drained(old(retiring), old(store), old(budget.View()), waiting, turns) ==
                  Drained(retiring, store, budget.View(), waiting, turns[i..])
        decreases |turns| - i
      {
        assert turns[i..][0] == turns[i] && turns[i..][1..] == turns[i + 1..];
        var _ := DrainRetiringRound(budget, ModeOf(waiting, turns[i].expired));
        if !waiting || turns[i].expired || forall k :: 0 <= k < |retiring| ==> Idle(retiring[k]) {
          return;
        }
        retiring := Arrive(retiring, turns[i].reports);
        i := i + 1;
      }
    }
  }
}
