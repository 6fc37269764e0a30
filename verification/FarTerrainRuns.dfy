/** What the drain of retiring sessions keeps, over rounds, arrivals and new retirements in any order. */
module FarTerrainRuns {
  import opened FarTerrain

  // ---- One turn ----

  lemma {:induction false} DeliveredJoins(a: seq<Event>, b: seq<Event>, dimension: int)
    ensures Delivered(a + b, dimension) == Delivered(a, dimension) + Delivered(b, dimension)
  {
    if a == [] {
      assert a + b == b;
    } else {
      DeliveredJoins(a[1..], b, dimension);
      assert (a + b)[1..] == a[1..] + b && (a + b)[0] == a[0];
      var first := if a[0].Finished? && a[0].summary.dimension == dimension then [a[0].summary] else [];
      assert first + (Delivered(a[1..], dimension) + Delivered(b, dimension)) == first + Delivered(a[1..], dimension) + Delivered(b, dimension);
    }
  }

  // What a session still holds for its namespace: columns it collected, then its inbox.
  function Outstanding(r: Retiring): seq<Summary> {
    r.columns + Delivered(r.ready, r.dimension)
  }

  lemma CollectConserves(r: Retiring, b: Budget)
    ensures Outstanding(Collected(r, b)) == Outstanding(r)
  {
    var n := Admitted(Costs(r.ready), b).0;
    DeliveredJoins(r.ready[..n], r.ready[n..], r.dimension);
    assert r.ready[..n] + r.ready[n..] == r.ready;
  }

  lemma TurnConserves(r: Retiring, mode: Mode, b: Budget)
    ensures Saved(r, mode, b) + Outstanding(Visited(r, mode, b)) == Outstanding(r)
    ensures Visited(r, mode, b).id == r.id && Visited(r, mode, b).dimension == r.dimension
  {
    hide Admitted, Delivered;
    CollectConserves(r, InboxBudget(mode, b));
    var next, n := Collected(r, InboxBudget(mode, b)), Written(r, mode, b);
    var ready := Delivered(next.ready, next.dimension);
    assert next.columns[..n] + (next.columns[n..] + ready) == (next.columns[..n] + next.columns[n..]) + ready;
    assert next.columns[..n] + next.columns[n..] == next.columns;
  }

  // ---- One round ----

  function Ids(rs: seq<Retiring>): set<nat> {
    set i | 0 <= i < |rs| :: rs[i].id
  }

  predicate Distinct(rs: seq<Retiring>) {
    forall i, j :: 0 <= i < j < |rs| ==> rs[i].id != rs[j].id
  }

  // What is left, under `id`, in the sessions still retiring.
  function Left(rs: seq<Retiring>, id: nat): seq<Summary> {
    if rs == [] then [] else if rs[0].id == id then Outstanding(rs[0]) else Left(rs[1..], id)
  }

  lemma {:induction false} NobodyLeft(rs: seq<Retiring>, id: nat)
    requires id !in Ids(rs)
    ensures Left(rs, id) == []
  {
    if rs != [] {
      assert rs[0].id in Ids(rs);
      assert forall x :: x in Ids(rs[1..]) ==> x in Ids(rs);
      NobodyLeft(rs[1..], id);
    }
  }

  // `kept` is `rs` with some sessions gone: the others keep their order and their dimension.
  predicate Thinned(kept: seq<Retiring>, rs: seq<Retiring>)
    decreases |rs|
  {
    if rs == [] then kept == []
    else if kept != [] && kept[0].id == rs[0].id && kept[0].dimension == rs[0].dimension && Thinned(kept[1..], rs[1..]) then true
    else Thinned(kept, rs[1..])
  }

  lemma {:induction false} ThinnedIds(kept: seq<Retiring>, rs: seq<Retiring>)
    requires Thinned(kept, rs)
    ensures Ids(kept) <= Ids(rs)
    ensures Distinct(rs) ==> Distinct(kept)
    decreases |rs|
  {
    if rs != [] {
      assert Ids(rs) == {rs[0].id} + Ids(rs[1..]);
      if kept != [] && kept[0].id == rs[0].id && kept[0].dimension == rs[0].dimension && Thinned(kept[1..], rs[1..]) {
        ThinnedIds(kept[1..], rs[1..]);
        assert Ids(kept) == {kept[0].id} + Ids(kept[1..]);
        if Distinct(rs) {
          forall i, j | 0 <= i < j < |kept| ensures kept[i].id != kept[j].id {
            assert kept[1..][j - 1].id in Ids(kept[1..]);
            if i > 0 { assert kept[1..][i - 1].id != kept[1..][j - 1].id; }
          }
        }
      } else {
        ThinnedIds(kept, rs[1..]);
      }
    }
  }

  lemma {:induction false} RoundThins(rs: seq<Retiring>, store: Store, mode: Mode, b: Budget)
    ensures Thinned(Round(rs, store, mode, b).kept, rs)
  {
    if rs != [] {
      var rest := Round(rs[1..], Store1(rs[0], store, mode, b), mode, Spent(rs[0], mode, b)).kept;
      RoundThins(rs[1..], Store1(rs[0], store, mode, b), mode, Spent(rs[0], mode, b));
      if !Leaves(rs[0], mode, b) {
        assert (Keeps(rs[0], mode, b) + rest)[1..] == rest;
      } else {
        assert Keeps(rs[0], mode, b) + rest == rest;
      }
    }
  }

  // An inbox is in memory, so its length and its bytes are machine sizes.
  predicate Fits(r: Retiring) {
    |r.ready| <= USIZE_MAX && Sum(Costs(r.ready)) <= USIZE_MAX
  }

  lemma {:induction false} AmpleAdmitsAll(costs: seq<nat>, b: Budget)
    requires |costs| <= b.columns && Sum(costs) <= b.bytes
    ensures Admitted(costs, b).0 == |costs| && Admitted(costs, b).1.bytes == b.bytes - Sum(costs)
  {
    if costs != [] {
      AmpleAdmitsAll(costs[1..], Charge(b, costs[0]));
    }
  }

  // A session leaves with nothing collected and nothing ready.
  lemma LeavingIsEmpty(r: Retiring, mode: Mode, b: Budget)
    requires Leaves(r, mode, b) && Fits(r)
    ensures Outstanding(Visited(r, mode, b)) == [] && Visited(r, mode, b).ready == []
    ensures Saved(r, mode, b) == Outstanding(r)
  {
    TurnConserves(r, mode, b);
    if mode.Expired? {
      AmpleAdmitsAll(Costs(r.ready), UNLIMITED);
    }
  }

  // The visited session, at the head of what stays.
  lemma OwnTurn(r: Retiring, store: Store, mode: Mode, b: Budget, rest: seq<Retiring>)
    requires r.id !in Ids(rest) && Fits(r)
    ensures Held(Store1(r, store, mode, b), r.id) + Left(Keeps(r, mode, b) + rest, r.id) == Held(store, r.id) + Outstanding(r)
  {
    TurnConserves(r, mode, b);
    NobodyLeft(rest, r.id);
    if Leaves(r, mode, b) {
      assert Keeps(r, mode, b) + rest == rest;
      LeavingIsEmpty(r, mode, b);
    } else {
      var saved := Held(store, r.id) + Saved(r, mode, b);
      assert saved + Outstanding(Visited(r, mode, b)) == Held(store, r.id) + (Saved(r, mode, b) + Outstanding(Visited(r, mode, b)));
    }
  }

  // A turn changes nothing under another session's namespace.
  lemma OthersTurn(r: Retiring, store: Store, mode: Mode, b: Budget, rest: seq<Retiring>, id: nat)
    requires r.id != id
    ensures Held(Store1(r, store, mode, b), id) == Held(store, id)
    ensures Left(Keeps(r, mode, b) + rest, id) == Left(rest, id)
  {
    if Leaves(r, mode, b) {
      assert Keeps(r, mode, b) + rest == rest;
    } else {
      assert (Keeps(r, mode, b) + rest)[1..] == rest;
    }
  }

  // Together, the store and the sessions hold exactly what they held before, under every namespace.
  lemma {:induction false} RoundConserves(rs: seq<Retiring>, store: Store, mode: Mode, b: Budget, id: nat)
    requires Distinct(rs) && forall i :: 0 <= i < |rs| ==> Fits(rs[i])
    ensures var o := Round(rs, store, mode, b); Held(o.store, id) + Left(o.kept, id) == Held(store, id) + Left(rs, id)
  {
    if rs != [] {
      var r, next, spent := rs[0], Store1(rs[0], store, mode, b), Spent(rs[0], mode, b);
      var rest := Round(rs[1..], next, mode, spent);
      RoundConserves(rs[1..], next, mode, spent, id);
      if r.id == id {
        RoundThins(rs[1..], next, mode, spent);
        ThinnedIds(rest.kept, rs[1..]);
        NobodyLeft(rs[1..], id);
        NobodyLeft(rest.kept, id);
        assert Held(rest.store, id) == Held(rest.store, id) + Left(rest.kept, id) == Held(next, id) + Left(rs[1..], id) == Held(next, id);
        OwnTurn(r, store, mode, b, rest.kept);
      } else {
        OthersTurn(r, store, mode, b, rest.kept, id);
      }
    }
  }

  // ---- Runs ----

  // `reported` is everything a session's inbox ever received, `dimensions` where it was played.
  datatype System = System(retiring: seq<Retiring>, store: Store, reported: map<nat, seq<Event>>, dimensions: map<nat, int>, next: nat)

  datatype Action =
    | Retire(dimension: int, ready: seq<Event>, inFlight: nat)
    | Report(k: nat, event: Event)
    | DoRound(mode: Mode, budget: Budget)

  predicate Enabled(s: System, act: Action) {
    match act
    case Retire(_, _, _) => true
    case Report(k, _) => k < |s.retiring| && s.retiring[k].inFlight > 0
    case DoRound(_, _) => forall i :: 0 <= i < |s.retiring| ==> Fits(s.retiring[i])
  }

  function Retired(s: System, dimension: int, ready: seq<Event>, inFlight: nat): System {
    System(s.retiring + [Retiring(s.next, dimension, ready, inFlight, [])], s.store,
           s.reported[s.next := ready], s.dimensions[s.next := dimension], s.next + 1)
  }

  function Reported(s: System, k: nat, e: Event): System
    requires k < |s.retiring|
  {
    var r := s.retiring[k];
    s.(retiring := s.retiring[k := r.(ready := r.ready + [e], inFlight := if r.inFlight > 0 then r.inFlight - 1 else 0)],
       reported := s.reported[r.id := (if r.id in s.reported then s.reported[r.id] else []) + [e]])
  }

  function Next(s: System, act: Action): System
    requires Enabled(s, act)
  {
    match act
    case Retire(dimension, ready, inFlight) => Retired(s, dimension, ready, inFlight)
    case Report(k, e) => Reported(s, k, e)
    case DoRound(mode, b) =>
      var o := Round(s.retiring, s.store, mode, b);
      s.(retiring := o.kept, store := o.store)
  }

  // All that a session ever produced for its dimension.
  function Produced(s: System, id: nat): seq<Summary> {
    if id in s.reported && id in s.dimensions then Delivered(s.reported[id], s.dimensions[id]) else []
  }

  ghost predicate Named(s: System) {
    && Distinct(s.retiring)
    && (forall i :: 0 <= i < |s.retiring| ==>
          var r := s.retiring[i];
          r.id < s.next && r.id in s.reported && r.id in s.dimensions && s.dimensions[r.id] == r.dimension)
    && (forall id :: id in s.store || id in s.reported || id in s.dimensions ==> id < s.next)
  }

  predicate Conserved(s: System, id: nat) {
    Held(s.store, id) + Left(s.retiring, id) == Produced(s, id)
  }

  ghost predicate Inv(s: System) {
    Named(s) && forall id: nat :: Conserved(s, id)
  }

  lemma {:induction false} LeftOf(rs: seq<Retiring>, k: nat)
    requires k < |rs| && Distinct(rs)
    ensures Left(rs, rs[k].id) == Outstanding(rs[k])
  {
    if k > 0 {
      LeftOf(rs[1..], k - 1);
    }
  }

  lemma {:induction false} LeftElsewhere(rs: seq<Retiring>, k: nat, r: Retiring, id: nat)
    requires k < |rs| && r.id == rs[k].id && id != r.id
    ensures Left(rs[k := r], id) == Left(rs, id)
  {
    if k > 0 {
      LeftElsewhere(rs[1..], k - 1, r, id);
      assert rs[k := r][1..] == rs[1..][k - 1 := r];
    } else {
      assert rs[k := r][1..] == rs[1..];
    }
  }

  lemma {:induction false} LeftAppended(rs: seq<Retiring>, r: Retiring, id: nat)
    ensures Left(rs + [r], id) == if id in Ids(rs) then Left(rs, id) else if r.id == id then Outstanding(r) else []
  {
    if rs == [] {
      assert (rs + [r])[1..] == [];
    } else {
      LeftAppended(rs[1..], r, id);
      assert (rs + [r])[1..] == rs[1..] + [r];
      assert Ids(rs) == {rs[0].id} + Ids(rs[1..]);
    }
  }

  lemma RetireKeeps(s: System, dimension: int, ready: seq<Event>, inFlight: nat)
    requires Inv(s)
    ensures Inv(Retired(s, dimension, ready, inFlight))
  {
    var s', r := Retired(s, dimension, ready, inFlight), Retiring(s.next, dimension, ready, inFlight, []);
    forall id: nat ensures Conserved(s', id) {
      assert Conserved(s, id);
      LeftAppended(s.retiring, r, id);
      if id !in Ids(s.retiring) {
        NobodyLeft(s.retiring, id);
      }
    }
  }

  lemma OwnReport(s: System, k: nat, e: Event)
    requires Named(s) && k < |s.retiring| && Conserved(s, s.retiring[k].id)
    ensures Conserved(Reported(s, k, e), s.retiring[k].id)
  {
    hide Delivered, Left;
    var s', r := Reported(s, k, e), s.retiring[k];
    LeftOf(s.retiring, k);
    LeftOf(s'.retiring, k);
    DeliveredJoins(r.ready, [e], r.dimension);
    DeliveredJoins(s.reported[r.id], [e], r.dimension);
    var more := Delivered([e], r.dimension);
    assert Held(s.store, r.id) + (r.columns + (Delivered(r.ready, r.dimension) + more)) ==
           Held(s.store, r.id) + (r.columns + Delivered(r.ready, r.dimension)) + more;
  }

  lemma ReportKeeps(s: System, k: nat, e: Event)
    requires Inv(s) && k < |s.retiring|
    ensures Inv(Reported(s, k, e))
  {
    var s', r := Reported(s, k, e), s.retiring[k];
    hide Delivered, Left;
    forall id: nat ensures Conserved(s', id) {
      assert Conserved(s, id);
      if id == r.id {
        OwnReport(s, k, e);
      } else {
        LeftElsewhere(s.retiring, k, s'.retiring[k], id);
      }
    }
  }

  lemma {:induction false} ThinnedFrom(kept: seq<Retiring>, rs: seq<Retiring>, k: nat) returns (j: nat)
    requires Thinned(kept, rs) && k < |kept|
    ensures j < |rs| && kept[k].id == rs[j].id && kept[k].dimension == rs[j].dimension
    decreases |rs|
  {
    if kept[0].id == rs[0].id && kept[0].dimension == rs[0].dimension && Thinned(kept[1..], rs[1..]) {
      if k == 0 {
        j := 0;
      } else {
        j := ThinnedFrom(kept[1..], rs[1..], k - 1);
        j := j + 1;
      }
    } else {
      j := ThinnedFrom(kept, rs[1..], k);
      j := j + 1;
    }
  }

  lemma {:induction false} RoundStores(rs: seq<Retiring>, store: Store, mode: Mode, b: Budget, id: nat)
    requires id in Round(rs, store, mode, b).store
    ensures id in store || id in Ids(rs)
  {
    if rs != [] {
      RoundStores(rs[1..], Store1(rs[0], store, mode, b), mode, Spent(rs[0], mode, b), id);
      assert Ids(rs) == {rs[0].id} + Ids(rs[1..]);
    }
  }

  lemma RoundKeeps(s: System, mode: Mode, b: Budget)
    requires Inv(s) && Enabled(s, DoRound(mode, b))
    ensures Inv(Next(s, DoRound(mode, b)))
  {
    var s', o := Next(s, DoRound(mode, b)), Round(s.retiring, s.store, mode, b);
    RoundThins(s.retiring, s.store, mode, b);
    ThinnedIds(o.kept, s.retiring);
    forall i | 0 <= i < |o.kept|
      ensures var r := o.kept[i]; r.id < s.next && r.id in s.reported && r.id in s.dimensions && s.dimensions[r.id] == r.dimension
    {
      var j := ThinnedFrom(o.kept, s.retiring, i);
    }
    forall id | id in o.store ensures id < s.next {
      RoundStores(s.retiring, s.store, mode, b, id);
    }
    forall id: nat ensures Conserved(s', id) {
      assert Conserved(s, id);
      RoundConserves(s.retiring, s.store, mode, b, id);
    }
  }

  ghost predicate Run(states: seq<System>, acts: seq<Action>) {
    && |states| == |acts| + 1 && states[0] == System([], map[], map[], map[], 0)
    && forall i :: 0 <= i < |acts| ==> Enabled(states[i], acts[i]) && states[i + 1] == Next(states[i], acts[i])
  }

  lemma {:induction false} RunKeepsInvariant(states: seq<System>, acts: seq<Action>, i: nat)
    requires Run(states, acts) && i < |states|
    ensures Inv(states[i])
    decreases i
  {
    if i > 0 {
      RunKeepsInvariant(states, acts, i - 1);
      match acts[i - 1]
      case Retire(dimension, ready, inFlight) => RetireKeeps(states[i - 1], dimension, ready, inFlight);
      case Report(k, e) => ReportKeeps(states[i - 1], k, e);
      case DoRound(mode, b) => RoundKeeps(states[i - 1], mode, b);
    }
  }

  // At every moment each session's written summaries, then those collected, then those waiting in its inbox,
  // are exactly what it produced for its own dimension, in order.
  lemma NothingLostOrMoved(states: seq<System>, acts: seq<Action>, i: nat, id: nat)
    requires Run(states, acts) && i < |states|
    ensures Held(states[i].store, id) + Left(states[i].retiring, id) == Produced(states[i], id)
  {
    RunKeepsInvariant(states, acts, i);
    assert Conserved(states[i], id);
  }

  // Once a session is gone from the list, all it produced has been written.
  lemma GoneMeansWritten(states: seq<System>, acts: seq<Action>, i: nat, id: nat)
    requires Run(states, acts) && i < |states| && id !in Ids(states[i].retiring)
    ensures Held(states[i].store, id) == Produced(states[i], id)
  {
    NothingLostOrMoved(states, acts, i, id);
    NobodyLeft(states[i].retiring, id);
  }

  // ---- What a budget bounds ----

  // However it is spent, a budget admits no more columns than it has, and no more bytes unless the very
  // first one is alone too large.
  lemma {:induction false} BudgetBoundsBytes(costs: seq<nat>, b: Budget)
    ensures var n := Admitted(costs, b).0;
            n <= b.columns && (Sum(costs[..n]) <= b.bytes || (!b.used && n > 0 && Sum(costs[..n]) == costs[0] > b.bytes))
  {
    if costs != [] && Allows(b, costs[0]) {
      var n := Admitted(costs, b).0;
      BudgetBoundsBytes(costs[1..], Charge(b, costs[0]));
      assert costs[..n][1..] == costs[1..][..n - 1];
    }
  }

  // While waiting, every session with something ready delivers some of it, whatever the others do.
  lemma WaitingTurnsProgress(r: Retiring, b: Budget)
    requires r.ready != []
    ensures |Visited(r, Waiting, b).ready| < |r.ready|
  {
    assert Allows(PER_TURN, Costs(r.ready)[0]);
  }

  // ---- The drain at exit ----

  function Count(rs: seq<Retiring>): nat {
    if rs == [] then 0 else |rs[0].columns| + |rs[0].ready| + Count(rs[1..])
  }

  function Bytes(rs: seq<Retiring>): nat {
    if rs == [] then 0 else Sum(Sizes(rs[0].columns)) + Sum(Costs(rs[0].ready)) + Bytes(rs[1..])
  }

  lemma {:induction false} SumJoins(a: seq<nat>, b: seq<nat>)
    ensures Sum(a + b) == Sum(a) + Sum(b)
  {
    if a == [] {
      assert a + b == b;
    } else {
      SumJoins(a[1..], b);
      assert (a + b)[1..] == a[1..] + b;
    }
  }

  lemma {:induction false} DeliveredCosts(events: seq<Event>, dimension: int)
    ensures |Delivered(events, dimension)| <= |events| && Sum(Sizes(Delivered(events, dimension))) <= Sum(Costs(events))
  {
    if events != [] {
      var rest := Delivered(events[1..], dimension);
      DeliveredCosts(events[1..], dimension);
      assert Costs(events)[1..] == Costs(events[1..]);
      if events[0].Finished? && events[0].summary.dimension == dimension {
        assert Sizes([events[0].summary] + rest) == [events[0].summary.bytes] + Sizes(rest);
      } else {
        assert Delivered(events, dimension) == rest;
      }
    }
  }

  // Room in the budget for everything the sessions hold.
  predicate Ample(rs: seq<Retiring>, b: Budget) {
    Count(rs) <= b.columns <= USIZE_MAX && Bytes(rs) <= b.bytes <= USIZE_MAX
  }

  function Load(r: Retiring): nat {
    |r.columns| + |r.ready|
  }

  function Weight(r: Retiring): nat {
    Sum(Sizes(r.columns)) + Sum(Costs(r.ready))
  }

  lemma CollectLightens(r: Retiring, b: Budget)
    ensures Load(Collected(r, b)) <= Load(r) && Weight(Collected(r, b)) <= Weight(r)
  {
    var n := Admitted(Costs(r.ready), b).0;
    var more := Delivered(r.ready[..n], r.dimension);
    DeliveredCosts(r.ready[..n], r.dimension);
    assert Costs(r.ready) == Costs(r.ready[..n]) + Costs(r.ready[n..]);
    SumJoins(Costs(r.ready[..n]), Costs(r.ready[n..]));
    assert Sizes(r.columns + more) == Sizes(r.columns) + Sizes(more);
    SumJoins(Sizes(r.columns), Sizes(more));
  }

  // With room for everything, a turn that may write writes the whole session out, and spends no more than its load.
  lemma AmpleTurn(r: Retiring, mode: Mode, b: Budget)
    requires !mode.Sharing? && Load(r) <= b.columns <= USIZE_MAX && Weight(r) <= b.bytes <= USIZE_MAX
    ensures mode.Expired? ==> Leaves(r, mode, b)
    ensures !Leaves(r, mode, b) ==> !Idle(Visited(r, mode, b)) && Spent(r, mode, b) == b
    ensures !Leaves(r, mode, b) ==> Load(Visited(r, mode, b)) <= Load(r) && Weight(Visited(r, mode, b)) <= Weight(r)
    ensures Leaves(r, mode, b) ==> b.columns - Load(r) <= Spent(r, mode, b).columns <= b.columns
    ensures Leaves(r, mode, b) ==> b.bytes - Weight(r) <= Spent(r, mode, b).bytes <= b.bytes
  {
    var next := Collected(r, InboxBudget(mode, b));
    CollectLightens(r, InboxBudget(mode, b));
    if Idle(next) || mode.Expired? {
      AmpleAdmitsAll(Sizes(next.columns), b);
    } else {
      assert next.columns[0..] == next.columns;
    }
  }

  // A round with room for everything keeps only sessions that still have work in flight, and keeps its room.
  lemma {:induction false} AmpleRound(rs: seq<Retiring>, store: Store, mode: Mode, b: Budget, more: nat, weight: nat)
    requires !mode.Sharing? && Ample(rs, b) && Count(rs) + more <= b.columns && Bytes(rs) + weight <= b.bytes
    ensures var o := Round(rs, store, mode, b);
            && (mode.Expired? ==> o.kept == [])
            && (o.kept != [] ==> !Idle(o.kept[0]) && !Done(o.kept, true, false))
            && Ample(o.kept, o.budget) && Count(o.kept) + more <= o.budget.columns && Bytes(o.kept) + weight <= o.budget.bytes
  {
    if rs != [] {
      var r := rs[0];
      AmpleTurn(r, mode, b);
      var next, spent := Store1(r, store, mode, b), Spent(r, mode, b);
      var rest := Round(rs[1..], next, mode, spent);
      if Leaves(r, mode, b) {
        AmpleRound(rs[1..], next, mode, spent, more, weight);
        assert Keeps(r, mode, b) + rest.kept == rest.kept;
      } else {
        var v := Visited(r, mode, b);
        AmpleRound(rs[1..], next, mode, spent, more + Load(v), weight + Weight(v));
        assert ([v] + rest.kept)[1..] == rest.kept;
      }
    }
  }

  function ReportCount(turns: seq<Turn>): nat {
    if turns == [] then 0 else |turns[0].reports| + ReportCount(turns[1..])
  }

  function ReportCosts(reports: seq<(nat, Event)>): nat {
    if reports == [] then 0 else Cost(reports[0].1) + ReportCosts(reports[1..])
  }

  function ReportBytes(turns: seq<Turn>): nat {
    if turns == [] then 0 else ReportCosts(turns[0].reports) + ReportBytes(turns[1..])
  }

  lemma {:induction false} HeavierBy(rs: seq<Retiring>, k: nat, r: Retiring)
    requires k < |rs|
    ensures Count(rs[k := r]) == Count(rs) - Load(rs[k]) + Load(r)
    ensures Bytes(rs[k := r]) == Bytes(rs) - Weight(rs[k]) + Weight(r)
  {
    if k > 0 {
      HeavierBy(rs[1..], k - 1, r);
      assert rs[k := r][1..] == rs[1..][k - 1 := r];
    } else {
      assert rs[k := r][1..] == rs[1..];
    }
  }

  lemma {:induction false} ArrivalsWeigh(rs: seq<Retiring>, reports: seq<(nat, Event)>)
    ensures Count(Arrive(rs, reports)) <= Count(rs) + |reports|
    ensures Bytes(Arrive(rs, reports)) <= Bytes(rs) + ReportCosts(reports)
    decreases |reports|
  {
    if reports != [] {
      var (k, e) := reports[0];
      if k < |rs| && rs[k].inFlight > 0 {
        var r := rs[k].(ready := rs[k].ready + [e], inFlight := rs[k].inFlight - 1);
        HeavierBy(rs, k, r);
        assert Costs(r.ready) == Costs(rs[k].ready) + [Cost(e)];
        SumJoins(Costs(rs[k].ready), [Cost(e)]);
        assert Sum([Cost(e)]) == Cost(e);
        ArrivalsWeigh(rs[k := r], reports[1..]);
      } else {
        ArrivalsWeigh(rs, reports[1..]);
      }
    }
  }

  // What `reports` add for one namespace.
  function Heard(rs: seq<Retiring>, reports: seq<(nat, Event)>, id: nat): seq<Summary>
    decreases |reports|
  {
    if reports == [] then []
    else
      var (k, e) := reports[0];
      (if k < |rs| && rs[k].inFlight > 0 && rs[k].id == id then Delivered([e], rs[k].dimension) else []) +
      Heard(Arrive(rs, [reports[0]]), reports[1..], id)
  }

  lemma ArriveOne(rs: seq<Retiring>, reports: seq<(nat, Event)>)
    requires reports != []
    ensures Arrive(rs, reports) == Arrive(Arrive(rs, [reports[0]]), reports[1..])
  {
    var one: seq<(nat, Event)> := [reports[0]];
    assert one[1..] == [];
  }

  lemma OneArrival(rs: seq<Retiring>, report: (nat, Event), id: nat)
    requires Distinct(rs)
    ensures var next := Arrive(rs, [report]);
            && Distinct(next) && |next| == |rs|
            && Left(next, id) == Left(rs, id) + Heard(rs, [report], id)
  {
    var (k, e) := report;
    var next := Arrive(rs, [report]);
    var only: seq<(nat, Event)> := [report];
    assert only[1..] == [];
    if k < |rs| && rs[k].inFlight > 0 {
      var with := rs[k := rs[k].(ready := rs[k].ready + [e], inFlight := rs[k].inFlight - 1)];
      assert Arrive(with, only[1..]) == with && next == with;
      if rs[k].id == id {
        LeftOf(rs, k);
        LeftOf(next, k);
        DeliveredJoins(rs[k].ready, [e], rs[k].dimension);
        assert next[k].columns + (Delivered(rs[k].ready, rs[k].dimension) + Delivered([e], rs[k].dimension)) ==
               Outstanding(rs[k]) + Delivered([e], rs[k].dimension);
      } else {
        LeftElsewhere(rs, k, next[k], id);
      }
    } else {
      assert next == rs;
    }
  }

  lemma HeardFirst(rs: seq<Retiring>, reports: seq<(nat, Event)>, id: nat)
    requires reports != []
    ensures Heard(rs, reports, id) == Heard(rs, [reports[0]], id) + Heard(Arrive(rs, [reports[0]]), reports[1..], id)
  {
    var first: seq<(nat, Event)> := [reports[0]];
    assert first[1..] == [] && Heard(Arrive(rs, first), first[1..], id) == [];
  }

  lemma {:induction false} ArrivalsConserve(rs: seq<Retiring>, reports: seq<(nat, Event)>, id: nat)
    requires Distinct(rs)
    ensures Distinct(Arrive(rs, reports)) && Left(Arrive(rs, reports), id) == Left(rs, id) + Heard(rs, reports, id)
    decreases |reports|
  {
    hide Left, Delivered, Distinct;
    if reports != [] {
      var one := Arrive(rs, [reports[0]]);
      OneArrival(rs, reports[0], id);
      ArriveOne(rs, reports);
      ArrivalsConserve(one, reports[1..], id);
      HeardFirst(rs, reports, id);
    }
  }

  // What reports for one namespace while a drain waits.
  function Meanwhile(rs: seq<Retiring>, store: Store, b: Budget, turns: seq<Turn>, id: nat): seq<Summary>
    decreases |turns|
  {
    if turns == [] then []
    else
      var o := Round(rs, store, ModeOf(true, turns[0].expired), b);
      if Done(o.kept, true, turns[0].expired) then []
      else Heard(o.kept, turns[0].reports, id) + Meanwhile(Arrive(o.kept, turns[0].reports), o.store, o.budget, turns[1..], id)
  }

  lemma {:induction false} AmpleFits(rs: seq<Retiring>, b: Budget)
    requires Ample(rs, b)
    ensures forall i :: 0 <= i < |rs| ==> Fits(rs[i])
  {
    if rs != [] {
      AmpleFits(rs[1..], b);
      assert forall i :: 0 < i < |rs| ==> rs[i] == rs[1..][i - 1];
    }
  }

  lemma OneRoundConserves(rs: seq<Retiring>, store: Store, mode: Mode, b: Budget, id: nat)
    requires Distinct(rs) && Ample(rs, b)
    ensures var o := Round(rs, store, mode, b);
            Distinct(o.kept) && Held(o.store, id) + Left(o.kept, id) == Held(store, id) + Left(rs, id)
  {
    AmpleFits(rs, b);
    RoundConserves(rs, store, mode, b, id);
    RoundThins(rs, store, mode, b);
    ThinnedIds(Round(rs, store, mode, b).kept, rs);
  }

  // The drain at exit ends with no session left, whether it stops because time is up or because every
  // inbox is idle, if its budget covers what was there and what reported meanwhile; and all of that, in
  // order and under its own namespace, has then been written.
  lemma {:induction false} ExitLeavesNothing(rs: seq<Retiring>, store: Store, b: Budget, turns: seq<Turn>, id: nat)
    requires turns != [] && turns[|turns| - 1].expired && Distinct(rs)
    requires Count(rs) + ReportCount(turns) <= b.columns <= USIZE_MAX && Bytes(rs) + ReportBytes(turns) <= b.bytes <= USIZE_MAX
    ensures var o := Drained(rs, store, b, true, turns);
            && o.kept == []
            && Held(o.store, id) == Held(store, id) + Left(rs, id) + Meanwhile(rs, store, b, turns, id)
    decreases |turns|
  {
    hide Round, Bytes, Count, Arrive, Heard, Left;
    var t := turns[0];
    var o := Round(rs, store, ModeOf(true, t.expired), b);
    AmpleRound(rs, store, ModeOf(true, t.expired), b, ReportCount(turns), ReportBytes(turns));
    OneRoundConserves(rs, store, ModeOf(true, t.expired), b, id);
    if Done(o.kept, true, t.expired) {
      NobodyLeft(o.kept, id);
    } else {
      assert |turns| > 1;
      var next := Arrive(o.kept, t.reports);
      ArrivalsWeigh(o.kept, t.reports);
      ArrivalsConserve(o.kept, t.reports, id);
      ExitLeavesNothing(next, o.store, o.budget, turns[1..], id);
      var heard, later := Heard(o.kept, t.reports, id), Meanwhile(next, o.store, o.budget, turns[1..], id);
      Regroup(Held(o.store, id), Left(o.kept, id), heard, later, Held(store, id) + Left(rs, id));
    }
  }

  lemma Regroup(a: seq<Summary>, b: seq<Summary>, c: seq<Summary>, d: seq<Summary>, whole: seq<Summary>)
    requires a + b == whole
    ensures a + (b + c) + d == whole + (c + d)
  {
  }
}
