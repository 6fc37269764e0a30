/** What a session's turn takes, delivers, writes and is charged, said of counts, sums and positions. */
module FarTerrainTurns {
  import opened FarTerrain
  import opened FarTerrainRuns

  // ---- What is delivered ----

  // The events that count for a session of `dimension`: its own finished summaries.
  function Own(events: seq<Event>, dimension: int, n: nat): set<nat>
    requires n <= |events|
  {
    set i: nat | i < n && events[i].Finished? && events[i].summary.dimension == dimension
  }

  lemma OwnLast(events: seq<Event>, dimension: int, n: nat)
    requires n < |events|
    ensures Own(events, dimension, n) == Own(events[..n], dimension, n)
    ensures |Own(events, dimension, n + 1)| ==
            |Own(events, dimension, n)| + if events[n].Finished? && events[n].summary.dimension == dimension then 1 else 0
  {
    var own := Own(events, dimension, n);
    assert Own(events, dimension, n + 1) == if events[n].Finished? && events[n].summary.dimension == dimension then own + {n} else own;
  }

  lemma DeliveredLast(events: seq<Event>, dimension: int)
    requires events != []
    ensures var n := |events| - 1;
            Delivered(events, dimension) == Delivered(events[..n], dimension) +
              if events[n].Finished? && events[n].summary.dimension == dimension then [events[n].summary] else []
  {
    var n := |events| - 1;
    assert events == events[..n] + [events[n]];
    DeliveredJoins(events[..n], [events[n]], dimension);
  }

  lemma {:induction false} DeliveredCounts(events: seq<Event>, dimension: int)
    ensures |Delivered(events, dimension)| == |Own(events, dimension, |events|)|
    decreases |events|
  {
    hide Delivered, Own;
    if events == [] {
      NothingDelivered(dimension);
    } else {
      DeliveredLast(events, dimension);
      OwnLast(events, dimension, |events| - 1);
      DeliveredCounts(events[..|events| - 1], dimension);
    }
  }

  lemma NothingDelivered(dimension: int)
    ensures Delivered([], dimension) == [] && Own([], dimension, 0) == {}
  {
  }

  // Exactly those are delivered, each once and with its summary, behind as many as counted before it.
  lemma {:induction false} DeliveredExactlyWhen(events: seq<Event>, dimension: int, i: nat)
    requires i < |events| && events[i].Finished? && events[i].summary.dimension == dimension
    ensures |Delivered(events, dimension)| == |Own(events, dimension, |events|)|
    ensures |Own(events, dimension, i)| < |Delivered(events, dimension)|
    ensures Delivered(events, dimension)[|Own(events, dimension, i)|] == events[i].summary
    decreases |events|
  {
    hide Delivered, Own;
    var n := |events| - 1;
    DeliveredCounts(events, dimension);
    DeliveredLast(events, dimension);
    if i == n {
      OwnLast(events, dimension, n);
      DeliveredCounts(events[..n], dimension);
    } else {
      DeliveredExactlyWhen(events[..n], dimension, i);
      OwnLast(events, dimension, i);
      OwnLast(events[..n], dimension, i);
      assert events[..n][..i] == events[..i];
    }
  }

  // ---- What a budget admits ----

  lemma {:induction false} SumLast(costs: seq<nat>, n: nat)
    requires n < |costs|
    ensures Sum(costs[..n + 1]) == Sum(costs[..n]) + costs[n]
    decreases n
  {
    var front := costs[..n + 1];
    if n > 0 {
      SumLast(costs[1..], n - 1);
      assert front[1..] == costs[1..][..n] && costs[..n][1..] == costs[1..][..n - 1];
    } else {
      assert front == [costs[0]] && front[1..] == [] && costs[..0] == [];
    }
  }

  // What is left of the bytes once the first i columns are charged.
  function BytesLeft(b: Budget, costs: seq<nat>, i: nat): nat
    requires i <= |costs|
  {
    if Sum(costs[..i]) < b.bytes then b.bytes - Sum(costs[..i]) else 0
  }

  // The i-th column fits behind those before it; the first under an unused budget always does.
  predicate Fits(b: Budget, costs: seq<nat>, i: nat)
    requires i < |costs|
  {
    i < b.columns && (costs[i] <= BytesLeft(b, costs, i) || (i == 0 && !b.used))
  }

  // A budget admits columns up to the first that does not fit, and is charged for exactly those.
  lemma {:induction false} AdmittedExactly(costs: seq<nat>, b: Budget)
    ensures var (n, left) := Admitted(costs, b);
            && (forall i :: 0 <= i < n ==> Fits(b, costs, i)) && (n < |costs| ==> !Fits(b, costs, n))
            && left == Budget(b.columns - n, BytesLeft(b, costs, n), b.used || n > 0)
    decreases |costs|
  {
    var n := Admitted(costs, b).0;
    assert costs[..0] == [] && Sum([]) == 0;
    if costs != [] && Allows(b, costs[0]) {
      var c := Charge(b, costs[0]);
      AdmittedExactly(costs[1..], c);
      forall i | 0 < i <= |costs| ensures BytesLeft(c, costs[1..], i - 1) == BytesLeft(b, costs, i) {
        assert costs[..i][1..] == costs[1..][..i - 1] && costs[..i][0] == costs[0];
      }
      forall i | 0 <= i < n ensures Fits(b, costs, i) {
        if i > 0 { assert Fits(c, costs[1..], i - 1); }
      }
      if n < |costs| { assert !Fits(c, costs[1..], n - 1); }
    }
  }

  // The steps of unfinished work among events: each goes on in flight.
  function Going(events: seq<Event>, n: nat): set<nat>
    requires n <= |events|
  {
    set i: nat | i < n && events[i].Unfinished?
  }

  lemma {:induction false} ResumedJoins(a: seq<Event>, b: seq<Event>)
    ensures Resumed(a + b) == Resumed(a) + Resumed(b)
  {
    if a == [] {
      assert a + b == b;
    } else {
      ResumedJoins(a[1..], b);
      assert (a + b)[1..] == a[1..] + b && (a + b)[0] == a[0];
    }
  }

  lemma {:induction false} ResumedCounts(events: seq<Event>)
    ensures Resumed(events) == |Going(events, |events|)|
    decreases |events|
  {
    if events == [] {
      assert Going(events, 0) == {};
    } else {
      var n := |events| - 1;
      ResumedCounts(events[..n]);
      ResumedJoins(events[..n], [events[n]]);
      assert events == events[..n] + [events[n]];
      assert Going(events, n + 1) == Going(events[..n], n) + if events[n].Unfinished? then {n} else {};
    }
  }

  // One turn: the session takes what the inbox budget admits, keeps the summaries of its own dimension, and
  // counts unfinished work as in flight again. Once nothing is ready or in flight, or time is up, it writes what
  // the round's budget admits, and leaves if that was everything.
  lemma TurnExactly(r: Retiring, mode: Mode, b: Budget, store: Store)
    ensures var given := if mode == Sharing then b else if mode == Waiting then Budget(256, 262_144, false)
                         else Budget(0xFFFF_FFFF_FFFF_FFFF, 0xFFFF_FFFF_FFFF_FFFF, false);
            var (n, left) := Admitted(Costs(r.ready), given);
            var spent := if mode == Sharing then left else b;
            var columns := r.columns + Delivered(r.ready[..n], r.dimension);
            var inFlight := r.inFlight + |Going(r.ready[..n], n)|;
            var writes := mode == Expired || (n == |r.ready| && inFlight == 0);
            var (m, after) := if writes then Admitted(Sizes(columns), spent) else (0, spent);
            && Visited(r, mode, b) == Retiring(r.id, r.dimension, r.ready[n..], inFlight, columns[m..])
            && Saved(r, mode, b) == columns[..m] && Spent(r, mode, b) == after
            && (Leaves(r, mode, b) <==> writes && m == |columns|)
            && (forall id: nat :: Held(Store1(r, store, mode, b), id) == Held(store, id) + if id == r.id then columns[..m] else [])
  {
    hide Admitted, Delivered, Resumed, Going, Costs, Sizes;
    var n := Admitted(Costs(r.ready), InboxBudget(mode, b)).0;
    ResumedCounts(r.ready[..n]);
  }

  // ---- Rounds and the drain ----

  // A round is the turns one after another: the store and the shared budget go from each to the next.
  lemma {:induction false} RoundJoins(first: seq<Retiring>, second: seq<Retiring>, store: Store, mode: Mode, b: Budget)
    ensures var o := Round(first, store, mode, b);
            var p := Round(second, o.store, mode, o.budget);
            Round(first + second, store, mode, b) == Outcome(o.kept + p.kept, p.store, p.budget)
  {
    hide Store1, Spent, Keeps;
    if first == [] {
      assert [] + second == second;
      var p := Round(second, store, mode, b);
      assert [] + p.kept == p.kept;
    } else {
      var r := first[0];
      RoundJoins(first[1..], second, Store1(r, store, mode, b), mode, Spent(r, mode, b));
      assert (first + second)[1..] == first[1..] + second && (first + second)[0] == r;
      var o := Round(first[1..], Store1(r, store, mode, b), mode, Spent(r, mode, b));
      var p := Round(second, o.store, mode, o.budget);
      assert Keeps(r, mode, b) + (o.kept + p.kept) == Keeps(r, mode, b) + o.kept + p.kept;
    }
  }

  lemma RoundOfOne(r: Retiring, store: Store, mode: Mode, b: Budget)
    ensures Round([r], store, mode, b) ==
            Outcome(if Leaves(r, mode, b) then [] else [Visited(r, mode, b)], Store1(r, store, mode, b), Spent(r, mode, b))
  {
    assert Round([], Store1(r, store, mode, b), mode, Spent(r, mode, b)) == Outcome([], Store1(r, store, mode, b), Spent(r, mode, b));
  }

  // Without waiting a drain is one round, which shares the budget, or is unlimited if time is up. A waiting
  // drain goes on, each session with a budget of its own, until time is up or nothing is ready or in flight.
  lemma DrainExactly(rs: seq<Retiring>, store: Store, b: Budget, waiting: bool, turns: seq<Turn>)
    requires turns != []
    ensures turns[0].expired ==> Drained(rs, store, b, waiting, turns) == Round(rs, store, Expired, b)
    ensures !turns[0].expired && !waiting ==> Drained(rs, store, b, waiting, turns) == Round(rs, store, Sharing, b)
    ensures !turns[0].expired && waiting ==>
              var o := Round(rs, store, Waiting, b);
              Drained(rs, store, b, waiting, turns) ==
                if forall i :: 0 <= i < |o.kept| ==> o.kept[i].ready == [] && o.kept[i].inFlight == 0 then o
                else Drained(Arrive(o.kept, turns[0].reports), o.store, o.budget, waiting, turns[1..])
  {
    hide Round, Arrive;
  }

  // A report goes to the back of one session's inbox and ends one piece of its work in flight; a session with
  // nothing in flight, or gone, gets none.
  lemma ArrivesExactly(rs: seq<Retiring>, k: nat, e: Event, i: nat)
    requires i < |rs|
    ensures var r, after := rs[i], Arrive(rs, [(k, e)]);
            |after| == |rs| &&
            after[i] == if i == k && r.inFlight > 0 then r.(ready := r.ready + [e], inFlight := r.inFlight - 1) else r
  {
    assert [(k, e)][1..] == [];
  }

  lemma {:induction false} ArriveInTurn(rs: seq<Retiring>, first: seq<(nat, Event)>, second: seq<(nat, Event)>)
    ensures Arrive(rs, first + second) == Arrive(Arrive(rs, first), second)
    decreases |first|
  {
    if first == [] {
      assert [] + second == second;
    } else {
      var (k, e) := first[0];
      var next := if k < |rs| && rs[k].inFlight > 0 then rs[k := rs[k].(ready := rs[k].ready + [e], inFlight := rs[k].inFlight - 1)] else rs;
      ArriveInTurn(next, first[1..], second);
      assert (first + second)[1..] == first[1..] + second && (first + second)[0] == first[0];
    }
  }
}
