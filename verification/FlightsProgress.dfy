/** That flights and drains come to an end: every caller gets its own flight's result, and every drain returns. */
module FlightsProgress {
  import opened Wrappers
  import opened Flights

  // ---- What may begin ----

  // Somebody has begun to close the account, or its sign-in was replaced.
  ghost predicate Ending(acts: seq<Action>, i: nat)
    requires i <= |acts|
  {
    exists k :: 0 <= k < i && (acts[k].Drain? || acts[k].CancelAccount?)
  }

  lemma {:induction false} EndingExactlyWhen(states: seq<System>, acts: seq<Action>, i: nat)
    requires Run(states, acts) && i <= |acts|
    ensures (states[i].board.closing || states[i].board.closed) <==> Ending(acts, i)
    decreases i
  {
    if i > 0 {
      EndingExactlyWhen(states, acts, i - 1);
      var s, act := states[i - 1], acts[i - 1];
      assert Enabled(s, act) && states[i] == Next(s, act);
      EndsOnce(s, act);
    }
  }

  lemma EndsOnce(s: System, act: Action)
    requires Enabled(s, act)
    ensures var b, t := s.board, Next(s, act).board;
            (t.closing || t.closed) <==> b.closing || b.closed || act.Drain? || act.CancelAccount?
  {
  }

  // An operation begins exactly while the account is not ending, and is then counted.
  lemma OperationsBeginExactlyWhen(states: seq<System>, acts: seq<Action>, i: nat)
    requires Run(states, acts) && i < |acts| && acts[i].BeginOp?
    ensures if Ending(acts, i) then states[i + 1] == states[i]
            else states[i + 1].operations == states[i].operations + {acts[i].o} && states[i + 1].board.active == states[i].board.active + 1
  {
    EndingExactlyWhen(states, acts, i);
  }

  // Whoever needs a credential joins the flight under its key, if there is one; otherwise it starts one,
  // exactly while the account is not ending.
  lemma FlightsStartExactlyWhen(states: seq<System>, acts: seq<Action>, i: nat)
    requires Run(states, acts) && i < |acts| && acts[i].Await?
    ensures var s, t, key, f := states[i], states[i + 1], acts[i].key, acts[i].f;
            && Join(s.board, key, f).1 == (if key in s.board.flights then Some(s.board.flights[key]) else if Ending(acts, i) then None else Some(f))
            && (key in s.board.flights || Ending(acts, i) ==> t == s)
            && (key !in s.board.flights && !Ending(acts, i) ==>
                  && t.flights == s.flights[f := Flight(key, Waiting, None, 0)] && t.runs == s.runs + {f}
                  && t.board.flights == s.board.flights[key := f] && t.board.active == s.board.active + 1)
  {
    EndingExactlyWhen(states, acts, i);
  }

  // A drain returns at once exactly if nothing is running, and otherwise waits.
  lemma DrainsWaitExactlyWhen(states: seq<System>, acts: seq<Action>, i: nat)
    requires Run(states, acts) && i < |acts| && acts[i].Drain?
    ensures acts[i].d in states[i + 1].drains
    ensures states[i + 1].drains[acts[i].d].None? <==> states[i].operations == {} && states[i].runs == {}
  {
    RunKeepsInvariant(states, acts, i);
  }

  // ---- Whose result a flight delivers ----

  function ResultOf(t: Flight): Option<int> {
    match t.stage
    case Waiting => None
    case Taken(result) => Some(result)
    case Deregistered(result) => Some(result)
    case _ => t.value
  }

  // What a run has delivered was delivered by that run.
  lemma {:induction false} DeliveredOnce(states: seq<System>, acts: seq<Action>, i: nat, f: nat) returns (m: nat)
    requires Run(states, acts) && i < |states| && f in states[i].delivered
    ensures m < i && acts[m] == Deliver(f, states[i].delivered[f])
    decreases i
  {
    if f in states[i - 1].delivered && states[i - 1].delivered[f] == states[i].delivered[f] {
      m := DeliveredOnce(states, acts, i - 1, f);
    } else {
      m := i - 1;
    }
  }

  lemma StepResult(s: System, act: Action, f: nat)
    requires Inv(s) && Enabled(s, act) && f in Next(s, act).flights && ResultOf(Next(s, act).flights[f]).Some?
    ensures || (f in s.flights && ResultOf(s.flights[f]) == ResultOf(Next(s, act).flights[f]))
            || (act.Take? && act.f == f && f in s.flights && s.flights[f].stage.Waiting? &&
                ResultOf(Next(s, act).flights[f]) == Some(if act.timeout then act.error else s.delivered[f]) &&
                (!act.timeout ==> f in s.delivered))
  {
  }

  // What a flight's callers find is what its own run computed, or the error of its own deadline.
  lemma {:induction false} CallersGetTheirResult(states: seq<System>, acts: seq<Action>, i: nat, f: nat) returns (k: nat, m: nat)
    requires Run(states, acts) && i < |states| && f in states[i].flights && ResultOf(states[i].flights[f]).Some?
    ensures k < i && acts[k].Take? && acts[k].f == f
    ensures var result := ResultOf(states[i].flights[f]).value;
            if acts[k].timeout then result == acts[k].error else m < k && acts[m] == Deliver(f, result)
    decreases i
  {
    assert i > 0;
    m := 0;
    RunKeepsInvariant(states, acts, i - 1);
    var s, act := states[i - 1], acts[i - 1];
    assert Enabled(s, act) && states[i] == Next(s, act);
    StepResult(s, act, f);
    if f in s.flights && ResultOf(s.flights[f]) == ResultOf(states[i].flights[f]) {
      k, m := CallersGetTheirResult(states, acts, i - 1, f);
    } else {
      k := i - 1;
      if !act.timeout { m := DeliveredOnce(states, acts, i - 1, f); }
    }
  }

  // ---- Going on from a run ----

  function Last(states: seq<System>): System
    requires states != []
  {
    states[|states| - 1]
  }

  ghost predicate GoesOn(states: seq<System>, acts: seq<Action>, longer: seq<System>, more: seq<Action>) {
    Run(longer, more) && states != [] && longer != [] && states <= longer && acts <= more
  }

  lemma OneMore(states: seq<System>, acts: seq<Action>, longer: seq<System>, more: seq<Action>, act: Action)
    returns (longest: seq<System>, most: seq<Action>)
    requires GoesOn(states, acts, longer, more) && Enabled(Last(longer), act)
    ensures GoesOn(states, acts, longest, most) && Last(longest) == Next(Last(longer), act) && |most| == |more| + 1
  {
    longest, most := longer + [Next(Last(longer), act)], more + [act];
  }

  lemma Onward(states: seq<System>, acts: seq<Action>, longer: seq<System>, more: seq<Action>, longest: seq<System>, most: seq<Action>)
    requires GoesOn(states, acts, longer, more) && GoesOn(longer, more, longest, most)
    ensures GoesOn(states, acts, longest, most)
  {
  }

  lemma Sound(states: seq<System>, acts: seq<Action>)
    requires Run(states, acts)
    ensures states != [] && Inv(Last(states)) && GoesOn(states, acts, states, acts)
  {
    RunKeepsInvariant(states, acts, |acts|);
  }

  // What a flight does next, at the latest when its deadline passes.
  function Moves(f: nat, t: Flight): Action {
    match t.stage
    case Waiting => Take(f, true, 0)
    case Taken(_) => Delist(f)
    case Deregistered(_) => Store(f)
    case _ => CloseDone(f)
  }

  function StepsLeft(t: Flight): nat {
    match t.stage
    case Waiting => 4
    case Taken(_) => 3
    case Deregistered(_) => 2
    case Stored => 1
    case Finished => 0
  }

  lemma FlightMoves(s: System, f: nat)
    requires f in s.flights && StepsLeft(s.flights[f]) > 0
    ensures Enabled(s, Moves(f, s.flights[f]))
    ensures var t := Next(s, Moves(f, s.flights[f]));
            f in t.flights && t.flights[f].key == s.flights[f].key && StepsLeft(t.flights[f]) == StepsLeft(s.flights[f]) - 1
  {
  }

  // From every reachable state a flight ends in at most four steps: its callers are released, and its key is
  // free for another one.
  lemma {:induction false} FlightsEnd(states: seq<System>, acts: seq<Action>, f: nat) returns (longer: seq<System>, more: seq<Action>)
    requires Run(states, acts) && states != [] && f in Last(states).flights
    ensures GoesOn(states, acts, longer, more) && f in Last(longer).flights && |more| <= |acts| + 4
    ensures Last(longer).flights[f].stage.Finished? && Last(longer).flights[f].closes == 1 && Last(longer).flights[f].value.Some?
    ensures Last(longer).flights[f].key in Last(longer).board.flights ==> Last(longer).board.flights[Last(longer).flights[f].key] != f
  {
    longer, more := FlightEnds(states, acts, f);
    Sound(longer, more);
  }

  lemma {:induction false} FlightEnds(states: seq<System>, acts: seq<Action>, f: nat) returns (longer: seq<System>, more: seq<Action>)
    requires Run(states, acts) && states != [] && f in Last(states).flights
    ensures GoesOn(states, acts, longer, more) && f in Last(longer).flights && |more| <= |acts| + StepsLeft(Last(states).flights[f])
    ensures Last(longer).flights[f].stage.Finished?
    decreases StepsLeft(Last(states).flights[f])
  {
    hide Run, Next, Enabled, Inv;
    Sound(states, acts);
    longer, more := states, acts;
    if !Last(states).flights[f].stage.Finished? {
      FlightMoves(Last(states), f);
      var next, moved := OneMore(states, acts, states, acts, Moves(f, Last(states).flights[f]));
      longer, more := FlightEnds(next, moved, f);
      Onward(states, acts, next, moved, longer, more);
    }
  }

  // ---- Draining ----

  // How much is still to come before everything begun has ended.
  function Pending(s: System): nat {
    2 * |s.runs| + |s.operations| + 2 * |s.runs - s.delivered.Keys|
  }

  lemma OperationEnds(s: System, o: nat)
    requires o in s.operations
    ensures Pending(Next(s, EndOp(o))) < Pending(s) && Next(s, EndOp(o)).drains == s.drains
  {
    var t := Next(s, EndOp(o));
    assert t.runs == s.runs && t.delivered == s.delivered && t.operations == s.operations - {o};
    assert |t.operations| == |s.operations| - 1;
  }

  lemma RunEnds(s: System, f: nat)
    requires f in s.runs && f in s.delivered
    ensures Pending(Next(s, EndRun(f))) < Pending(s) && Next(s, EndRun(f)).drains == s.drains
  {
    var t := Next(s, EndRun(f));
    assert t.runs == s.runs - {f} && t.delivered == s.delivered && t.operations == s.operations;
    assert |t.runs| == |s.runs| - 1;
    assert t.runs - t.delivered.Keys == s.runs - s.delivered.Keys;
  }

  lemma RunDelivers(s: System, f: nat)
    requires f in s.runs && f !in s.delivered
    ensures Pending(Next(s, Deliver(f, 0))) < Pending(s) && Next(s, Deliver(f, 0)).drains == s.drains
  {
    var t := Next(s, Deliver(f, 0));
    var left := s.runs - s.delivered.Keys;
    assert t.runs == s.runs && t.operations == s.operations && t.runs - t.delivered.Keys == left - {f};
    assert |left - {f}| == |left| - 1;
  }

  // Something that is running comes to its end.
  lemma SomethingEnds(s: System) returns (act: Action)
    requires s.operations + s.runs != {}
    ensures Enabled(s, act) && Pending(Next(s, act)) < Pending(s)
    ensures Next(s, act).drains == s.drains
  {
    hide Pending, Next;
    if s.operations != {} {
      var o :| o in s.operations;
      act := EndOp(o);
      OperationEnds(s, o);
    } else {
      var f :| f in s.runs;
      if f in s.delivered {
        act := EndRun(f);
        RunEnds(s, f);
      } else {
        act := Deliver(f, 0);
        RunDelivers(s, f);
      }
    }
  }

  // From every reachable state what is running can end, and then every drain that has begun returns.
  lemma {:induction false} DrainsReturn(states: seq<System>, acts: seq<Action>, d: nat) returns (longer: seq<System>, more: seq<Action>)
    requires Run(states, acts) && states != [] && d in Last(states).drains
    ensures GoesOn(states, acts, longer, more) && d in Last(longer).drains && Last(longer).drains[d].None?
    decreases Pending(Last(states))
  {
    hide Run, Next, Enabled, Inv, Pending;
    Sound(states, acts);
    longer, more := states, acts;
    if Last(states).drains[d].Some? {
      if Last(states).operations + Last(states).runs == {} {
        DrainMayReturn(Last(states), d);
        longer, more := OneMore(states, acts, states, acts, Return(d));
        ReturnReturns(Last(states), d);
      } else {
        var act := SomethingEnds(Last(states));
        var next, ended := OneMore(states, acts, states, acts, act);
        longer, more := DrainsReturn(next, ended, d);
        Onward(states, acts, next, ended, longer, more);
      }
    }
  }

  lemma DrainMayReturn(s: System, d: nat)
    requires Inv(s) && d in s.drains && s.drains[d].Some? && s.operations + s.runs == {}
    ensures Enabled(s, Return(d))
  {
    assert s.operations == {} && s.runs == {};
  }

  lemma ReturnReturns(s: System, d: nat)
    requires Enabled(s, Return(d))
    ensures d in Next(s, Return(d)).drains && Next(s, Return(d)).drains[d].None?
  {
  }
}
