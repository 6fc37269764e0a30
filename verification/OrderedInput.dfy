/**
 The per-frame cursor over ordered input edges. Several drains may run in one frame; each dispatches
 edges from where the last one stopped, until something older has to go first.
 */
module OrderedInput {
  import opened Wrappers

  datatype Action = Attack | Use | PickItem | Other(code: nat)

  type Buttons = set<Action>

  // `buttons` is what is held once this transition has been applied.
  datatype Edge = Edge(action: Action, pressed: bool, buttons: Buttons)

  // A frame's batch; one that lost input has no edges left.
  datatype Frame = Frame(authority: nat, sequence: nat, initial: Buttons, edges: seq<Edge>, overflowed: bool, neutral: bool, released: bool)

  datatype Place = Place(session: nat, position: nat, dimension: int)

  datatype Scope = Scope(place: Place, authority: nat)

  datatype Phase = BeforeMovement | AfterMovement

  // What the world answers when an edge comes up: older work done, an older selection announced.
  datatype Gate = Gate(accepts: bool, announced: bool)

  datatype Drain = Drain(phase: Phase, frame: Option<Frame>, place: Place, active: bool, stopReady: bool, gates: seq<Gate>)

  datatype Runtime = Runtime(frame: Option<(Scope, nat)>, quarantined: bool, ingested: nat)

  const DEFAULT := Runtime(None, false, 0)

  predicate WellFormed(d: Drain) {
    d.frame.Some? ==> |d.gates| == |d.frame.value.edges| && (d.frame.value.overflowed ==> d.frame.value.edges == [])
  }

  // A hand edge captures the selected stack, so a pending selection goes first.
  predicate AnnouncesSelection(e: Edge) {
    e.action.Use? || (e.pressed && (e.action.Attack? || e.action.PickItem?))
  }

  predicate Blocked(phase: Phase, e: Edge, g: Gate) {
    !g.accepts || (phase.BeforeMovement? && e.action.PickItem? && e.pressed) || (AnnouncesSelection(e) && !g.announced)
  }

  function Identity(d: Drain): (Scope, nat)
    requires d.frame.Some?
  {
    (Scope(d.place, d.frame.value.authority), d.frame.value.sequence)
  }

  // The runtime once the drain has claimed its frame and read its quarantine.
  function Observed(runtime: Option<Runtime>, d: Drain): Runtime
    requires d.frame.Some?
  {
    var r := if runtime.Some? then runtime.value else DEFAULT;
    var f := d.frame.value;
    Runtime(Some(Identity(d)), f.overflowed || (r.quarantined && !f.neutral), if r.frame == Some(Identity(d)) then r.ingested else 0)
  }

  predicate Suspended(r: Runtime, d: Drain)
    requires d.frame.Some?
  {
    !d.active || d.frame.value.released || r.quarantined
  }

  // The first blocked edge at or after `k`.
  function Stop(d: Drain, k: nat): (n: nat)
    requires WellFormed(d) && d.frame.Some? && k <= |d.frame.value.edges|
    ensures k <= n <= |d.frame.value.edges|
    ensures forall j :: k <= j < n ==> !Blocked(d.phase, d.frame.value.edges[j], d.gates[j])
    ensures n < |d.frame.value.edges| ==> Blocked(d.phase, d.frame.value.edges[n], d.gates[n])
    decreases |d.frame.value.edges| - k
  {
    if k == |d.frame.value.edges| || Blocked(d.phase, d.frame.value.edges[k], d.gates[k]) then k else Stop(d, k + 1)
  }

  // Where the cursor starts and how far this drain dispatches.
  function Span(runtime: Option<Runtime>, d: Drain): (span: (nat, nat))
    requires WellFormed(d) && d.frame.Some?
    ensures span.0 <= span.1 && (span.0 < span.1 ==> span.1 <= |d.frame.value.edges|)
  {
    var r := Observed(runtime, d);
    var start := r.ingested;
    if Suspended(r, d) || !d.stopReady || |d.frame.value.edges| <= start then (start, start) else (start, Stop(d, start))
  }

  function Dispatched(runtime: Option<Runtime>, d: Drain): (edges: seq<Edge>)
    requires WellFormed(d)
  {
    if d.frame.None? then []
    else
      var span := Span(runtime, d);
      if span.0 == span.1 then [] else d.frame.value.edges[span.0..span.1]
  }

  predicate Expires(r: Runtime, d: Drain)
    requires d.frame.Some?
  {
    d.phase.AfterMovement? || Suspended(r, d)
  }

  function After(runtime: Option<Runtime>, d: Drain): Option<Runtime>
    requires WellFormed(d)
  {
    if d.frame.None? then None
    else
      var r := Observed(runtime, d);
      Some(r.(ingested := if Expires(r, d) then |d.frame.value.edges| else Span(runtime, d).1))
  }

  class Interactions {
    var runtime: Option<Runtime>

    constructor ()
      ensures runtime.None?
    {
      runtime := None;
    }

    // Takes edges from `start` on until one has to wait.
    method Admit(d: Drain, start: nat) returns (next: nat)
      requires WellFormed(d) && d.frame.Some? && start <= |d.frame.value.edges|
      ensures next == Stop(d, start)
    {
      next := start;
      while next < |d.frame.value.edges|
        invariant start <= next <= |d.frame.value.edges| && Stop(d, start) == Stop(d, next)
      {
        var edge, gate := d.frame.value.edges[next], d.gates[next];
        if !gate.accepts {
          return;
        }
        if d.phase.BeforeMovement? && edge.action.PickItem? && edge.pressed {
          return;
        }
        if AnnouncesSelection(edge) && !gate.announced {
          return;
        }
        next := next + 1;
      }
    }

    method Drain(d: Drain) returns (dispatched: seq<Edge>)
      requires WellFormed(d)
      modifies this
      ensures runtime == After(old(runtime), d)
      ensures dispatched == Dispatched(old(runtime), d)
    {
      dispatched := [];
      if d.frame.None? {
        runtime := None;
        return;
      }
      var f := d.frame.value;
      var r := if runtime.Some? then runtime.value else DEFAULT;
      var identity := (Scope(d.place, f.authority), f.sequence);
      if r.frame != Some(identity) {
        r := r.(frame := Some(identity), ingested := 0);
      }
      if f.overflowed {
        r := r.(quarantined := true);
      } else if f.neutral {
        r := r.(quarantined := false);
      }
      var start := r.ingested;
      if d.active && !f.released && !r.quarantined && d.stopReady && start < |f.edges| {
        var next := Admit(d, start);
        dispatched := f.edges[start..next];
        r := r.(ingested := next);
      }
      if d.phase.AfterMovement? || !d.active || f.released || r.quarantined {
        r := r.(ingested := |f.edges|);
      }
      runtime := Some(r);
    }
  }

  // ---- One drain, said of the frame's own fields ----

  // An edge waits for older work, for movement if it picks an item, and for a pending selection if it captures
  // the selected stack: a press of the hand or the picking key, and every use, pressed or released.
  predicate Waits(phase: Phase, e: Edge, g: Gate) {
    || !g.accepts
    || (phase == BeforeMovement && e.action == PickItem && e.pressed)
    || (!g.announced && (e.action == Use || (e.pressed && e.action in {Attack, PickItem})))
  }

  // A drain goes on where the last one of its frame and scope stopped, or at the front. While the player is
  // active, nothing was released and no input was lost since the last neutral sample, and the older stop is
  // done, it dispatches up to the first edge that waits. Past movement, or when it may not, the frame is over.
  lemma DrainedExactly(runtime: Option<Runtime>, d: Drain)
    requires WellFormed(d)
    ensures d.frame.None? ==> After(runtime, d).None? && Dispatched(runtime, d) == []
    ensures d.frame.Some? ==>
              var f, r, out := d.frame.value, After(runtime, d), Dispatched(runtime, d);
              var identity := (Scope(d.place, f.authority), f.sequence);
              var start := if runtime.Some? && runtime.value.frame == Some(identity) then runtime.value.ingested else 0;
              var lost := f.overflowed || (runtime.Some? && runtime.value.quarantined && !f.neutral);
              var may := d.active && !f.released && !lost;
              && r.Some? && r.value.frame == Some(identity) && r.value.quarantined == lost
              && r.value.ingested == (if d.phase == AfterMovement || !may then |f.edges| else start + |out|)
              && (!may || !d.stopReady || |f.edges| <= start ==> out == [])
              && (may && d.stopReady && start < |f.edges| ==>
                    && start + |out| <= |f.edges| && out == f.edges[start..start + |out|]
                    && (forall j :: start <= j < start + |out| ==> !Waits(d.phase, f.edges[j], d.gates[j]))
                    && (start + |out| < |f.edges| ==> Waits(d.phase, f.edges[start + |out|], d.gates[start + |out|])))
  {
    assert forall e, g :: Waits(d.phase, e, g) == Blocked(d.phase, e, g);
  }

  // ---- Runs of drains ----

  predicate Drained(runtimes: seq<Option<Runtime>>, drains: seq<Drain>, i: nat)
    requires i < |drains| < |runtimes|
  {
    WellFormed(drains[i]) && runtimes[i + 1] == After(runtimes[i], drains[i])
  }

  ghost predicate Run(runtimes: seq<Option<Runtime>>, drains: seq<Drain>) {
    && |runtimes| == |drains| + 1 && runtimes[0].None?
    && forall i {:trigger Drained(runtimes, drains, i)} :: 0 <= i < |drains| ==> Drained(runtimes, drains, i)
  }

  // Drains a up to b all see one frame, under one scope.
  predicate OneFrame(drains: seq<Drain>, a: nat, b: nat) {
    && a < b <= |drains| && drains[a].frame.Some?
    && forall i :: a <= i < b ==> drains[i].frame == drains[a].frame && drains[i].place == drains[a].place
  }

  // The first of them is the first to see the frame.
  predicate NewAt(runtimes: seq<Option<Runtime>>, drains: seq<Drain>, a: nat)
    requires a < |drains| <= |runtimes| && drains[a].frame.Some?
  {
    runtimes[a].None? || runtimes[a].value.frame != Some(Identity(drains[a]))
  }

  // Everything dispatched by drains a up to b, in order.
  ghost function Total(runtimes: seq<Option<Runtime>>, drains: seq<Drain>, a: nat, b: nat): seq<Edge>
    requires Run(runtimes, drains) && a <= b <= |drains|
    decreases b - a
  {
    if a == b then []
    else
      assert Drained(runtimes, drains, b - 1);
      Total(runtimes, drains, a, b - 1) + Dispatched(runtimes[b - 1], drains[b - 1])
  }

  function Edges(drains: seq<Drain>, a: nat): seq<Edge>
    requires a < |drains| && drains[a].frame.Some?
  {
    drains[a].frame.value.edges
  }

  // The cursor a drain of this frame starts from.
  function Cursor(runtime: Option<Runtime>, d: Drain): nat
    requires d.frame.Some?
  {
    if runtime.Some? && runtime.value.frame == Some(Identity(d)) then runtime.value.ingested else 0
  }

  // One drain continues where the previous one stopped.
  lemma OneDrain(runtime: Option<Runtime>, d: Drain, done: seq<Edge>)
    requires WellFormed(d) && d.frame.Some? && done <= d.frame.value.edges
    requires Cursor(runtime, d) == |done| || Cursor(runtime, d) == |d.frame.value.edges|
    ensures done + Dispatched(runtime, d) <= d.frame.value.edges
    ensures var r := After(runtime, d).value;
            && r.frame == Some(Identity(d))
            && (r.ingested == |done + Dispatched(runtime, d)| || r.ingested == |d.frame.value.edges|)
            && (!Expires(Observed(runtime, d), d) ==>
                  !r.quarantined && (Cursor(runtime, d) == |done| ==> r.ingested == |done + Dispatched(runtime, d)|))
  {
    assert Cursor(runtime, d) == Observed(runtime, d).ingested;
  }

  // The last drain of a stretch of one frame.
  lemma LastDrain(runtimes: seq<Option<Runtime>>, drains: seq<Drain>, a: nat, b: nat)
    requires Run(runtimes, drains) && OneFrame(drains, a, b)
    ensures WellFormed(drains[b - 1]) && runtimes[b] == After(runtimes[b - 1], drains[b - 1])
    ensures drains[b - 1].frame == drains[a].frame && Identity(drains[b - 1]) == Identity(drains[a])
    ensures Total(runtimes, drains, a, b) == Total(runtimes, drains, a, b - 1) + Dispatched(runtimes[b - 1], drains[b - 1])
    ensures Total(runtimes, drains, a, a) == [] && runtimes[b].Some?
  {
    assert Drained(runtimes, drains, b - 1);
  }

  // What a frame has come to after some of its drains.
  ghost predicate Consumed(runtimes: seq<Option<Runtime>>, drains: seq<Drain>, a: nat, b: nat)
    requires Run(runtimes, drains) && OneFrame(drains, a, b)
  {
    && Total(runtimes, drains, a, b) <= Edges(drains, a)
    && runtimes[b].Some? && runtimes[b].value.frame == Some(Identity(drains[a]))
    && (runtimes[b].value.ingested == |Total(runtimes, drains, a, b)| || runtimes[b].value.ingested == |Edges(drains, a)|)
  }

  // However many drains run in a frame, together they dispatch a prefix of its edges, in order, each once.
  lemma {:induction false} FrameDispatchesPrefix(runtimes: seq<Option<Runtime>>, drains: seq<Drain>, a: nat, b: nat)
    requires Run(runtimes, drains) && OneFrame(drains, a, b) && NewAt(runtimes, drains, a)
    ensures Consumed(runtimes, drains, a, b)
    decreases b
  {
    hide Dispatched, After, Observed, Expires;
    LastDrain(runtimes, drains, a, b);
    if b == a + 1 {
      OneDrain(runtimes[a], drains[a], []);
    } else {
      FrameDispatchesPrefix(runtimes, drains, a, b - 1);
      OneDrain(runtimes[b - 1], drains[b - 1], Total(runtimes, drains, a, b - 1));
    }
  }

  lemma SpentDrain(runtime: Option<Runtime>, d: Drain)
    requires WellFormed(d) && d.frame.Some?
    ensures After(runtime, d).value.frame == Some(Identity(d))
    ensures Expires(Observed(runtime, d), d) ==> After(runtime, d).value.ingested == |d.frame.value.edges|
    ensures Cursor(runtime, d) == |d.frame.value.edges| ==>
              Dispatched(runtime, d) == [] && After(runtime, d).value.ingested == |d.frame.value.edges|
  {
    assert Cursor(runtime, d) == Observed(runtime, d).ingested;
  }

  // After a drain past movement, or one that was suspended, the rest of the frame dispatches nothing more.
  lemma {:induction false} NothingAfterExpiry(runtimes: seq<Option<Runtime>>, drains: seq<Drain>, a: nat, k: nat, b: nat)
    requires Run(runtimes, drains) && OneFrame(drains, a, b) && a <= k < b
    requires drains[k].frame.Some? && Expires(Observed(runtimes[k], drains[k]), drains[k])
    ensures Total(runtimes, drains, k + 1, b) == []
    ensures runtimes[b].Some? && runtimes[b].value.ingested == |Edges(drains, a)|
    ensures runtimes[b].value.frame == Some(Identity(drains[a]))
    decreases b
  {
    hide Dispatched, After, Observed, Expires;
    LastDrain(runtimes, drains, a, b);
    SpentDrain(runtimes[b - 1], drains[b - 1]);
    if b > k + 1 {
      NothingAfterExpiry(runtimes, drains, a, k, b - 1);
      assert Total(runtimes, drains, k + 1, b) == Total(runtimes, drains, k + 1, b - 1) + Dispatched(runtimes[b - 1], drains[b - 1]);
    } else {
      assert Total(runtimes, drains, k + 1, b) == [];
    }
  }

  // An edge goes out only from an active, unreleased, unquarantined drain of its own frame, with nothing before it blocked.
  lemma DispatchNeedsAuthority(runtimes: seq<Option<Runtime>>, drains: seq<Drain>, i: nat)
    requires Run(runtimes, drains) && i < |drains| && WellFormed(drains[i]) && Dispatched(runtimes[i], drains[i]) != []
    ensures var d := drains[i];
            && d.frame.Some? && d.active && d.stopReady && !d.frame.value.released && !d.frame.value.overflowed
            && runtimes[i + 1].Some? && !runtimes[i + 1].value.quarantined
            && forall e :: e in Dispatched(runtimes[i], d) ==> e in d.frame.value.edges
  {
    assert Drained(runtimes, drains, i);
  }

  // A drain that may dispatch leaves an edge behind only when that edge is blocked.
  lemma StopsOnlyAtBlocked(runtime: Option<Runtime>, d: Drain)
    requires WellFormed(d) && d.frame.Some? && d.stopReady && !Suspended(Observed(runtime, d), d)
    requires Observed(runtime, d).ingested <= |d.frame.value.edges|
    ensures var edges, next := d.frame.value.edges, Observed(runtime, d).ingested + |Dispatched(runtime, d)|;
            next == |edges| || Blocked(d.phase, edges[next], d.gates[next])
  {
  }

  // ---- What is held at the cursor ----

  function ButtonsAfter(initial: Buttons, edges: seq<Edge>): Buttons {
    if edges == [] then initial else edges[|edges| - 1].buttons
  }

  function HeldAt(f: Frame, consumed: nat): Buttons {
    ButtonsAfter(f.initial, f.edges[..if consumed < |f.edges| then consumed else |f.edges|])
  }

  predicate Held(runtime: Runtime, f: Frame, action: Action) {
    !runtime.quarantined && action in HeldAt(f, runtime.ingested)
  }

  // A drain that does not expire the frame leaves the cursor right behind what has been dispatched.
  lemma UnexpiredDrain(runtime: Option<Runtime>, d: Drain, done: seq<Edge>)
    requires WellFormed(d) && d.frame.Some? && done <= d.frame.value.edges && Cursor(runtime, d) == |done|
    requires !Expires(Observed(runtime, d), d)
    ensures var r := After(runtime, d).value; r.ingested == |done + Dispatched(runtime, d)| && !r.quarantined
  {
    OneDrain(runtime, d, done);
  }

  predicate Unexpired(runtimes: seq<Option<Runtime>>, drains: seq<Drain>, k: nat) {
    k < |runtimes| && k < |drains| && drains[k].frame.Some? && !Expires(Observed(runtimes[k], drains[k]), drains[k])
  }

  lemma {:induction false} CursorCountsDispatch(runtimes: seq<Option<Runtime>>, drains: seq<Drain>, a: nat, b: nat)
    requires Run(runtimes, drains) && OneFrame(drains, a, b) && NewAt(runtimes, drains, a)
    requires forall k :: a <= k < b ==> Unexpired(runtimes, drains, k)
    ensures Consumed(runtimes, drains, a, b)
    ensures runtimes[b].value.ingested == |Total(runtimes, drains, a, b)| && !runtimes[b].value.quarantined
    decreases b
  {
    hide Dispatched, After, Observed, Expires;
    LastDrain(runtimes, drains, a, b);
    FrameDispatchesPrefix(runtimes, drains, a, b);
    var done := Total(runtimes, drains, a, b - 1);
    if b > a + 1 {
      CursorCountsDispatch(runtimes, drains, a, b - 1);
    }
    assert Unexpired(runtimes, drains, b - 1);
    UnexpiredDrain(runtimes[b - 1], drains[b - 1], done);
  }

  // Until a drain expires the frame, what reads as held is exactly what the dispatched edges left held.
  lemma HeldFollowsDispatch(runtimes: seq<Option<Runtime>>, drains: seq<Drain>, a: nat, b: nat, action: Action)
    requires Run(runtimes, drains) && OneFrame(drains, a, b) && NewAt(runtimes, drains, a)
    requires forall k :: a <= k < b ==> Unexpired(runtimes, drains, k)
    ensures runtimes[b].Some? && runtimes[b].value.ingested == |Total(runtimes, drains, a, b)| <= |Edges(drains, a)|
    ensures Held(runtimes[b].value, drains[a].frame.value, action) <==>
            action in ButtonsAfter(drains[a].frame.value.initial, Total(runtimes, drains, a, b))
  {
    CursorCountsDispatch(runtimes, drains, a, b);
    FrameDispatchesPrefix(runtimes, drains, a, b);
    var f, total := drains[a].frame.value, Total(runtimes, drains, a, b);
    assert f.edges[..|total|] == total;
  }

  // What reads as held: nothing while input is lost, else what the last edge behind the cursor left held, or
  // what the frame began with.
  lemma HeldExactly(runtime: Runtime, f: Frame, action: Action)
    ensures var n := if runtime.ingested < |f.edges| then runtime.ingested else |f.edges|;
            Held(runtime, f, action) <==> !runtime.quarantined && action in if n == 0 then f.initial else f.edges[n - 1].buttons
  {
  }

  // ---- Quarantine, and where the once-only claim ends ----

  // A quarantine ends exactly at a complete neutral sample, or when ordered input goes away altogether.
  lemma QuarantineEndsExactlyWhen(runtime: Runtime, d: Drain)
    requires WellFormed(d) && runtime.quarantined
    ensures (After(Some(runtime), d).Some? && After(Some(runtime), d).value.quarantined) <==>
            d.frame.Some? && (d.frame.value.overflowed || !d.frame.value.neutral)
  {
  }

  // Nothing leaves a drain that starts quarantined, or that learns input was lost.
  lemma QuarantinedDrain(runtime: Option<Runtime>, d: Drain)
    requires WellFormed(d) && d.frame.Some?
    requires d.frame.value.overflowed || (runtime.Some? && runtime.value.quarantined && !d.frame.value.neutral)
    ensures Dispatched(runtime, d) == [] && After(runtime, d).Some? && After(runtime, d).value.quarantined
  {
  }

  lemma {:induction false} QuarantineHolds(runtimes: seq<Option<Runtime>>, drains: seq<Drain>, i: nat, j: nat)
    requires Run(runtimes, drains) && i < j <= |drains| && drains[i].frame.Some? && drains[i].frame.value.overflowed
    requires forall k :: i < k < j ==> drains[k].frame.Some? && (drains[k].frame.value.overflowed || !drains[k].frame.value.neutral)
    ensures Total(runtimes, drains, i, j) == [] && runtimes[j].Some? && runtimes[j].value.quarantined
    decreases j
  {
    hide Dispatched, After, Observed;
    assert Drained(runtimes, drains, j - 1);
    if j > i + 1 {
      QuarantineHolds(runtimes, drains, i, j - 1);
    }
    QuarantinedDrain(runtimes[j - 1], drains[j - 1]);
    assert Total(runtimes, drains, i, i) == [];
  }

  // A second drain of a frame whose first edge already went out sends it again exactly when the place
  // changed in between (a new session, position or dimension) and the drain may dispatch that edge.
  lemma ReplaysExactlyWhen(runtime: Option<Runtime>, first: Drain, second: Drain)
    requires WellFormed(first) && WellFormed(second) && first.frame.Some? && second.frame == first.frame
    requires Observed(runtime, first).ingested == 0 && Dispatched(runtime, first) != []
    ensures (Span(After(runtime, first), second).0 == 0 && Dispatched(After(runtime, first), second) != []) <==>
            && second.place != first.place
            && second.active && second.stopReady
            && !Blocked(second.phase, second.frame.value.edges[0], second.gates[0])
  {
  }
}
