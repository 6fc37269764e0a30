/**
 Matching server answers to waiting lookups. A lookup waits on its own channel, which holds one reply;
 the reader claims a channel by its id, and the end of the session releases whoever is still registered.
 */
module Replies {
  import opened Wrappers

  const IDS := 0x1_0000_0000 // identifiers are 32-bit and wrap

  datatype Reply = Answered(id: nat, result: nat) | Released

  // `channel` numbers stand for reply channels; `next` counts lookups ever registered.
  datatype Table = Table(pending: map<nat, nat>, next: nat, live: bool)

  function IdOf(n: nat): nat {
    n % IDS
  }

  // The channel of the n-th lookup is n itself. A session that has ended registers nobody.
  function Register(t: Table): Table {
    if !t.live then t else t.(pending := t.pending[IdOf(t.next) := t.next], next := t.next + 1)
  }

  function Claim(t: Table, id: nat): (Table, Option<nat>) {
    (t.(pending := t.pending - {id}), if id in t.pending then Some(t.pending[id]) else None)
  }

  function Forget(t: Table, id: nat): Table {
    t.(pending := t.pending - {id})
  }

  // The ids among `ids` under which channel `c` is registered.
  function Naming(pending: map<nat, nat>, ids: set<nat>, c: nat): set<nat> {
    set id | id in ids && id in pending && pending[id] == c
  }

  class PendingTable {
    var pending: map<nat, nat>
    var next: nat
    var live: bool

    function View(): Table
      reads this
    {
      Table(pending, next, live)
    }

    constructor ()
      ensures View() == Table(map[], 0, true)
    {
      pending, next, live := map[], 0, true;
    }

    method RegisterLocked() returns (channel: Option<nat>)
      modifies `pending, `next
      ensures View() == Register(old(View()))
      ensures channel == if live then Some(old(next)) else None
    {
      if !live {
        return None;
      }
      channel := Some(next);
      pending, next := pending[next % IDS := next], next + 1;
    }

    method ClaimLocked(id: nat) returns (channel: Option<nat>)
      modifies `pending
      ensures View() == Claim(old(View()), id).0 && channel == Claim(old(View()), id).1
    {
      channel := if id in pending then Some(pending[id]) else None;
      pending := pending - {id};
    }

    // Sends one release to every channel still registered; `sent` counts what each received.
    method EndSession() returns (sent: multiset<nat>)
      requires live
      modifies `live
      ensures View() == old(View()).(live := false)
      ensures forall c: nat :: sent[c] == |Naming(pending, pending.Keys, c)|
    {
      live, sent := false, multiset{};
      var left := pending.Keys;
      while left != {}
        invariant left <= pending.Keys
        invariant forall c: nat :: sent[c] == |Naming(pending, pending.Keys - left, c)|
      {
        var id :| id in left;
        ghost var done := pending.Keys - left;
        forall c: nat ensures Naming(pending, pending.Keys - (left - {id}), c) ==
                              Naming(pending, done, c) + (if pending[id] == c then {id} else {}) {
        }
        sent := sent + multiset{pending[id]};
        left := left - {id};
      }
      assert pending.Keys - left == pending.Keys;
    }
  }

  // ---- A session's lookups, its reader and its end, in any order ----

  // `inboxes` is what each channel holds or held; `inHand` a channel the reader has claimed but not
  // sent to yet; `waiting` the lookups that have not returned.
  datatype System = System(table: Table, inboxes: map<nat, seq<Reply>>, inHand: Option<(nat, Reply)>, waiting: set<nat>)

  datatype Action =
    | Start
    | Receive(id: nat, result: nat)
    | Send
    | Leave(n: nat)
    | Teardown

  predicate Enabled(s: System, act: Action) {
    match act
    case Start => true
    case Receive(_, _) => s.table.live && s.inHand.None?
    case Send => s.inHand.Some?
    case Leave(n) => n in s.waiting
    case Teardown => s.table.live && s.inHand.None?
  }

  function Deliver(inboxes: map<nat, seq<Reply>>, channel: nat, reply: Reply): map<nat, seq<Reply>> {
    inboxes[channel := (if channel in inboxes then inboxes[channel] else []) + [reply]]
  }

  function Next(s: System, act: Action): System
    requires Enabled(s, act)
  {
    match act
    case Start =>
      if !s.table.live then s
      else s.(table := Register(s.table), inboxes := s.inboxes[s.table.next := []], waiting := s.waiting + {s.table.next})
    case Receive(id, result) =>
      var (t, channel) := Claim(s.table, id);
      s.(table := t, inHand := if channel.Some? then Some((channel.value, Answered(id, result))) else None)
    case Send => s.(inboxes := Deliver(s.inboxes, s.inHand.value.0, s.inHand.value.1), inHand := None)
    case Leave(n) => s.(table := Forget(s.table, IdOf(n)), waiting := s.waiting - {n})
    case Teardown =>
      s.(table := s.table.(live := false),
         inboxes := map c | c in s.inboxes ::
                      if exists id :: id in s.table.pending && s.table.pending[id] == c then s.inboxes[c] + [Released] else s.inboxes[c])
  }

  predicate Registered(s: System, n: nat) {
    IdOf(n) in s.table.pending && s.table.pending[IdOf(n)] == n
  }

  // Nothing is there for this lookup, and nothing ever will be.
  predicate Stranded(s: System, n: nat) {
    && n in s.waiting && !Registered(s, n)
    && (n in s.inboxes ==> s.inboxes[n] == []) && (s.inHand.Some? ==> s.inHand.value.0 != n)
  }

  // What a lookup must find when it starts: no lookup that has not returned has the identifier it will get.
  predicate Unshared(s: System) {
    s.table.live ==> forall n :: n in s.waiting ==> IdOf(n) != IdOf(s.table.next)
  }

  // Registered channels are empty while the session lives, and named by their own lookup's id.
  ghost predicate TableGood(s: System) {
    && (forall c :: c in s.inboxes <==> 0 <= c < s.table.next)
    && (forall n :: n in s.waiting ==> n in s.inboxes)
    && (forall id :: id in s.table.pending ==> IdOf(s.table.pending[id]) == id && s.table.pending[id] in s.waiting)
    && (s.table.live ==> forall id :: id in s.table.pending ==> s.inboxes[s.table.pending[id]] == [])
    && (forall n, m :: n in s.waiting && m in s.waiting && IdOf(n) == IdOf(m) ==> n == m)
  }

  ghost predicate RepliesGood(s: System) {
    && (forall c :: c in s.inboxes ==> |s.inboxes[c]| <= 1)
    && (forall c :: c in s.inboxes && s.inboxes[c] != [] && s.inboxes[c][0].Answered? ==>
          s.inboxes[c][0].id == IdOf(c) && !Registered(s, c))
    && (s.inHand.Some? ==>
          var (c, r) := s.inHand.value;
          c in s.inboxes && s.inboxes[c] == [] && !Registered(s, c) && r.Answered? && r.id == IdOf(c) && s.table.live)
    && (forall n :: n in s.waiting ==> !Stranded(s, n))
    && (!s.table.live ==> forall n :: n in s.waiting && n in s.inboxes ==> s.inboxes[n] != [])
  }

  ghost predicate Inv(s: System) {
    TableGood(s) && RepliesGood(s)
  }

  lemma StartKeeps(s: System)
    requires Inv(s) && Unshared(s)
    ensures Inv(Next(s, Start))
  {
  }

  lemma ReceiveKeeps(s: System, id: nat, result: nat)
    requires Inv(s) && Enabled(s, Receive(id, result))
    ensures Inv(Next(s, Receive(id, result)))
  {
  }

  lemma LeaveKeeps(s: System, n: nat)
    requires Inv(s) && Enabled(s, Leave(n))
    ensures Inv(Next(s, Leave(n)))
  {
  }

  lemma TeardownKeeps(s: System)
    requires Inv(s) && Enabled(s, Teardown)
    ensures Inv(Next(s, Teardown))
  {
    var s' := Next(s, Teardown);
    forall n | n in s.waiting ensures s'.inboxes[n] != [] {
      if s.inboxes[n] == [] {
        assert !Stranded(s, n);
        assert s.table.pending[IdOf(n)] == n;
      }
    }
  }

  lemma StepKeeps(s: System, act: Action)
    requires Inv(s) && Enabled(s, act) && (act.Start? ==> Unshared(s))
    ensures Inv(Next(s, act))
  {
    match act
    case Start => StartKeeps(s);
    case Receive(id, result) => ReceiveKeeps(s, id, result);
    case Leave(n) => LeaveKeeps(s, n);
    case Teardown => TeardownKeeps(s);
    case Send =>
  }

  ghost predicate Run(states: seq<System>, acts: seq<Action>) {
    && |states| == |acts| + 1 && states[0] == System(Table(map[], 0, true), map[], None, {})
    && forall i :: 0 <= i < |acts| ==>
         && Enabled(states[i], acts[i]) && states[i + 1] == Next(states[i], acts[i])
         && (acts[i].Start? ==> Unshared(states[i]))
  }

  lemma {:induction false} RunKeepsInvariant(states: seq<System>, acts: seq<Action>, i: nat)
    requires Run(states, acts) && i < |states|
    ensures Inv(states[i])
    decreases i
  {
    if i > 0 {
      RunKeepsInvariant(states, acts, i - 1);
      StepKeeps(states[i - 1], acts[i - 1]);
    }
  }

  // A lookup never sees more than one reply, and never one meant for another lookup.
  lemma AtMostOneOwnReply(states: seq<System>, acts: seq<Action>, i: nat, n: nat)
    requires Run(states, acts) && i < |states| && n in states[i].inboxes
    ensures |states[i].inboxes[n]| <= 1
    ensures states[i].inboxes[n] != [] && states[i].inboxes[n][0].Answered? ==> states[i].inboxes[n][0].id == IdOf(n)
  {
    RunKeepsInvariant(states, acts, i);
  }

  // Every send, by the reader or by the teardown, finds its one-reply channel empty, and the teardown
  // sends to each channel once.
  lemma SendsNeverBlock(states: seq<System>, acts: seq<Action>, i: nat)
    requires Run(states, acts) && i < |acts|
    ensures acts[i].Send? ==> states[i].inHand.value.0 in states[i].inboxes && states[i].inboxes[states[i].inHand.value.0] == []
    ensures acts[i].Teardown? ==>
              forall id :: id in states[i].table.pending ==>
                states[i].table.pending[id] in states[i].inboxes && states[i].inboxes[states[i].table.pending[id]] == []
    ensures acts[i].Teardown? ==>
              (forall a, b :: a in states[i].table.pending && b in states[i].table.pending && a != b ==>
                 states[i].table.pending[a] != states[i].table.pending[b])
  {
    RunKeepsInvariant(states, acts, i);
  }

  // Once the session has ended every lookup still waiting has a reply to return with.
  lemma TeardownReleasesEveryone(states: seq<System>, acts: seq<Action>, i: nat, n: nat)
    requires Run(states, acts) && i < |states| && !states[i].table.live && n in states[i].waiting
    ensures n in states[i].inboxes && |states[i].inboxes[n]| == 1
  {
    RunKeepsInvariant(states, acts, i);
  }

  // ---- Where identifiers wrap ----

  lemma FewLookupsNeverShare(s: System)
    requires Inv(s) && s.table.next < IDS
    ensures Unshared(s)
  {
  }

  // Whatever happens in a session, with no condition on what a lookup finds when it starts.
  ghost predicate Session(states: seq<System>, acts: seq<Action>) {
    && |states| == |acts| + 1 && states[0] == System(Table(map[], 0, true), map[], None, {})
    && forall i :: 0 <= i < |acts| ==> Enabled(states[i], acts[i]) && states[i + 1] == Next(states[i], acts[i])
  }

  function Starts(acts: seq<Action>): nat
    decreases |acts|
  {
    if acts == [] then 0 else Starts(acts[..|acts| - 1]) + if acts[|acts| - 1].Start? then 1 else 0
  }

  lemma CountsStarts(s: System, act: Action)
    requires Enabled(s, act)
    ensures Next(s, act).table.next <= s.table.next + if act.Start? then 1 else 0
  {
  }

  // A session with at most 2^32 lookups needs no such condition.
  lemma {:induction false} FewLookupsAreRuns(states: seq<System>, acts: seq<Action>)
    requires Session(states, acts) && Starts(acts) <= IDS
    ensures Run(states, acts) && states[|acts|].table.next <= Starts(acts)
    decreases |acts|
  {
    hide Inv, Next, Enabled, Unshared;
    if acts != [] {
      var n := |acts| - 1;
      FewLookupsAreRuns(states[..n + 1], acts[..n]);
      RunKeepsInvariant(states[..n + 1], acts[..n], n);
      CountsStarts(states[n], acts[n]);
      if acts[n].Start? { FewLookupsNeverShare(states[n]); }
      forall i | 0 <= i < n ensures acts[i].Start? ==> Unshared(states[i]) {
        assert acts[..n][i] == acts[i] && states[..n + 1][i] == states[i];
      }
    }
  }

  // A registration takes over another lookup's channel exactly when the session lives and its identifier is pending.
  lemma WrappedIdDisplaces(t: Table)
    requires forall id :: id in t.pending ==> t.pending[id] < t.next
    ensures (exists id :: id in t.pending && (id !in Register(t).pending || Register(t).pending[id] != t.pending[id])) <==>
            t.live && IdOf(t.next) in t.pending
  {
    if t.live && IdOf(t.next) in t.pending {
      assert Register(t).pending[IdOf(t.next)] == t.next != t.pending[IdOf(t.next)];
    }
  }

  // Starting a lookup while an earlier one with its identifier has not returned strands one of the two: the
  // earlier one at once if it is still registered, otherwise the new one as soon as the earlier one returns.
  lemma SharedIdStrands(s: System, n: nat)
    requires Inv(s) && s.table.live && n in s.waiting && IdOf(n) == IdOf(s.table.next)
    ensures var s1 := Next(s, Start);
            && Enabled(s1, Leave(n))
            && (Registered(s, n) ==> Stranded(s1, n))
            && (!Registered(s, n) ==> Stranded(Next(s1, Leave(n)), s.table.next))
  {
  }

  // A lookup may start safely, then, exactly when no lookup under way shares its identifier.
  lemma StartStrandsExactlyWhenShared(s: System)
    requires Inv(s)
    ensures Unshared(s) <==>
            var s1 := Next(s, Start);
            && (forall m :: m in s1.waiting ==> !Stranded(s1, m))
            && (forall n, m :: n in s.waiting && m in Next(s1, Leave(n)).waiting ==> !Stranded(Next(s1, Leave(n)), m))
  {
    var s1 := Next(s, Start);
    if Unshared(s) {
      StartKeeps(s);
      forall n | n in s.waiting ensures Inv(Next(s1, Leave(n))) {
        LeaveKeeps(s1, n);
      }
    } else {
      var n :| n in s.waiting && IdOf(n) == IdOf(s.table.next);
      SharedIdStrands(s, n);
      assert n in s1.waiting && s.table.next in Next(s1, Leave(n)).waiting;
    }
  }
}
