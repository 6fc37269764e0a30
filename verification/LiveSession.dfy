/**
 What one reconnecting client announces: its visibility and its equipped loadout. Callers change the
 configuration and the selection at any time and leave a token in a channel of capacity one; the
 session's writer takes the tokens and sends the newest value it finds.
 */
module LiveSession {
  import opened Limits
  import opened Wrappers

  // `identity` stands for the version, build and channel a hello carries.
  datatype Config = Config(identity: nat, visible: bool)

  type Slots = seq<nat>

  // `captured` is the configuration the connection was opened with.
  datatype Context = Context(captured: Config, cancelled: bool)

  datatype Session = Session(visible: bool, dirty: bool, sent: bool, slots: Slots, revision: nat, loadoutDirty: bool)

  datatype Core = Core(config: Config, configured: bool, wake: bool, revision: nat, context: Option<Context>, live: Option<Session>)

  // ---- The steps that run under the client's lock ----

  function Configured(c: Core, config: Config): Core {
    if c.configured && c.config == config then c
    else
      var next := c.(config := config, configured := true);
      if !c.configured then next.(wake := true)
      else if c.config.identity != config.identity then
        if c.context.Some? then next.(context := Some(c.context.value.(cancelled := true))) else next
      else if c.live.Some? then next.(live := Some(c.live.value.(dirty := true)))
      else next
  }

  // The welcome raises the revision counter to what the server last saw.
  function Welcome(c: Core, revision: nat): Core {
    var offered := if MAX_REVISION < revision then MAX_REVISION else revision;
    c.(revision := if c.revision < offered then offered else c.revision)
  }

  function Establish(c: Core): Core
    requires c.context.Some?
  {
    var visible := c.context.value.captured.visible;
    c.(live := Some(Session(visible, c.config.visible != visible, false, [], 0, false)))
  }

  function NextRevision(c: Core, millis: int): nat {
    var wanted := if c.revision + 1 < millis then millis else c.revision + 1;
    if MAX_REVISION < wanted then MAX_REVISION else wanted
  }

  predicate Queues(c: Core, slots: Slots)
    requires c.live.Some?
  {
    var s := c.live.value;
    && (s.sent || slots != [] || s.revision != 0)
    && (!s.sent || slots != s.slots)
    && c.revision < MAX_REVISION
  }

  function QueueLoadout(c: Core, slots: Slots, millis: int): Core
    requires c.live.Some?
  {
    var s := c.live.value;
    if !s.sent && slots == [] && s.revision == 0 then c.(live := Some(s.(sent := true)))
    else if !Queues(c, slots) then c
    else
      var revision := NextRevision(c, millis);
      c.(revision := revision, live := Some(s.(revision := revision, slots := slots, sent := true, loadoutDirty := true)))
  }

  class LiveConnection {
    var visible: bool
    var dirty: bool
    var sent: bool
    var slots: Slots
    var revision: nat
    var loadoutDirty: bool

    function View(): Session
      reads this
    {
      Session(visible, dirty, sent, slots, revision, loadoutDirty)
    }

    constructor (visible: bool, dirty: bool)
      ensures View() == Session(visible, dirty, false, [], 0, false)
    {
      this.visible, this.dirty, sent, slots, revision, loadoutDirty := visible, dirty, false, [], 0, false;
    }
  }

  class Client {
    var config: Config
    var configured: bool
    var wake: bool
    var revision: nat
    var context: Option<Context>
    var live: LiveConnection?

    function View(): Core
      reads this, live
    {
      Core(config, configured, wake, revision, context, if live == null then None else Some(live.View()))
    }

    method Configure(config: Config)
      modifies this, live
      ensures View() == Configured(old(View()), config) && live == old(live)
    {
      if configured && this.config == config {
        return;
      }
      var previous, had := this.config, configured;
      this.config, configured := config, true;
      if !had {
        wake := true;
      } else if previous.identity != config.identity {
        if context.Some? {
          context := Some(context.value.(cancelled := true));
        }
      } else if live != null {
        live.dirty := true;
      }
    }

    method EstablishLocked()
      requires context.Some?
      modifies `live
      ensures View() == Establish(old(View())) && fresh(live)
    {
      live := new LiveConnection(context.value.captured.visible, config.visible != context.value.captured.visible);
    }

    method QueueLoadoutLocked(slots: Slots, millis: int)
      requires live != null
      modifies `revision, live
      ensures View() == QueueLoadout(old(View()), slots, millis) && live == old(live)
    {
      if !live.sent && slots == [] && live.revision == 0 {
        live.sent := true;
        return;
      }
      if live.sent && slots == live.slots {
        return;
      }
      if revision >= MAX_REVISION {
        return;
      }
      revision := revision + 1;
      if revision < millis {
        revision := millis;
      }
      if MAX_REVISION < revision {
        revision := MAX_REVISION;
      }
      live.revision, live.slots, live.sent := revision, slots, true;
      live.loadoutDirty := true;
    }
  }

  // A session starts with nothing announced but the visibility its connection was opened under, and with a
  // token exactly if that is no longer the configured one.
  lemma EstablishedExactly(c: Core)
    requires c.context.Some?
    ensures var live := Establish(c).live.value;
            && live.visible == c.context.value.captured.visible && (live.dirty <==> live.visible != c.config.visible)
            && !live.sent && live.slots == [] && live.revision == 0 && !live.loadoutDirty
            && Establish(c) == c.(live := Some(live))
  {
  }

  // A welcome moves the revision counter up to what the server saw, never down and never past the bound.
  lemma WelcomedExactly(c: Core, revision: nat)
    ensures var r := Welcome(c, revision);
            && r == c.(revision := r.revision) && c.revision <= r.revision && r.revision in {c.revision, revision, MAX_REVISION}
            && (revision <= MAX_REVISION ==> revision <= r.revision) && (MAX_REVISION < revision ==> MAX_REVISION <= r.revision)
            && (c.revision <= MAX_REVISION ==> r.revision <= MAX_REVISION)
            && (revision < c.revision ==> r.revision == c.revision)
  {
  }

  // What a configuration does: the first wakes the run loop, a new identity cancels whatever connection there
  // is, a new visibility leaves the session a token, and the same configuration again does nothing.
  lemma ConfiguredExactly(c: Core, config: Config)
    ensures var r := Configured(c, config);
            && r.config == (if c.configured && config == c.config then c.config else config) && r.configured
            && r.wake == (c.wake || !c.configured) && r.revision == c.revision
            && r.context.Some? == c.context.Some? && r.live.Some? == c.live.Some?
            && (c.context.Some? ==>
                  && r.context.value.captured == c.context.value.captured
                  && r.context.value.cancelled == (c.context.value.cancelled || (c.configured && config.identity != c.config.identity)))
            && (c.live.Some? ==>
                  var announces := c.configured && config.identity == c.config.identity && config.visible != c.config.visible;
                  r.live.value == c.live.value.(dirty := c.live.value.dirty || announces))
  {
  }

  // A selection is queued exactly when it differs from the one the session queued last, or the session has
  // queued none and it is not the empty selection of a player who never equipped anything; unless the counter
  // is spent.
  lemma QueuedExactlyWhen(c: Core, slots: Slots, millis: int)
    requires c.live.Some?
    ensures var s, r := c.live.value, QueueLoadout(c, slots, millis);
            var equips := s.sent || slots != [] || s.revision != 0;
            var queues := (if s.sent then slots != s.slots else equips) && c.revision < MAX_REVISION;
            && r == c.(revision := r.revision, live := r.live) && r.live.Some?
            && (queues ==> r.live.value == s.(revision := r.revision, slots := slots, sent := true, loadoutDirty := true) && c.revision < r.revision)
            && (!queues ==> r.revision == c.revision && r.live.value == s.(sent := s.sent || !equips))
  {
  }

  // A selection the session has not queued yet is dropped exactly when the counter is spent.
  lemma DroppedExactlyWhen(c: Core, slots: Slots, millis: int)
    requires c.live.Some? && slots != c.live.value.slots
    requires c.live.value.sent || slots != [] || c.live.value.revision != 0
    ensures QueueLoadout(c, slots, millis).live.value.slots != slots <==> c.revision >= MAX_REVISION
    ensures c.revision >= MAX_REVISION ==> QueueLoadout(c, slots, millis) == c
  {
  }

  // ---- The client, its run loop and the session's writer ----

  datatype Message = Visibility(visible: bool) | Loadout(revision: nat, slots: Slots) | Other

  // Where the writer stands between two steps another goroutine can interleave with.
  datatype Writer =
    | Idle
    | TookDirty
    | Read(visible: bool)
    | Changed(visible: bool)
    | TookLoadout
    | Writing(message: Message)

  // `held` is the visibility the server was last told; `since` the last loadout written after that.
  // `queued` and `written` are the loadout revisions so far, over every session.
  datatype System = System(core: Core, started: bool, writer: Writer, held: bool, since: Option<Message>,
                           queued: seq<nat>, written: seq<nat>)

  const START := System(Core(Config(0, false), false, false, 0, None, None), false, Idle, false, None, [], [])

  datatype Action =
    | DoConfigure(config: Config)
    | Wake
    | Begin
    | DoWelcome(revision: nat)
    | DoEstablish
    | Fail
    | Sync(slots: Slots, millis: int)
    | Cancel
    | End
    | TakeDirty
    | ReadConfig
    | Compare
    | ClearSent
    | TakeLoadout
    | Snapshot
    | TakeOther
    | Written
    | WriteFails

  predicate Connected(s: System) {
    s.core.live.Some? && s.core.context.Some?
  }

  predicate Enabled(s: System, act: Action) {
    match act
    case DoConfigure(_) => true
    case Wake => s.core.wake && !s.started
    case Begin => s.started && s.core.context.None?
    case DoWelcome(_) => s.core.context.Some? && s.core.live.None?
    case DoEstablish => s.core.context.Some? && s.core.live.None?
    case Fail => s.core.context.Some? && s.core.live.None?
    case Sync(_, _) => s.core.live.Some?
    case Cancel => Connected(s)
    case End => Connected(s) && s.core.context.value.cancelled && s.writer.Idle?
    case TakeDirty => Connected(s) && s.writer.Idle? && s.core.live.value.dirty
    case ReadConfig => Connected(s) && s.writer.TookDirty?
    case Compare => Connected(s) && s.writer.Read?
    case ClearSent => Connected(s) && s.writer.Changed?
    case TakeLoadout => Connected(s) && s.writer.Idle? && s.core.live.value.loadoutDirty
    case Snapshot => Connected(s) && s.writer.TookLoadout?
    case TakeOther => Connected(s) && s.writer.Idle?
    case Written => Connected(s) && s.writer.Writing?
    case WriteFails => Connected(s) && s.writer.Writing?
  }

  function WithLive(s: System, live: Session, writer: Writer): System {
    s.(core := s.core.(live := Some(live)), writer := writer)
  }

  function Cancelled(c: Core): Core
    requires c.context.Some?
  {
    c.(context := Some(c.context.value.(cancelled := true)))
  }

  // What the connection carries away: a visibility change makes earlier loadouts stale.
  function Deliver(s: System, m: Message): System {
    match m
    case Visibility(v) => s.(held := v, since := None)
    case Loadout(r, _) => s.(since := Some(m), written := s.written + [r])
    case Other => s
  }

  function Synced(s: System, slots: Slots, millis: int): System
    requires s.core.live.Some?
  {
    s.(core := QueueLoadout(s.core, slots, millis),
       queued := if Queues(s.core, slots) then s.queued + [NextRevision(s.core, millis)] else s.queued)
  }

  function Compared(s: System): System
    requires Connected(s) && s.writer.Read?
  {
    var live := s.core.live.value;
    if s.writer.visible == live.visible then s.(writer := Idle)
    else WithLive(s, live.(visible := s.writer.visible), Changed(s.writer.visible))
  }

  function Next(s: System, act: Action): System
    requires Enabled(s, act)
  {
    match act
    case DoConfigure(config) => s.(core := Configured(s.core, config))
    case Wake => s.(started := true, core := s.core.(wake := false))
    case Begin => s.(core := s.core.(context := Some(Context(s.core.config, false))))
    case DoWelcome(revision) => s.(core := Welcome(s.core, revision))
    case DoEstablish => s.(core := Establish(s.core), writer := Idle, held := s.core.context.value.captured.visible, since := None)
    case Fail => s.(core := s.core.(context := None))
    case Sync(slots, millis) => Synced(s, slots, millis)
    case Cancel => s.(core := Cancelled(s.core))
    case End => s.(core := s.core.(context := None, live := None))
    case TakeDirty => WithLive(s, s.core.live.value.(dirty := false), TookDirty)
    case ReadConfig => s.(writer := Read(s.core.config.visible))
    case Compare => Compared(s)
    case ClearSent => WithLive(s, s.core.live.value.(sent := false), Writing(Visibility(s.writer.visible)))
    case TakeLoadout => WithLive(s, s.core.live.value.(loadoutDirty := false), TookLoadout)
    case Snapshot => s.(writer := Writing(Loadout(s.core.live.value.revision, s.core.live.value.slots)))
    case TakeOther => s.(writer := Writing(Other))
    case Written => Deliver(s, s.writer.message).(writer := Idle)
    case WriteFails => s.(core := Cancelled(s.core), writer := Idle)
  }

  // ---- What every reachable state satisfies ----

  // A session that is still wanted: nothing has cancelled its context.
  predicate Wanted(s: System) {
    Connected(s) && !s.core.context.value.cancelled
  }

  predicate Bounded(s: System) {
    && (s.started || s.core.wake ==> s.core.configured)
    && (s.core.configured ==> s.started || s.core.wake)
    && (s.core.context.Some? ==> s.started)
    && (s.core.live.Some? ==> s.core.context.Some?)
    && (s.core.context.Some? && !s.core.context.value.cancelled ==> s.core.context.value.captured.identity == s.core.config.identity)
  }

  // A difference between what is announced and what is configured always has a token or a writer on its way.
  predicate VisibilityFollowed(s: System) {
    Wanted(s) ==>
      var live, want := s.core.live.value, s.core.config.visible;
      && (live.visible != want ==> live.dirty || s.writer.TookDirty? || s.writer == Read(want))
      && (s.writer.Read? && s.writer.visible != want ==> live.dirty)
  }

  // The writer's own record agrees with the server, save while a change is on its way there.
  predicate RecordAgrees(s: System) {
    Wanted(s) ==>
      var live := s.core.live.value;
      match s.writer
      case Changed(v) => live.visible == v && v != s.held
      case Writing(Visibility(v)) => live.visible == v && v != s.held
      case _ => live.visible == s.held
  }

  predicate LoadoutFollowed(s: System) {
    Wanted(s) ==>
      var live := s.core.live.value;
      var newest := Loadout(live.revision, live.slots);
      && (live.loadoutDirty || s.writer.TookLoadout? ==> live.revision > 0)
      && (live.revision > 0 && live.revision !in s.written ==>
            live.loadoutDirty || s.writer.TookLoadout? || s.writer == Writing(newest))
      && (live.sent && live.revision > 0 && !live.loadoutDirty ==>
            match s.writer
            case Changed(_) => true
            case TookLoadout => true
            case Writing(Visibility(_)) => false
            case Writing(Loadout(_, _)) => s.writer.message == newest
            case _ => s.since == Some(newest))
  }

  predicate Increasing(revisions: seq<nat>) {
    forall i, j :: 0 <= i < j < |revisions| ==> revisions[i] < revisions[j]
  }

  predicate Nondecreasing(revisions: seq<nat>) {
    forall i, j :: 0 <= i < j < |revisions| ==> revisions[i] <= revisions[j]
  }

  predicate AtMost(revisions: seq<nat>, bound: nat) {
    forall i :: 0 <= i < |revisions| ==> revisions[i] <= bound
  }

  predicate AllIn(revisions: seq<nat>, among: seq<nat>) {
    forall i :: 0 <= i < |revisions| ==> revisions[i] in among
  }

  predicate LogsOrdered(s: System) {
    && Increasing(s.queued) && AtMost(s.queued, s.core.revision) && s.core.revision <= MAX_REVISION
    && Nondecreasing(s.written) && AtMost(s.written, s.core.revision) && AllIn(s.written, s.queued)
  }

  // The session's revision, and the one on its way out, were queued and are not behind the server.
  predicate SessionOrdered(s: System) {
    s.core.live.Some? ==>
      var live := s.core.live.value;
      && live.revision <= s.core.revision
      && (live.revision > 0 ==> live.revision in s.queued && AtMost(s.written, live.revision))
      && (live.loadoutDirty || s.writer.TookLoadout? ==> live.revision > 0)
      && (s.writer.Writing? && s.writer.message.Loadout? ==>
            && s.writer.message.revision in s.queued && AtMost(s.written, s.writer.message.revision)
            && s.writer.message.revision <= live.revision && live.revision > 0)
  }

  predicate Inv(s: System) {
    Bounded(s) && VisibilityFollowed(s) && RecordAgrees(s) && LoadoutFollowed(s) && LogsOrdered(s) && SessionOrdered(s)
  }

  lemma VisibilityStep(s: System, act: Action)
    requires Bounded(s) && VisibilityFollowed(s) && RecordAgrees(s) && Enabled(s, act)
    ensures Bounded(Next(s, act)) && VisibilityFollowed(Next(s, act)) && RecordAgrees(Next(s, act))
  {
    hide LoadoutFollowed, NextRevision;
    match act
    case DoConfigure(config) => ConfigureStep(s, config);
    case _ =>
  }

  lemma ConfigureStep(s: System, config: Config)
    requires Bounded(s) && VisibilityFollowed(s) && RecordAgrees(s)
    ensures var s' := Next(s, DoConfigure(config)); Bounded(s') && VisibilityFollowed(s') && RecordAgrees(s')
  {
  }

  lemma SyncStep(s: System, slots: Slots, millis: int)
    requires LoadoutFollowed(s) && LogsOrdered(s) && SessionOrdered(s) && s.core.live.Some?
    ensures LoadoutFollowed(Synced(s, slots, millis))
  {
  }

  lemma ConfigureLoadout(s: System, config: Config)
    requires LoadoutFollowed(s)
    ensures LoadoutFollowed(Next(s, DoConfigure(config)))
  {
  }

  lemma WrittenStep(s: System)
    requires LoadoutFollowed(s) && SessionOrdered(s) && Enabled(s, Written)
    ensures LoadoutFollowed(Next(s, Written))
  {
    var m := s.writer.message;
    assert m.Loadout? ==> m.revision in s.written + [m.revision];
    assert forall r :: r in s.written ==> r in Next(s, Written).written;
  }

  lemma LoadoutStep(s: System, act: Action)
    requires Bounded(s) && LoadoutFollowed(s) && LogsOrdered(s) && SessionOrdered(s) && Enabled(s, act)
    ensures LoadoutFollowed(Next(s, act))
  {
    hide LogsOrdered;
    match act
    case DoConfigure(config) => ConfigureLoadout(s, config);
    case Sync(slots, millis) => SyncStep(s, slots, millis);
    case Written => WrittenStep(s);
    case _ =>
  }

  lemma SyncKeepsOrder(s: System, slots: Slots, millis: int)
    requires LogsOrdered(s) && SessionOrdered(s) && s.core.live.Some?
    ensures LogsOrdered(Synced(s, slots, millis)) && SessionOrdered(Synced(s, slots, millis))
  {
    var s' := Synced(s, slots, millis);
    if Queues(s.core, slots) {
      var r := NextRevision(s.core, millis);
      assert s.core.revision < r <= MAX_REVISION && s'.core.revision == r && s'.queued == s.queued + [r];
      assert s'.queued[|s.queued|] == r && r in s'.queued;
      assert forall x :: x in s.queued ==> x in s'.queued;
    }
  }

  lemma WriteKeepsOrder(s: System, m: Message)
    requires LogsOrdered(s) && SessionOrdered(s) && s.core.live.Some? && s.writer == Writing(m)
    ensures LogsOrdered(Deliver(s, m).(writer := Idle)) && SessionOrdered(Deliver(s, m).(writer := Idle))
  {
    if m.Loadout? {
      assert forall x :: x in s.written + [m.revision] ==> x in s.written || x == m.revision;
    }
  }

  lemma WelcomeKeepsOrder(s: System, revision: nat)
    requires LogsOrdered(s) && SessionOrdered(s)
    ensures LogsOrdered(s.(core := Welcome(s.core, revision))) && SessionOrdered(s.(core := Welcome(s.core, revision)))
  {
    hide Increasing, Nondecreasing, AllIn;
  }

  // Every other step leaves the counter and the logs alone.
  lemma SameOrder(s: System, act: Action)
    requires LogsOrdered(s) && SessionOrdered(s) && Enabled(s, act) && !act.Sync? && !act.Written? && !act.DoWelcome?
    ensures LogsOrdered(Next(s, act)) && SessionOrdered(Next(s, act))
  {
    hide Increasing, Nondecreasing, AllIn, AtMost;
    assert Next(s, act).queued == s.queued && Next(s, act).written == s.written && Next(s, act).core.revision == s.core.revision;
  }

  lemma RevisionStep(s: System, act: Action)
    requires LogsOrdered(s) && SessionOrdered(s) && Enabled(s, act)
    ensures LogsOrdered(Next(s, act)) && SessionOrdered(Next(s, act))
  {
    hide Increasing, Nondecreasing, AllIn;
    match act
    case Sync(slots, millis) => SyncKeepsOrder(s, slots, millis);
    case Written => WriteKeepsOrder(s, s.writer.message);
    case DoWelcome(revision) => WelcomeKeepsOrder(s, revision);
    case _ => SameOrder(s, act);
  }

  ghost predicate Run(states: seq<System>, acts: seq<Action>) {
    && |states| == |acts| + 1 && states[0] == START
    && forall i :: 0 <= i < |acts| ==> Enabled(states[i], acts[i]) && states[i + 1] == Next(states[i], acts[i])
  }

  lemma {:induction false} RunKeepsInvariant(states: seq<System>, acts: seq<Action>, i: nat)
    requires Run(states, acts) && i < |states|
    ensures Inv(states[i])
    decreases i
  {
    if i > 0 {
      hide Next, Enabled;
      RunKeepsInvariant(states, acts, i - 1);
      VisibilityStep(states[i - 1], acts[i - 1]);
      LoadoutStep(states[i - 1], acts[i - 1]);
      RevisionStep(states[i - 1], acts[i - 1]);
    }
  }

  // Whenever a wanted session's server is behind, something is on its way to tell it: its visibility,
  // its newest queued loadout, and that loadout again after each change of visibility.
  lemma NoLostUpdate(states: seq<System>, acts: seq<Action>, i: nat)
    requires Run(states, acts) && i < |states| && Wanted(states[i])
    ensures var s, want := states[i], states[i].core.config.visible;
            s.held != want ==>
              || s.core.live.value.dirty || s.writer.TookDirty?
              || s.writer in {Read(want), Changed(want), Writing(Visibility(want))}
    ensures var s, live := states[i], states[i].core.live.value;
            live.revision > 0 && live.revision !in s.written ==>
              live.loadoutDirty || s.writer.TookLoadout? || s.writer == Writing(Loadout(live.revision, live.slots))
    ensures var s, live := states[i], states[i].core.live.value;
            live.sent && live.revision > 0 && s.since != Some(Loadout(live.revision, live.slots)) ==>
              live.loadoutDirty || s.writer.TookLoadout? || s.writer.Changed? || s.writer == Writing(Loadout(live.revision, live.slots))
  {
    RunKeepsInvariant(states, acts, i);
  }

  // With no token left and the writer idle, the server holds the configured identity and visibility,
  // and the newest selection was written after the last change of visibility.
  lemma QuietSessionIsUpToDate(states: seq<System>, acts: seq<Action>, i: nat)
    requires Run(states, acts) && i < |states| && Wanted(states[i]) && states[i].writer.Idle?
    requires !states[i].core.live.value.dirty && !states[i].core.live.value.loadoutDirty
    ensures states[i].core.context.value.captured.identity == states[i].core.config.identity
    ensures states[i].held == states[i].core.config.visible
    ensures var live := states[i].core.live.value;
            live.sent && live.revision > 0 ==> states[i].since == Some(Loadout(live.revision, live.slots))
  {
    RunKeepsInvariant(states, acts, i);
  }

  // The server is never told the visibility it already holds.
  lemma EveryAnnouncementIsNews(states: seq<System>, acts: seq<Action>, i: nat)
    requires Run(states, acts) && i < |acts| && Wanted(states[i]) && acts[i].Written?
    ensures states[i].writer.message.Visibility? ==> states[i + 1].held != states[i].held
  {
    RunKeepsInvariant(states, acts, i);
  }

  // Over every session, welcome and reconnect.
  lemma RevisionsNeverRepeat(states: seq<System>, acts: seq<Action>, i: nat)
    requires Run(states, acts) && i < |states|
    ensures Increasing(states[i].queued) && AtMost(states[i].queued, MAX_REVISION)
    ensures Nondecreasing(states[i].written)
    ensures forall k :: 0 <= k < |states[i].written| ==> states[i].written[k] in states[i].queued
  {
    RunKeepsInvariant(states, acts, i);
  }

  // A queued loadout has the least revision above the counter that is not behind the clock, within the bound:
  // it supersedes every earlier one, and those another process of the same player queued before this moment.
  lemma QueuedRevision(s: System, slots: Slots, millis: int)
    requires Enabled(s, Sync(slots, millis))
    ensures var s' := Next(s, Sync(slots, millis));
            var revision := s'.core.revision;
            && (s'.queued == s.queued || s'.queued == s.queued + [revision])
            && (s'.queued == s.queued ==> revision == s.core.revision && s'.core.live.value.revision == s.core.live.value.revision)
            && (s'.queued != s.queued ==>
                  && s.core.revision < revision <= MAX_REVISION && s'.core.live.value.revision == revision
                  && s'.core.live.value.slots == slots && s'.core.live.value.loadoutDirty
                  && (millis <= revision || revision == MAX_REVISION)
                  && (revision == s.core.revision + 1 || revision <= millis))
  {
  }

  lemma SpentStep(s: System, act: Action)
    requires Enabled(s, act) && s.core.revision >= MAX_REVISION
    ensures Next(s, act).queued == s.queued && Next(s, act).core.revision >= MAX_REVISION
  {
  }

  // Once the counter is at its bound, no loadout is queued again, by this session or any later one.
  lemma {:induction false} SpentCounterQueuesNothing(states: seq<System>, acts: seq<Action>, i: nat, j: nat)
    requires Run(states, acts) && i <= j < |states| && states[i].core.revision >= MAX_REVISION
    ensures states[j].queued == states[i].queued && states[j].core.revision >= MAX_REVISION
    decreases j
  {
    hide Next, Enabled;
    if i < j {
      SpentCounterQueuesNothing(states, acts, i, j - 1);
      var s, act := states[j - 1], acts[j - 1];
      assert Enabled(s, act) && states[j] == Next(s, act);
      SpentStep(s, act);
    }
  }

  // What the world does to the client in a run: a configuration is the one in force from then on, a cancelled or
  // broken connection is not wanted any more, and a welcome raises the counter the next revision is taken from.
  lemma OutsideSteps(states: seq<System>, acts: seq<Action>, i: nat)
    requires Run(states, acts) && i < |acts|
    ensures acts[i].DoConfigure? ==> states[i + 1].core.config == acts[i].config && states[i + 1].core.configured
    ensures acts[i].Cancel? || acts[i].WriteFails? ==> !Wanted(states[i + 1]) && states[i + 1].held == states[i].held
    ensures acts[i].DoWelcome? && acts[i].revision <= MAX_REVISION ==> acts[i].revision <= states[i + 1].core.revision
  {
  }

  // What the server knows after a write: a visibility makes it forget the loadout, which it then has to be told
  // again, and a loadout is known until then.
  lemma WritesReachTheServer(states: seq<System>, acts: seq<Action>, i: nat)
    requires Run(states, acts) && i < |acts| && acts[i].Written?
    ensures match states[i].writer.message
            case Visibility(v) => states[i + 1].held == v && states[i + 1].since == None && states[i + 1].written == states[i].written
            case Loadout(r, slots) =>
              states[i + 1].since == Some(Loadout(r, slots)) && states[i + 1].held == states[i].held && states[i + 1].written == states[i].written + [r]
            case Other => states[i + 1].since == states[i].since && states[i + 1].held == states[i].held
  {
  }

  // ---- Left alone, the client catches up ----

  function Last(states: seq<System>): System
    requires states != []
  {
    states[|states| - 1]
  }

  // Run `longer` goes on from run `states`, without anybody configuring or selecting anything.
  ghost predicate GoesOn(states: seq<System>, acts: seq<Action>, longer: seq<System>, more: seq<Action>) {
    && Run(longer, more) && states != [] && states <= longer && acts <= more
    && Last(longer).core.config == Last(states).core.config && Last(longer).queued == Last(states).queued
  }

  lemma OneMore(states: seq<System>, acts: seq<Action>, act: Action) returns (longer: seq<System>, more: seq<Action>)
    requires Run(states, acts) && Enabled(Last(states), act) && !act.DoConfigure? && !act.Sync?
    ensures GoesOn(states, acts, longer, more) && Last(longer) == Next(Last(states), act) && |more| == |acts| + 1
  {
    longer, more := states + [Next(Last(states), act)], acts + [act];
  }

  lemma Onward(states: seq<System>, acts: seq<Action>, longer: seq<System>, more: seq<Action>, longest: seq<System>, most: seq<Action>)
    requires GoesOn(states, acts, longer, more) && GoesOn(longer, more, longest, most)
    ensures GoesOn(states, acts, longest, most)
  {
  }

  lemma Grounded(states: seq<System>, acts: seq<Action>)
    requires Run(states, acts)
    ensures Bounded(Last(states)) && states != []
  {
    RunKeepsInvariant(states, acts, |acts|);
  }

  // What the writer does next, if it is its turn.
  function Turn(s: System): Action
    requires Connected(s)
  {
    match s.writer
    case Idle => if s.core.live.value.dirty then TakeDirty else TakeLoadout
    case TookDirty => ReadConfig
    case Read(_) => Compare
    case Changed(_) => ClearSent
    case TookLoadout => Snapshot
    case Writing(_) => Written
  }

  // How much the writer still has to do.
  function Work(s: System): nat
    requires Connected(s)
  {
    (match s.writer
     case Idle => 0
     case Writing(_) => 1
     case Changed(_) => 2
     case TookLoadout => 2
     case Read(_) => 3
     case TookDirty => 4) +
    (if s.core.live.value.dirty then 5 else 0) + (if s.core.live.value.loadoutDirty then 3 else 0)
  }

  lemma WriterWorks(s: System)
    requires Connected(s) && Work(s) > 0
    ensures Enabled(s, Turn(s)) && Connected(Next(s, Turn(s))) && Work(Next(s, Turn(s))) < Work(s)
    ensures Next(s, Turn(s)).core.context == s.core.context
  {
  }

  // The writer gets everything out: within as many steps as it has work, it is idle and no token is left.
  lemma {:induction false} WriterFinishes(states: seq<System>, acts: seq<Action>) returns (longer: seq<System>, more: seq<Action>)
    requires Run(states, acts) && Connected(Last(states))
    ensures GoesOn(states, acts, longer, more) && |more| <= |acts| + Work(Last(states))
    ensures Connected(Last(longer)) && Work(Last(longer)) == 0 && Last(longer).core.context == Last(states).core.context
    decreases Work(Last(states))
  {
    hide Next, Enabled, Run, Work, Turn;
    Grounded(states, acts);
    if Work(Last(states)) == 0 {
      longer, more := states, acts;
    } else {
      WriterWorks(Last(states));
      NotFromOutside(Last(states));
      var next, taken := OneMore(states, acts, Turn(Last(states)));
      longer, more := WriterFinishes(next, taken);
      Onward(states, acts, next, taken, longer, more);
    }
  }

  lemma NotFromOutside(s: System)
    requires Connected(s)
    ensures !Turn(s).DoConfigure? && !Turn(s).Sync?
  {
  }

  // What the server holds is what is configured, with the newest loadout written after the last change.
  predicate UpToDate(s: System) {
    && Wanted(s) && s.core.context.value.captured.identity == s.core.config.identity && s.held == s.core.config.visible
    && (s.core.live.value.sent && s.core.live.value.revision > 0 ==>
          s.since == Some(Loadout(s.core.live.value.revision, s.core.live.value.slots)))
  }

  // From every reachable state of a wanted session, twelve steps of the writer bring the server up to date.
  lemma SessionCatchesUp(states: seq<System>, acts: seq<Action>) returns (longer: seq<System>, more: seq<Action>)
    requires Run(states, acts) && Wanted(Last(states))
    ensures GoesOn(states, acts, longer, more) && |more| <= |acts| + 12 && UpToDate(Last(longer))
  {
    longer, more := WriterFinishes(states, acts);
    QuietSessionIsUpToDate(longer, more, |more|);
  }

  // A configured client whose run loop is started and not held up by a cancelled connection.
  predicate MayConnect(s: System) {
    s.started && (s.core.context.Some? ==> !s.core.context.value.cancelled) && (s.core.live.Some? ==> s.core.context.Some?)
  }

  lemma Disconnects(states: seq<System>, acts: seq<Action>) returns (longer: seq<System>, more: seq<Action>)
    requires Run(states, acts) && Last(states).core.configured
    ensures GoesOn(states, acts, longer, more) && MayConnect(Last(longer))
  {
    hide Run;
    Grounded(states, acts);
    longer, more := states, acts;
    Alone(states, acts);
    if !Last(states).started {
      longer, more := OneMore(states, acts, Wake);
    } else if Last(states).core.context.Some? && Last(states).core.context.value.cancelled {
      if Last(states).core.live.None? {
        longer, more := OneMore(states, acts, Fail);
      } else {
        var idle, written := WriterFinishes(states, acts);
        Grounded(idle, written);
        longer, more := OneMore(idle, written, End);
        Onward(states, acts, idle, written, longer, more);
      }
      Grounded(longer, more);
    }
  }

  lemma Alone(states: seq<System>, acts: seq<Action>)
    requires Run(states, acts)
    ensures GoesOn(states, acts, states, acts)
  {
  }

  lemma Connects(states: seq<System>, acts: seq<Action>) returns (longer: seq<System>, more: seq<Action>)
    requires Run(states, acts) && MayConnect(Last(states))
    ensures GoesOn(states, acts, longer, more) && Wanted(Last(longer))
  {
    hide Run;
    longer, more := states, acts;
    Alone(states, acts);
    if Last(longer).core.context.None? {
      longer, more := OneMore(states, acts, Begin);
    }
    if Last(longer).core.live.None? {
      var joined, established := OneMore(longer, more, DoEstablish);
      Onward(states, acts, longer, more, joined, established);
      longer, more := joined, established;
    }
  }

  // Whatever has happened to a configured client, its run loop and a server that answers bring about a session
  // that is up to date: nothing that was cancelled, refused or lost stands in the way.
  lemma ClientRecovers(states: seq<System>, acts: seq<Action>) returns (longer: seq<System>, more: seq<Action>)
    requires Run(states, acts) && Last(states).core.configured
    ensures GoesOn(states, acts, longer, more) && UpToDate(Last(longer))
  {
    hide Run, UpToDate;
    var ready, before := Disconnects(states, acts);
    var connected, after := Connects(ready, before);
    Onward(states, acts, ready, before, connected, after);
    longer, more := SessionCatchesUp(connected, after);
    Onward(states, acts, connected, after, longer, more);
  }
}
