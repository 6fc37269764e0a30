/**
 Playback and loadouts of nearby players: what the local player watches is announced at a bounded
 rate, and what watched players announced is kept in bounded maps until its lease runs out.
 */
module Emotes {
  import opened Limits
  import opened Wrappers

  const MOST := 128                  // identifiers in one lookup, and players remembered
  const MILLISECOND := 1_000_000     // times and durations are in nanoseconds
  const LEASE_MS := 15_000
  const LEASE := LEASE_MS * MILLISECOND
  const SPACING := 500 * MILLISECOND
  const WATCH_SPACING := LEASE / 5
  const RENEWAL := LEASE / 3
  const MOST_SLOTS := 16

  // A list that was never set differs from an empty one.
  type Ids = Option<seq<nat>>

  function Members(ids: Ids): seq<nat> {
    if ids.Some? then ids.value else []
  }

  // `wellFormed` says whether every identifier, clip and slot has the form the server accepts.
  datatype PlayerState = PlayerState(wellFormed: bool, xuids: Ids, uuids: Ids, emote: Option<nat>, playback: nat, elapsed: nat)

  predicate Watches(state: PlayerState, xuid: nat, uuid: nat) {
    xuid in Members(state.xuids) || uuid in Members(state.uuids)
  }

  predicate SameLists(a: PlayerState, b: PlayerState) {
    a.xuids == b.xuids && a.uuids == b.uuids
  }

  datatype Clip = NoClip | Malformed | Clip(id: nat)

  datatype Message =
    | EmoteMessage(wellFormed: bool, xuid: nat, uuid: nat, clip: Clip, elapsed: nat, validFor: nat)
    | LoadoutMessage(wellFormed: bool, xuid: nat, uuid: nat, revision: nat, size: nat, slots: map<nat, nat>)

  // Leases count in milliseconds.
  datatype Emote = Emote(uuid: nat, clip: nat, elapsed: nat, validFor: nat, received: int)

  datatype RemoteEmote = RemoteEmote(xuid: nat, uuid: nat, clip: nat, elapsed: nat, validFor: int)

  datatype Loadout = Loadout(uuid: nat, revision: nat, slots: map<nat, nat>)

  // What the last list sent to the server named, and the queue stamp it was sent under.
  datatype Announced = Announced(xuids: Ids, uuids: Ids, stamp: int)

  datatype Session = Session(announced: Option<Announced>, state: PlayerState, queued: Option<int>, dirty: bool,
                             emotes: map<nat, Emote>, loadouts: map<nat, Loadout>)

  const NO_PLAYER := PlayerState(true, None, None, None, 0, 0)
  const FRESH := Session(None, NO_PLAYER, None, false, map[], map[])

  // ---- One exchange with the local player ----

  // A time never set is further back than any spacing.
  predicate Since(at: Option<int>, now: int, least: int) {
    at.None? || now - at.value >= least
  }

  predicate ListsPending(s: Session, state: PlayerState) {
    var sent := if s.announced.Some? then s.announced.value else Announced(None, None, 0);
    sent.xuids != state.xuids || sent.uuids != state.uuids
  }

  predicate Due(s: Session, now: int) {
    s.announced.None? || now - s.announced.value.stamp >= WATCH_SPACING
  }

  predicate Queues(s: Session, state: PlayerState, now: int) {
    && Since(s.queued, now, SPACING)
    && (s.state.emote != state.emote || s.state.playback != state.playback || !SameLists(s.state, state)
        || (ListsPending(s, state) && Due(s, now)) || Since(s.queued, now, RENEWAL))
  }

  function Age(e: Emote, now: int): nat {
    if now < e.received then 0 else now - e.received
  }

  predicate Plays(xuid: nat, e: Emote, state: PlayerState, now: int) {
    Age(e, now) < e.validFor * MILLISECOND && Watches(state, xuid, e.uuid)
  }

  function Aged(xuid: nat, e: Emote, now: int): RemoteEmote {
    RemoteEmote(xuid, e.uuid, e.clip, e.elapsed + Age(e, now) / MILLISECOND, e.validFor - Age(e, now) / MILLISECOND)
  }

  predicate Admissible(state: PlayerState) {
    state.wellFormed && |Members(state.xuids)| + |Members(state.uuids)| <= MOST
  }

  function Exchanged(s: Session, state: PlayerState, now: int): Session {
    if !Admissible(state) then s
    else
      var queued := if Queues(s, state, now) then s.(state := state, queued := Some(now), dirty := true) else s;
      queued.(state := queued.state.(xuids := state.xuids, uuids := state.uuids),
              emotes := map x | x in s.emotes && Plays(x, s.emotes[x], state, now) :: s.emotes[x],
              loadouts := map x | x in s.loadouts && Watches(state, x, s.loadouts[x].uuid) :: s.loadouts[x])
  }

  function Report(s: Session, state: PlayerState, now: int): set<RemoteEmote> {
    if !Admissible(state) then {}
    else set x | x in s.emotes && Plays(x, s.emotes[x], state, now) :: Aged(x, s.emotes[x], now)
  }

  // ---- Messages from the server ----

  predicate Full<T>(m: map<nat, T>, xuid: nat) {
    |m| >= MOST && xuid !in m
  }

  function ReceivedEmote(s: Session, m: Message, now: int): Session
    requires m.EmoteMessage?
  {
    if !m.wellFormed || !Watches(s.state, m.xuid, m.uuid) then s
    else if m.clip.NoClip? || m.validFor == 0 then s.(emotes := s.emotes - {m.xuid})
    else if m.clip.Malformed? || m.validFor > LEASE_MS || Full(s.emotes, m.xuid) then s
    else s.(emotes := s.emotes[m.xuid := Emote(m.uuid, m.clip.id, m.elapsed, m.validFor, now)])
  }

  // `size` counts the slots named, withdrawn ones too.
  function ReceivedLoadout(s: Session, m: Message): Session
    requires m.LoadoutMessage?
  {
    if !m.wellFormed || !Watches(s.state, m.xuid, m.uuid) || m.revision > MAX_REVISION || m.size > MOST_SLOTS then s
    else if m.xuid in s.loadouts && s.loadouts[m.xuid].revision > m.revision then s
    else if m.slots == map[] then s.(loadouts := s.loadouts - {m.xuid})
    else if Full(s.loadouts, m.xuid) then s
    else s.(loadouts := s.loadouts[m.xuid := Loadout(m.uuid, m.revision, m.slots)])
  }

  function Received(s: Session, m: Message, now: int): Session {
    if m.EmoteMessage? then ReceivedEmote(s, m, now) else ReceivedLoadout(s, m)
  }

  // ---- The writer's snapshot ----

  predicate SendsLists(s: Session)
    requires s.queued.Some?
  {
    s.announced.None? || (ListsPending(s, s.state) && s.queued.value - s.announced.value.stamp >= WATCH_SPACING)
  }

  function Taken(s: Session): Session
    requires s.queued.Some?
  {
    if SendsLists(s) then s.(dirty := false, announced := Some(Announced(s.state.xuids, s.state.uuids, s.queued.value)))
    else s.(dirty := false)
  }

  // ---- The session's fields, updated in place ----

  class Exchange {
    var announced: Option<Announced>
    var state: PlayerState
    var queued: Option<int>
    var dirty: bool
    var emotes: map<nat, Emote>
    var loadouts: map<nat, Loadout>

    function View(): Session
      reads this
    {
      Session(announced, state, queued, dirty, emotes, loadouts)
    }

    constructor ()
      ensures View() == FRESH
    {
      announced, state, queued, dirty, emotes, loadouts := None, NO_PLAYER, None, false, map[], map[];
    }

    // Walks the remembered emotes in any order, forgetting what ran out or is no longer watched.
    method CollectEmotes(state: PlayerState, now: int) returns (report: set<RemoteEmote>)
      modifies `emotes
      ensures emotes == map x | x in old(emotes) && Plays(x, old(emotes)[x], state, now) :: old(emotes)[x]
      ensures report == set x | x in old(emotes) && Plays(x, old(emotes)[x], state, now) :: Aged(x, old(emotes)[x], now)
    {
      report := {};
      var were, left := emotes, emotes.Keys;
      while left != {}
        invariant left <= were.Keys
        invariant emotes == map x | x in were && (x in left || Plays(x, were[x], state, now)) :: were[x]
        invariant report == set x | x in were && x !in left && Plays(x, were[x], state, now) :: Aged(x, were[x], now)
      {
        var x :| x in left;
        left := left - {x};
        if Age(were[x], now) >= were[x].validFor * MILLISECOND || !Watches(state, x, were[x].uuid) {
          emotes := emotes - {x};
        } else {
          report := report + {Aged(x, were[x], now)};
        }
      }
    }

    // The same walk for loadouts, which have no lease; what stays is also what is reported.
    method CollectLoadouts(state: PlayerState) returns (report: map<nat, Loadout>)
      modifies `loadouts
      ensures report == loadouts == map x | x in old(loadouts) && Watches(state, x, old(loadouts)[x].uuid) :: old(loadouts)[x]
    {
      report := map[];
      var were, left := loadouts, loadouts.Keys;
      while left != {}
        invariant left <= were.Keys
        invariant loadouts == map x | x in were && (x in left || Watches(state, x, were[x].uuid)) :: were[x]
        invariant report == map x | x in were && x !in left && Watches(state, x, were[x].uuid) :: were[x]
      {
        var x :| x in left;
        left := left - {x};
        if !Watches(state, x, were[x].uuid) {
          loadouts := loadouts - {x};
        } else {
          report := report[x := were[x]];
        }
      }
    }

    method SyncPlayersLocked(state: PlayerState, now: int) returns (report: set<RemoteEmote>, worn: map<nat, Loadout>)
      modifies this
      ensures View() == Exchanged(old(View()), state, now)
      ensures report == Report(old(View()), state, now)
      ensures worn == if Admissible(state) then loadouts else map[]
    {
      if !state.wellFormed || |Members(state.xuids)| + |Members(state.uuids)| > MOST {
        return {}, map[];
      }
      var changed := this.state.emote != state.emote || this.state.playback != state.playback || !SameLists(this.state, state);
      var pending := ListsPending(View(), state);
      var due := announced.None? || now - announced.value.stamp >= WATCH_SPACING;
      if Since(queued, now, SPACING) && (changed || (pending && due) || Since(queued, now, RENEWAL)) {
        this.state, queued, dirty := state, Some(now), true;
      }
      this.state := this.state.(xuids := state.xuids, uuids := state.uuids);
      report := CollectEmotes(state, now);
      worn := CollectLoadouts(state);
    }

    method ReceiveEmoteLocked(m: Message, now: int)
      requires m.EmoteMessage?
      modifies `emotes
      ensures View() == ReceivedEmote(old(View()), m, now)
    {
      if !m.wellFormed || !Watches(state, m.xuid, m.uuid) {
        return;
      }
      if m.clip.NoClip? || m.validFor == 0 {
        emotes := emotes - {m.xuid};
        return;
      }
      if m.clip.Malformed? || m.validFor > LEASE_MS {
        return;
      }
      if |emotes| >= MOST && m.xuid !in emotes {
        return;
      }
      emotes := emotes[m.xuid := Emote(m.uuid, m.clip.id, m.elapsed, m.validFor, now)];
    }

    method ReceiveLoadoutLocked(m: Message)
      requires m.LoadoutMessage?
      modifies `loadouts
      ensures View() == ReceivedLoadout(old(View()), m)
    {
      if !m.wellFormed || !Watches(state, m.xuid, m.uuid) || m.revision > MAX_REVISION || m.size > MOST_SLOTS {
        return;
      }
      if m.xuid in loadouts && loadouts[m.xuid].revision > m.revision {
        return;
      }
      if m.slots == map[] {
        loadouts := loadouts - {m.xuid};
        return;
      }
      if |loadouts| >= MOST && m.xuid !in loadouts {
        return;
      }
      loadouts := loadouts[m.xuid := Loadout(m.uuid, m.revision, m.slots)];
    }

    method EmotePayloadLocked() returns (lists: bool)
      requires queued.Some?
      modifies `announced, `dirty
      ensures View() == Taken(old(View())) && lists == SendsLists(old(View()))
    {
      lists := announced.None? || (ListsPending(View(), state) && queued.value - announced.value.stamp >= WATCH_SPACING);
      if lists {
        announced := Some(Announced(state.xuids, state.uuids, queued.value));
      }
      dirty := false;
    }
  }

  // ---- What each section does, said of times, identifiers and counts ----

  predicate Watched(state: PlayerState, xuid: nat, uuid: nat) {
    || (state.xuids.Some? && exists i :: 0 <= i < |state.xuids.value| && state.xuids.value[i] == xuid)
    || (state.uuids.Some? && exists i :: 0 <= i < |state.uuids.value| && state.uuids.value[i] == uuid)
  }

  lemma WatchedIsWatches(state: PlayerState, xuid: nat, uuid: nat)
    ensures Watched(state, xuid, uuid) <==> Watches(state, xuid, uuid)
  {
  }

  // The state is queued for the writer exactly when half a second has passed since it last was and there is a
  // reason: another emote or other lists than were seen last, lists not announced for three seconds, or five
  // seconds without a word. The lists are remembered even when nothing is queued.
  lemma QueuedExactlyWhen(s: Session, state: PlayerState, now: int)
    requires state.wellFormed && |Members(state.xuids) + Members(state.uuids)| <= 128
    ensures var r := Exchanged(s, state, now);
            var passed := (nanoseconds: int) => s.queued.None? || s.queued.value + nanoseconds <= now;
            var news := s.state.emote != state.emote || s.state.playback != state.playback ||
                        s.state.xuids != state.xuids || s.state.uuids != state.uuids;
            var unannounced := if s.announced.None? then state.xuids.Some? || state.uuids.Some?
                               else (s.announced.value.xuids != state.xuids || s.announced.value.uuids != state.uuids) &&
                                    s.announced.value.stamp + 3_000_000_000 <= now;
            var queues := passed(500_000_000) && (news || unannounced || passed(5_000_000_000));
            && r.queued == (if queues then Some(now) else s.queued) && r.dirty == (s.dirty || queues)
            && r.state == (if queues then state else s.state.(xuids := state.xuids, uuids := state.uuids))
            && r.announced == s.announced
  {
  }

  // Anything else leaves the session alone and is answered with nothing.
  lemma InadmissibleChangesNothing(s: Session, state: PlayerState, now: int)
    requires !state.wellFormed || |Members(state.xuids) + Members(state.uuids)| > 128
    ensures Exchanged(s, state, now) == s && Report(s, state, now) == {}
  {
  }

  // What becomes of an emote message: from a watched player it stops playback or, with a usable lease of at
  // most 15 seconds and room for the player, replaces what is remembered of that player.
  lemma EmoteKeptExactlyWhen(s: Session, m: Message, now: int, x: nat)
    requires m.EmoteMessage?
    ensures var r := ReceivedEmote(s, m, now);
            var heard := m.wellFormed && Watched(s.state, m.xuid, m.uuid);
            var stops := heard && (m.clip == NoClip || m.validFor == 0);
            var plays := heard && !stops && m.clip.Clip? && m.validFor <= 15_000 && (m.xuid in s.emotes || |s.emotes| < 128);
            && r == s.(emotes := r.emotes)
            && (x in r.emotes <==> if x == m.xuid && (stops || plays) then plays else x in s.emotes)
            && (x in r.emotes ==>
                  r.emotes[x] == if x == m.xuid && plays then Emote(m.uuid, m.clip.id, m.elapsed, m.validFor, now) else s.emotes[x])
  {
    hide Watched, Watches;
    WatchedIsWatches(s.state, m.xuid, m.uuid);
  }

  // What becomes of a loadout message: from a watched player, of at most 16 slots and no older than what is
  // remembered, it takes the loadout off or, with room for the player, replaces it.
  lemma LoadoutKeptExactlyWhen(s: Session, m: Message, x: nat)
    requires m.LoadoutMessage?
    ensures var r := ReceivedLoadout(s, m);
            var heard := m.wellFormed && Watched(s.state, m.xuid, m.uuid) && m.revision <= MAX_REVISION && m.size <= 16;
            var current := heard && (m.xuid in s.loadouts ==> s.loadouts[m.xuid].revision <= m.revision);
            var stops := current && |m.slots| == 0;
            var wears := current && |m.slots| > 0 && (m.xuid in s.loadouts || |s.loadouts| < 128);
            && r == s.(loadouts := r.loadouts)
            && (x in r.loadouts <==> if x == m.xuid && (stops || wears) then wears else x in s.loadouts)
            && (x in r.loadouts ==>
                  r.loadouts[x] == if x == m.xuid && wears then Loadout(m.uuid, m.revision, m.slots) else s.loadouts[x])
  {
    hide Watched, Watches;
    WatchedIsWatches(s.state, m.xuid, m.uuid);
    assert |m.slots| == 0 <==> m.slots == map[];
  }

  // The snapshot carries the lists if none were sent before, or others were, at least three seconds ago; it
  // then counts as sent at the moment it was queued.
  lemma ListsSentExactlyWhen(s: Session)
    requires s.queued.Some?
    ensures var sends := s.announced.None? ||
                         ((s.announced.value.xuids != s.state.xuids || s.announced.value.uuids != s.state.uuids) &&
                          s.announced.value.stamp + 3_000_000_000 <= s.queued.value);
            && (SendsLists(s) <==> sends)
            && Taken(s) == s.(dirty := false,
                              announced := if sends then Some(Announced(s.state.xuids, s.state.uuids, s.queued.value)) else s.announced)
  {
  }

  // ---- Runs ----

  // `lists` records each watch list sent: its queue stamp and the moment it was written.
  datatype System = System(session: Session, clock: int, heard: set<Message>, lists: seq<(int, int)>)

  datatype Action = Sync(state: PlayerState, now: int) | Receive(message: Message, now: int) | Write(now: int)

  predicate Enabled(s: System, act: Action) {
    s.clock <= act.now && (act.Write? ==> s.session.dirty && s.session.queued.Some?)
  }

  function Next(s: System, act: Action): System
    requires Enabled(s, act)
  {
    match act
    case Sync(state, now) => s.(session := Exchanged(s.session, state, now), clock := now)
    case Receive(m, now) => s.(session := Received(s.session, m, now), clock := now, heard := s.heard + {m})
    case Write(now) =>
      System(Taken(s.session), now, s.heard,
             if SendsLists(s.session) then s.lists + [(s.session.queued.value, now)] else s.lists)
  }

  ghost predicate Heard(e: Emote, xuid: nat, heard: set<Message>) {
    EmoteMessage(true, xuid, e.uuid, Clip(e.clip), e.elapsed, e.validFor) in heard
  }

  // What is kept is watched, was heard, is bounded, and holds a lease no longer than allowed.
  ghost predicate EmotesKept(emotes: map<nat, Emote>, state: PlayerState, heard: set<Message>) {
    && |emotes| <= MOST
    && forall x :: x in emotes ==>
         Watches(state, x, emotes[x].uuid) && 0 < emotes[x].validFor <= LEASE_MS && Heard(emotes[x], x, heard)
  }

  predicate LoadoutsKept(loadouts: map<nat, Loadout>, state: PlayerState) {
    && |loadouts| <= MOST
    && forall x :: x in loadouts ==>
         Watches(state, x, loadouts[x].uuid) && loadouts[x].slots != map[] && loadouts[x].revision <= MAX_REVISION
  }

  ghost predicate Kept(s: System) {
    EmotesKept(s.session.emotes, s.session.state, s.heard) && LoadoutsKept(s.session.loadouts, s.session.state)
  }

  ghost predicate Stamped(s: System) {
    && (s.session.dirty ==> s.session.queued.Some?)
    && (s.session.queued.Some? ==> s.session.queued.value <= s.clock)
    && (s.session.announced.None? <==> s.lists == [])
    && (s.lists != [] ==> s.session.announced.value.stamp == s.lists[|s.lists| - 1].0)
    && (forall i :: 0 <= i < |s.lists| ==> s.lists[i].0 <= s.lists[i].1 <= s.clock)
    && (forall i :: 0 < i < |s.lists| ==> s.lists[i].0 - s.lists[i - 1].0 >= WATCH_SPACING)
  }

  lemma FilterShrinks<T>(m: map<nat, T>, n: map<nat, T>)
    requires n.Keys <= m.Keys
    ensures |n| <= |m|
  {
    SubsetSize(n.Keys, m.Keys);
  }

  lemma {:induction false} SubsetSize(a: set<nat>, b: set<nat>)
    requires a <= b
    ensures |a| <= |b|
    decreases a
  {
    if a != {} {
      var x :| x in a;
      SubsetSize(a - {x}, b - {x});
    }
  }

  lemma SyncKeeps(s: System, state: PlayerState, now: int)
    requires Kept(s)
    ensures Kept(s.(session := Exchanged(s.session, state, now), clock := now))
  {
    FilterShrinks(s.session.emotes, Exchanged(s.session, state, now).emotes);
    FilterShrinks(s.session.loadouts, Exchanged(s.session, state, now).loadouts);
  }

  lemma PutFits<T>(m: map<nat, T>, xuid: nat, value: T)
    requires |m| <= MOST && !Full(m, xuid)
    ensures |m[xuid := value]| <= MOST
  {
    assert m[xuid := value].Keys == m.Keys + {xuid};
  }

  lemma HearingMoreKeeps(emotes: map<nat, Emote>, state: PlayerState, heard: set<Message>, m: Message)
    requires EmotesKept(emotes, state, heard)
    ensures EmotesKept(emotes, state, heard + {m})
  {
    forall x | x in emotes ensures Heard(emotes[x], x, heard + {m}) {
      assert Heard(emotes[x], x, heard);
    }
  }

  lemma PutKeeps(emotes: map<nat, Emote>, state: PlayerState, heard: set<Message>, x: nat, e: Emote)
    requires EmotesKept(emotes, state, heard) && !Full(emotes, x)
    requires Watches(state, x, e.uuid) && 0 < e.validFor <= LEASE_MS && Heard(e, x, heard)
    ensures EmotesKept(emotes[x := e], state, heard)
  {
    PutFits(emotes, x, e);
  }

  lemma EmoteKeeps(s: Session, m: Message, now: int, heard: set<Message>)
    requires m.EmoteMessage? && EmotesKept(s.emotes, s.state, heard)
    ensures EmotesKept(ReceivedEmote(s, m, now).emotes, s.state, heard + {m})
  {
    HearingMoreKeeps(s.emotes, s.state, heard, m);
    if m.wellFormed && Watches(s.state, m.xuid, m.uuid) {
      if m.clip.NoClip? || m.validFor == 0 {
        FilterShrinks(s.emotes, s.emotes - {m.xuid});
      } else if m.clip.Clip? && m.validFor <= LEASE_MS && !Full(s.emotes, m.xuid) {
        PutKeeps(s.emotes, s.state, heard + {m}, m.xuid, Emote(m.uuid, m.clip.id, m.elapsed, m.validFor, now));
      }
    }
  }

  lemma LoadoutKeeps(s: Session, m: Message)
    requires m.LoadoutMessage? && LoadoutsKept(s.loadouts, s.state)
    ensures LoadoutsKept(ReceivedLoadout(s, m).loadouts, s.state)
  {
    var s' := ReceivedLoadout(s, m);
    if m.xuid in s'.loadouts && s'.loadouts != s.loadouts {
      PutFits(s.loadouts, m.xuid, s'.loadouts[m.xuid]);
    } else {
      FilterShrinks(s.loadouts, s'.loadouts);
    }
  }

  lemma ReceiveKeeps(s: System, m: Message, now: int)
    requires Kept(s)
    ensures Kept(s.(session := Received(s.session, m, now), clock := now, heard := s.heard + {m}))
  {
    if m.EmoteMessage? {
      EmoteKeeps(s.session, m, now, s.heard);
    } else {
      LoadoutKeeps(s.session, m);
      forall x | x in s.session.emotes ensures Heard(s.session.emotes[x], x, s.heard + {m}) {
        assert Heard(s.session.emotes[x], x, s.heard);
      }
    }
  }

  lemma SyncStamps(s: System, state: PlayerState, now: int)
    requires Stamped(s) && s.clock <= now
    ensures Stamped(s.(session := Exchanged(s.session, state, now), clock := now))
  {
    assert Exchanged(s.session, state, now).announced == s.session.announced;
  }

  lemma ReceiveStamps(s: System, m: Message, now: int)
    requires Stamped(s) && s.clock <= now
    ensures Stamped(s.(session := Received(s.session, m, now), clock := now, heard := s.heard + {m}))
  {
  }

  lemma WriteStamps(s: System, now: int)
    requires Stamped(s) && Enabled(s, Write(now))
    ensures Stamped(Next(s, Write(now)))
  {
  }

  lemma StepKeeps(s: System, act: Action)
    requires Kept(s) && Stamped(s) && Enabled(s, act)
    ensures Kept(Next(s, act)) && Stamped(Next(s, act))
  {
    match act
    case Sync(state, now) =>
      SyncKeeps(s, state, now);
      SyncStamps(s, state, now);
    case Receive(m, now) =>
      ReceiveKeeps(s, m, now);
      ReceiveStamps(s, m, now);
    case Write(now) =>
      WriteStamps(s, now);
      assert Taken(s.session).emotes == s.session.emotes && Taken(s.session).loadouts == s.session.loadouts;
  }

  ghost predicate Run(states: seq<System>, acts: seq<Action>) {
    && |states| == |acts| + 1 && states[0].session == FRESH && states[0].heard == {} && states[0].lists == []
    && forall i :: 0 <= i < |acts| ==> Enabled(states[i], acts[i]) && states[i + 1] == Next(states[i], acts[i])
  }

  lemma {:induction false} RunKeepsInvariant(states: seq<System>, acts: seq<Action>, i: nat)
    requires Run(states, acts) && i < |states|
    ensures Kept(states[i]) && Stamped(states[i])
    decreases i
  {
    if i > 0 {
      RunKeepsInvariant(states, acts, i - 1);
      StepKeeps(states[i - 1], acts[i - 1]);
    }
  }

  // What is left of a lease.
  lemma AgedSplitsLease(xuid: nat, e: Emote, state: PlayerState, now: int)
    requires Plays(xuid, e, state, now)
    ensures var r := Aged(xuid, e, now); 0 < r.validFor <= e.validFor && r.elapsed + r.validFor == e.elapsed + e.validFor
  {
  }

  // Everything a sync reports is watched by the state it was given, has time left, and splits the lease
  // of a message the server sent for that player without losing any of it.
  lemma ReportsAreLeases(states: seq<System>, acts: seq<Action>, i: nat, r: RemoteEmote)
    requires Run(states, acts) && i < |acts| && acts[i].Sync?
    requires r in Report(states[i].session, acts[i].state, acts[i].now)
    ensures Watches(acts[i].state, r.xuid, r.uuid) && 0 < r.validFor <= LEASE_MS
    ensures exists m :: m in states[i].heard && m.EmoteMessage? && m.xuid == r.xuid && m.uuid == r.uuid && m.clip == Clip(r.clip)
                        && r.elapsed + r.validFor == m.elapsed + m.validFor
  {
    RunKeepsInvariant(states, acts, i);
    var s, state, now := states[i].session, acts[i].state, acts[i].now;
    var x :| x in s.emotes && Plays(x, s.emotes[x], state, now) && r == Aged(x, s.emotes[x], now);
    var e := s.emotes[x];
    AgedSplitsLease(x, e, state, now);
    assert EmoteMessage(true, x, e.uuid, Clip(e.clip), e.elapsed, e.validFor) in states[i].heard;
  }

  // What a remembered emote is: one message, as it arrived, and when.
  ghost predicate Arrived(acts: seq<Action>, k: nat, x: nat, e: Emote) {
    k < |acts| && acts[k] == Receive(EmoteMessage(true, x, e.uuid, Clip(e.clip), e.elapsed, e.validFor), e.received)
  }

  lemma StepArrived(s: System, act: Action, x: nat)
    requires Enabled(s, act) && x in Next(s, act).session.emotes
    ensures var e := Next(s, act).session.emotes[x];
            (x in s.session.emotes && s.session.emotes[x] == e) ||
            act == Receive(EmoteMessage(true, x, e.uuid, Clip(e.clip), e.elapsed, e.validFor), e.received)
  {
  }

  lemma {:induction false} RememberedArrived(states: seq<System>, acts: seq<Action>, i: nat, x: nat) returns (k: nat)
    requires Run(states, acts) && i < |states| && x in states[i].session.emotes
    ensures k < i && Arrived(acts, k, x, states[i].session.emotes[x])
    decreases i
  {
    if i > 0 {
      StepArrived(states[i - 1], acts[i - 1], x);
      if x in states[i - 1].session.emotes && states[i - 1].session.emotes[x] == states[i].session.emotes[x] {
        k := RememberedArrived(states, acts, i - 1, x);
      } else {
        k := i - 1;
      }
    }
  }

  lemma {:induction false} ClockRuns(states: seq<System>, acts: seq<Action>, k: nat, i: nat)
    requires Run(states, acts) && k < i < |acts|
    ensures acts[k].now <= acts[i].now
    decreases i
  {
    assert states[i].clock == acts[i - 1].now;
    if k < i - 1 { ClockRuns(states, acts, k, i - 1); }
  }

  // A lease runs from the moment its message arrived: a report counts the whole milliseconds since, and once
  // they use the lease up there is no report any more.
  lemma ReportsFollowTheClock(states: seq<System>, acts: seq<Action>, i: nat, r: RemoteEmote) returns (k: nat)
    requires Run(states, acts) && i < |acts| && acts[i].Sync? && r in Report(states[i].session, acts[i].state, acts[i].now)
    ensures k < i && acts[k].Receive? && acts[k].message.EmoteMessage? && acts[k].message.wellFormed
    ensures var m, since := acts[k].message, acts[i].now - acts[k].now;
            && m.xuid == r.xuid && m.uuid == r.uuid && m.clip == Clip(r.clip)
            && 0 <= since < m.validFor * MILLISECOND
            && r.elapsed == m.elapsed + since / MILLISECOND && r.validFor == m.validFor - since / MILLISECOND
  {
    var s, state, now := states[i].session, acts[i].state, acts[i].now;
    var x :| x in s.emotes && Plays(x, s.emotes[x], state, now) && r == Aged(x, s.emotes[x], now);
    k := RememberedArrived(states, acts, i, x);
    ClockRuns(states, acts, k, i);
  }

  // What a watched player plays is reported by the next exchange that still watches that player in time.
  lemma HeardIsReported(states: seq<System>, acts: seq<Action>, k: nat)
    requires Run(states, acts) && k + 1 < |acts| && acts[k].Receive? && acts[k].message.EmoteMessage? && acts[k + 1].Sync?
    requires var m, s := acts[k].message, states[k].session;
             m.wellFormed && m.clip.Clip? && 0 < m.validFor <= 15_000 && Watched(s.state, m.xuid, m.uuid) &&
             (m.xuid in s.emotes || |s.emotes| < 128)
    requires var m, state := acts[k].message, acts[k + 1].state;
             state.wellFormed && |Members(state.xuids) + Members(state.uuids)| <= 128 && Watched(state, m.xuid, m.uuid) &&
             acts[k + 1].now - acts[k].now < m.validFor * MILLISECOND
    ensures var m, since := acts[k].message, acts[k + 1].now - acts[k].now;
            RemoteEmote(m.xuid, m.uuid, m.clip.id, m.elapsed + since / MILLISECOND, m.validFor - since / MILLISECOND)
              in Report(states[k + 1].session, acts[k + 1].state, acts[k + 1].now)
  {
    hide Exchanged, ReceivedEmote, ReceivedLoadout, Report;
    var m := acts[k].message;
    EmoteKeptExactlyWhen(states[k].session, m, acts[k].now, m.xuid);
    assert states[k + 1] == Next(states[k], acts[k]) && Enabled(states[k + 1], acts[k + 1]);
    ReportsAreComplete(states[k + 1].session, acts[k + 1].state, acts[k + 1].now, m.xuid);
  }

  // Nothing else is left out: what is remembered, watched and not run out is reported and remembered on.
  lemma ReportsAreComplete(s: Session, state: PlayerState, now: int, x: nat)
    requires x in s.emotes && state.wellFormed && |Members(state.xuids)| + |Members(state.uuids)| <= 128
    ensures var e := s.emotes[x];
            var since := if e.received < now then now - e.received else 0;
            var due := since < e.validFor * MILLISECOND && (x in Members(state.xuids) || e.uuid in Members(state.uuids));
            && (x in Exchanged(s, state, now).emotes <==> due)
            && (due ==> Exchanged(s, state, now).emotes[x] == e &&
                        RemoteEmote(x, e.uuid, e.clip, e.elapsed + since / MILLISECOND, e.validFor - since / MILLISECOND) in Report(s, state, now))
  {
  }

  lemma MapsStayBounded(states: seq<System>, acts: seq<Action>, i: nat)
    requires Run(states, acts) && i < |states|
    ensures |states[i].session.emotes| <= MOST && |states[i].session.loadouts| <= MOST
  {
    RunKeepsInvariant(states, acts, i);
  }

  // While a player's loadout stays remembered its revision never falls.
  lemma {:induction false} RevisionNeverFalls(states: seq<System>, acts: seq<Action>, i: nat, j: nat, xuid: nat)
    requires Run(states, acts) && i <= j < |states|
    requires forall k :: i <= k <= j ==> xuid in states[k].session.loadouts
    ensures states[i].session.loadouts[xuid].revision <= states[j].session.loadouts[xuid].revision
    decreases j
  {
    if i < j {
      RevisionNeverFalls(states, acts, i, j - 1, xuid);
      assert states[j] == Next(states[j - 1], acts[j - 1]);
    }
  }

  // Watch lists are queued at least three seconds apart, and written that far apart less the first one's delay.
  lemma ListsAreSpaced(states: seq<System>, acts: seq<Action>, i: nat, k: nat)
    requires Run(states, acts) && i < |states| && 0 < k < |states[i].lists|
    ensures var first, second := states[i].lists[k - 1], states[i].lists[k];
            && second.0 - first.0 >= WATCH_SPACING
            && second.1 - first.1 >= WATCH_SPACING - (first.1 - first.0)
  {
    RunKeepsInvariant(states, acts, i);
  }

  // Once both spacings have passed, one exchange and one write tell the server exactly what is watched.
  lemma WatchesReachTheServer(states: seq<System>, acts: seq<Action>, i: nat, state: PlayerState, now: int)
    requires Run(states, acts) && i < |states| && Admissible(state)
    requires Since(states[i].session.queued, now, SPACING) && Due(states[i].session, now)
    ensures var s := Exchanged(states[i].session, state, now);
            s.queued.Some? && !ListsPending(Taken(s), state)
  {
    RunKeepsInvariant(states, acts, i);
  }

  // The bound is attained: however long the writer is held up over the first list, up to the spacing
  // itself, there is a run in which the second is written that much closer to it.
  lemma SpacingIsAttained(delay: nat) returns (states: seq<System>, acts: seq<Action>)
    requires delay <= WATCH_SPACING
    ensures Run(states, acts)
    ensures var lists := states[|states| - 1].lists;
            |lists| == 2 && lists[0].1 - lists[0].0 == delay && lists[1].1 - lists[0].1 == WATCH_SPACING - delay
  {
    var one, two := NO_PLAYER.(xuids := Some([1])), NO_PLAYER.(xuids := Some([2]));
    var s0 := System(FRESH, 0, {}, []);
    acts := [Sync(one, 0), Write(delay), Sync(two, WATCH_SPACING), Write(WATCH_SPACING)];
    var s1 := Next(s0, acts[0]);
    var s2 := Next(s1, acts[1]);
    var s3 := Next(s2, acts[2]);
    var s4 := Next(s3, acts[3]);
    states := [s0, s1, s2, s3, s4];
  }

  // The instance to remember: queued three seconds apart, two lists can be written a millisecond apart.
  lemma ListsCanBeWrittenClose() returns (states: seq<System>, acts: seq<Action>)
    ensures Run(states, acts)
    ensures var lists := states[|states| - 1].lists; |lists| == 2 && lists[1].1 - lists[0].1 == MILLISECOND
  {
    states, acts := SpacingIsAttained(WATCH_SPACING - MILLISECOND);
  }
}
