/**
 When refusing another XSTS token of a relying party lets a forgotten one come back. From any state in
 which the invariant holds, over all careful continuations: for a token whose eviction is published, exactly
 when the account has a copy that its next adoption of a bundle does not end; for one not evicted yet that the
 next reload would restore, exactly when its removal from SISU is still queued.
 */
module CarelessRefusals {
  import opened AuthTypes
  import opened Wrappers
  import opened BundleMerge
  import opened AccountSpec
  import opened EvictionProtocol
  import opened EvictionProof

  // ---- Careful continuations ----

  ghost predicate Reach(scope: Scope, s: System, s': System, n: nat)
    decreases n
  {
    if n == 0 then s == s'
    else exists mid, act :: Reach(scope, s, mid, n - 1) && Enabled(mid, act) && Careful(mid, act) && s' == Next(scope, mid, act)
  }

  ghost predicate Reaches(scope: Scope, s: System, s': System) {
    exists n: nat :: Reach(scope, s, s', n)
  }

  lemma Stays(scope: Scope, s: System)
    ensures Reaches(scope, s, s)
  {
    assert Reach(scope, s, s, 0);
  }

  lemma Onward(scope: Scope, s0: System, s: System, act: Action) returns (s': System)
    requires Reaches(scope, s0, s) && Enabled(s, act) && Careful(s, act)
    ensures s' == Next(scope, s, act) && Reaches(scope, s0, s')
  {
    s' := Next(scope, s, act);
    var n: nat :| Reach(scope, s0, s, n);
    assert Reach(scope, s0, s', n + 1);
  }

  lemma {:induction false} CarefulContinuationsEvict(scope: Scope, s: System, s': System, n: nat)
    requires Inv(scope, s) && Reach(scope, s, s', n)
    ensures Inv(scope, s') && s.evicted <= s'.evicted
    decreases n
  {
    hide Inv, Next;
    if n > 0 {
      var mid, act :| Reach(scope, s, mid, n - 1) && Enabled(mid, act) && Careful(mid, act) && s' == Next(scope, mid, act);
      CarefulContinuationsEvict(scope, s, mid, n - 1);
      StepKeeps(scope, mid, act);
      OneStepEvicts(scope, mid, act);
    }
  }

  lemma OneStepEvicts(scope: Scope, s: System, act: Action)
    requires Enabled(s, act)
    ensures s.evicted <= Next(scope, s, act).evicted
  {
  }

  // ---- Steps, and what they leave alone ----

  ghost predicate Beside(s: System, s': System, p: nat) {
    && s'.now == s.now && p in s'.processes && s'.processes.Keys == s.processes.Keys + {p}
    && forall o :: o in s.processes && o != p ==> s'.processes[o] == s.processes[o]
  }

  ghost predicate SameFile(s: System, s': System) {
    s'.file == s.file && s'.evicted == s.evicted
  }

  lemma LocalStep(scope: Scope, s0: System, s: System, act: Action) returns (s': System)
    requires Reaches(scope, s0, s) && !act.Tick? && !act.Open? && !act.Write? && Enabled(s, act) && Careful(s, act)
    ensures Reaches(scope, s0, s') && Beside(s, s', act.p) && SameFile(s, s')
    ensures s'.processes[act.p] == Noted(Stepped(s, s.processes[act.p], act))
  {
    s' := Onward(scope, s0, s, act);
  }

  lemma NewDeviceOnly(scope: Scope, s0: System, s: System, p: nat, d: Token) returns (s': System)
    requires Reaches(scope, s0, s) && p in s.processes
    ensures Reaches(scope, s0, s') && Beside(s, s', p) && SameFile(s, s')
    ensures var q, q' := s.processes[p], s'.processes[p];
            q'.account == q.account.(deviceToken := Some(d)) && q'.pending == q.pending && q'.results == q.results && q'.evictions == q.evictions
            && q.seen <= q'.seen
  {
    s' := LocalStep(scope, s0, s, NewDevice(p, d));
  }

  // The account has a snapshot of its present session, and no older one.
  lemma SnapshotOnly(scope: Scope, s0: System, s: System, p: nat) returns (s': System)
    requires Reaches(scope, s0, s) && p in s.processes
    ensures Reaches(scope, s0, s') && Beside(s, s', p) && SameFile(s, s')
    ensures var q, q' := s.processes[p], s'.processes[p];
            && q'.account == q.account && q'.results == q.results && q'.evictions == q.evictions
            && q'.pending == Some(Pending(q.account.session.serial, q.account.session.secrets))
            && q.seen + Names(SisuTokens(q.account)) <= q'.seen
  {
    if s.processes[p].pending.Some? {
      var s1 := LocalStep(scope, s0, s, Abandon(p));
      s' := LocalStep(scope, s0, s1, TakeSnapshot(p));
    } else {
      s' := LocalStep(scope, s0, s, TakeSnapshot(p));
    }
  }

  // Writing by an account in step with the file.
  lemma WriteOnly(scope: Scope, s0: System, s: System, p: nat) returns (s': System)
    requires Reaches(scope, s0, s) && p in s.processes
    requires var q := s.processes[p];
             && q.account.persisted == s.file && q.account.deviceToken.Some? && q.account.proofKey.Some?
             && q.pending.Some? && q.pending.value.serial == q.account.session.serial
             && s.file != Some(BundleOf(q.account, q.pending.value.secrets))
    ensures Reaches(scope, s0, s') && Beside(s, s', p)
    ensures var q, q' := s.processes[p], s'.processes[p];
            var b := BundleOf(q.account, q.pending.value.secrets);
            && s'.file == Some(b) && q'.account == q.account.(persisted := Some(b), synced := SyncedFrom(b))
            && q'.pending.None? && q'.results == q.results && q'.evictions == q.evictions && q.seen <= q'.seen
            && s'.evicted == s.evicted + Carried(q')
  {
    var q := s.processes[p];
    assert !Unseen(q.account, s.file);
    s' := Onward(scope, s0, s, Write(p, true, true));
  }

  // A publication under a new device token.
  lemma Publishes(scope: Scope, s0: System, s: System, p: nat, d: Token) returns (s': System)
    requires Reaches(scope, s0, s) && p in s.processes
    requires var a := s.processes[p].account;
             a.persisted == s.file && a.proofKey.Some? && s.file != Some(BundleOf(a.(deviceToken := Some(d)), a.session.secrets))
    ensures Reaches(scope, s0, s') && Beside(s, s', p)
    ensures var q, q' := s.processes[p], s'.processes[p];
            var b := BundleOf(q.account.(deviceToken := Some(d)), q.account.session.secrets);
            && s'.file == Some(b) && q'.account == q.account.(deviceToken := Some(d), persisted := Some(b), synced := SyncedFrom(b))
            && q'.results == q.results && q'.evictions == q.evictions && q.seen <= q'.seen
            && s'.evicted == s.evicted + Carried(q')
  {
    var s1 := NewDeviceOnly(scope, s0, s, p, d);
    var s2 := SnapshotOnly(scope, s0, s1, p);
    s' := WriteOnly(scope, s0, s2, p);
  }

  // ---- Another account ----

  lemma {:induction false} Above(keys: set<nat>) returns (n: nat)
    ensures forall k :: k in keys ==> k < n
  {
    if keys == {} {
      n := 0;
    } else {
      var k :| k in keys;
      var m := Above(keys - {k});
      n := if m <= k then k + 1 else m;
      assert forall j :: j in keys ==> j == k || j in keys - {k};
    }
  }

  lemma NewAccountTakesFile(scope: Scope, b: Bundle, now: int)
    requires BundleInScope(scope, b)
    ensures var a := Reload(NewAccount(scope), Some(b), now);
            && InScope(scope, a) && a.persisted == Some(b) && a.rejected == map[] && a.synced == SyncedFrom(b)
            && SisuTokens(a) == b.sisu.value.xsts && a.mirror == b.sisu.value.xsts
            && LiveEnv(a).None? && a.cachedEnv == b.environment
  {
    var a := NewAccount(scope);
    var merged := MergedFile(a, b, None, now);
    forall rp ensures At(merged.sisu.value.xsts, rp) == At(b.sisu.value.xsts, rp) {
      MergedXstsAt(b, LocalOf(a), None, now, rp);
    }
    SameAtEveryKey(merged.sisu.value.xsts, b.sisu.value.xsts);
    assert WithoutRejected(merged.sisu.value.xsts, map[]) == merged.sisu.value.xsts;
  }

  // A new account that has adopted the file.
  lemma Opens(scope: Scope, s0: System, s: System) returns (s': System, o: nat)
    requires Reaches(scope, s0, s) && s.file.Some? && BundleInScope(scope, s.file.value)
    ensures o !in s.processes && Reaches(scope, s0, s') && Beside(s, s', o) && SameFile(s, s')
    ensures s'.processes[o].account == Reload(NewAccount(scope), s.file, s.now)
    ensures Names(s.file.value.sisu.value.xsts) <= s'.processes[o].seen
  {
    o := Above(s.processes.Keys);
    assert o !in s.processes;
    s' := Onward(scope, s0, s, Open(o));
    NewAccountTakesFile(scope, s.file.value, s.now);
  }

  // The account `o`, which has refused nothing, refuses the file's token of `rp`, if there is one.
  lemma RefusesHeld(scope: Scope, s0: System, s: System, o: nat, rp: RelyingParty) returns (s': System)
    requires Reaches(scope, s0, s) && o in s.processes && s.processes[o].account.rejected == map[]
    ensures Reaches(scope, s0, s') && Beside(s, s', o) && SameFile(s, s')
    ensures var q, q' := s.processes[o], s'.processes[o];
            var held := At(SisuTokens(q.account), rp);
            && q'.account == (if held.Some? then RejectXsts(q.account, rp, held.value) else q.account)
            && q'.pending == q.pending && q.seen <= q'.seen
  {
    if rp in SisuTokens(s.processes[o].account) {
      s' := LocalStep(scope, s0, s, Refuse(o, rp, SisuTokens(s.processes[o].account)[rp]));
    } else {
      s' := s;
    }
  }

  // The file once an account that has refused its token of `rp` has published it under a new device token.
  ghost predicate Cleared(scope: Scope, file: Option<Bundle>, was: Option<Bundle>, rp: RelyingParty) {
    && file.Some? && BundleInScope(scope, file.value) && file != was && rp !in file.value.sisu.value.xsts
  }

  lemma Clears(scope: Scope, s0: System, s: System, o: nat, rp: RelyingParty, was: Option<Bundle>) returns (s': System)
    requires Reaches(scope, s0, s) && o in s.processes && s.file.Some? && BundleInScope(scope, s.file.value)
    requires var a := s.processes[o].account;
             && InScope(scope, a) && a.persisted == s.file && LiveEnv(a).None? && a.cachedEnv == s.file.value.environment
             && (rp in SisuTokens(a) ==> Refused(a, rp, SisuTokens(a)[rp]))
    ensures Reaches(scope, s0, s') && Beside(s, s', o) && Cleared(scope, s'.file, s.file, rp)
    ensures s'.evicted == s.evicted + Carried(s'.processes[o]) && s.processes[o].seen <= s'.processes[o].seen
    ensures s'.processes[o].account.rejected == s.processes[o].account.rejected && Cleared(scope, s'.file, was, rp)
  {
    var a := s.processes[o].account;
    var d := OtherDevice(s.file, was);
    var b := BundleOf(a.(deviceToken := Some(d)), a.session.secrets);
    s' := Publishes(scope, s0, s, o, d);
  }

  // A device token of neither bundle.
  function OtherDevice(file: Option<Bundle>, was: Option<Bundle>): (d: Token)
    ensures (file.Some? ==> file.value.device != Some(d)) && (was.Some? ==> was.value.device != Some(d))
  {
    var first := if file.Some? && file.value.device.Some? then file.value.device.value.notAfter else 0;
    var second := if was.Some? && was.value.device.Some? then was.value.device.value.notAfter else 0;
    Token(0, if first < second then second + 1 else first + 1)
  }

  // ---- The account that forgot ----

  // An account in step with the file publishes whatever its SISU session holds and it does not refuse.
  lemma SisuCopyReturns(scope: Scope, s0: System, s: System, p: nat, rp: RelyingParty, id: nat) returns (s': System)
    requires Reaches(scope, s0, s) && p in s.processes && (rp, id) !in FileNames(s.file)
    requires var a := s.processes[p].account;
             && a.persisted == s.file && a.proofKey.Some?
             && rp in SisuTokens(a) && SisuTokens(a)[rp].id == id && !Refused(a, rp, SisuTokens(a)[rp])
    ensures Reaches(scope, s0, s') && (rp, id) in FileNames(s'.file) && s.evicted <= s'.evicted
  {
    var a := s.processes[p].account;
    var d := Token(0, 0);
    var b := BundleOf(a.(deviceToken := Some(d)), a.session.secrets);
    assert (rp, id) in BundleNames(b) && BundleNames(b) == FileNames(Some(b));
    s' := Publishes(scope, s0, s, p, d);
  }

  lemma PendingCopyReturns(scope: Scope, s0: System, s: System, p: nat, rp: RelyingParty, id: nat) returns (s': System)
    requires Reaches(scope, s0, s) && p in s.processes && (rp, id) !in FileNames(s.file)
    requires var q := s.processes[p];
             && q.account.persisted == s.file && q.account.proofKey.Some?
             && q.pending.Some? && q.pending.value.serial == q.account.session.serial
             && rp in q.pending.value.secrets.xsts && q.pending.value.secrets.xsts[rp].id == id
             && !Refused(q.account, rp, q.pending.value.secrets.xsts[rp])
    ensures Reaches(scope, s0, s') && (rp, id) in FileNames(s'.file) && s.evicted <= s'.evicted
  {
    var q := s.processes[p];
    var d := Token(0, 0);
    var b := BundleOf(q.account.(deviceToken := Some(d)), q.pending.value.secrets);
    assert (rp, id) in BundleNames(b) && BundleNames(b) == FileNames(Some(b));
    var s1 := NewDeviceOnly(scope, s0, s, p, d);
    s' := WriteOnly(scope, s0, s1, p);
  }

  // A token only the mirror holds comes back with the next bundle that has none for its relying party.
  lemma MirrorTakesOver(scope: Scope, a: AccountState, file: Option<Bundle>, now: int, rp: RelyingParty, t: Token)
    requires InScope(scope, a) && Cleared(scope, file, a.persisted, rp)
    requires At(a.mirror, rp) == Some(t) && now < t.notAfter && SyncedXsts(a.synced, rp) != Some(t.id) && !Refused(a, rp, t)
    ensures var r := Reload(a, file, now);
            && r.persisted == file && r.proofKey.Some? && r.rejected == a.rejected
            && At(SisuTokens(r), rp) == Some(t)
  {
    var b := file.value;
    var merged := MergedFile(a, b, None, now);
    MergedXstsAt(b, LocalOf(a), None, now, rp);
    assert Restorable(a, merged);
    assert SisuTokens(Reload(a, file, now)) == WithoutRejected(merged.sisu.value.xsts, a.rejected);
  }

  lemma MirrorCopyReturns(scope: Scope, s0: System, s: System, p: nat, rp: RelyingParty, t: Token) returns (s': System)
    requires Reaches(scope, s0, s) && p in s.processes
    requires var a := s.processes[p].account;
             && InScope(scope, a) && Cleared(scope, s.file, a.persisted, rp)
             && At(a.mirror, rp) == Some(t) && s.now < t.notAfter && SyncedXsts(a.synced, rp) != Some(t.id) && !Refused(a, rp, t)
    ensures Reaches(scope, s0, s') && (rp, t.id) in FileNames(s'.file) && s.evicted <= s'.evicted
  {
    hide Cleared;
    var a := s.processes[p].account;
    MirrorTakesOver(scope, a, s.file, s.now, rp, t);
    var s1 := LocalStep(scope, s0, s, LoadFile(p));
    NotInCleared(scope, s.file, a.persisted, rp, t.id);
    s' := SisuCopyReturns(scope, s0, s1, p, rp, t.id);
  }

  lemma NotInCleared(scope: Scope, file: Option<Bundle>, was: Option<Bundle>, rp: RelyingParty, id: nat)
    requires Cleared(scope, file, was, rp)
    ensures (rp, id) !in FileNames(file)
  {
  }

  // A result that comes back to the session it was requested on reaches the mirror.
  lemma ResultArrives(scope: Scope, s0: System, s: System, p: nat, r: Result) returns (s': System)
    requires Reaches(scope, s0, s) && p in s.processes && r in s.processes[p].results
    requires r.serial == s.processes[p].account.session.serial && !Refused(s.processes[p].account, r.rp, r.token)
    ensures Reaches(scope, s0, s') && Beside(s, s', p) && SameFile(s, s')
    ensures var q, q' := s.processes[p], s'.processes[p];
            q'.account == q.account.(mirror := q.account.mirror[r.rp := r.token]) && q'.pending == q.pending && q'.evictions == q.evictions
  {
    s' := LocalStep(scope, s0, s, Return(p, r, None));
  }

  // A new account takes the file's own token of `rp` out of it; the result is not `was` either.
  lemma OtherClears(scope: Scope, s0: System, s: System, rp: RelyingParty, was: Option<Bundle>) returns (s': System, o: nat)
    requires Reaches(scope, s0, s) && s.file.Some? && BundleInScope(scope, s.file.value)
    ensures Reaches(scope, s0, s') && Cleared(scope, s'.file, was, rp) && s'.now == s.now && s.evicted <= s'.evicted
    ensures o !in s.processes && forall p :: p in s.processes ==> p in s'.processes && s'.processes[p] == s.processes[p]
  {
    hide Reload, Cleared;
    var s1: System;
    s1, o := Opens(scope, s0, s);
    NewAccountTakesFile(scope, s.file.value, s.now);
    var s2 := RefusesHeld(scope, s0, s1, o, rp);
    s' := Clears(scope, s0, s2, o, rp, was);
  }

  // A result still on its way: it reaches the mirror, another account clears the file's own token, and
  // the mirror's copy takes its place.
  lemma ResultReturns(scope: Scope, s0: System, s: System, p: nat, r: Result) returns (s': System)
    requires Reaches(scope, s0, s) && p in s.processes && r in s.processes[p].results
    requires s.file.Some? && BundleInScope(scope, s.file.value)
    requires var a := s.processes[p].account;
             && InScope(scope, a) && SyncedXsts(a.synced, r.rp) != Some(r.token.id)
             && r.serial == a.session.serial && s.now < r.token.notAfter && !Refused(a, r.rp, r.token)
    ensures Reaches(scope, s0, s') && (r.rp, r.token.id) in FileNames(s'.file) && s.evicted <= s'.evicted
  {
    hide Cleared, Reach;
    var s1 := ResultArrives(scope, s0, s, p, r);
    var s2, o := OtherClears(scope, s0, s1, r.rp, s.processes[p].account.persisted);
    s' := MirrorCopyReturns(scope, s0, s2, p, r.rp, r.token);
  }

  // A token SISU still hands out: the account reads it once more.
  lemma ReadReturns(scope: Scope, s0: System, s: System, p: nat, rp: RelyingParty, t: Token) returns (s': System)
    requires Reaches(scope, s0, s) && p in s.processes && s.file.Some? && BundleInScope(scope, s.file.value)
    requires var a := s.processes[p].account;
             && InScope(scope, a) && SyncedXsts(a.synced, rp) != Some(t.id)
             && At(SisuTokens(a), rp) == Some(t) && s.now < t.notAfter && !Refused(a, rp, t)
    ensures Reaches(scope, s0, s') && (rp, t.id) in FileNames(s'.file) && s.evicted <= s'.evicted
  {
    var s1 := LocalStep(scope, s0, s, ReadCached(p, rp));
    s' := ResultReturns(scope, s0, s1, p, Result(s.processes[p].account.session.serial, rp, t));
  }

  // ---- The refusal ----

  // Refusing `other` makes the account forget another rejection.
  predicate Overwrites(s: System, p: nat, rp: RelyingParty, other: Token) {
    && p in s.processes && rp in s.processes[p].account.rejected && s.processes[p].account.rejected[rp].id != other.id
  }

  function Overwritten(s: System, p: nat, rp: RelyingParty, other: Token): nat
    requires Overwrites(s, p, rp, other)
  {
    s.processes[p].account.rejected[rp].id
  }

  function Refusal(scope: Scope, s: System, p: nat, rp: RelyingParty, other: Token): System
    requires p in s.processes
  {
    Next(scope, s, Refuse(p, rp, other))
  }

  // What the invariant says of the account that refuses another token, and of the file.
  lemma Refusing(scope: Scope, s: System, p: nat, rp: RelyingParty, other: Token, id: nat) returns (s1: System)
    requires Inv(scope, s) && p in s.processes && (rp, id) in s.evicted && id != other.id
    ensures s1 == Next(scope, s, Refuse(p, rp, other)) && Reaches(scope, s1, s1)
    ensures p in s1.processes && s1.file == s.file && s1.evicted == s.evicted && s1.published == s.published && s1.now == s.now
    ensures s1.file.Some? && BundleInScope(scope, s1.file.value) && (rp, id) !in FileNames(s1.file)
    ensures var q, q1 := s.processes[p], s1.processes[p];
            && q1.account == RejectXsts(q.account, rp, other) && q1.pending == q.pending && q1.results == q.results
            && InScope(scope, q1.account) && SyncedNamesPersisted(q1.account)
            && (forall t: Token :: t.id == id ==> !Refused(q1.account, rp, t))
  {
    s1 := Next(scope, s, Refuse(p, rp, other));
    Stays(scope, s1);
    assert Good(scope, s.processes[p], s) && FileGood(scope, s);
  }

  // In an account in step with the file, a copy in SISU, in a snapshot or on its way back is enough.
  lemma CarelessRefusalReturns(scope: Scope, s: System, p: nat, rp: RelyingParty, other: Token) returns (s': System)
    requires Inv(scope, s) && Overwrites(s, p, rp, other) && (rp, Overwritten(s, p, rp, other)) in s.evicted
    requires s.processes[p].account.persisted == s.file && HasCopy(s.processes[p], s.now, rp, Overwritten(s, p, rp, other))
    ensures var n := (rp, Overwritten(s, p, rp, other));
            Reaches(scope, Refusal(scope, s, p, rp, other), s') && n in FileNames(s'.file) && n in s'.evicted
  {
    hide Inv, Next, Good;
    var q, id := s.processes[p], Overwritten(s, p, rp, other);
    var s1 := Refusing(scope, s, p, rp, other, id);
    if Id(At(SisuTokens(q.account), rp)) == Some(id) {
      s' := SisuCopyReturns(scope, s1, s1, p, rp, id);
    } else if Id(At(PendingTokens(q), rp)) == Some(id) {
      s' := PendingCopyReturns(scope, s1, s1, p, rp, id);
    } else {
      var r :| r in q.results && r.serial == q.account.session.serial && r.rp == rp && r.token.id == id && s.now < r.token.notAfter;
      NamesSynced(s.file.value, rp, id);
      s' := ResultReturns(scope, s1, s1, p, r);
    }
  }

  // ---- An account behind the file ----

  // Of the copies SISU or a snapshot has, none has run out.
  predicate Unexpired(q: Process, now: int, rp: RelyingParty, id: nat) {
    && (Id(At(SisuTokens(q.account), rp)) == Some(id) ==> Valid(At(SisuTokens(q.account), rp), now))
    && (Id(At(PendingTokens(q), rp)) == Some(id) ==> Valid(At(PendingTokens(q), rp), now))
  }

  // The mirror would win the merge against a snapshot's token of `rp`.
  predicate MirrorContends(a: AccountState, now: int, rp: RelyingParty) {
    Valid(At(a.mirror, rp), now) && Id(At(a.mirror, rp)) != SyncedXsts(a.synced, rp)
  }

  // A snapshot's token is what the account writes after adopting a file that has none for `rp`.
  lemma SnapshotTakesOver(scope: Scope, a: AccountState, snapshot: Snapshot, file: Option<Bundle>, now: int, rp: RelyingParty, t: Token)
    requires InScope(scope, a) && Cleared(scope, file, a.persisted, rp) && !MirrorContends(a, now, rp)
    requires At(snapshot.xsts, rp) == Some(t) && now < t.notAfter && SyncedXsts(a.synced, rp) != Some(t.id) && !Refused(a, rp, t)
    ensures var r := CatchUp(a, snapshot, file, now);
            && At(r.snapshot.xsts, rp) == Some(t) && r.account.persisted == file && r.account.rejected == a.rejected
            && r.account.deviceToken.Some? && r.account.proofKey.Some?
  {
    var merged := MergedFile(a, file.value, Some(snapshot), now);
    MergedXstsAt(file.value, LocalOf(a), Some(snapshot), now, rp);
    assert Restorable(a, merged);
  }

  lemma WrittenSnapshot(scope: Scope, a: AccountState, snapshot: Snapshot, file: Option<Bundle>, now: int, rp: RelyingParty, t: Token)
    requires InScope(scope, a) && Cleared(scope, file, a.persisted, rp) && !MirrorContends(a, now, rp)
    requires At(snapshot.xsts, rp) == Some(t) && now < t.notAfter && SyncedXsts(a.synced, rp) != Some(t.id) && !Refused(a, rp, t)
    ensures var w := Commit(a, snapshot, file, now, true, true).written; w.Some? && (rp, t.id) in BundleNames(w.value)
  {
    hide CatchUp;
    SnapshotTakesOver(scope, a, snapshot, file, now, rp, t);
    var r := CatchUp(a, snapshot, file, now);
    var b := BundleOf(r.account, r.snapshot);
    assert (rp, t.id) in BundleNames(b) && rp !in file.value.sisu.value.xsts;
  }

  lemma SnapshotReturns(scope: Scope, s0: System, s: System, p: nat, rp: RelyingParty, t: Token) returns (s': System)
    requires Reaches(scope, s0, s) && p in s.processes && s.file.Some? && BundleInScope(scope, s.file.value)
    requires var a := s.processes[p].account;
             && InScope(scope, a) && !MirrorContends(a, s.now, rp)
             && At(PendingTokens(s.processes[p]), rp) == Some(t) && s.now < t.notAfter
             && SyncedXsts(a.synced, rp) != Some(t.id) && !Refused(a, rp, t)
    ensures Reaches(scope, s0, s') && (rp, t.id) in FileNames(s'.file) && s.evicted <= s'.evicted
  {
    hide Cleared;
    var a := s.processes[p].account;
    var s1, o := OtherClears(scope, s0, s, rp, a.persisted);
    WrittenSnapshot(scope, a, s.processes[p].pending.value.secrets, s1.file, s1.now, rp, t);
    s' := Onward(scope, s0, s1, Write(p, true, true));
  }

  // A contending mirror token can be refused first: of the token refused before it there is no copy left.
  lemma MirrorYields(scope: Scope, s0: System, s: System, s1: System, p: nat, rp: RelyingParty, other: Token, id: nat) returns (s': System)
    requires Inv(scope, s) && p in s.processes && Reaches(scope, s0, s1) && p in s1.processes
    requires s1.now == s.now && s1.evicted == s.evicted && s1.published == s.published && s1.file == s.file
    requires var q, q1 := s.processes[p], s1.processes[p];
             && rp in q.account.rejected && q.account.rejected[rp].id == id != other.id && Id(At(PendingTokens(q), rp)) == Some(id)
             && q1.account == RejectXsts(q.account, rp, other) && q1.pending == q.pending && q1.results == q.results
             && MirrorContends(q1.account, s.now, rp)
    ensures Reaches(scope, s0, s') && p in s'.processes && s'.file == s.file && s'.now == s.now && s.evicted <= s'.evicted
    ensures var q, q' := s.processes[p], s'.processes[p];
            && rp !in q'.account.mirror && q'.pending == q.pending && q'.account.session == q.account.session
            && q'.account.synced == q.account.synced && rp in q'.account.rejected && q'.account.rejected[rp].id != id
            && (InScope(scope, q.account) ==> InScope(scope, q'.account))
  {
    var m := s1.processes[p].account.mirror[rp];
    var s2 := s1;
    if (rp, other.id) in s1.processes[p].evictions {
      s2 := LocalStep(scope, s0, s1, ForgetInSisu(p, rp, other.id, true));
    }
    OtherHasNoCopy(scope, s, p, rp, other, id);
    s' := LocalStep(scope, s0, s2, Refuse(p, rp, m));
  }

  lemma OtherHasNoCopy(scope: Scope, s: System, p: nat, rp: RelyingParty, other: Token, id: nat)
    requires Inv(scope, s) && p in s.processes
    requires var q := s.processes[p];
             && rp in q.account.rejected && q.account.rejected[rp].id == id != other.id && Id(At(PendingTokens(q), rp)) == Some(id)
             && MirrorContends(RejectXsts(q.account, rp, other), s.now, rp)
    ensures var q := s.processes[p];
            && At(SisuTokens(q.account), rp) == At(q.account.mirror, rp) && Id(At(q.account.mirror, rp)) !in {Some(id), Some(other.id)}
            && (Doomed(q.account, rp, other.id, s.evicted) || !HasCopy(q, s.now, rp, other.id))
  {
    var q := s.processes[p];
    assert Good(scope, q, s);
    assert !RejectedXsts(q.account, rp, At(q.account.mirror, rp));
    assert Backed(q.account, rp, q.account.mirror[rp], s.now, s.evicted);
  }

  lemma ReturnsBehind(scope: Scope, s: System, p: nat, rp: RelyingParty, other: Token) returns (s': System)
    requires Inv(scope, s) && Overwrites(s, p, rp, other) && (rp, Overwritten(s, p, rp, other)) in s.evicted
    requires HasCopy(s.processes[p], s.now, rp, Overwritten(s, p, rp, other)) && Unexpired(s.processes[p], s.now, rp, Overwritten(s, p, rp, other))
    requires !Doomed(s.processes[p].account, rp, Overwritten(s, p, rp, other), s.evicted)
    ensures var n := (rp, Overwritten(s, p, rp, other));
            Reaches(scope, Refusal(scope, s, p, rp, other), s') && n in FileNames(s'.file) && n in s'.evicted
  {
    hide Inv, Next, Good;
    var q, id := s.processes[p], Overwritten(s, p, rp, other);
    var s1 := Refusing(scope, s, p, rp, other, id);
    if Id(At(SisuTokens(q.account), rp)) == Some(id) {
      s' := ReadReturns(scope, s1, s1, p, rp, SisuTokens(q.account)[rp]);
    } else if Id(At(PendingTokens(q), rp)) == Some(id) {
      var s2 := s1;
      if MirrorContends(s1.processes[p].account, s1.now, rp) {
        s2 := MirrorYields(scope, s1, s, s1, p, rp, other, id);
      }
      s' := SnapshotReturns(scope, s1, s2, p, rp, PendingTokens(q)[rp]);
    } else {
      var r :| r in q.results && r.serial == q.account.session.serial && r.rp == rp && r.token.id == id && s.now < r.token.notAfter;
      s' := ResultReturns(scope, s1, s1, p, r);
    }
  }

  ghost predicate Returns(scope: Scope, s: System, n: Name) {
    exists s' :: Reaches(scope, s, s') && n in s'.evicted && n in FileNames(s'.file)
  }

  lemma CarefulRefusalNeverReturns(scope: Scope, s: System, p: nat, rp: RelyingParty, other: Token, n: Name)
    requires Inv(scope, s) && p in s.processes && MayRefuse(s.processes[p], s.now, s.published, s.evicted, rp, other)
    ensures !Returns(scope, Next(scope, s, Refuse(p, rp, other)), n)
  {
    StepKeeps(scope, s, Refuse(p, rp, other));
    var s1 := Next(scope, s, Refuse(p, rp, other));
    forall s' | Reaches(scope, s1, s') && n in s'.evicted ensures n !in FileNames(s'.file) {
      var k: nat :| Reach(scope, s1, s', k);
      CarefulContinuationsEvict(scope, s1, s', k);
    }
  }

  // For a token whose eviction is published: refusing another token can be followed, by careful steps only,
  // by the evicted token's return exactly when the account has a copy that its next adoption of a bundle does
  // not end. An account behind the file is asked for copies that have not run out, as only those are merged.
  lemma EvictedTokenReturnsExactlyWhen(scope: Scope, s: System, p: nat, rp: RelyingParty, other: Token)
    requires Overwrites(s, p, rp, other) && Inv(scope, s) && (rp, Overwritten(s, p, rp, other)) in s.evicted
    requires s.processes[p].account.persisted == s.file || Unexpired(s.processes[p], s.now, rp, Overwritten(s, p, rp, other))
    ensures var n := (rp, Overwritten(s, p, rp, other));
            var kept := HasCopy(s.processes[p], s.now, rp, n.1) && !Doomed(s.processes[p].account, rp, n.1, s.evicted);
            && (Returns(scope, Refusal(scope, s, p, rp, other), n) <==> kept)
            && (kept <==> !MayRefuse(s.processes[p], s.now, s.published, s.evicted, rp, other))
            && (s.processes[p].account.persisted == s.file ==> !Doomed(s.processes[p].account, rp, n.1, s.evicted))
  {
    hide Inv, Next, HasCopy, CopiesAgree, Doomed;
    var q := s.processes[p];
    var n := (rp, q.account.rejected[rp].id);
    if q.account.persisted == s.file { InStepDoomsNothing(scope, s, p, rp, n.1); }
    if !Doomed(q.account, rp, n.1, s.evicted) { EvictedCopiesDisagree(q, s.now, s.published, s.evicted, rp, n.1); }
    if !HasCopy(q, s.now, rp, n.1) || Doomed(q.account, rp, n.1, s.evicted) {
      CarefulRefusalNeverReturns(scope, s, p, rp, other, n);
    } else if q.account.persisted == s.file {
      var s' := CarelessRefusalReturns(scope, s, p, rp, other);
    } else {
      var s' := ReturnsBehind(scope, s, p, rp, other);
    }
  }

  // ---- An invalidation that has not reached SISU yet ----

  // What a reload would restore to an account that has forgotten a rejection: the token it no longer refuses.
  ghost predicate Restores(a: AccountState, file: Option<Bundle>, now: int, rp: RelyingParty, id: nat) {
    && file.Some? && (rp, id) in BundleNames(file.value)
    && Id(At(SisuTokens(Reload(a, file, now)), rp)) == Some(id) && Valid(At(SisuTokens(Reload(a, file, now)), rp), now)
  }

  lemma ReloadCatchesUp(scope: Scope, a: AccountState, b: Bundle, now: int)
    requires InScope(scope, a) && BundleInScope(scope, b) && (a.cachedEnv.Some? ==> ValidEnvironment(a.cachedEnv.value))
    ensures var r := Reload(a, Some(b), now);
            && InScope(scope, r) && r.persisted == Some(b) && r.rejected == a.rejected
            && (r.cachedEnv.Some? ==> ValidEnvironment(r.cachedEnv.value))
  {
    if Unseen(a, Some(b)) {
      assert Restorable(a, MergedFile(a, b, None, now));
    }
  }

  // The account reloads, reads the token from SISU, and so has it in its mirror as well.
  lemma Regains(scope: Scope, s0: System, s: System, p: nat, rp: RelyingParty, id: nat) returns (s': System, t: Token)
    requires Reaches(scope, s0, s) && p in s.processes && s.file.Some? && BundleInScope(scope, s.file.value)
    requires var a := s.processes[p].account;
             && InScope(scope, a) && (a.cachedEnv.Some? ==> ValidEnvironment(a.cachedEnv.value))
             && Restores(a, s.file, s.now, rp, id) && (forall u: Token :: u.id == id ==> !Refused(a, rp, u))
    ensures Reaches(scope, s0, s') && Beside(s, s', p) && SameFile(s, s') && t.id == id && s.now < t.notAfter
    ensures var q, q' := s.processes[p], s'.processes[p];
            && q'.evictions == q.evictions && InScope(scope, q'.account) && q'.account.persisted == s.file
            && q'.account.rejected == q.account.rejected
            && (q'.account.cachedEnv.Some? ==> ValidEnvironment(q'.account.cachedEnv.value))
            && At(q'.account.mirror, rp) == Some(t) && At(SisuTokens(q'.account), rp) == Some(t)
  {
    hide Reload;
    ReloadCatchesUp(scope, s.processes[p].account, s.file.value, s.now);
    var s1 := LocalStep(scope, s0, s, LoadFile(p));
    var a := s1.processes[p].account;
    t := SisuTokens(a)[rp];
    var s2 := LocalStep(scope, s0, s1, ReadCached(p, rp));
    var r := Result(a.session.serial, rp, t);
    assert r in s2.processes[p].results && s2.processes[p].account == a;
    s' := ResultArrives(scope, s0, s2, p, r);
  }

  // The queued invalidation reaches SISU but not the mirror, and the account publishes without the token.
  lemma LosesInSisu(scope: Scope, s0: System, s: System, p: nat, rp: RelyingParty, t: Token) returns (s': System)
    requires Reaches(scope, s0, s) && p in s.processes && (rp, t.id) in s.processes[p].evictions && (rp, t.id) in FileNames(s.file)
    requires var a := s.processes[p].account;
             && InScope(scope, a) && a.persisted == s.file && (a.cachedEnv.Some? ==> ValidEnvironment(a.cachedEnv.value))
             && At(a.mirror, rp) == Some(t) && At(SisuTokens(a), rp) == Some(t)
    ensures Reaches(scope, s0, s') && Beside(s, s', p) && s.evicted <= s'.evicted
    ensures s'.file.Some? && s'.file != s.file && BundleInScope(scope, s'.file.value) && rp !in s'.file.value.sisu.value.xsts
    ensures var a, a' := s.processes[p].account, s'.processes[p].account;
            && InScope(scope, a') && a'.persisted == s'.file && a'.rejected == a.rejected && a'.mirror == a.mirror
            && SyncedXsts(a'.synced, rp) == None
  {
    var s1 := LocalStep(scope, s0, s, ForgetInSisu(p, rp, t.id, false));
    var a := s1.processes[p].account;
    assert rp !in SisuTokens(a);
    var d := Token(0, 0);
    var b := BundleOf(a.(deviceToken := Some(d)), a.session.secrets);
    assert rp !in b.sisu.value.xsts && (rp, t.id) !in BundleNames(b);
    s' := Publishes(scope, s0, s1, p, d);
  }

  // An account that refused the old file's token and then reloads: the token is not among what it merges.
  lemma RefuserReloads(scope: Scope, a: AccountState, b: Bundle, now: int, rp: RelyingParty)
    requires InScope(scope, a) && BundleInScope(scope, b) && a.persisted != Some(b) && rp !in b.sisu.value.xsts
    requires rp !in a.mirror && a.environment.None?
    ensures var r := Reload(a, Some(b), now);
            && InScope(scope, r) && r.persisted == Some(b) && r.rejected == a.rejected && rp !in SisuTokens(r)
            && LiveEnv(r).None? && r.cachedEnv == b.environment
  {
    var merged := MergedFile(a, b, None, now);
    MergedXstsAt(b, LocalOf(a), None, now, rp);
    assert Restorable(a, merged) && merged.environment == b.environment;
    assert SisuTokens(Reload(a, Some(b), now)) == WithoutRejected(merged.sisu.value.xsts, a.rejected);
  }

  // The other account, which had adopted the token, refuses it, catches up and publishes its eviction.
  lemma EvictedElsewhere(scope: Scope, s0: System, s: System, o: nat, rp: RelyingParty, held: Token) returns (s': System)
    requires Reaches(scope, s0, s) && o in s.processes && s.file.Some? && BundleInScope(scope, s.file.value)
    requires rp !in s.file.value.sisu.value.xsts && (rp, held.id) in s.processes[o].seen
    requires var a := s.processes[o].account;
             && InScope(scope, a) && a.persisted != s.file && a.rejected == map[] && a.environment.None?
             && At(SisuTokens(a), rp) == Some(held) && At(a.mirror, rp) == Some(held)
    ensures Reaches(scope, s0, s') && Beside(s, s', o) && Cleared(scope, s'.file, s.file, rp)
    ensures (rp, held.id) in s'.evicted && s.evicted <= s'.evicted
  {
    hide Cleared, Reload;
    var s1 := RefusesHeld(scope, s0, s, o, rp);
    var a := s1.processes[o].account;
    RefuserReloads(scope, a, s.file.value, s.now, rp);
    var s2 := LocalStep(scope, s0, s1, LoadFile(o));
    assert s2.processes[o].account.rejected[rp] == held;
    var s3 := Clears(scope, s0, s2, o, rp, None);
    assert (rp, held.id) in Carried(s3.processes[o]);
    s' := s3;
  }

  // From a reload that restores the token, while its removal from SISU is still queued, to its return.
  lemma QueuedRemovalReturns(scope: Scope, s0: System, s: System, p: nat, rp: RelyingParty, id: nat) returns (s': System)
    requires Reaches(scope, s0, s) && p in s.processes && s.file.Some? && BundleInScope(scope, s.file.value)
    requires (rp, id) in s.processes[p].evictions
    requires var a := s.processes[p].account;
             && InScope(scope, a) && (a.cachedEnv.Some? ==> ValidEnvironment(a.cachedEnv.value))
             && Restores(a, s.file, s.now, rp, id) && (forall u: Token :: u.id == id ==> !Refused(a, rp, u))
    ensures Reaches(scope, s0, s') && (rp, id) in FileNames(s'.file) && (rp, id) in s'.evicted
  {
    hide Cleared, Reload, Reaches;
    var s1, t := Regains(scope, s0, s, p, rp, id);
    var s2, o := Opens(scope, s0, s1);
    NewAccountTakesFile(scope, s.file.value, s.now);
    NewAccountHasNoEnvironment(scope, s.file.value, s.now);
    var held := s.file.value.sisu.value.xsts[rp];
    var s3 := LosesInSisu(scope, s0, s2, p, rp, t);
    var s4 := EvictedElsewhere(scope, s0, s3, o, rp, held);
    s' := MirrorCopyReturns(scope, s0, s4, p, rp, t);
  }

  lemma NewAccountHasNoEnvironment(scope: Scope, b: Bundle, now: int)
    requires BundleInScope(scope, b)
    ensures Reload(NewAccount(scope), Some(b), now).environment.None?
  {
  }

  // For a token that is not evicted yet and of which the account has no copy, but which its next reload
  // would restore: refusing another token can be followed by its eviction and return exactly when its
  // removal from SISU is still queued.
  lemma QueuedTokenReturnsExactlyWhen(scope: Scope, s: System, p: nat, rp: RelyingParty, other: Token)
    requires Overwrites(s, p, rp, other) && Inv(scope, s)
    requires !HasCopy(s.processes[p], s.now, rp, Overwritten(s, p, rp, other))
    requires Restores(RejectXsts(s.processes[p].account, rp, other), s.file, s.now, rp, Overwritten(s, p, rp, other))
    ensures var n := (rp, Overwritten(s, p, rp, other));
            && (Returns(scope, Refusal(scope, s, p, rp, other), n) <==> n in s.processes[p].evictions)
            && (n in s.processes[p].evictions <==> !MayRefuse(s.processes[p], s.now, s.published, s.evicted, rp, other))
  {
    hide Reload, HasCopy, Reaches;
    var q := s.processes[p];
    var n := (rp, q.account.rejected[rp].id);
    assert Good(scope, q, s) && FileGood(scope, s);
    assert n !in s.evicted;
    var s1 := Next(scope, s, Refuse(p, rp, other));
    if n in q.evictions {
      Stays(scope, s1);
      assert s1.processes[p].account == RejectXsts(q.account, rp, other) && n in s1.processes[p].evictions;
      var s' := QueuedRemovalReturns(scope, s1, s1, p, rp, n.1);
    } else {
      NoCopyAgrees(q, s.now, s.published, s.evicted, rp, n.1);
      CarefulRefusalNeverReturns(scope, s, p, rp, other, n);
    }
  }
}
