/**
 An account remembers one refused XSTS token per relying party. Refusing another token of the same party
 overwrites that memory. These lemmas follow what then happens inside one account, and a whole run in
 which an evicted token returns; CarelessRefusals has the exact condition over all continuations.
 */
module ForgottenRejection {
  import opened AuthTypes
  import opened Wrappers
  import opened BundleMerge
  import opened AccountSpec
  import opened EvictionProtocol
  import opened EvictionProof

  // What the file holds once `a`, having refused `other` as well, publishes `snapshot`.
  function FileAfter(a: AccountState, rp: RelyingParty, other: Token, snapshot: Snapshot, file: Option<Bundle>, now: int): Option<Bundle> {
    Republished(RejectXsts(a, rp, other), snapshot, file, now)
  }

  function Republished(a: AccountState, snapshot: Snapshot, file: Option<Bundle>, now: int): Option<Bundle> {
    var r := Commit(a, snapshot, file, now, true, true);
    if r.written.Some? then r.written else file
  }

  // An account in step with the file writes the forgotten token back exactly when its snapshot holds it.
  lemma ForgottenTokenReturnsExactlyWhen(a: AccountState, rp: RelyingParty, other: Token, snapshot: Snapshot,
                                         file: Option<Bundle>, now: int)
    requires rp in a.rejected && a.rejected[rp].id != other.id
    requires a.persisted == file && a.deviceToken.Some? && a.proofKey.Some?
    requires (rp, a.rejected[rp].id) !in FileNames(file)
    ensures (rp, a.rejected[rp].id) in FileNames(FileAfter(a, rp, other, snapshot, file, now)) <==>
            Id(At(snapshot.xsts, rp)) == Some(a.rejected[rp].id)
  {
    var id := a.rejected[rp].id;
    var a' := RejectXsts(a, rp, other);
    var b := BundleOf(a', snapshot);
    assert !Unseen(a', file);
    assert (rp, id) in BundleNames(b) <==> Id(At(snapshot.xsts, rp)) == Some(id);
    assert a'.persisted == Some(b) ==> (rp, id) !in BundleNames(b);
  }

  lemma InvariantOf(scope: Scope, s: System, p: nat, rp: RelyingParty, id: nat)
    requires Inv(scope, s) && p in s.processes && (rp, id) in s.evicted
    ensures s.processes[p].account.proofKey.Some? && (rp, id) !in FileNames(s.file)
  {
    assert Good(scope, s.processes[p], s);
  }

  lemma CopyIsCareless(s: System, p: nat, rp: RelyingParty, other: Token)
    requires p in s.processes
    requires var q := s.processes[p];
             && rp in q.account.rejected && q.account.rejected[rp].id != other.id
             && (rp, q.account.rejected[rp].id) in s.evicted && !Doomed(q.account, rp, q.account.rejected[rp].id, s.evicted)
             && (if q.pending.None? then Id(At(SisuTokens(q.account), rp)) == Some(q.account.rejected[rp].id)
                 else q.pending.value.serial == q.account.session.serial &&
                      Id(At(q.pending.value.secrets.xsts, rp)) == Some(q.account.rejected[rp].id))
    ensures !MayRefuse(s.processes[p], s.now, s.published, s.evicted, rp, other)
  {
  }

  // The refusal, and a snapshot if there was none.
  lemma Snapshotted(scope: Scope, s: System, p: nat, rp: RelyingParty, other: Token) returns (s1: System, s2: System)
    requires p in s.processes
    requires var q := s.processes[p]; q.pending.Some? ==> q.pending.value.serial == q.account.session.serial
    ensures s1 == Next(scope, s, Refuse(p, rp, other))
    ensures s.processes[p].pending.None? ==> Enabled(s1, TakeSnapshot(p))
    ensures s2 == if s.processes[p].pending.None? then Next(scope, s1, TakeSnapshot(p)) else s1
    ensures p in s2.processes && s2.file == s.file && s2.now == s.now && Enabled(s2, Write(p, true, true))
    ensures var q, q2 := s.processes[p], s2.processes[p];
            && q2.account == RejectXsts(q.account, rp, other)
            && q2.pending.value.secrets == if q.pending.None? then q.account.session.secrets else q.pending.value.secrets
  {
    s1 := Next(scope, s, Refuse(p, rp, other));
    s2 := if s.processes[p].pending.None? then Next(scope, s1, TakeSnapshot(p)) else s1;
  }

  lemma WrittenFile(scope: Scope, s: System, p: nat, snapshot: Snapshot)
    requires p in s.processes && Enabled(s, Write(p, true, true)) && s.processes[p].pending.value.secrets == snapshot
    ensures var r := Commit(s.processes[p].account, snapshot, s.file, s.now, true, true);
            Next(scope, s, Write(p, true, true)).file == if r.written.Some? then r.written else s.file
  {
  }

  // The same within the protocol: from any reachable state, the very next publication after one careless
  // refusal puts a token back that an account had evicted, with no help from another account or device token.
  lemma CarelessRefusalUndoesEviction(scope: Scope, s: System, p: nat, rp: RelyingParty, other: Token)
    requires Inv(scope, s) && p in s.processes
    requires var q := s.processes[p];
             && rp in q.account.rejected && q.account.rejected[rp].id != other.id
             && (rp, q.account.rejected[rp].id) in s.evicted
             && q.account.persisted == s.file && q.account.deviceToken.Some?
             && (if q.pending.None? then Id(At(SisuTokens(q.account), rp)) == Some(q.account.rejected[rp].id)
                 else q.pending.value.serial == q.account.session.serial &&
                      Id(At(q.pending.value.secrets.xsts, rp)) == Some(q.account.rejected[rp].id))
    ensures !MayRefuse(s.processes[p], s.now, s.published, s.evicted, rp, other)
    ensures var s1 := Next(scope, s, Refuse(p, rp, other));
            && (s.processes[p].pending.None? ==> Enabled(s1, TakeSnapshot(p)))
            && var s2 := if s.processes[p].pending.None? then Next(scope, s1, TakeSnapshot(p)) else s1;
               && Enabled(s2, Write(p, true, true))
               && var s3 := Next(scope, s2, Write(p, true, true));
                  (rp, s.processes[p].account.rejected[rp].id) in FileNames(s3.file) * s.evicted
  {
    hide Inv, Good, HasCopy;
    var q := s.processes[p];
    var id := q.account.rejected[rp].id;
    InvariantOf(scope, s, p, rp, id);
    InStepDoomsNothing(scope, s, p, rp, id);
    CopyIsCareless(s, p, rp, other);
    var snapshot := if q.pending.None? then q.account.session.secrets else q.pending.value.secrets;
    var s1, s2 := Snapshotted(scope, s, p, rp, other);
    ForgottenTokenReturnsExactlyWhen(q.account, rp, other, snapshot, s.file, s.now);
    WrittenFile(scope, s2, p, snapshot);
  }

  // An account in step with the file publishes what SISU holds, as far as it does not refuse it.
  lemma RepublishedNames(a: AccountState, file: Bundle, now: int, rp: RelyingParty, id: nat)
    requires a.persisted == Some(file) && a.deviceToken.Some? && a.proofKey.Some?
    requires (rp, id) !in BundleNames(file) && (rp in a.rejected ==> a.rejected[rp].id != id)
    ensures (rp, id) in FileNames(Republished(a, a.session.secrets, Some(file), now)) <==> Id(At(SisuTokens(a), rp)) == Some(id)
  {
    var b := BundleOf(a, a.session.secrets);
    assert (rp, id) in BundleNames(b) <==> Id(At(SisuTokens(a), rp)) == Some(id);
    assert !Unseen(a, Some(file));
  }

  // A request still on its way back installs the forgotten token in the mirror, from where the next adopted
  // bundle, whatever it holds for the party, picks it up exactly when a merge takes it; the account's next
  // publication then has it.
  lemma LateResultReturnsExactlyWhen(a: AccountState, rp: RelyingParty, forgotten: Token, other: Token, file: Bundle, now: int)
    requires rp in a.rejected && a.rejected[rp].id == forgotten.id != other.id
    requires HoldsNoRejection(a)
    requires file.sisu.Some? && Id(At(file.sisu.value.xsts, rp)) != Some(forgotten.id)
    requires Unseen(a, Some(file)) && Restorable(a, MergedFile(a, file, None, now))
    ensures var a1 := InstallXsts(RejectXsts(a, rp, other), a.session.serial, rp, forgotten, None);
            var a2 := Reload(a1, Some(file), now);
            var takes := Takes(At(file.sisu.value.xsts, rp), Some(forgotten), SyncedXsts(a.synced, rp), now);
            && At(a1.mirror, rp) == Some(forgotten)
            && (At(SisuTokens(a2), rp) == Some(forgotten) <==> takes)
            && ((rp, forgotten.id) in FileNames(Republished(a2, a2.session.secrets, Some(file), now)) <==> takes)
  {
    var a1 := InstallXsts(RejectXsts(a, rp, other), a.session.serial, rp, forgotten, None);
    LateMerge(a1, rp, forgotten, file, now);
    var a2 := Reload(a1, Some(file), now);
    hide Reload, Takes, Republished;
    assert (rp, forgotten.id) !in BundleNames(file);
    RepublishedNames(a2, file, now, rp, forgotten.id);
  }

  lemma LateMerge(a: AccountState, rp: RelyingParty, t: Token, file: Bundle, now: int)
    requires file.sisu.Some? && Id(At(file.sisu.value.xsts, rp)) != Some(t.id)
    requires Unseen(a, Some(file)) && Restorable(a, MergedFile(a, file, None, now))
    requires At(a.mirror, rp) == Some(t) && (rp in a.rejected ==> a.rejected[rp].id != t.id)
    ensures var r := Reload(a, Some(file), now);
            && r.persisted == Some(file) && r.deviceToken.Some? && r.proofKey.Some? && r.rejected == a.rejected
            && (At(SisuTokens(r), rp) == Some(t) <==> Takes(At(file.sisu.value.xsts, rp), Some(t), SyncedXsts(a.synced, rp), now))
            && (Id(At(SisuTokens(r), rp)) == Some(t.id) ==> At(SisuTokens(r), rp) == Some(t))
  {
    MergedXstsAt(file, LocalOf(a), None, now, rp);
    var merged := MergedFile(a, file, None, now);
    assert SisuTokens(Reload(a, Some(file), now)) == WithoutRejected(merged.sisu.value.xsts, a.rejected);
  }

  // A merge that takes a stale local token, which the account then re-evicts, loses the published one.
  lemma RefusedLocalTokenDisplacesPublished(a: AccountState, rp: RelyingParty, file: Bundle, snapshot: Snapshot, now: int)
    requires HoldsNoRejection(a) && file.sisu.Some? && rp in file.sisu.value.xsts
    requires !RejectedXsts(a, rp, At(file.sisu.value.xsts, rp))
    requires Unseen(a, Some(file)) && Restorable(a, MergedFile(a, file, Some(snapshot), now))
    ensures var adopted := CatchUp(a, snapshot, Some(file), now).account;
            rp !in SisuTokens(adopted) <==>
              RejectedXsts(a, rp, At(snapshot.xsts, rp)) &&
              Takes(At(file.sisu.value.xsts, rp), At(snapshot.xsts, rp), SyncedXsts(a.synced, rp), now) &&
              !Takes(At(snapshot.xsts, rp), At(a.mirror, rp), SyncedXsts(a.synced, rp), now)
  {
    MergedXstsAt(file, LocalOf(a), Some(snapshot), now, rp);
    assert !RejectedXsts(a, rp, At(a.mirror, rp));
  }

  // ---- A whole run in which an eviction is undone ----

  // One account publishes a token, refuses it, publishes the eviction while SISU has not dropped the
  // token yet, refuses an older token of the same relying party, and publishes once more.

  const SCOPE := Scope("oauth", "client", 7)
  const RP: RelyingParty := "http://xboxlive.com"
  const FIRST := Token(1, 100)
  const SECOND := Token(2, 100)
  const DEVICE := Token(3, 100)

  // Snapshot and write by an account in step with the file.
  lemma PublishInStep(scope: Scope, s: System, p: nat) returns (s1: System, s2: System)
    requires p in s.processes && s.processes[p].pending.None?
    requires var a := s.processes[p].account;
             a.persisted == s.file && a.deviceToken.Some? && a.proofKey.Some? && s.file != Some(BundleOf(a, a.session.secrets))
    ensures Enabled(s, TakeSnapshot(p)) && s1 == Next(scope, s, TakeSnapshot(p))
    ensures Enabled(s1, Write(p, true, true)) && s2 == Next(scope, s1, Write(p, true, true))
    ensures var a := s.processes[p].account;
            var b := BundleOf(a, a.session.secrets);
            && s2.file == Some(b) && p in s2.processes && s2.processes[p].pending.None?
            && s2.processes[p].account == a.(persisted := Some(b), synced := SyncedFrom(b))
            && s2.evicted == s.evicted + Carried(s2.processes[p])
            && s2.processes[p].seen >= Names(SisuTokens(a))
  {
    s1 := Next(scope, s, TakeSnapshot(p));
    var a := s.processes[p].account;
    assert s1.processes[p].account == a && s1.processes[p].pending == Some(Pending(a.session.serial, a.session.secrets));
    assert !Unseen(a, s1.file);
    s2 := Next(scope, s1, Write(p, true, true));
  }

  lemma RefusesInStep(scope: Scope, s: System, p: nat, t: Token) returns (s1: System)
    requires p in s.processes
    ensures Enabled(s, Refuse(p, RP, t)) && s1 == Next(scope, s, Refuse(p, RP, t))
    ensures p in s1.processes && s1.processes[p].account == RejectXsts(s.processes[p].account, RP, t)
    ensures s1.processes[p].pending == s.processes[p].pending && s1.file == s.file && s1.evicted == s.evicted
    ensures s1.processes[p].results == s.processes[p].results
  {
    s1 := Next(scope, s, Refuse(p, RP, t));
  }

  ghost predicate Steps(s: System, act: Action, s': System) {
    Enabled(s, act) && s' == Next(SCOPE, s, act)
  }

  lemma Starting() returns (s0: System, s1: System)
    ensures Initial(SCOPE, s0) && Steps(s0, Open(0), s1)
    ensures 0 in s1.processes && s1.file.None? && s1.processes[0].account == NewAccount(SCOPE)
    ensures s1.processes[0].pending.None? && s1.issued == {} && s1.now == 0
  {
    s0 := System(0, None, map[], {}, {}, {}, {}, {});
    s1 := Next(SCOPE, s0, Open(0));
  }

  lemma Opening() returns (s: seq<System>)
    ensures |s| == 4 && Initial(SCOPE, s[0])
    ensures Steps(s[0], Open(0), s[1]) && Steps(s[1], NewDevice(0, DEVICE), s[2]) && Steps(s[2], Issue(0, RP, FIRST), s[3])
    ensures 0 in s[3].processes && s[3].file.None? && s[3].processes[0].pending.None?
    ensures s[3].processes[0].account ==
            NewAccount(SCOPE).(deviceToken := Some(DEVICE), session := Session(0, Snapshot(None, None, map[RP := FIRST])))
  {
    var s0, s1 := Starting();
    var s2 := Next(SCOPE, s1, NewDevice(0, DEVICE));
    var s3 := Next(SCOPE, s2, Issue(0, RP, FIRST));
    s := [s0, s1, s2, s3];
  }

  // Publishing the token, refusing it, and publishing its eviction.
  lemma Evicting(s3: System) returns (s4: System, s5: System, s6: System, s7: System, s8: System)
    requires 0 in s3.processes && s3.file.None? && s3.processes[0].pending.None?
    requires s3.processes[0].account ==
             NewAccount(SCOPE).(deviceToken := Some(DEVICE), session := Session(0, Snapshot(None, None, map[RP := FIRST])))
    ensures Steps(s3, TakeSnapshot(0), s4) && Steps(s4, Write(0, true, true), s5) && Steps(s5, Refuse(0, RP, FIRST), s6)
    ensures Steps(s6, TakeSnapshot(0), s7) && Steps(s7, Write(0, true, true), s8)
    ensures (RP, FIRST.id) in s8.evicted && (RP, FIRST.id) !in FileNames(s8.file)
    ensures 0 in s8.processes && s8.processes[0].pending.None?
    ensures var a := s8.processes[0].account;
            && a.persisted == s8.file && a.deviceToken.Some? && a.proofKey.Some?
            && SisuTokens(a) == map[RP := FIRST] == a.rejected
  {
    s4, s5 := PublishInStep(SCOPE, s3, 0);
    assert WithoutRejected(map[RP := FIRST], map[]) == map[RP := FIRST];
    s6 := RefusesInStep(SCOPE, s5, 0, FIRST);
    assert WithoutRejected(map[RP := FIRST], map[RP := FIRST]) == map[];
    assert BundleNames(s5.file.value) != BundleNames(BundleOf(s6.processes[0].account, s6.processes[0].account.session.secrets)) by {
      assert (RP, FIRST.id) in BundleNames(s5.file.value);
    }
    s7, s8 := PublishInStep(SCOPE, s6, 0);
    assert (RP, FIRST.id) in Names(SisuTokens(s6.processes[0].account));
  }

  // Refusing another token, and publishing once more.
  lemma Returning(s8: System) returns (s9: System, s10: System, s11: System)
    requires 0 in s8.processes && s8.processes[0].pending.None? && (RP, FIRST.id) !in FileNames(s8.file)
    requires var a := s8.processes[0].account;
             && a.persisted == s8.file && a.deviceToken.Some? && a.proofKey.Some?
             && SisuTokens(a) == map[RP := FIRST] == a.rejected
    ensures Steps(s8, Refuse(0, RP, SECOND), s9) && Steps(s9, TakeSnapshot(0), s10) && Steps(s10, Write(0, true, true), s11)
    ensures (RP, FIRST.id) in FileNames(s11.file)
  {
    s9 := RefusesInStep(SCOPE, s8, 0, SECOND);
    assert WithoutRejected(map[RP := FIRST], map[RP := SECOND]) == map[RP := FIRST];
    var b := BundleOf(s9.processes[0].account, s9.processes[0].account.session.secrets);
    assert (RP, FIRST.id) in BundleNames(b);
    s10, s11 := PublishInStep(SCOPE, s9, 0);
  }

  lemma EvictionCanBeUndone() returns (s: seq<System>, s4: System, s5: System, s6: System, s7: System, s8: System,
                                       s9: System, s10: System, s11: System)
    ensures |s| == 4 && Initial(SCOPE, s[0])
    ensures Steps(s[0], Open(0), s[1]) && Steps(s[1], NewDevice(0, DEVICE), s[2]) && Steps(s[2], Issue(0, RP, FIRST), s[3])
    ensures Steps(s[3], TakeSnapshot(0), s4) && Steps(s4, Write(0, true, true), s5) && Steps(s5, Refuse(0, RP, FIRST), s6)
    ensures Steps(s6, TakeSnapshot(0), s7) && Steps(s7, Write(0, true, true), s8)
    ensures Steps(s8, Refuse(0, RP, SECOND), s9) && Steps(s9, TakeSnapshot(0), s10) && Steps(s10, Write(0, true, true), s11)
    ensures (RP, FIRST.id) in s8.evicted && (RP, FIRST.id) in FileNames(s11.file)
  {
    s := Opening();
    s4, s5, s6, s7, s8 := Evicting(s[3]);
    s9, s10, s11 := Returning(s8);
  }
}
