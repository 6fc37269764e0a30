/** Every step of the protocol keeps its invariant, so an evicted credential never returns to the file. */
module EvictionProof {
  import opened AuthTypes
  import opened Wrappers
  import opened BundleMerge
  import opened AccountSpec
  import opened EvictionProtocol

  // ---- Steps of one account leave the others alone ----

  lemma StableXsts(q: Process, now: int, now': int, published: set<Name>, published': set<Name>, evicted: set<Name>, evicted': set<Name>)
    requires XstsGood(q, now, published, evicted) && now <= now'
    requires published <= published' && evicted <= evicted'
    requires forall n :: n in q.seen && n in published' ==> n in published
    requires forall n :: n in q.seen && n in evicted' ==> n in evicted || n in published
    ensures XstsGood(q, now', published', evicted')
  {
    var a := q.account;
    forall rp | rp in SisuTokens(a) ensures (rp, SisuTokens(a)[rp].id) in q.seen {
      assert (rp, SisuTokens(a)[rp].id) in Names(SisuTokens(a));
    }
    if q.pending.Some? && q.pending.value.serial == a.session.serial {
      var tokens := q.pending.value.secrets.xsts;
      forall rp | rp in tokens ensures (rp, tokens[rp].id) in q.seen {
        assert (rp, tokens[rp].id) in Names(tokens);
      }
    }
  }

  lemma StableService(q: Process, published: set<nat>, published': set<nat>, evicted: set<nat>, evicted': set<nat>)
    requires ServiceGood(q, published, evicted)
    requires published <= published' && evicted <= evicted'
    requires forall n :: n in q.own && n in published' ==> n in published
    requires forall n :: n in q.own && n in evicted' ==> n in evicted || n in published
    requires forall n :: n in q.own && n in evicted' && n !in evicted ==> n in published
    ensures ServiceGood(q, published', evicted')
  {
  }

  // ---- Steps on XSTS tokens ----

  // The service half of an account an XSTS step did not touch.
  lemma SameService(q: Process, q': Process, published: set<nat>, evicted: set<nat>)
    requires ServiceGood(q, published, evicted)
    requires q'.account.service == q.account.service && q'.account.serviceGen == q.account.serviceGen
    requires q'.account.synced == q.account.synced
    requires q'.flights == q.flights && q'.seenService == q.seenService && q'.own == q.own
    ensures ServiceGood(Noted(q'), published, evicted)
  {
    assert Noted(q').seenService == q.seenService && Noted(q').own == q.own;
    forall f | f in q.flights ensures FlightGood(Noted(q'), f, published, evicted) {
      assert FlightGood(q, f, published, evicted);
    }
  }

  lemma IssueBacks(a: AccountState, now: int, evicted: set<Name>, rp: RelyingParty, t: Token, r: RelyingParty, u: Token)
    requires !Valid(At(SisuTokens(a), rp), now) && Backed(a, r, u, now, evicted)
    ensures Backed(WithSisuToken(a, rp, t), r, u, now, evicted)
  {
  }

  lemma IssuedBacked(a: AccountState, now: int, evicted: set<Name>, rp: RelyingParty, t: Token)
    ensures Backed(WithSisuToken(a, rp, t), rp, t, now, evicted)
  {
  }

  // The account once SISU has issued `t` to it, and the request's result is on its way.
  function Issued(q: Process, rp: RelyingParty, t: Token): Process {
    Noted(q.(account := WithSisuToken(q.account, rp, t), results := q.results + {Result(q.account.session.serial, rp, t)}))
  }

  lemma IssueTokens(q: Process, now: int, published: set<Name>, evicted: set<Name>, rp: RelyingParty, t: Token)
    requires XstsGood(q, now, published, evicted) && (rp, t.id) !in published && (rp, t.id) !in evicted
    ensures var q' := Issued(q, rp, t);
            && TokensNamed(q'.account, SisuTokens(q'.account), published, evicted)
            && AllSeen(SisuTokens(q'.account), q'.seen) && AllSeen(q'.account.mirror, q'.seen) && EvictionsGood(q', evicted)
  {
    hide Backed, SnapshotGood;
    assert SisuTokens(Issued(q, rp, t).account) == SisuTokens(q.account)[rp := t];
    assert (rp, t.id) in Names(SisuTokens(Issued(q, rp, t).account));
  }

  lemma IssueResults(q: Process, now: int, published: set<Name>, evicted: set<Name>, rp: RelyingParty, t: Token)
    requires XstsGood(q, now, published, evicted) && !Valid(At(SisuTokens(q.account), rp), now)
    ensures var q' := Issued(q, rp, t); AllBacked(q'.account, q'.account.mirror, now, evicted) && ResultsGood(q', now, evicted)
  {
    hide Backed, SnapshotGood, TokensNamed, EvictionsGood;
    assert (rp, t.id) in Names(SisuTokens(Issued(q, rp, t).account));
    forall r, u: Token | Backed(q.account, r, u, now, evicted) ensures Backed(Issued(q, rp, t).account, r, u, now, evicted) {
      IssueBacks(q.account, now, evicted, rp, t, r, u);
    }
    IssuedBacked(q.account, now, evicted, rp, t);
  }

  lemma IssuePending(q: Process, now: int, published: set<Name>, evicted: set<Name>, rp: RelyingParty, t: Token)
    requires XstsGood(q, now, published, evicted) && !Valid(At(SisuTokens(q.account), rp), now) && (rp, t.id) !in published
    ensures PendingGood(Issued(q, rp, t), now, published, evicted)
  {
    hide Backed, ResultsGood, EvictionsGood;
    var a := q.account;
    assert SisuTokens(Issued(q, rp, t).account) == SisuTokens(a)[rp := t];
    forall r, u: Token | Backed(a, r, u, now, evicted) ensures Backed(Issued(q, rp, t).account, r, u, now, evicted) {
      IssueBacks(a, now, evicted, rp, t, r, u);
    }
  }

  lemma IssueXsts(q: Process, now: int, published: set<Name>, evicted: set<Name>, rp: RelyingParty, t: Token)
    requires XstsGood(q, now, published, evicted)
    requires !Valid(At(SisuTokens(q.account), rp), now) && (rp, t.id) !in published && (rp, t.id) !in evicted
    ensures XstsGood(Issued(q, rp, t), now, published, evicted)
  {
    IssueTokens(q, now, published, evicted, rp, t);
    IssueResults(q, now, published, evicted, rp, t);
    IssuePending(q, now, published, evicted, rp, t);
    hide TokensNamed, AllSeen, AllBacked, ResultsGood, PendingGood, EvictionsGood, Issued;
  }

  lemma ReturnXsts(q: Process, now: int, published: set<Name>, evicted: set<Name>, r: Result, device: Option<Token>)
    requires XstsGood(q, now, published, evicted) && r in q.results
    ensures XstsGood(Noted(q.(account := InstallXsts(q.account, r.serial, r.rp, r.token, device),
                              results := q.results - {r},
                              evictions := if r.serial == q.account.session.serial && RejectedXsts(q.account, r.rp, Some(r.token))
                                           then q.evictions + {(r.rp, r.token.id)} else q.evictions)), now, published, evicted)
  {
    var a := q.account;
    var q' := Noted(q.(account := InstallXsts(a, r.serial, r.rp, r.token, device), results := q.results - {r},
                       evictions := if r.serial == a.session.serial && RejectedXsts(a, r.rp, Some(r.token))
                                    then q.evictions + {(r.rp, r.token.id)} else q.evictions));
    var a' := q'.account;
    forall rp, u: Token | Backed(a, rp, u, now, evicted) ensures Backed(a', rp, u, now, evicted) {
    }
    assert PendingGood(q', now, published, evicted);
  }

  // A copy of an XSTS token in SISU, in a snapshot, or on its way back from SISU and not expired.
  ghost predicate HasCopy(q: Process, now: int, rp: RelyingParty, id: nat) {
    var a := q.account;
    || Id(At(SisuTokens(a), rp)) == Some(id)
    || Id(At(PendingTokens(q), rp)) == Some(id)
    || (exists r :: r in q.results && r.serial == a.session.serial && r.rp == rp && r.token.id == id && now < r.token.notAfter)
  }

  // The snapshot of the present session that waits to be written.
  function PendingTokens(q: Process): TokenMap {
    if q.pending.Some? && q.pending.value.serial == q.account.session.serial then q.pending.value.secrets.xsts else map[]
  }

  // The copies are those of a token the account may go on using: `synced` names it if any bundle held it,
  // a snapshot and unexpired results agree with SISU, and its removal from SISU is not queued.
  ghost predicate CopiesAgree(q: Process, now: int, published: set<Name>, evicted: set<Name>, rp: RelyingParty, id: nat) {
    var a, held, waiting := q.account, At(SisuTokens(q.account), rp), At(PendingTokens(q), rp);
    && (Some(id) in {Id(held), Id(waiting)} && (rp, id) in published + evicted ==> SyncedXsts(a.synced, rp) == Some(id))
    && (Id(held) == Some(id) && q.pending.Some? && q.pending.value.serial == a.session.serial && (rp, id) in published ==> waiting == held)
    && (Id(waiting) == Some(id) && now < waiting.value.notAfter ==> waiting == held)
    && (forall r :: r in q.results && r.serial == a.session.serial && r.rp == rp && r.token.id == id && now < r.token.notAfter ==>
          held == Some(r.token))
    && ((rp, id) in q.evictions ==> (rp, id) in evicted && Id(held) != Some(id))
  }

  // An invalidation must not overwrite a remembered rejection whose token may come back: unless the next
  // adopted bundle ends every copy of it, those there are must be such as any token in use has.
  ghost predicate MayRefuse(q: Process, now: int, published: set<Name>, evicted: set<Name>, rp: RelyingParty, t: Token) {
    rp in q.account.rejected && q.account.rejected[rp].id != t.id ==>
      var id := q.account.rejected[rp].id;
      Doomed(q.account, rp, id, evicted) || CopiesAgree(q, now, published, evicted, rp, id)
  }

  // Without a copy there is nothing to agree on.
  lemma NoCopyAgrees(q: Process, now: int, published: set<Name>, evicted: set<Name>, rp: RelyingParty, id: nat)
    requires !HasCopy(q, now, rp, id) && ((rp, id) in q.evictions ==> (rp, id) in evicted)
    ensures CopiesAgree(q, now, published, evicted, rp, id)
  {
  }

  // Of an evicted token not even one copy agrees.
  lemma EvictedCopiesDisagree(q: Process, now: int, published: set<Name>, evicted: set<Name>, rp: RelyingParty, id: nat)
    requires (rp, id) in evicted && !Doomed(q.account, rp, id, evicted)
    ensures CopiesAgree(q, now, published, evicted, rp, id) <==> !HasCopy(q, now, rp, id)
  {
  }

  lemma RefuseXsts(q: Process, now: int, published: set<Name>, evicted: set<Name>, rp: RelyingParty, t: Token)
    requires XstsGood(q, now, published, evicted) && HoldsNoRejection(q.account) && MayRefuse(q, now, published, evicted, rp, t)
    ensures var q' := Noted(q.(account := RejectXsts(q.account, rp, t), evictions := q.evictions + {(rp, t.id)}));
            XstsGood(q', now, published, evicted) && HoldsNoRejection(q'.account)
  {
    var a := q.account;
    var q' := Noted(q.(account := RejectXsts(a, rp, t), evictions := q.evictions + {(rp, t.id)}));
    var a' := q'.account;
    assert SisuTokens(a') == SisuTokens(a);
    assert forall r, u: Token :: Refused(a', r, u) == if r == rp then u.id == t.id else Refused(a, r, u);
    forall r | r in a'.mirror ensures r in a.mirror && a'.mirror[r] == a.mirror[r] && Backed(a', r, a'.mirror[r], now, evicted) {
      assert Backed(a, r, a.mirror[r], now, evicted) && !RejectedXsts(a, r, At(a.mirror, r));
    }
    forall r ensures !RejectedXsts(a', r, At(a'.mirror, r)) {
      assert !RejectedXsts(a, r, At(a.mirror, r));
    }
    assert ResultsGood(q', now, evicted) by {
      forall r | r in q.results && r.serial == a.session.serial ensures Backed(a', r.rp, r.token, now, evicted) {
        assert Backed(a, r.rp, r.token, now, evicted);
      }
    }
    assert PendingGood(q', now, published, evicted) by {
      if q.pending.Some? && q.pending.value.serial == a.session.serial {
        var tokens := q.pending.value.secrets.xsts;
        forall r | r in tokens ensures Backed(a', r, tokens[r], now, evicted) {
          assert Backed(a, r, tokens[r], now, evicted);
        }
      }
    }
  }

  lemma ForgetXsts(q: Process, now: int, published: set<Name>, evicted: set<Name>, rp: RelyingParty, id: nat, replaced: bool)
    requires XstsGood(q, now, published, evicted) && HoldsNoRejection(q.account) && (rp, id) in q.evictions
    ensures var q' := Noted(q.(account := if replaced then q.account else SisuInvalidate(q.account, rp, id),
                               evictions := q.evictions - {(rp, id)}));
            XstsGood(q', now, published, evicted) && HoldsNoRejection(q'.account)
  {
    var a := q.account;
    var q' := Noted(q.(account := if replaced then a else SisuInvalidate(a, rp, id), evictions := q.evictions - {(rp, id)}));
    var a' := q'.account;
    assert Id(At(SisuTokens(a), rp)) == Some(id) ==> Refused(a, rp, SisuTokens(a)[rp]) || Doomed(a, rp, id, evicted) by {
      assert (rp, id) in q.evictions;
    }
    forall r | r in SisuTokens(a) && !Refused(a, r, SisuTokens(a)[r]) && !Doomed(a, r, SisuTokens(a)[r].id, evicted)
      ensures r in SisuTokens(a') && SisuTokens(a')[r] == SisuTokens(a)[r] {
    }
    forall r, u: Token | Backed(a, r, u, now, evicted) ensures Backed(a', r, u, now, evicted) {
    }
    forall r ensures !RejectedXsts(a', r, At(a'.mirror, r)) {
      assert !RejectedXsts(a, r, At(a.mirror, r));
    }
    assert PendingGood(q', now, published, evicted);
  }

  // A snapshot SISU takes now, or one adopted with its session, is good.
  lemma FreshSnapshotGood(a: AccountState, now: int, published: set<Name>, evicted: set<Name>)
    requires TokensNamed(a, SisuTokens(a), published, evicted)
    ensures SnapshotGood(a, SisuTokens(a), now, published, evicted)
  {
  }

  // ---- Steps on the service token ----

  // The XSTS half of an account a service step did not touch.
  lemma SameXsts(q: Process, q': Process, now: int, published: set<Name>, evicted: set<Name>)
    requires XstsGood(q, now, published, evicted)
    requires q'.account.session == q.account.session && q'.account.mirror == q.account.mirror
    requires q'.account.rejected == q.account.rejected && q'.account.synced == q.account.synced
    requires q'.results == q.results && q'.evictions == q.evictions && q'.seen == q.seen
    requires q'.pending == q.pending || q'.pending.None?
    ensures XstsGood(Noted(q'), now, published, evicted)
  {
    assert forall r, u: Token :: Refused(q'.account, r, u) == Refused(q.account, r, u);
    forall r, u: Token | Backed(q.account, r, u, now, evicted) ensures Backed(q'.account, r, u, now, evicted) {
    }
    assert PendingGood(q', now, published, evicted);
  }

  lemma DepartService(q: Process, published: set<nat>, evicted: set<nat>, environment: nat, t: Token)
    requires ServiceGood(q, published, evicted)
    requires Id(q.account.service) == Some(t.id) || (t.id !in q.own && t.id !in published && t.id !in evicted)
    ensures ServiceGood(Noted(q.(flights := q.flights + {Flight(TicketOf(q.account), environment, t)}, own := q.own + {t.id})),
                        published, evicted)
  {
    var q' := Noted(q.(flights := q.flights + {Flight(TicketOf(q.account), environment, t)}, own := q.own + {t.id}));
    forall f | f in q'.flights ensures FlightGood(q', f, published, evicted) {
      assert f in q.flights ==> FlightGood(q, f, published, evicted);
    }
    forall f, g | f in q'.flights && g in q'.flights && Minted(f) && Minted(g) && f.token.id == g.token.id ensures f == g {
      assert f in q.flights ==> FlightGood(q, f, published, evicted);
      assert g in q.flights ==> FlightGood(q, g, published, evicted);
    }
  }

  lemma ArriveService(q: Process, now: int, published: set<nat>, evicted: set<nat>, f: Flight, background: bool)
    requires ServiceGood(q, published, evicted) && f in q.flights
    ensures var a := if background then Refresh(q.account, f.ticket, f.environment, f.token)
                     else Exchange(q.account, f.ticket, f.environment, f.token, now);
            ServiceGood(Noted(q.(account := a, flights := q.flights - {f})), published, evicted)
  {
    var a := if background then Refresh(q.account, f.ticket, f.environment, f.token)
             else Exchange(q.account, f.ticket, f.environment, f.token, now);
    var q' := Noted(q.(account := a, flights := q.flights - {f}));
    assert FlightGood(q, f, published, evicted);
    forall g | g in q'.flights ensures FlightGood(q', g, published, evicted) {
      assert FlightGood(q, g, published, evicted);
    }
  }

  // A refusal or a changed environment only empties the slot, under a new generation.
  lemma ClearService(q: Process, a: AccountState, published: set<nat>, evicted: set<nat>)
    requires ServiceGood(q, published, evicted)
    requires a.synced == q.account.synced
    requires (a.service == q.account.service && a.serviceGen == q.account.serviceGen) ||
             (a.service.None? && a.serviceGen == q.account.serviceGen + 1)
    ensures ServiceGood(Noted(q.(account := a)), published, evicted)
  {
    var q' := Noted(q.(account := a));
    assert q'.seenService == q.seenService && q'.own == q.own;
    forall g | g in q'.flights ensures FlightGood(q', g, published, evicted) {
      assert FlightGood(q, g, published, evicted);
    }
  }

  // ---- Adopting the file ----

  // What the merge offered for one relying party: the file's own token, or an unpublished local one.
  lemma AdoptedToken(q: Process, file: Bundle, snapshot: Option<Snapshot>, now: int, published: set<Name>, evicted: set<Name>, rp: RelyingParty)
    requires XstsGood(q, now, published, evicted) && file.sisu.Some?
    requires snapshot.Some? ==> SnapshotGood(q.account, snapshot.value.xsts, now, published, evicted) && AllSeen(snapshot.value.xsts, q.seen)
    requires BundleNames(file) <= published - evicted
    requires rp in MergedFile(q.account, file, snapshot, now).sisu.value.xsts
    ensures var t := MergedFile(q.account, file, snapshot, now).sisu.value.xsts[rp];
            Refused(q.account, rp, t) ||
            (if At(file.sisu.value.xsts, rp) == Some(t) then (rp, t.id) in published && (rp, t.id) !in evicted
             else (rp, t.id) in q.seen && (rp, t.id) !in published && (rp, t.id) !in evicted)
  {
    var a := q.account;
    MergeTakesLocalExactlyWhen(file, LocalOf(a), snapshot, now, rp);
    var t := MergedFile(a, file, snapshot, now).sisu.value.xsts[rp];
    if At(file.sisu.value.xsts, rp) == Some(t) {
      assert (rp, t.id) in BundleNames(file);
    } else if !Refused(a, rp, t) {
      assert Backed(a, rp, t, now, evicted);
      assert SisuTokens(a)[rp] == t;
    }
  }

  lemma AdoptXsts(q: Process, file: Bundle, snapshot: Option<Snapshot>, now: int, published: set<Name>, evicted: set<Name>)
    requires XstsGood(q, now, published, evicted) && file.sisu.Some?
    requires snapshot.Some? ==> SnapshotGood(q.account, snapshot.value.xsts, now, published, evicted) && AllSeen(snapshot.value.xsts, q.seen)
    requires BundleNames(file) <= published - evicted
    requires Restorable(q.account, MergedFile(q.account, file, snapshot, now))
    ensures var q' := Noted(q.(account := Adopt(q.account, MergedFile(q.account, file, snapshot, now), file, SyncedFrom(file), now)));
            XstsGood(q', now, published, evicted) && q'.seen <= q.seen + published
  {
    var a := q.account;
    var merged := MergedFile(a, file, snapshot, now);
    var q' := Noted(q.(account := Adopt(a, merged, file, SyncedFrom(file), now)));
    var a' := q'.account;
    assert SisuTokens(a') == a'.mirror == WithoutRejected(merged.sisu.value.xsts, a.rejected);
    forall rp | rp in SisuTokens(a')
      ensures !Refused(a', rp, SisuTokens(a')[rp])
      ensures var n := (rp, SisuTokens(a')[rp].id);
              n !in evicted && (n in published || n in q.seen) && (n in published ==> SyncedXsts(a'.synced, rp) == Some(n.1))
    {
      AdoptedToken(q, file, snapshot, now, published, evicted, rp);
    }
    assert PendingGood(q', now, published, evicted);
  }

  lemma AdoptService(q: Process, file: Bundle, snapshot: Option<Snapshot>, now: int, published: set<nat>, evicted: set<nat>)
    requires ServiceGood(q, published, evicted)
    requires ServiceName(file.service) <= published - evicted
    requires Restorable(q.account, MergedFile(q.account, file, snapshot, now))
    ensures var q' := Noted(q.(account := Adopt(q.account, MergedFile(q.account, file, snapshot, now), file, SyncedFrom(file), now)));
            ServiceGood(q', published, evicted) && q'.own <= q.own + published
  {
    var a := q.account;
    var merged := MergedFile(a, file, snapshot, now);
    AdoptedSlots(a, merged, file, SyncedFrom(file), now);
    var q' := Noted(q.(account := Adopt(a, merged, file, SyncedFrom(file), now)));
    forall f | f in q'.flights ensures FlightGood(q', f, published, evicted) {
      assert FlightGood(q, f, published, evicted);
    }
  }

  // ---- Writing the file ----

  // The state of the writer just before it builds its bundle.
  ghost predicate ReadyToWrite(scope: Scope, q: Process, snapshot: Snapshot, file: Option<Bundle>, now: int,
                               published: set<Name>, evicted: set<Name>, publishedService: set<nat>, evictedService: set<nat>) {
    && InScope(scope, q.account) && HoldsNoRejection(q.account) && SyncedNamesPersisted(q.account)
    && (q.account.cachedEnv.Some? ==> ValidEnvironment(q.account.cachedEnv.value))
    && XstsGood(q, now, published, evicted) && ServiceGood(q, publishedService, evictedService)
    && q.pending.None?
    && SnapshotGood(q.account, snapshot.xsts, now, published, evicted) && AllSeen(snapshot.xsts, q.seen)
    && (if file.Some? then
          && q.account.persisted == file && BundleInScope(scope, file.value)
          && BundleNames(file.value) <= published - evicted && ServiceName(file.value.service) <= publishedService - evictedService
        else evicted == {} && evictedService == {})
  }

  lemma WithoutPending(q: Process, now: int, published: set<Name>, evicted: set<Name>)
    requires XstsGood(q, now, published, evicted)
    ensures XstsGood(q.(pending := None), now, published, evicted)
  {
  }

  // The writer's own part of the invariant, and what it is about to write.
  ghost predicate ReadyTokens(s: System, q: Process, snapshot: Snapshot) {
    && XstsGood(q, s.now, s.published, s.evicted) && ServiceGood(q, s.publishedService, s.evictedService)
    && SnapshotGood(q.account, snapshot.xsts, s.now, s.published, s.evicted) && AllSeen(snapshot.xsts, q.seen)
  }

  lemma CatchUpAdopts(scope: Scope, s: System, q: Process)
    requires FileGood(scope, s) && Good(scope, q, s) && Unseen(q.account, s.file)
    requires q.pending.Some? && q.pending.value.serial == q.account.session.serial
    ensures var ready := CatchUp(q.account, q.pending.value.secrets, s.file, s.now);
            var q1 := Noted(q.(account := ready.account, pending := None));
            ReadyTokens(s, q1, ready.snapshot) && q1.seen <= q.seen + s.published && q1.own <= q.own + s.publishedService
  {
    hide ServiceGood, Reload;
    var a, snapshot, q0 := q.account, q.pending.value.secrets, q.(pending := None);
    var merged := MergedFile(a, s.file.value, Some(snapshot), s.now);
    WithoutPending(q, s.now, s.published, s.evicted);
    SameServicePart(q, s.publishedService, s.evictedService);
    assert Restorable(a, merged);
    AdoptXsts(q0, s.file.value, Some(snapshot), s.now, s.published, s.evicted);
    AdoptService(q0, s.file.value, Some(snapshot), s.now, s.publishedService, s.evictedService);
    FreshSnapshotGood(CatchUp(a, snapshot, s.file, s.now).account, s.now, s.published, s.evicted);
  }

  lemma SameServicePart(q: Process, published: set<nat>, evicted: set<nat>)
    requires ServiceGood(q, published, evicted)
    ensures ServiceGood(q.(pending := None), published, evicted)
  {
    forall f | f in q.flights ensures FlightGood(q.(pending := None), f, published, evicted) {
      assert FlightGood(q, f, published, evicted);
    }
  }

  lemma CatchUpStays(s: System, q: Process)
    requires XstsGood(q, s.now, s.published, s.evicted) && ServiceGood(q, s.publishedService, s.evictedService)
    requires !Unseen(q.account, s.file) && q.pending.Some? && q.pending.value.serial == q.account.session.serial
    ensures var ready := CatchUp(q.account, q.pending.value.secrets, s.file, s.now);
            var q1 := Noted(q.(account := ready.account, pending := None));
            ReadyTokens(s, q1, ready.snapshot) && q1.seen == q.seen && q1.own == q.own
  {
    hide FlightGood;
    var q0 := q.(pending := None);
    SameXsts(q, q0, s.now, s.published, s.evicted);
    SameService(q, q0, s.publishedService, s.evictedService);
    assert Noted(q0) == q0;
  }

  lemma CatchUpSettles(scope: Scope, s: System, q: Process)
    requires FileGood(scope, s) && Good(scope, q, s)
    requires q.pending.Some? && q.pending.value.serial == q.account.session.serial
    ensures var a := CatchUp(q.account, q.pending.value.secrets, s.file, s.now).account;
            && InScope(scope, a) && HoldsNoRejection(a) && SyncedNamesPersisted(a)
            && (a.cachedEnv.Some? ==> ValidEnvironment(a.cachedEnv.value))
            && (s.file.Some? ==> a.persisted == s.file)
  {
    hide XstsGood, ServiceGood;
    CaughtUp(q.account, q.pending.value.secrets, s.file, s.now);
    if Unseen(q.account, s.file) {
      assert Restorable(q.account, MergedFile(q.account, s.file.value, Some(q.pending.value.secrets), s.now));
    }
  }

  lemma CatchUpReady(scope: Scope, s: System, q: Process)
    requires FileGood(scope, s) && Good(scope, q, s)
    requires q.pending.Some? && q.pending.value.serial == q.account.session.serial
    ensures var ready := CatchUp(q.account, q.pending.value.secrets, s.file, s.now);
            var q1 := Noted(q.(account := ready.account, pending := None));
            && ReadyToWrite(scope, q1, ready.snapshot, s.file, s.now, s.published, s.evicted, s.publishedService, s.evictedService)
            && q1.seen <= q.seen + s.published && q1.own <= q.own + s.publishedService
  {
    hide XstsGood, ServiceGood, CatchUp;
    CatchUpSettles(scope, s, q);
    if Unseen(q.account, s.file) {
      CatchUpAdopts(scope, s, q);
    } else {
      CatchUpStays(s, q);
    }
  }

  lemma WriteXsts(scope: Scope, q: Process, snapshot: Snapshot, file: Option<Bundle>, now: int,
                  published: set<Name>, evicted: set<Name>, publishedService: set<nat>, evictedService: set<nat>, fits: bool, saved: bool)
    requires ReadyToWrite(scope, q, snapshot, file, now, published, evicted, publishedService, evictedService)
    requires Persist(q.account, snapshot, fits, saved).written.Some?
    ensures var r := Persist(q.account, snapshot, fits, saved);
            var names := BundleNames(r.written.value);
            && names <= q.seen && names !! evicted && names !! Carried(q)
            && XstsGood(q.(account := r.account), now, published + names, evicted + Carried(q))
  {
    var a := q.account;
    var r := Persist(a, snapshot, fits, saved);
    var b := r.written.value;
    PersistKeeps(a, snapshot, fits, saved);
    var kept := WithoutRejected(snapshot.xsts, a.rejected);
    var names := BundleNames(b);
    assert b.sisu.value.xsts == kept;
    forall n | n in names ensures n in q.seen && n !in evicted && n !in Carried(q) {
      var rp := n.0;
      assert rp in snapshot.xsts && snapshot.xsts[rp] == kept[rp] && !Refused(a, rp, kept[rp]);
    }
    var q' := q.(account := r.account);
    var published', evicted' := published + names, evicted + Carried(q);
    assert forall rp, u: Token :: Refused(r.account, rp, u) == Refused(a, rp, u);
    forall rp | rp in SisuTokens(a) && !Refused(a, rp, SisuTokens(a)[rp])
      ensures var n := (rp, SisuTokens(a)[rp].id);
              && (n in published' ==> SyncedXsts(r.account.synced, rp) == Some(n.1))
              && (n in evicted' ==> n in published')
    {
      var n := (rp, SisuTokens(a)[rp].id);
      if n in published {
        assert rp in snapshot.xsts && snapshot.xsts[rp] == SisuTokens(a)[rp];
        assert rp in kept;
      }
    }
    forall rp, u: Token | Backed(a, rp, u, now, evicted) ensures Backed(r.account, rp, u, now, evicted) {
    }
  }

  lemma WriteService(scope: Scope, q: Process, snapshot: Snapshot, file: Option<Bundle>, now: int,
                     published: set<Name>, evicted: set<Name>, publishedService: set<nat>, evictedService: set<nat>, fits: bool, saved: bool)
    requires ReadyToWrite(scope, q, snapshot, file, now, published, evicted, publishedService, evictedService)
    requires Persist(q.account, snapshot, fits, saved).written.Some?
    ensures var r := Persist(q.account, snapshot, fits, saved);
            var name := ServiceName(r.written.value.service);
            && name <= q.seenService && name !! evictedService && name !! CarriedService(q)
            && ServiceGood(q.(account := r.account), publishedService + name, evictedService + CarriedService(q))
  {
    var a := q.account;
    var r := Persist(a, snapshot, fits, saved);
    PersistKeeps(a, snapshot, fits, saved);
    var q' := q.(account := r.account);
    forall f | f in q'.flights
      ensures FlightGood(q', f, publishedService + ServiceName(r.written.value.service), evictedService + CarriedService(q))
    {
      assert FlightGood(q, f, publishedService, evictedService);
    }
  }

  // ---- Every step keeps the invariant ----

  ghost predicate Careful(s: System, act: Action)
    requires Enabled(s, act)
  {
    act.Refuse? ==> MayRefuse(s.processes[act.p], s.now, s.published, s.evicted, act.rp, act.token)
  }

  // The credential a step brings into existence, if any.
  function Fresh(act: Action): set<nat> {
    if act.Issue? || act.Depart? then {act.token.id} else {}
  }

  lemma ReloadGood(scope: Scope, s: System, q: Process)
    requires FileGood(scope, s) && Good(scope, q, s)
    ensures var q' := Noted(q.(account := Reload(q.account, s.file, s.now)));
            Good(scope, q', s) && q'.seen <= q.seen + s.published && q'.own <= q.own + s.publishedService
  {
    if Unseen(q.account, s.file) {
      assert Restorable(q.account, MergedFile(q.account, s.file.value, None, s.now));
      AdoptXsts(q, s.file.value, None, s.now, s.published, s.evicted);
      AdoptService(q, s.file.value, None, s.now, s.publishedService, s.evictedService);
    } else {
      SameXsts(q, q, s.now, s.published, s.evicted);
      SameService(q, q, s.publishedService, s.evictedService);
    }
  }

  // Everything `Good` says beyond the tokens themselves.
  ghost predicate Settled(scope: Scope, a: AccountState) {
    && InScope(scope, a) && HoldsNoRejection(a) && SyncedNamesPersisted(a)
    && (a.cachedEnv.Some? ==> ValidEnvironment(a.cachedEnv.value))
  }

  lemma SettledXsts(scope: Scope, q: Process, now: int, act: Action, s: System)
    requires Settled(scope, q.account)
    requires act.Issue? || act.ReadCached? || act.Return? || act.TakeSnapshot?
    ensures Settled(scope, Stepped(s, q, act).account)
  {
    var a, a' := q.account, Stepped(s, q, act).account;
    forall rp ensures !RejectedXsts(a', rp, At(a'.mirror, rp)) {
      assert !RejectedXsts(a, rp, At(a.mirror, rp));
    }
  }

  // What a good account holds it has seen.
  lemma AlreadySeen(scope: Scope, s: System, q: Process)
    requires Good(scope, q, s)
    ensures Names(SisuTokens(q.account)) <= q.seen
    ensures ServiceName(q.account.service) <= q.seenService <= q.own
    ensures forall f :: f in q.flights ==> f.token.id in q.own && FlightGood(q, f, s.publishedService, s.evictedService)
  {
  }

  lemma IssueGood(scope: Scope, s: System, q: Process, rp: RelyingParty, t: Token, p: nat)
    requires Good(scope, q, s) && Known(s) && t.id !in s.issued && !Valid(At(SisuTokens(q.account), rp), s.now)
    ensures var q' := Noted(Stepped(s, q, Issue(p, rp, t)));
            Good(scope, q', s) && q'.own == q.own && forall n :: n in q'.seen ==> n in q.seen || n.1 == t.id
  {
    hide XstsGood, ServiceGood;
    AlreadySeen(scope, s, q);
    var q1 := Stepped(s, q, Issue(p, rp, t));
    SettledXsts(scope, q, s.now, Issue(p, rp, t), s);
    SameService(q, q1, s.publishedService, s.evictedService);
    IssueXsts(q, s.now, s.published, s.evicted, rp, t);
    assert SisuTokens(q1.account) == SisuTokens(q.account)[rp := t];
  }

  lemma ReturnGood(scope: Scope, s: System, q: Process, r: Result, device: Option<Token>, p: nat)
    requires Good(scope, q, s) && r in q.results
    ensures var q' := Noted(Stepped(s, q, Return(p, r, device)));
            Good(scope, q', s) && q'.own == q.own && q'.seen == q.seen
  {
    hide XstsGood, ServiceGood;
    AlreadySeen(scope, s, q);
    var q1 := Stepped(s, q, Return(p, r, device));
    SettledXsts(scope, q, s.now, Return(p, r, device), s);
    SameService(q, q1, s.publishedService, s.evictedService);
    ReturnXsts(q, s.now, s.published, s.evicted, r, device);
    assert SisuTokens(q1.account) == SisuTokens(q.account);
  }

  lemma ReadCachedGood(scope: Scope, s: System, q: Process, rp: RelyingParty, p: nat)
    requires Good(scope, q, s) && rp in SisuTokens(q.account)
    ensures var q' := Noted(Stepped(s, q, ReadCached(p, rp)));
            Good(scope, q', s) && q'.own == q.own && q'.seen == q.seen
  {
    SameService(q, Stepped(s, q, ReadCached(p, rp)), s.publishedService, s.evictedService);
    var q' := Noted(Stepped(s, q, ReadCached(p, rp)));
    assert ResultsGood(q', s.now, s.evicted);
    assert PendingGood(q', s.now, s.published, s.evicted);
  }

  lemma RefuseGood(scope: Scope, s: System, q: Process, rp: RelyingParty, t: Token, p: nat)
    requires Good(scope, q, s) && MayRefuse(q, s.now, s.published, s.evicted, rp, t)
    ensures var q' := Noted(Stepped(s, q, Refuse(p, rp, t)));
            Good(scope, q', s) && q'.own == q.own && q'.seen == q.seen
  {
    hide XstsGood, ServiceGood;
    AlreadySeen(scope, s, q);
    SameService(q, Stepped(s, q, Refuse(p, rp, t)), s.publishedService, s.evictedService);
    RefuseXsts(q, s.now, s.published, s.evicted, rp, t);
  }

  lemma ForgetGood(scope: Scope, s: System, q: Process, rp: RelyingParty, id: nat, replaced: bool, p: nat)
    requires Good(scope, q, s) && (rp, id) in q.evictions
    ensures var q' := Noted(Stepped(s, q, ForgetInSisu(p, rp, id, replaced)));
            Good(scope, q', s) && q'.own == q.own && q'.seen == q.seen
  {
    hide XstsGood, ServiceGood;
    AlreadySeen(scope, s, q);
    SameService(q, Stepped(s, q, ForgetInSisu(p, rp, id, replaced)), s.publishedService, s.evictedService);
    ForgetXsts(q, s.now, s.published, s.evicted, rp, id, replaced);
  }

  lemma SnapshotStepGood(scope: Scope, s: System, q: Process, p: nat)
    requires Good(scope, q, s)
    ensures var q' := Noted(Stepped(s, q, TakeSnapshot(p)));
            Good(scope, q', s) && q'.own == q.own && q'.seen == q.seen
  {
    SameService(q, Stepped(s, q, TakeSnapshot(p)), s.publishedService, s.evictedService);
    FreshSnapshotGood(q.account, s.now, s.published, s.evicted);
    var q' := Noted(Stepped(s, q, TakeSnapshot(p)));
    assert ResultsGood(q', s.now, s.evicted);
    assert PendingGood(q', s.now, s.published, s.evicted);
  }

  lemma ArriveGood(scope: Scope, s: System, q: Process, f: Flight, background: bool, p: nat)
    requires Good(scope, q, s) && f in q.flights
    ensures var q' := Noted(Stepped(s, q, Arrive(p, f, background)));
            Good(scope, q', s) && q'.own == q.own && q'.seen == q.seen
  {
    hide XstsGood, ServiceGood;
    AlreadySeen(scope, s, q);
    assert FlightGood(q, f, s.publishedService, s.evictedService);
    SameXsts(q, Stepped(s, q, Arrive(p, f, background)), s.now, s.published, s.evicted);
    ArriveService(q, s.now, s.publishedService, s.evictedService, f, background);
  }

  lemma DepartGood(scope: Scope, s: System, q: Process, environment: nat, t: Token, p: nat)
    requires Good(scope, q, s) && Known(s) && q.own <= s.issued
    requires t.id !in s.issued || Id(q.account.service) == Some(t.id)
    ensures var q' := Noted(Stepped(s, q, Depart(p, environment, t)));
            Good(scope, q', s) && q'.own <= q.own + {t.id} && q'.seen == q.seen
  {
    hide XstsGood, ServiceGood;
    AlreadySeen(scope, s, q);
    SameXsts(q, Stepped(s, q, Depart(p, environment, t)), s.now, s.published, s.evicted);
    DepartService(q, s.publishedService, s.evictedService, environment, t);
  }

  lemma SlotGood(scope: Scope, s: System, q: Process, act: Action)
    requires Good(scope, q, s)
    requires act.RefuseService? || act.FindEnvironment? || act.NewDevice?
    requires act.FindEnvironment? ==> ValidEnvironment(act.found.environment)
    ensures var q' := Noted(Stepped(s, q, act));
            Good(scope, q', s) && q'.own == q.own && q'.seen == q.seen
  {
    hide XstsGood, ServiceGood, FlightGood;
    AlreadySeen(scope, s, q);
    SameXsts(q, Stepped(s, q, act), s.now, s.published, s.evicted);
    ClearService(q, Stepped(s, q, act).account, s.publishedService, s.evictedService);
  }

  lemma AbandonGood(scope: Scope, s: System, q: Process, p: nat)
    requires Good(scope, q, s)
    ensures var q' := Noted(Stepped(s, q, Abandon(p)));
            Good(scope, q', s) && q'.own == q.own && q'.seen == q.seen
  {
    hide XstsGood, ServiceGood;
    AlreadySeen(scope, s, q);
    SameXsts(q, Stepped(s, q, Abandon(p)), s.now, s.published, s.evicted);
    SameService(q, Stepped(s, q, Abandon(p)), s.publishedService, s.evictedService);
  }

  lemma ReplacedExclusive(s: System, p: nat, q': Process, minted: set<nat>)
    requires Exclusive(s) && Known(s) && minted !! s.issued
    requires forall n :: n in q'.own ==> n in s.publishedService || n in minted || (p in s.processes && n in s.processes[p].own)
    requires forall n :: n in q'.seen ==> n in s.published || n.1 in minted || (p in s.processes && n in s.processes[p].seen)
    ensures var s' := s.(processes := s.processes[p := q'], issued := s.issued + minted);
            Exclusive(s') && Known(s')
  {
    var s' := s.(processes := s.processes[p := q'], issued := s.issued + minted);
    forall b | b in s.processes && b != p
      ensures q'.seen * s.processes[b].seen <= s.published && q'.own * s.processes[b].own <= s.publishedService
    {
      forall n | n in q'.seen * s.processes[b].seen ensures n in s.published {
        assert n.1 in s.issued;
      }
    }
  }

  // Replacing one account's state by a good one keeps the invariant when it saw nothing of another's.
  lemma ReplacedProcess(scope: Scope, s: System, p: nat, q': Process, minted: set<nat>)
    requires Inv(scope, s) && Good(scope, q', s) && minted !! s.issued
    requires forall n :: n in q'.own ==> n in s.publishedService || n in minted || (p in s.processes && n in s.processes[p].own)
    requires forall n :: n in q'.seen ==> n in s.published || n.1 in minted || (p in s.processes && n in s.processes[p].seen)
    ensures Inv(scope, s.(processes := s.processes[p := q'], issued := s.issued + minted))
  {
    hide XstsGood, ServiceGood;
    ReplacedExclusive(s, p, q', minted);
    var s' := s.(processes := s.processes[p := q'], issued := s.issued + minted);
    assert Good(scope, q', s');
    forall r | r in s.processes && r != p ensures Good(scope, s'.processes[r], s') {
      assert Good(scope, s.processes[r], s);
    }
  }

  lemma TickKeeps(scope: Scope, s: System, elapsed: nat)
    requires Inv(scope, s)
    ensures Inv(scope, s.(now := s.now + elapsed))
  {
    hide XstsGood, ServiceGood;
    forall p | p in s.processes ensures Good(scope, s.processes[p], s.(now := s.now + elapsed)) {
      assert Good(scope, s.processes[p], s);
      StableXsts(s.processes[p], s.now, s.now + elapsed, s.published, s.published, s.evicted, s.evicted);
    }
  }

  // `q2` follows `q`, having seen nothing new but published and freshly issued credentials.
  ghost predicate Follows(scope: Scope, s: System, q: Process, q2: Process, minted: set<nat>) {
    && Good(scope, q2, s)
    && (forall n :: n in q2.own ==> n in s.publishedService || n in minted || n in q.own)
    && (forall n :: n in q2.seen ==> n in s.published || n.1 in minted || n in q.seen)
  }

  lemma XstsStepFollows(scope: Scope, s: System, q: Process, act: Action)
    requires Good(scope, q, s) && Known(s) && !act.Tick? && !act.Open? && act.p in s.processes && s.processes[act.p] == q
    requires Enabled(s, act) && Careful(s, act)
    requires act.Issue? || act.ReadCached? || act.Return? || act.Refuse? || act.ForgetInSisu? || act.TakeSnapshot?
    ensures Follows(scope, s, q, Noted(Stepped(s, q, act)), Fresh(act))
  {
    hide Good, Noted, Stepped;
    match act
    case Issue(p, rp, t) => IssueGood(scope, s, q, rp, t, p);
    case ReadCached(p, rp) => ReadCachedGood(scope, s, q, rp, p);
    case Return(p, r, device) => ReturnGood(scope, s, q, r, device, p);
    case Refuse(p, rp, t) => RefuseGood(scope, s, q, rp, t, p);
    case ForgetInSisu(p, rp, id, replaced) => ForgetGood(scope, s, q, rp, id, replaced, p);
    case TakeSnapshot(p) => SnapshotStepGood(scope, s, q, p);
  }

  lemma OtherStepFollows(scope: Scope, s: System, q: Process, act: Action)
    requires Good(scope, q, s) && Known(s) && FileGood(scope, s)
    requires !act.Tick? && !act.Open? && act.p in s.processes && s.processes[act.p] == q && Enabled(s, act)
    requires act.LoadFile? || act.Abandon? || act.Depart? || act.Arrive? || act.RefuseService? || act.FindEnvironment? || act.NewDevice?
    ensures Follows(scope, s, q, Noted(Stepped(s, q, act)), Fresh(act))
  {
    hide Good, Noted, Reload;
    match act
    case LoadFile(_) => ReloadGood(scope, s, q);
    case Abandon(p) => AbandonGood(scope, s, q, p);
    case Depart(p, environment, t) => DepartGood(scope, s, q, environment, t, p);
    case Arrive(p, f, background) => ArriveGood(scope, s, q, f, background, p);
    case _ => SlotGood(scope, s, q, act);
  }

  lemma LocalStepKeeps(scope: Scope, s: System, act: Action)
    requires Inv(scope, s) && Enabled(s, act) && Careful(s, act)
    requires !act.Tick? && !act.Open? && !act.Write?
    ensures Inv(scope, Next(scope, s, act))
  {
    hide Stepped, Good, Noted;
    var p := act.p;
    var q := s.processes[p];
    var q2 := Noted(Stepped(s, q, act));
    var minted := Fresh(act) - s.issued;
    assert Follows(scope, s, q, q2, Fresh(act)) by {
      if act.Issue? || act.ReadCached? || act.Return? || act.Refuse? || act.ForgetInSisu? || act.TakeSnapshot? {
        XstsStepFollows(scope, s, q, act);
      } else {
        OtherStepFollows(scope, s, q, act);
      }
    }
    assert Follows(scope, s, q, q2, minted) by {
      DepartedSeed(scope, s, q, act);
    }
    ReplacedProcess(scope, s, p, q2, minted);
    assert s.issued + minted == s.issued + Fresh(act);
  }

  // A departing exchange may carry its seed, which the account already owns.
  lemma DepartedSeed(scope: Scope, s: System, q: Process, act: Action)
    requires Good(scope, q, s) && !act.Tick? && !act.Open? && act.p in s.processes && s.processes[act.p] == q && Enabled(s, act)
    requires Follows(scope, s, q, Noted(Stepped(s, q, act)), Fresh(act))
    ensures Follows(scope, s, q, Noted(Stepped(s, q, act)), Fresh(act) - s.issued)
  {
    if act.Depart? && act.token.id in s.issued {
      assert act.token.id in q.own;
      assert Noted(Stepped(s, q, act)).seen == q.seen;
    }
  }

  lemma OpenKeeps(scope: Scope, s: System, p: nat)
    requires Inv(scope, s) && p !in s.processes
    ensures Inv(scope, Next(scope, s, Open(p)))
  {
    var q := Process(NewAccount(scope), {}, None, {}, {}, {}, {}, {});
    assert Good(scope, q, s);
    ReloadGood(scope, s, q);
    ReplacedProcess(scope, s, p, Noted(q.(account := Reload(NewAccount(scope), s.file, s.now))), {});
    assert s.issued + {} == s.issued;
  }

  // What a write leaves behind, from the writer `q1` that was ready to write.
  ghost predicate WriteEffect(scope: Scope, s: System, p: nat, q1: Process, r: Published, s': System) {
    && p in s.processes && r.written.Some?
    && (forall n :: n in q1.own ==> n in s.processes[p].own || n in s.publishedService)
    && (forall n :: n in q1.seen ==> n in s.processes[p].seen || n in s.published)
    && Settled(scope, r.account) && BundleInScope(scope, r.written.value)
    && s' == s.(processes := s.processes[p := q1.(account := r.account)], file := r.written,
                published := s.published + BundleNames(r.written.value),
                publishedService := s.publishedService + ServiceName(r.written.value.service),
                evicted := s.evicted + Carried(q1), evictedService := s.evictedService + CarriedService(q1))
    && BundleNames(r.written.value) <= q1.seen && Carried(q1) <= q1.seen
    && BundleNames(r.written.value) !! s'.evicted
    && ServiceName(r.written.value.service) <= q1.own && CarriedService(q1) <= q1.own
    && ServiceName(r.written.value.service) !! s'.evictedService
    && XstsGood(q1.(account := r.account), s.now, s'.published, s'.evicted)
    && ServiceGood(q1.(account := r.account), s'.publishedService, s'.evictedService)
  }

  lemma WriteBasics(scope: Scope, s: System, ready: Ready, q1: Process, fits: bool, saved: bool)
    requires ReadyToWrite(scope, q1, ready.snapshot, s.file, s.now, s.published, s.evicted, s.publishedService, s.evictedService)
    requires ready.account == q1.account && Persist(ready.account, ready.snapshot, fits, saved).written.Some?
    ensures var r := Persist(ready.account, ready.snapshot, fits, saved);
            && Settled(scope, r.account) && BundleInScope(scope, r.written.value)
            && Carried(q1) <= q1.seen && CarriedService(q1) <= q1.seenService <= q1.own
  {
    PersistKeeps(ready.account, ready.snapshot, fits, saved);
  }

  lemma WriteHasEffect(scope: Scope, s: System, q: Process, ready: Ready, q1: Process, fits: bool, saved: bool, p: nat, s': System)
    requires ReadyToWrite(scope, q1, ready.snapshot, s.file, s.now, s.published, s.evicted, s.publishedService, s.evictedService)
    requires p in s.processes && s.processes[p] == q && ready.account == q1.account
    requires q1.seen <= q.seen + s.published && q1.own <= q.own + s.publishedService
    requires var r := Persist(ready.account, ready.snapshot, fits, saved);
             r.written.Some? &&
             s' == s.(processes := s.processes[p := q1.(account := r.account)], file := r.written,
                      published := s.published + BundleNames(r.written.value),
                      publishedService := s.publishedService + ServiceName(r.written.value.service),
                      evicted := s.evicted + Carried(q1), evictedService := s.evictedService + CarriedService(q1))
    ensures WriteEffect(scope, s, p, q1, Persist(ready.account, ready.snapshot, fits, saved), s')
  {
    hide XstsGood, ServiceGood, Carried, CarriedService, BundleNames, Persist;
    WriteBasics(scope, s, ready, q1, fits, saved);
    PersistKeeps(ready.account, ready.snapshot, fits, saved);
    WriteXsts(scope, q1, ready.snapshot, s.file, s.now, s.published, s.evicted, s.publishedService, s.evictedService, fits, saved);
    WriteService(scope, q1, ready.snapshot, s.file, s.now, s.published, s.evicted, s.publishedService, s.evictedService, fits, saved);
  }

  lemma WrittenExclusive(scope: Scope, s: System, p: nat, q1: Process, r: Published, s': System)
    requires Exclusive(s) && Known(s) && WriteEffect(scope, s, p, q1, r, s')
    ensures Exclusive(s') && Known(s')
    ensures forall o :: o in s.processes && o != p ==>
              s.processes[o].seen * q1.seen <= s.published && s.processes[o].own * q1.own <= s.publishedService
  {
    hide XstsGood, ServiceGood, Settled, BundleInScope, BundleNames, ServiceName, Carried, CarriedService;
    forall o | o in s.processes && o != p
      ensures s.processes[o].seen * q1.seen <= s.published && s.processes[o].own * q1.own <= s.publishedService
    {
      assert s.processes[o].seen * s.processes[p].seen <= s.published;
      assert s.processes[o].own * s.processes[p].own <= s.publishedService;
    }
  }

  lemma WrittenOther(scope: Scope, s: System, p: nat, q1: Process, r: Published, s': System, o: nat)
    requires WriteEffect(scope, s, p, q1, r, s')
    requires o in s.processes && o != p && Good(scope, s.processes[o], s)
    requires s.processes[o].seen * q1.seen <= s.published && s.processes[o].own * q1.own <= s.publishedService
    ensures Good(scope, s'.processes[o], s')
  {
    hide XstsGood, ServiceGood;
    var other := s.processes[o];
    assert forall n :: n in other.seen && n in q1.seen ==> n in other.seen * q1.seen;
    assert forall n :: n in other.own && n in q1.own ==> n in other.own * q1.own;
    StableXsts(other, s.now, s.now, s.published, s'.published, s.evicted, s'.evicted);
    StableService(other, s.publishedService, s'.publishedService, s.evictedService, s'.evictedService);
  }

  lemma WrittenKeeps(scope: Scope, s: System, p: nat, q1: Process, r: Published, s': System)
    requires Inv(scope, s) && WriteEffect(scope, s, p, q1, r, s')
    ensures Inv(scope, s')
  {
    hide XstsGood, ServiceGood;
    WrittenExclusive(scope, s, p, q1, r, s');
    assert FileGood(scope, s') && Good(scope, s'.processes[p], s');
    forall o | o in s.processes && o != p ensures Good(scope, s'.processes[o], s') {
      WrittenOther(scope, s, p, q1, r, s', o);
    }
  }

  // The writer of a step, caught up with the file.
  function WriterOf(s: System, act: Action): Process
    requires act.Write? && Enabled(s, act)
  {
    var q := s.processes[act.p];
    Noted(q.(account := CatchUp(q.account, q.pending.value.secrets, s.file, s.now).account, pending := None))
  }

  lemma SkippedWriteKeeps(scope: Scope, s: System, act: Action, ready: Ready, q1: Process)
    requires Inv(scope, s) && act.Write? && Enabled(s, act)
    requires ReadyToWrite(scope, q1, ready.snapshot, s.file, s.now, s.published, s.evicted, s.publishedService, s.evictedService)
    requires q1.seen <= s.processes[act.p].seen + s.published && q1.own <= s.processes[act.p].own + s.publishedService
    requires q1.account == ready.account && Persist(ready.account, ready.snapshot, act.fits, act.saved).written.None?
    requires Next(scope, s, act) ==
             s.(processes := s.processes[act.p := q1.(account := Persist(ready.account, ready.snapshot, act.fits, act.saved).account)])
    ensures Inv(scope, Next(scope, s, act))
  {
    hide XstsGood, ServiceGood;
    SkippedWrite(scope, s, ready, q1, act.fits, act.saved);
    ReplacedProcess(scope, s, act.p, q1, {});
    assert s.issued + {} == s.issued;
  }

  lemma WriteKeeps(scope: Scope, s: System, act: Action)
    requires Inv(scope, s) && Enabled(s, act) && act.Write?
    ensures Inv(scope, Next(scope, s, act))
  {
    var q, q1 := s.processes[act.p], WriterOf(s, act);
    var ready := CatchUp(q.account, q.pending.value.secrets, s.file, s.now);
    assert FileGood(scope, s) && Good(scope, q, s);
    CatchUpReady(scope, s, q);
    WriteNext(scope, s, act, q1, Persist(ready.account, ready.snapshot, act.fits, act.saved));
    WriterKeeps(scope, s, act, ready, q1);
  }

  lemma WriterKeeps(scope: Scope, s: System, act: Action, ready: Ready, q1: Process)
    requires Inv(scope, s) && act.Write? && Enabled(s, act)
    requires ReadyToWrite(scope, q1, ready.snapshot, s.file, s.now, s.published, s.evicted, s.publishedService, s.evictedService)
    requires q1.seen <= s.processes[act.p].seen + s.published && q1.own <= s.processes[act.p].own + s.publishedService
    requires q1.account == ready.account
    requires var r := Persist(ready.account, ready.snapshot, act.fits, act.saved);
             var processes := s.processes[act.p := q1.(account := r.account)];
             Next(scope, s, act) ==
             if r.written.None? then s.(processes := processes)
             else s.(processes := processes, file := r.written,
                     published := s.published + BundleNames(r.written.value),
                     publishedService := s.publishedService + ServiceName(r.written.value.service),
                     evicted := s.evicted + Carried(q1), evictedService := s.evictedService + CarriedService(q1))
    ensures Inv(scope, Next(scope, s, act))
  {
    var r := Persist(ready.account, ready.snapshot, act.fits, act.saved);
    if r.written.None? {
      SkippedWriteKeeps(scope, s, act, ready, q1);
    } else {
      WriteHasEffect(scope, s, s.processes[act.p], ready, q1, act.fits, act.saved, act.p, Next(scope, s, act));
      WrittenKeeps(scope, s, act.p, q1, r, Next(scope, s, act));
    }
  }

  lemma SkippedWrite(scope: Scope, s: System, ready: Ready, q1: Process, fits: bool, saved: bool)
    requires ReadyToWrite(scope, q1, ready.snapshot, s.file, s.now, s.published, s.evicted, s.publishedService, s.evictedService)
    requires q1.account == ready.account && Persist(ready.account, ready.snapshot, fits, saved).written.None?
    ensures Persist(ready.account, ready.snapshot, fits, saved).account == ready.account && Good(scope, q1, s)
  {
    hide XstsGood, ServiceGood;
  }

  // A write step, in terms of the writer that caught up with the file.
  lemma WriteNext(scope: Scope, s: System, act: Action, q1: Process, r: Published)
    requires Enabled(s, act) && act.Write?
    requires var q := s.processes[act.p];
             var ready := CatchUp(q.account, q.pending.value.secrets, s.file, s.now);
             && q1 == Noted(q.(account := ready.account, pending := None))
             && r == Persist(ready.account, ready.snapshot, act.fits, act.saved)
    ensures var processes := s.processes[act.p := q1.(account := r.account)];
            Next(scope, s, act) ==
            if r.written.None? then s.(processes := processes)
            else s.(processes := processes, file := r.written,
                    published := s.published + BundleNames(r.written.value),
                    publishedService := s.publishedService + ServiceName(r.written.value.service),
                    evicted := s.evicted + Carried(q1), evictedService := s.evictedService + CarriedService(q1))
  {
    var q := s.processes[act.p];
    var ready := CatchUp(q.account, q.pending.value.secrets, s.file, s.now);
    PersistKeeps(ready.account, ready.snapshot, act.fits, act.saved);
    assert Noted(Stepped(s, q, act)) == q1.(account := r.account);
  }

  lemma StepKeeps(scope: Scope, s: System, act: Action)
    requires Inv(scope, s) && Enabled(s, act) && Careful(s, act)
    ensures Inv(scope, Next(scope, s, act))
  {
    hide Inv;
    if act.Tick? {
      TickKeeps(scope, s, act.elapsed);
    } else if act.Open? {
      OpenKeeps(scope, s, act.p);
    } else if act.Write? {
      WriteKeeps(scope, s, act);
    } else {
      LocalStepKeeps(scope, s, act);
    }
  }

  lemma NamesSynced(b: Bundle, rp: RelyingParty, id: nat)
    ensures SyncedXsts(SyncedFrom(b), rp) == Some(id) <==> (rp, id) in BundleNames(b)
  {
  }

  // In an account in step with the file no evicted token is named in `synced`.
  lemma InStepDoomsNothing(scope: Scope, s: System, p: nat, rp: RelyingParty, id: nat)
    requires Inv(scope, s) && p in s.processes && s.processes[p].account.persisted == s.file
    ensures !Doomed(s.processes[p].account, rp, id, s.evicted)
  {
    assert Good(scope, s.processes[p], s) && FileGood(scope, s);
    if s.file.Some? { NamesSynced(s.file.value, rp, id); }
  }

  // ---- Whole runs ----

  // No account runs yet; the file is absent, or a bundle of this scope whose credentials are issued.
  ghost predicate Initial(scope: Scope, s: System) {
    && s.processes == map[] && s.evicted == {} && s.evictedService == {}
    && (match s.file
        case None => s.published == {} && s.publishedService == {}
        case Some(b) => BundleInScope(scope, b) && s.published == BundleNames(b) && s.publishedService == ServiceName(b.service))
    && s.publishedService <= s.issued && (forall n :: n in s.published ==> n.1 in s.issued)
  }

  ghost predicate Run(scope: Scope, states: seq<System>, acts: seq<Action>) {
    && |states| == |acts| + 1 && Initial(scope, states[0])
    && forall i :: 0 <= i < |acts| ==>
         Enabled(states[i], acts[i]) && Careful(states[i], acts[i]) && states[i + 1] == Next(scope, states[i], acts[i])
  }

  lemma InitialIsGood(scope: Scope, s: System)
    requires Initial(scope, s)
    ensures Inv(scope, s)
  {
  }

  lemma {:induction false} RunKeepsInvariant(scope: Scope, states: seq<System>, acts: seq<Action>, i: nat)
    requires Run(scope, states, acts) && i < |states|
    ensures Inv(scope, states[i])
    decreases i
  {
    hide Inv, Next, Enabled, Careful, Initial;
    if i == 0 {
      InitialIsGood(scope, states[0]);
    } else {
      RunKeepsInvariant(scope, states, acts, i - 1);
      StepKeeps(scope, states[i - 1], acts[i - 1]);
    }
  }

  // Evictions are never undone.
  lemma {:induction false} EvictionsOnlyGrow(scope: Scope, states: seq<System>, acts: seq<Action>, i: nat, j: nat)
    requires Run(scope, states, acts) && i <= j < |states|
    ensures states[i].evicted <= states[j].evicted && states[i].evictedService <= states[j].evictedService
    decreases j - i
  {
    if i < j {
      EvictionsOnlyGrow(scope, states, acts, i, j - 1);
      assert states[j] == Next(scope, states[j - 1], acts[j - 1]);
    }
  }

  // A bundle an account publishes takes its remembered rejections with it.
  lemma PublishingEvicts(scope: Scope, s: System, p: nat, fits: bool, saved: bool, rp: RelyingParty)
    requires Inv(scope, s) && Enabled(s, Write(p, fits, saved)) && Written(s, Write(p, fits, saved)).Some?
    ensures var a := s.processes[p].account;
            var s' := Next(scope, s, Write(p, fits, saved));
            && s'.file == Written(s, Write(p, fits, saved))
            && (rp in a.rejected && (rp, a.rejected[rp].id) in s.processes[p].seen ==> (rp, a.rejected[rp].id) in s'.evicted)
            && (a.rejectedService.Some? && a.rejectedService.value.id in s.processes[p].seenService ==>
                  a.rejectedService.value.id in s'.evictedService)
  {
    var q := s.processes[p];
    CaughtUp(q.account, q.pending.value.secrets, s.file, s.now);
    var ready := CatchUp(q.account, q.pending.value.secrets, s.file, s.now);
    PersistKeeps(ready.account, ready.snapshot, fits, saved);
  }

  // Once an account published a bundle after rejecting a token it held, no later bundle, by any account, holds it.
  lemma EvictedNeverReturns(scope: Scope, states: seq<System>, acts: seq<Action>, i: nat, j: nat)
    requires Run(scope, states, acts) && i <= j < |states|
    requires states[j].file.Some?
    ensures BundleNames(states[j].file.value) !! states[i].evicted
    ensures ServiceName(states[j].file.value.service) !! states[i].evictedService
  {
    RunKeepsInvariant(scope, states, acts, j);
    EvictionsOnlyGrow(scope, states, acts, i, j);
  }
}
