/** Merging a published bundle with an account's own fresher credentials. */
module BundleMerge {
  import opened AuthTypes
  import opened Wrappers

  // What an account brings to a merge.
  datatype Local = Local(
    device: Option<Token>,
    service: Option<Token>,
    environment: Option<Environment>,
    synced: Synced,
    mirror: TokenMap)

  predicate Fresher(local: Option<Token>, published: Option<Token>, now: int) {
    Valid(local, now) && (published.None? || published.value.notAfter < local.value.notAfter)
  }

  function MergeSecret(published: Option<Token>, local: Option<Token>, now: int): Option<Token> {
    if Fresher(local, published, now) then local else published
  }

  // A synced token missing from the bundle was evicted by whoever published it.
  predicate Takes(published: Option<Token>, local: Option<Token>, synced: Option<nat>, now: int) {
    Fresher(local, published, now) && Id(local) != synced
  }

  function MergeEntry(published: Option<Token>, local: Option<Token>, synced: Option<nat>, now: int): Option<Token> {
    if Takes(published, local, synced, now) then local else published
  }

  function MergeXsts(published: TokenMap, local: TokenMap, synced: Synced, now: int): TokenMap {
    map rp | rp in published.Keys + local.Keys &&
             MergeEntry(At(published, rp), At(local, rp), SyncedXsts(synced, rp), now).Some? ::
      MergeEntry(At(published, rp), At(local, rp), SyncedXsts(synced, rp), now).value
  }

  function MergeSnapshot(published: Snapshot, local: Snapshot, mirror: TokenMap, synced: Synced, now: int): Snapshot {
    Snapshot(MergeSecret(published.title, local.title, now),
             MergeSecret(published.user, local.user, now),
             MergeXsts(MergeXsts(published.xsts, local.xsts, synced, now), mirror, synced, now))
  }

  const EMPTY_SNAPSHOT := Snapshot(None, None, map[])

  function MergeService(b: Bundle, l: Local, now: int): Option<Token> {
    if SameEnvironment(b.environment, l.environment) then MergeEntry(b.service, l.service, l.synced.service, now)
    else b.service
  }

  function Merge(b: Bundle, l: Local, snapshot: Option<Snapshot>, now: int): Bundle {
    b.(device := MergeSecret(b.device, l.device, now),
       service := MergeService(b, l, now),
       sisu := if b.sisu.None? then None
               else Some(MergeSnapshot(b.sisu.value, if snapshot.Some? then snapshot.value else EMPTY_SNAPSHOT,
                                       l.mirror, l.synced, now)))
  }

  // ---- What a merge keeps and what it takes ----

  // `merged` is the published credential, or a valid, strictly longer-lived local one.
  predicate KeepsOrOutlives(published: Option<Token>, merged: Option<Token>, now: int) {
    published.Some? ==> merged == published ||
                        (Valid(merged, now) && published.value.notAfter < merged.value.notAfter)
  }

  lemma MergeXstsAt(published: TokenMap, local: TokenMap, synced: Synced, now: int, rp: RelyingParty)
    ensures At(MergeXsts(published, local, synced, now), rp) ==
            MergeEntry(At(published, rp), At(local, rp), SyncedXsts(synced, rp), now)
  {
    assert rp in published.Keys + local.Keys || (At(published, rp).None? && At(local, rp).None?);
  }

  // The merged XSTS token of one relying party, sources taken in the order snapshot, mirror.
  lemma MergedXstsAt(b: Bundle, l: Local, snapshot: Option<Snapshot>, now: int, rp: RelyingParty)
    requires b.sisu.Some?
    ensures var local := if snapshot.Some? then snapshot.value.xsts else map[];
            var first := MergeEntry(At(b.sisu.value.xsts, rp), At(local, rp), SyncedXsts(l.synced, rp), now);
            At(Merge(b, l, snapshot, now).sisu.value.xsts, rp) ==
              MergeEntry(first, At(l.mirror, rp), SyncedXsts(l.synced, rp), now)
  {
    var local := if snapshot.Some? then snapshot.value else EMPTY_SNAPSHOT;
    MergeXstsAt(b.sisu.value.xsts, local.xsts, l.synced, now, rp);
    MergeXstsAt(MergeXsts(b.sisu.value.xsts, local.xsts, l.synced, now), l.mirror, l.synced, now, rp);
  }

  // No published credential is dropped or replaced by one that ends sooner.
  lemma MergeNeverLosesLifetime(b: Bundle, l: Local, snapshot: Option<Snapshot>, now: int)
    ensures var m := Merge(b, l, snapshot, now);
            && KeepsOrOutlives(b.device, m.device, now)
            && KeepsOrOutlives(b.service, m.service, now)
            && m.sisu.Some? == b.sisu.Some?
            && (b.sisu.Some? ==>
                  && KeepsOrOutlives(b.sisu.value.title, m.sisu.value.title, now)
                  && KeepsOrOutlives(b.sisu.value.user, m.sisu.value.user, now)
                  && forall rp :: KeepsOrOutlives(At(b.sisu.value.xsts, rp), At(m.sisu.value.xsts, rp), now))
  {
    if b.sisu.Some? {
      forall rp ensures KeepsOrOutlives(At(b.sisu.value.xsts, rp), At(Merge(b, l, snapshot, now).sisu.value.xsts, rp), now) {
        MergedXstsAt(b, l, snapshot, now, rp);
      }
    }
  }

  // The local credential has not expired and ends later than the published one, if there is one.
  predicate Outlives(local: Option<Token>, published: Option<Token>, now: int) {
    local.Some? && now < local.value.notAfter && (published.Some? ==> published.value.notAfter < local.value.notAfter)
  }

  // The device, title and user tokens, which go by lifetime alone: the local one if it outlives the
  // published one, otherwise the published one.
  lemma MergeTakesLongerLived(b: Bundle, l: Local, snapshot: Option<Snapshot>, now: int)
    ensures var m := Merge(b, l, snapshot, now);
            && m.device == (if Outlives(l.device, b.device, now) then l.device else b.device)
            && m.sisu.Some? == b.sisu.Some?
            && (b.sisu.Some? ==>
                  var title := if snapshot.Some? then snapshot.value.title else None;
                  var user := if snapshot.Some? then snapshot.value.user else None;
                  && m.sisu.value.title == (if Outlives(title, b.sisu.value.title, now) then title else b.sisu.value.title)
                  && m.sisu.value.user == (if Outlives(user, b.sisu.value.user, now) then user else b.sisu.value.user))
            && m == b.(device := m.device, sisu := m.sisu, service := m.service)
  {
  }

  // The service token and, per relying party, the XSTS token: only a local one that is not the synced one
  // counts, the service token only in the same environment, and the mirror comes after the snapshot.
  lemma MergeTakesUnsynced(b: Bundle, l: Local, snapshot: Option<Snapshot>, now: int, rp: RelyingParty)
    ensures var m := Merge(b, l, snapshot, now);
            && (var fits := l.environment.Some? && b.environment == l.environment && l.service.Some? &&
                            l.synced.service != Some(l.service.value.id) && Outlives(l.service, b.service, now);
                m.service == if fits then l.service else b.service)
            && (b.sisu.Some? ==>
                  var unsynced := (t: Option<Token>) =>
                    t.Some? && !(rp in l.synced.xsts && l.synced.xsts[rp] == t.value.id);
                  var published, local := At(b.sisu.value.xsts, rp), if snapshot.Some? then At(snapshot.value.xsts, rp) else None;
                  var first := if unsynced(local) && Outlives(local, published, now) then local else published;
                  var mirrored := At(l.mirror, rp);
                  At(m.sisu.value.xsts, rp) == if unsynced(mirrored) && Outlives(mirrored, first, now) then mirrored else first)
  {
    if b.sisu.Some? { MergedXstsAt(b, l, snapshot, now, rp); }
  }

  // Exactly when a local credential reaches the merged bundle in place of the published one.
  lemma MergeTakesLocalExactlyWhen(b: Bundle, l: Local, snapshot: Option<Snapshot>, now: int, rp: RelyingParty)
    requires b.sisu.Some?
    ensures var m := Merge(b, l, snapshot, now);
            var published := At(b.sisu.value.xsts, rp);
            var local := if snapshot.Some? then At(snapshot.value.xsts, rp) else None;
            var mirrored := At(l.mirror, rp);
            var synced := SyncedXsts(l.synced, rp);
            && (m.service != b.service <==>
                  SameEnvironment(b.environment, l.environment) && Takes(b.service, l.service, l.synced.service, now))
            && (At(m.sisu.value.xsts, rp) != published <==>
                  Takes(published, local, synced, now) || Takes(published, mirrored, synced, now))
            && (At(m.sisu.value.xsts, rp) != published ==>
                  && At(m.sisu.value.xsts, rp) in {local, mirrored}
                  && Valid(At(m.sisu.value.xsts, rp), now)
                  && Id(At(m.sisu.value.xsts, rp)) != synced)
  {
    MergedXstsAt(b, l, snapshot, now, rp);
  }

  // ---- Independence of map iteration order ----

  // One loop iteration: relying party `rp` of the local source.
  function MergeOne(acc: TokenMap, local: TokenMap, synced: Synced, now: int, rp: RelyingParty): TokenMap {
    if Takes(At(acc, rp), At(local, rp), SyncedXsts(synced, rp), now) then acc[rp := local[rp]] else acc
  }

  function MergeInOrder(acc: TokenMap, local: TokenMap, synced: Synced, now: int, order: seq<RelyingParty>): TokenMap
    decreases |order|
  {
    if order == [] then acc
    else MergeInOrder(MergeOne(acc, local, synced, now, order[0]), local, synced, now, order[1..])
  }

  lemma {:induction false} MergeInOrderAt(acc: TokenMap, local: TokenMap, synced: Synced, now: int,
                                          order: seq<RelyingParty>, rp: RelyingParty)
    requires forall i, j :: 0 <= i < j < |order| ==> order[i] != order[j]
    ensures At(MergeInOrder(acc, local, synced, now, order), rp) ==
            if rp in order then MergeEntry(At(acc, rp), At(local, rp), SyncedXsts(synced, rp), now) else At(acc, rp)
    decreases |order|
  {
    if order != [] {
      MergeInOrderAt(MergeOne(acc, local, synced, now, order[0]), local, synced, now, order[1..], rp);
      assert rp in order <==> rp == order[0] || rp in order[1..];
    }
  }

  lemma SameAtEveryKey(a: TokenMap, b: TokenMap)
    requires forall rp :: At(a, rp) == At(b, rp)
    ensures a == b
  {
    forall rp ensures rp in a <==> rp in b {
      assert At(a, rp) == At(b, rp);
    }
    forall rp | rp in a ensures a[rp] == b[rp] {
      assert At(a, rp) == At(b, rp);
    }
  }

  // However Go happens to walk the map, the merged tokens are the same.
  lemma MergeIgnoresIterationOrder(published: TokenMap, local: TokenMap, synced: Synced, now: int, order: seq<RelyingParty>)
    requires forall i, j :: 0 <= i < j < |order| ==> order[i] != order[j]
    requires forall rp :: rp in order <==> rp in local
    ensures MergeInOrder(published, local, synced, now, order) == MergeXsts(published, local, synced, now)
  {
    forall rp ensures At(MergeInOrder(published, local, synced, now, order), rp) ==
                      At(MergeXsts(published, local, synced, now), rp) {
      MergeInOrderAt(published, local, synced, now, order, rp);
      MergeXstsAt(published, local, synced, now, rp);
    }
    SameAtEveryKey(MergeInOrder(published, local, synced, now, order), MergeXsts(published, local, synced, now));
  }

  // The loop itself, visiting keys in whatever order the map yields them.
  method MergeXstsLoop(published: TokenMap, local: TokenMap, synced: Synced, now: int) returns (merged: TokenMap)
    ensures merged == MergeXsts(published, local, synced, now)
  {
    merged := published;
    var left := local.Keys;
    while left != {}
      invariant left <= local.Keys
      invariant forall rp :: At(merged, rp) == if rp in local.Keys - left
                then MergeEntry(At(published, rp), At(local, rp), SyncedXsts(synced, rp), now) else At(published, rp)
    {
      var rp :| rp in left;
      merged := MergeOne(merged, local, synced, now, rp);
      left := left - {rp};
    }
    forall rp ensures At(merged, rp) == At(MergeXsts(published, local, synced, now), rp) {
      MergeXstsAt(published, local, synced, now, rp);
    }
    SameAtEveryKey(merged, MergeXsts(published, local, synced, now));
  }
}
