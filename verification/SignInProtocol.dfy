/**
 Sign-ins, token refreshes, bundle publications and sign-outs by any number of processes, interleaved
 at every lease they take. A process may also die anywhere; its leases are then free again.
 */
module SignInProtocol {
  import opened Wrappers
  import opened SignInCache

  datatype Publishing = NotPublishing | HoldsDerived | HoldsBoth

  datatype Actor =
    | SigningIn
    | Live(source: SourceState, refreshing: bool, publishing: Publishing)
    | Removing(stage: nat) // leases: derived at 0, both from 1; OAuth file tried from 2, bundle from 3

  datatype Role = ForSignIn | ForRefresh | ForPublish | ForRemove

  datatype Holder = Holder(actor: nat, role: Role)

  // `bundle` is the generation whose account wrote the derived bundle; `created` and `retired` are the
  // generations ever used and those that have left the OAuth file; `log` is every rotation obtained.
  datatype System = System(
    oauth: Contents,
    bundle: Option<nat>,
    oauthLease: Option<Holder>,
    derivedLease: Option<Holder>,
    actors: map<nat, Actor>,
    created: set<nat>,
    retired: set<nat>,
    log: seq<Rotation>)

  datatype Action =
    | BeginSignIn(p: nat)
    | EndSignIn(p: nat, built: bool, answer: Answer, requested: Option<OAuthToken>, saved: bool, gen: nat)
    | BeginToken(p: nat)
    | EndToken(p: nat, built: bool, answer: Answer, saved: bool)
    | BeginPublish(p: nat)
    | CheckSignIn(p: nat)
    | GiveUpPublish(p: nat)
    | WriteBundle(p: nat)
    | EndPublish(p: nat)
    | BeginRemove(p: nat)
    | LeaseRemove(p: nat)
    | RemoveOAuth(p: nat, ok: bool)
    | RemoveBundle(p: nat, ok: bool)
    | EndRemove(p: nat)
    | Die(p: nat)

  predicate IsLive(s: System, p: nat) {
    p in s.actors && s.actors[p].Live?
  }

  predicate Removes(s: System, p: nat, stage: nat) {
    p in s.actors && s.actors[p] == Removing(stage)
  }

  predicate Enabled(s: System, act: Action) {
    match act
    case BeginSignIn(p) => p !in s.actors && s.oauthLease.None?
    case EndSignIn(p, _, _, _, _, gen) => p in s.actors && s.actors[p].SigningIn? && gen !in s.created
    case BeginToken(p) => IsLive(s, p) && !s.actors[p].refreshing && !s.actors[p].source.changed && s.oauthLease.None?
    case EndToken(p, _, _, _) => IsLive(s, p) && s.actors[p].refreshing
    case BeginPublish(p) => IsLive(s, p) && s.actors[p].publishing.NotPublishing? && s.derivedLease.None?
    case CheckSignIn(p) => IsLive(s, p) && s.actors[p].publishing.HoldsDerived? && s.oauthLease.None?
    case GiveUpPublish(p) => IsLive(s, p) && s.actors[p].publishing.HoldsDerived?
    case WriteBundle(p) => IsLive(s, p) && s.actors[p].publishing.HoldsBoth?
    case EndPublish(p) => IsLive(s, p) && s.actors[p].publishing.HoldsBoth?
    case BeginRemove(p) => p !in s.actors && s.derivedLease.None?
    case LeaseRemove(p) => Removes(s, p, 0) && s.oauthLease.None?
    case RemoveOAuth(p, _) => Removes(s, p, 1)
    case RemoveBundle(p, _) => Removes(s, p, 2)
    case EndRemove(p) => Removes(s, p, 0) || Removes(s, p, 3)
    case Die(p) => p in s.actors
  }

  // A generation that stops being the file's own has left it.
  function WithFile(s: System, contents: Contents): System {
    s.(oauth := contents,
       retired := s.retired + if s.oauth.Stored? && s.oauth.generation.Gen? &&
                                 !(contents.Stored? && contents.generation == s.oauth.generation)
                              then {s.oauth.generation.n} else {})
  }

  function Logged(s: System, r: Outcome): System {
    if r.rotated.Some? then s.(log := s.log + [r.rotated.value]) else s
  }

  function Without(actors: map<nat, Actor>, p: nat): map<nat, Actor> {
    map q | q in actors && q != p :: actors[q]
  }

  function Freed(lease: Option<Holder>, p: nat): Option<Holder> {
    if lease.Some? && lease.value.actor == p then None else lease
  }

  function Next(s: System, act: Action): System
    requires Enabled(s, act)
  {
    match act
    case BeginSignIn(p) => s.(actors := s.actors[p := SigningIn], oauthLease := Some(Holder(p, ForSignIn)))
    case EndSignIn(p, built, answer, requested, saved, gen) =>
      var r := Open(s.oauth, built, answer, requested, saved, gen);
      Logged(WithFile(s, r.file), r).(
        actors := if r.reply.Granted? then s.actors[p := Live(r.state, false, NotPublishing)] else Without(s.actors, p),
        oauthLease := None,
        created := s.created + {gen})
    case BeginToken(p) => s.(actors := s.actors[p := s.actors[p].(refreshing := true)], oauthLease := Some(Holder(p, ForRefresh)))
    case EndToken(p, built, answer, saved) =>
      var r := GetToken(s.actors[p].source, s.oauth, built, answer, saved);
      Logged(WithFile(s, r.file), r).(
        actors := s.actors[p := s.actors[p].(source := r.state, refreshing := false)], oauthLease := None)
    case BeginPublish(p) =>
      s.(actors := s.actors[p := s.actors[p].(publishing := HoldsDerived)], derivedLease := Some(Holder(p, ForPublish)))
    case CheckSignIn(p) =>
      if s.oauth.Stored? && s.oauth.generation == Gen(s.actors[p].source.generation)
      then s.(actors := s.actors[p := s.actors[p].(publishing := HoldsBoth)], oauthLease := Some(Holder(p, ForPublish)))
      else s.(actors := s.actors[p := s.actors[p].(publishing := NotPublishing)], derivedLease := None)
    case GiveUpPublish(p) => s.(actors := s.actors[p := s.actors[p].(publishing := NotPublishing)], derivedLease := None)
    case WriteBundle(p) => s.(bundle := Some(s.actors[p].source.generation))
    case EndPublish(p) =>
      s.(actors := s.actors[p := s.actors[p].(publishing := NotPublishing)], derivedLease := None, oauthLease := None)
    case BeginRemove(p) => s.(actors := s.actors[p := Removing(0)], derivedLease := Some(Holder(p, ForRemove)))
    case LeaseRemove(p) => s.(actors := s.actors[p := Removing(1)], oauthLease := Some(Holder(p, ForRemove)))
    case RemoveOAuth(p, ok) => WithFile(s, if ok then Missing else s.oauth).(actors := s.actors[p := Removing(2)])
    case RemoveBundle(p, ok) => s.(actors := s.actors[p := Removing(3)], bundle := if ok then None else s.bundle)
    case EndRemove(p) =>
      s.(actors := Without(s.actors, p), derivedLease := Freed(s.derivedLease, p), oauthLease := Freed(s.oauthLease, p))
    case Die(p) =>
      s.(actors := Without(s.actors, p), derivedLease := Freed(s.derivedLease, p), oauthLease := Freed(s.oauthLease, p))
  }

  // ---- The invariant ----

  predicate FileHas(s: System, g: nat) {
    s.oauth.Stored? && s.oauth.generation == Gen(g)
  }

  // What an actor's phase says about the leases and the file.
  ghost predicate ActorGood(s: System, p: nat, a: Actor) {
    match a
    case SigningIn => s.oauthLease == Some(Holder(p, ForSignIn))
    case Live(source, refreshing, publishing) =>
      && Opened(source) && source.generation in s.created
      && (refreshing ==> s.oauthLease == Some(Holder(p, ForRefresh)))
      && (!publishing.NotPublishing? ==> s.derivedLease == Some(Holder(p, ForPublish)))
      && (publishing.HoldsBoth? ==> s.oauthLease == Some(Holder(p, ForPublish)) && FileHas(s, source.generation))
    case Removing(stage) =>
      && s.derivedLease == Some(Holder(p, ForRemove))
      && (stage > 0 ==> s.oauthLease == Some(Holder(p, ForRemove)))
  }

  ghost predicate FilesGood(s: System) {
    && s.retired <= s.created
    && (s.oauth.Stored? && s.oauth.generation.Gen? ==> s.oauth.generation.n in s.created - s.retired)
    && (s.bundle.Some? ==> s.bundle.value in s.created)
  }

  ghost predicate Inv(s: System) {
    FilesGood(s) && forall p :: p in s.actors ==> ActorGood(s, p, s.actors[p])
  }

  ghost predicate Initial(s: System) {
    && s.actors == map[] && s.oauthLease.None? && s.derivedLease.None?
    && s.retired == {} && s.log == [] && FilesGood(s)
  }

  lemma OpenedSource(file: Contents, built: bool, answer: Answer, requested: Option<OAuthToken>, saved: bool, gen: nat)
    ensures var r := Open(file, built, answer, requested, saved, gen);
            && (r.reply.Granted? ==> Opened(r.state) && r.file.Stored? && r.file.generation == Gen(r.state.generation))
            && (r.file != file ==> r.file.Stored? && r.file.generation == Gen(r.state.generation))
            && (r.state.generation == gen ||
                (file.Stored? && file.generation == Gen(r.state.generation) && (r.file != file ==> r.file.generation == file.generation)))
  {
  }

  lemma EndSignInKeeps(s: System, act: Action)
    requires Inv(s) && Enabled(s, act) && act.EndSignIn?
    ensures Inv(Next(s, act))
  {
    OpenedSource(s.oauth, act.built, act.answer, act.requested, act.saved, act.gen);
    var s' := Next(s, act);
    assert ActorGood(s, act.p, s.actors[act.p]);
    forall q | q in s'.actors ensures ActorGood(s', q, s'.actors[q]) {
      if q != act.p { assert ActorGood(s, q, s.actors[q]); }
    }
  }

  lemma EndTokenKeeps(s: System, act: Action)
    requires Inv(s) && Enabled(s, act) && act.EndToken?
    ensures Inv(Next(s, act))
  {
    var s' := Next(s, act);
    assert ActorGood(s, act.p, s.actors[act.p]);
    TokenIsOnDisk(s.actors[act.p].source, s.oauth, act.built, act.answer, act.saved);
    forall q | q in s'.actors ensures ActorGood(s', q, s'.actors[q]) {
      assert ActorGood(s, q, s.actors[q]);
    }
  }

  lemma RemoveKeeps(s: System, act: Action)
    requires Inv(s) && Enabled(s, act)
    requires act.BeginRemove? || act.LeaseRemove? || act.RemoveOAuth? || act.RemoveBundle? || act.EndRemove? || act.Die?
    ensures Inv(Next(s, act))
  {
    var s' := Next(s, act);
    assert act.p in s.actors ==> ActorGood(s, act.p, s.actors[act.p]);
    forall q | q in s'.actors ensures ActorGood(s', q, s'.actors[q]) {
      if q != act.p { assert ActorGood(s, q, s.actors[q]); }
    }
  }

  lemma PublishKeeps(s: System, act: Action)
    requires Inv(s) && Enabled(s, act)
    requires act.BeginSignIn? || act.BeginToken? || act.BeginPublish? || act.CheckSignIn? || act.GiveUpPublish? || act.WriteBundle? || act.EndPublish?
    ensures Inv(Next(s, act))
  {
    var s' := Next(s, act);
    assert act.p in s.actors ==> ActorGood(s, act.p, s.actors[act.p]);
    forall q | q in s'.actors ensures ActorGood(s', q, s'.actors[q]) {
      if q != act.p { assert ActorGood(s, q, s.actors[q]); }
    }
  }

  lemma StepKeeps(s: System, act: Action)
    requires Inv(s) && Enabled(s, act)
    ensures Inv(Next(s, act))
  {
    if act.EndSignIn? {
      EndSignInKeeps(s, act);
    } else if act.EndToken? {
      EndTokenKeeps(s, act);
    } else if act.BeginRemove? || act.LeaseRemove? || act.RemoveOAuth? || act.RemoveBundle? || act.EndRemove? || act.Die? {
      RemoveKeeps(s, act);
    } else {
      PublishKeeps(s, act);
    }
  }

  // ---- Whole runs ----

  ghost predicate Run(states: seq<System>, acts: seq<Action>) {
    && |states| == |acts| + 1 && Initial(states[0])
    && forall i :: 0 <= i < |acts| ==> Enabled(states[i], acts[i]) && states[i + 1] == Next(states[i], acts[i])
  }

  lemma {:induction false} RunKeepsInvariant(states: seq<System>, acts: seq<Action>, i: nat)
    requires Run(states, acts) && i < |states|
    ensures Inv(states[i])
    decreases i
  {
    if i > 0 {
      RunKeepsInvariant(states, acts, i - 1);
      StepKeeps(states[i - 1], acts[i - 1]);
    }
  }

  // A generation that has left the OAuth file never reappears there.
  lemma {:induction false} RetiredNeverReturns(states: seq<System>, acts: seq<Action>, i: nat, j: nat, g: nat)
    requires Run(states, acts) && i <= j < |states| && g in states[i].retired
    ensures g in states[j].retired && !FileHas(states[j], g)
    decreases j - i
  {
    RunKeepsInvariant(states, acts, j);
    if i < j {
      RetiredNeverReturns(states, acts, i, j - 1, g);
      assert states[j] == Next(states[j - 1], acts[j - 1]);
    }
  }

  // What leaving means: the file held `g` at i and does not at some later j.
  lemma {:induction false} LeavingRetires(states: seq<System>, acts: seq<Action>, i: nat, j: nat, g: nat)
    requires Run(states, acts) && i <= j < |states| && FileHas(states[i], g) && !FileHas(states[j], g)
    ensures g in states[j].retired
    decreases j - i
  {
    if i < j {
      if FileHas(states[j - 1], g) {
        assert states[j] == Next(states[j - 1], acts[j - 1]);
      } else {
        LeavingRetires(states, acts, i, j - 1, g);
        RetiredNeverReturns(states, acts, j - 1, j, g);
      }
    }
  }

  // Every bundle is written while the OAuth file holds its writer's own sign-in.
  lemma WritesAreSignedIn(states: seq<System>, acts: seq<Action>, i: nat)
    requires Run(states, acts) && i < |acts| && acts[i].WriteBundle?
    ensures IsLive(states[i], acts[i].p) && FileHas(states[i], states[i].actors[acts[i].p].source.generation)
    ensures states[i + 1].bundle == Some(states[i].actors[acts[i].p].source.generation)
  {
    RunKeepsInvariant(states, acts, i);
    assert ActorGood(states[i], acts[i].p, states[i].actors[acts[i].p]);
  }

  // Nothing on disk belongs to a sign-in in `old`.
  ghost predicate NewerOnly(s: System, earlier: set<nat>) {
    && (s.bundle.Some? ==> s.bundle.value !in earlier)
    && (s.oauth.Missing? || (s.oauth.Stored? && s.oauth.generation.Gen? && s.oauth.generation.n !in earlier))
    && earlier <= s.created
  }

  lemma StaysNewer(s: System, act: Action, earlier: set<nat>)
    requires Inv(s) && Enabled(s, act) && NewerOnly(s, earlier)
    ensures NewerOnly(Next(s, act), earlier)
  {
    if act.EndSignIn? {
      OpenedSource(s.oauth, act.built, act.answer, act.requested, act.saved, act.gen);
    } else if act.EndToken? {
      assert ActorGood(s, act.p, s.actors[act.p]);
      TokenIsOnDisk(s.actors[act.p].source, s.oauth, act.built, act.answer, act.saved);
    } else if act.WriteBundle? {
      assert ActorGood(s, act.p, s.actors[act.p]);
    }
  }

  // With both files gone, only a sign-in made afterwards brings either back.
  lemma {:induction false} SignOutIsFinal(states: seq<System>, acts: seq<Action>, i: nat, j: nat)
    requires Run(states, acts) && i <= j < |states|
    requires states[i].oauth.Missing? && states[i].bundle.None?
    ensures NewerOnly(states[j], states[i].created)
    decreases j - i
  {
    if i < j {
      SignOutIsFinal(states, acts, i, j - 1);
      RunKeepsInvariant(states, acts, j - 1);
      StaysNewer(states[j - 1], acts[j - 1], states[i].created);
    }
  }

  // ---- The chain of rotations ----

  // The token the last logged rotation of `g` led to.
  function LastTo(log: seq<Rotation>, g: nat): Option<OAuthToken>
    decreases |log|
  {
    if log == [] then None
    else if log[|log| - 1].generation == g then Some(log[|log| - 1].to)
    else LastTo(log[..|log| - 1], g)
  }

  // Each rotation starts from the token the previous one of its sign-in led to.
  ghost predicate Linear(log: seq<Rotation>) {
    forall k :: 0 <= k < |log| ==> LastTo(log[..k], log[k].generation) in {None, Some(log[k].from)}
  }

  // The saves of a step succeed, and what the provider rotates to can be refreshed again.
  predicate Saves(act: Action) {
    match act
    case EndSignIn(_, _, answer, _, saved, _) => saved && (answer.Rotated? ==> answer.token.hasRefresh)
    case EndToken(_, _, answer, saved) => saved && (answer.Rotated? ==> answer.token.hasRefresh)
    case _ => true
  }

  predicate InStep(s: SourceState) {
    s.source.Some? ==> s.source == s.last
  }

  ghost predicate Chained(s: System) {
    && Linear(s.log)
    && (forall k :: 0 <= k < |s.log| ==> s.log[k].generation in s.created)
    && (s.oauth.Stored? && s.oauth.generation.Gen? ==>
          LastTo(s.log, s.oauth.generation.n) in {None, Some(s.oauth.token)})
    && (forall p :: IsLive(s, p) ==> InStep(s.actors[p].source))
  }

  lemma {:induction false} UnusedHasNoLast(log: seq<Rotation>, g: nat)
    requires forall k :: 0 <= k < |log| ==> log[k].generation != g
    ensures LastTo(log, g) == None
    decreases |log|
  {
    if log != [] { UnusedHasNoLast(log[..|log| - 1], g); }
  }

  lemma AppendedLinear(log: seq<Rotation>, r: Rotation)
    requires Linear(log) && LastTo(log, r.generation) in {None, Some(r.from)}
    ensures Linear(log + [r]) && LastTo(log + [r], r.generation) == Some(r.to)
    ensures forall g :: g != r.generation ==> LastTo(log + [r], g) == LastTo(log, g)
  {
    assert (log + [r])[..|log|] == log;
    forall k | 0 <= k < |log| ensures (log + [r])[..k] == log[..k] {
    }
  }

  // What a successful call leaves: a rotation starts from the token on disk and ends there.
  predicate Linked(file: Contents, r: Outcome) {
    && (r.rotated.Some? ==>
          && r.rotated.value.generation == r.state.generation && file.Stored? && r.rotated.value.from == file.token
          && r.file == Stored(r.rotated.value.to, Gen(r.state.generation)))
    && (r.rotated.None? && r.file.Stored? && file.Stored? && r.file.generation == file.generation ==> r.file == file)
  }

  lemma TokenLinks(s: SourceState, file: Contents, built: bool, answer: Answer)
    requires Opened(s) && InStep(s) && (answer.Rotated? ==> answer.token.hasRefresh)
    ensures var r := GetToken(s, file, built, answer, true);
            InStep(r.state) && Linked(file, r)
  {
  }

  lemma OpenLinks(file: Contents, built: bool, answer: Answer, requested: Option<OAuthToken>, gen: nat)
    requires answer.Rotated? ==> answer.token.hasRefresh
    requires file.Stored? ==> file.generation != Gen(gen)
    ensures var r := Open(file, built, answer, requested, true, gen);
            (r.reply.Granted? ==> InStep(r.state)) && Linked(file, r)
  {
  }

  // Both kinds of step, given what the call did to the file and the log.
  lemma StepChains(s: System, r: Outcome)
    requires FilesGood(s) && Linear(s.log) && Linked(s.oauth, r)
    requires forall k :: 0 <= k < |s.log| ==> s.log[k].generation in s.created
    requires s.oauth.Stored? && s.oauth.generation.Gen? ==> LastTo(s.log, s.oauth.generation.n) in {None, Some(s.oauth.token)}
    requires r.state.generation !in s.created || FileHas(s, r.state.generation)
    requires r.file != s.oauth ==> r.file.Stored? && r.file.generation == Gen(r.state.generation)
    ensures var log := Logged(s, r).log;
            && Linear(log)
            && (forall k :: 0 <= k < |log| ==> log[k].generation in s.created + {r.state.generation})
            && (r.file.Stored? && r.file.generation.Gen? ==> LastTo(log, r.file.generation.n) in {None, Some(r.file.token)})
  {
    if r.state.generation !in s.created {
      UnusedHasNoLast(s.log, r.state.generation);
    }
    if r.rotated.Some? {
      AppendedLinear(s.log, r.rotated.value);
    }
  }

  lemma EndTokenChains(s: System, act: Action)
    requires Inv(s) && Chained(s) && Enabled(s, act) && Saves(act) && act.EndToken?
    ensures Chained(Next(s, act))
  {
    var a := s.actors[act.p].source;
    assert ActorGood(s, act.p, s.actors[act.p]) && InStep(a);
    TokenLinks(a, s.oauth, act.built, act.answer);
    TokenIsOnDisk(a, s.oauth, act.built, act.answer, act.saved);
    var r := GetToken(a, s.oauth, act.built, act.answer, act.saved);
    if FileHas(s, a.generation) {
      StepChains(s, r);
    } else {
      assert r.rotated.None? && r.file == s.oauth;
    }
  }

  lemma EndSignInChains(s: System, act: Action)
    requires Inv(s) && Chained(s) && Enabled(s, act) && Saves(act) && act.EndSignIn?
    ensures Chained(Next(s, act))
  {
    OpenedSource(s.oauth, act.built, act.answer, act.requested, act.saved, act.gen);
    OpenLinks(s.oauth, act.built, act.answer, act.requested, act.gen);
    StepChains(s, Open(s.oauth, act.built, act.answer, act.requested, act.saved, act.gen));
  }

  lemma {:induction false} RotationsFormOneChain(states: seq<System>, acts: seq<Action>, i: nat)
    requires Run(states, acts) && i < |states| && forall k :: 0 <= k < i ==> Saves(acts[k])
    ensures Chained(states[i])
    decreases i
  {
    if i > 0 {
      RotationsFormOneChain(states, acts, i - 1);
      RunKeepsInvariant(states, acts, i - 1);
      var s, act := states[i - 1], acts[i - 1];
      if act.EndToken? {
        EndTokenChains(s, act);
      } else if act.EndSignIn? {
        EndSignInChains(s, act);
      } else {
        assert states[i].log == s.log && (states[i].oauth == s.oauth || states[i].oauth.Missing?);
      }
    }
  }

  // ---- Where the chain forks ----

  // The call a step makes on its source, if it makes one.
  function Call(s: System, act: Action): Option<Outcome>
    requires Enabled(s, act)
  {
    match act
    case EndSignIn(p, built, answer, requested, saved, gen) => Some(Open(s.oauth, built, answer, requested, saved, gen))
    case EndToken(p, built, answer, saved) => Some(GetToken(s.actors[p].source, s.oauth, built, answer, saved))
    case _ => None
  }

  function RotationOf(s: System, act: Action): Option<Rotation>
    requires Enabled(s, act)
  {
    var call := Call(s, act);
    if call.Some? then call.value.rotated else None
  }

  // The sign-in's last rotation led to a token the file does not hold.
  predicate Unsaved(s: System, g: nat) {
    FileHas(s, g) && LastTo(s.log, g) !in {None, Some(s.oauth.token)}
  }

  // This process would present a token it has not saved.
  predicate Ahead(s: System, p: nat) {
    && IsLive(s, p) && FileHas(s, s.actors[p].source.generation)
    && s.actors[p].source.source.Some? && !InStep(s.actors[p].source)
  }

  // A rotation of the file's token, whose successor was not saved, rather than of that successor.
  predicate Forks(s: System, act: Action)
    requires Enabled(s, act)
  {
    var r := RotationOf(s, act);
    r.Some? && Unsaved(s, r.value.generation) && !(act.EndToken? && Ahead(s, act.p))
  }

  // While the chain is linear only one process can be ahead of the file, and it has the chain's end.
  ghost predicate OneAhead(s: System) {
    && (forall k :: 0 <= k < |s.log| ==> s.log[k].generation in s.created)
    && (forall p :: Ahead(s, p) ==>
          var a := s.actors[p].source;
          a.last == Some(s.oauth.token) && LastTo(s.log, a.generation) == a.source)
    && (forall p, q :: Ahead(s, p) && Ahead(s, q) ==> p == q)
  }

  lemma AppendedLast(log: seq<Rotation>, r: Rotation)
    requires Linear(log)
    ensures Linear(log + [r]) <==> LastTo(log, r.generation) in {None, Some(r.from)}
    ensures forall g :: LastTo(log + [r], g) == if g == r.generation then Some(r.to) else LastTo(log, g)
  {
    var longer := log + [r];
    assert longer[..|log|] == log && longer[|log|] == r;
    if Linear(longer) {
      assert LastTo(longer[..|log|], longer[|log|].generation) in {None, Some(longer[|log|].from)};
    }
    if LastTo(log, r.generation) in {None, Some(r.from)} {
      AppendedLinear(log, r);
    }
  }

  // Where a rotation starts: from the file's token, unless the process is ahead of it.
  lemma RotatesFrom(s: System, act: Action)
    requires Inv(s) && OneAhead(s) && Enabled(s, act) && RotationOf(s, act).Some?
    ensures var r := RotationOf(s, act).value;
            || (r.generation !in s.created && act.EndSignIn?)
            || (FileHas(s, r.generation) &&
                r.from == if act.EndToken? && Ahead(s, act.p) then LastTo(s.log, r.generation).value else s.oauth.token)
    ensures var r := RotationOf(s, act).value;
            act.EndToken? ==> r.generation == s.actors[act.p].source.generation && FileHas(s, r.generation)
  {
    if act.EndToken? { assert ActorGood(s, act.p, s.actors[act.p]); }
  }

  lemma NextLog(s: System, act: Action)
    requires Enabled(s, act)
    ensures Next(s, act).log == s.log + if RotationOf(s, act).Some? then [RotationOf(s, act).value] else []
  {
  }

  // One step forks a linear chain exactly when it starts again from a token whose successor was not saved.
  lemma StepForksExactlyWhen(s: System, act: Action)
    requires Inv(s) && Linear(s.log) && OneAhead(s) && Enabled(s, act)
    ensures Linear(Next(s, act).log) <==> !Forks(s, act)
  {
    hide Linear, Next, Inv, RotationOf;
    NextLog(s, act);
    if RotationOf(s, act).Some? {
      var r := RotationOf(s, act).value;
      AppendedLast(s.log, r);
      RotatesFrom(s, act);
      if r.generation !in s.created { UnusedHasNoLast(s.log, r.generation); }
    } else {
      assert s.log + [] == s.log;
    }
  }

  lemma AheadIsUnsaved(s: System, p: nat)
    requires OneAhead(s) && Ahead(s, p)
    ensures Unsaved(s, s.actors[p].source.generation)
  {
  }

  // What a call leaves behind: who can be ahead of the file after it, and what it changed.
  lemma TokenStays(a: SourceState, file: Contents, built: bool, answer: Answer, saved: bool)
    requires Opened(a)
    requires file.Stored? && file.generation == Gen(a.generation) && !InStep(a) ==> a.last == Some(file.token)
    ensures var r := GetToken(a, file, built, answer, saved);
            && r.state.generation == a.generation
            && (r.rotated.None? ==>
                  r.file == file || (!InStep(a) && r.file == Stored(a.source.value, Gen(a.generation)) && InStep(r.state)))
            && (r.rotated.Some? ==> r.rotated.value.generation == a.generation && file.Stored? && file.generation == Gen(a.generation))
            && (r.rotated.None? && !InStep(r.state) ==> !InStep(a) && r.state.source == a.source && r.state.last == a.last)
            && (r.rotated.Some? ==> answer == Rotated(r.rotated.value.to))
            && (r.rotated.Some? && saved && r.rotated.value.to.hasRefresh ==> r.file == Stored(r.rotated.value.to, Gen(a.generation)))
            && (r.rotated.Some? && r.file != file ==> saved && r.rotated.value.to.hasRefresh)
            && (r.rotated.Some? && !InStep(r.state) ==>
                  r.file == file && r.state.last == Some(file.token) && r.state.source == Some(r.rotated.value.to))
  {
  }

  lemma EndTokenOneAhead(s: System, act: Action)
    requires Inv(s) && Linear(s.log) && OneAhead(s) && Enabled(s, act) && act.EndToken? && !Forks(s, act)
    ensures OneAhead(Next(s, act))
  {
    hide Linear, Persist, Answered, Reloaded, LastTo;
    var s', a := Next(s, act), s.actors[act.p].source;
    var r := GetToken(a, s.oauth, act.built, act.answer, act.saved);
    assert ActorGood(s, act.p, s.actors[act.p]);
    TokenIsOnDisk(a, s.oauth, act.built, act.answer, act.saved);
    if FileHas(s, a.generation) && !InStep(a) { assert a.source.Some? ==> Ahead(s, act.p); }
    TokenStays(a, s.oauth, act.built, act.answer, act.saved);
    if r.rotated.Some? { AppendedLast(s.log, r.rotated.value); }
    forall q | Ahead(s', q)
      ensures q != act.p ==> Ahead(s, q) && !Ahead(s, act.p) && !Ahead(s', act.p) && r.file == s.oauth && r.rotated.None?
    {
      if q != act.p {
        assert Ahead(s, q);
        AheadIsUnsaved(s, q);
      }
    }
  }

  lemma OpenStays(file: Contents, built: bool, answer: Answer, requested: Option<OAuthToken>, saved: bool, gen: nat)
    ensures var r := Open(file, built, answer, requested, saved, gen);
            && (r.reply.Granted? ==> InStep(r.state))
            && (r.rotated.Some? ==> answer == Rotated(r.rotated.value.to))
            && (r.rotated.Some? ==> file.Stored? && file.generation in {Legacy, Gen(r.rotated.value.generation)})
            && (r.rotated.Some? && file.generation.Legacy? ==> r.rotated.value.generation == gen)
            && (r.rotated.Some? && saved && r.rotated.value.to.hasRefresh ==>
                  r.file == Stored(r.rotated.value.to, Gen(r.rotated.value.generation)))
            && (r.rotated.Some? && r.file != file ==>
                  (saved && r.rotated.value.to.hasRefresh) || (file.generation.Gen? && r.file.generation == Gen(gen)))
            && (r.file != file ==> r.file.Stored? && (r.file.generation == Gen(gen) || r.rotated.Some?))
  {
  }

  lemma EndSignInOneAhead(s: System, act: Action)
    requires Inv(s) && Linear(s.log) && OneAhead(s) && Enabled(s, act) && act.EndSignIn? && !Forks(s, act)
    ensures OneAhead(Next(s, act))
  {
    hide Linear, Open, LastTo;
    var s', r := Next(s, act), Open(s.oauth, act.built, act.answer, act.requested, act.saved, act.gen);
    OpenedSource(s.oauth, act.built, act.answer, act.requested, act.saved, act.gen);
    OpenStays(s.oauth, act.built, act.answer, act.requested, act.saved, act.gen);
    if r.rotated.Some? { AppendedLast(s.log, r.rotated.value); }
    forall q | Ahead(s', q)
      ensures q != act.p && Ahead(s, q) && r.file == s.oauth
      ensures r.rotated.Some? ==> r.rotated.value.generation != s.actors[q].source.generation
    {
      if q != act.p {
        assert ActorGood(s, q, s.actors[q]);
        assert Ahead(s, q);
        AheadIsUnsaved(s, q);
      }
    }
  }

  lemma OthersRotateNothing(s: System, act: Action)
    requires Enabled(s, act) && !act.EndToken? && !act.EndSignIn?
    ensures Next(s, act).log == s.log && Next(s, act).created == s.created
  {
  }

  lemma OthersStay(s: System, act: Action, p: nat)
    requires Enabled(s, act) && !act.EndToken? && !act.EndSignIn? && Ahead(Next(s, act), p)
    ensures Ahead(s, p) && Next(s, act).actors[p].source == s.actors[p].source && Next(s, act).oauth == s.oauth
  {
  }

  lemma OthersOneAhead(s: System, act: Action)
    requires OneAhead(s) && Enabled(s, act) && !act.EndToken? && !act.EndSignIn?
    ensures OneAhead(Next(s, act))
  {
    hide LastTo, Next, Enabled;
    OthersRotateNothing(s, act);
    var s' := Next(s, act);
    forall p | Ahead(s', p) ensures Ahead(s, p) && s'.actors[p].source == s.actors[p].source && s'.oauth == s.oauth {
      OthersStay(s, act, p);
    }
  }

  lemma OneAheadStays(s: System, act: Action)
    requires Inv(s) && Linear(s.log) && OneAhead(s) && Enabled(s, act) && !Forks(s, act)
    ensures OneAhead(Next(s, act))
  {
    hide *;
    if act.EndToken? {
      EndTokenOneAhead(s, act);
    } else if act.EndSignIn? {
      EndSignInOneAhead(s, act);
    } else {
      OthersOneAhead(s, act);
    }
  }

  lemma PrefixLinear(states: seq<System>, acts: seq<Action>, i: nat)
    requires Run(states, acts) && i < |acts| && Linear(states[i + 1].log)
    ensures Linear(states[i].log)
  {
    NextLog(states[i], acts[i]);
    var log, longer := states[i].log, states[i + 1].log;
    forall k | 0 <= k < |log| ensures LastTo(log[..k], log[k].generation) in {None, Some(log[k].from)} {
      assert longer[..k] == log[..k] && longer[k] == log[k];
    }
  }

  // A chain is linear for exactly as long as no process but the one that has its end rotates a token whose
  // successor was not saved.
  lemma {:induction false} LinearExactlyWhen(states: seq<System>, acts: seq<Action>, n: nat)
    requires Run(states, acts) && n < |states|
    ensures Linear(states[n].log) <==> forall i :: 0 <= i < n ==> !Forks(states[i], acts[i])
    ensures Linear(states[n].log) ==> OneAhead(states[n])
    decreases n
  {
    hide Linear, OneAhead, Forks, Inv, Initial;
    if n == 0 {
      InitialLinear(states[0]);
    } else {
      LinearExactlyWhen(states, acts, n - 1);
      RunKeepsInvariant(states, acts, n - 1);
      if Linear(states[n - 1].log) {
        StepForksExactlyWhen(states[n - 1], acts[n - 1]);
        if !Forks(states[n - 1], acts[n - 1]) { OneAheadStays(states[n - 1], acts[n - 1]); }
      } else if Linear(states[n].log) {
        PrefixLinear(states, acts, n - 1);
      }
    }
  }

  lemma InitialLinear(s: System)
    requires Initial(s)
    ensures Linear(s.log) && OneAhead(s)
  {
  }

  // How a successor comes to be missing from the file: this step failed to save it, or an earlier one did.
  lemma StepUnsaved(s: System, act: Action, g: nat)
    requires Inv(s) && Linear(s.log) && OneAhead(s) && Enabled(s, act) && Unsaved(Next(s, act), g)
    ensures FileHas(s, g) && s.oauth == Next(s, act).oauth
    ensures !Unsaved(s, g) ==>
              RotationOf(s, act).Some? && RotationOf(s, act).value.generation == g &&
              RotationOf(s, act).value.from == s.oauth.token && !Saves(act)
  {
    hide Linear, Persist, Answered, Reloaded, Requested, LastTo;
    NextLog(s, act);
    if RotationOf(s, act).Some? {
      AppendedLast(s.log, RotationOf(s, act).value);
      RotatesFrom(s, act);
    } else {
      assert s.log + [] == s.log;
    }
    if act.EndToken? {
      var a := s.actors[act.p].source;
      assert ActorGood(s, act.p, s.actors[act.p]);
      if FileHas(s, a.generation) && !InStep(a) { assert Ahead(s, act.p); }
      TokenIsOnDisk(a, s.oauth, act.built, act.answer, act.saved);
      TokenStays(a, s.oauth, act.built, act.answer, act.saved);
    } else if act.EndSignIn? {
      OpenStays(s.oauth, act.built, act.answer, act.requested, act.saved, act.gen);
      OpenedSource(s.oauth, act.built, act.answer, act.requested, act.saved, act.gen);
      UnusedHasNoLast(s.log, act.gen);
    }
  }

  // While a successor is missing from the file, some step rotated the token still there and failed to save.
  lemma {:induction false} UnsavedFollowsFailedSave(states: seq<System>, acts: seq<Action>, n: nat, g: nat) returns (i: nat)
    requires Run(states, acts) && n < |states| && Linear(states[n].log) && Unsaved(states[n], g)
    ensures i < n && !Saves(acts[i]) && RotationOf(states[i], acts[i]).Some?
    ensures RotationOf(states[i], acts[i]).value.generation == g
    ensures RotationOf(states[i], acts[i]).value.from == states[n].oauth.token
    decreases n
  {
    hide Linear, OneAhead, Inv, RotationOf, Saves, LastTo;
    if n == 0 {
      InitialUnsaved(states[0], g);
      assert false;
    } else {
      PrefixLinear(states, acts, n - 1);
      LinearExactlyWhen(states, acts, n - 1);
      RunKeepsInvariant(states, acts, n - 1);
      StepUnsaved(states[n - 1], acts[n - 1], g);
      if Unsaved(states[n - 1], g) {
        i := UnsavedFollowsFailedSave(states, acts, n - 1, g);
      } else {
        i := n - 1;
      }
    }
  }

  lemma InitialUnsaved(s: System, g: nat)
    requires Initial(s)
    ensures !Unsaved(s, g)
  {
  }

  // The first fork rotates a token that an earlier step had rotated away without saving its successor.
  lemma ForkFollowsFailedSave(states: seq<System>, acts: seq<Action>, n: nat) returns (i: nat)
    requires Run(states, acts) && n < |acts| && Linear(states[n].log) && Forks(states[n], acts[n])
    ensures i < n && !Saves(acts[i]) && RotationOf(states[i], acts[i]).Some?
    ensures var first, second := RotationOf(states[i], acts[i]).value, RotationOf(states[n], acts[n]).value;
            first.generation == second.generation && first.from == second.from
  {
    hide Linear, OneAhead, Inv, Saves, LastTo;
    var r := RotationOf(states[n], acts[n]).value;
    LinearExactlyWhen(states, acts, n);
    RunKeepsInvariant(states, acts, n);
    RotatesFrom(states[n], acts[n]);
    UnsavedInUse(states[n], r.generation);
    i := UnsavedFollowsFailedSave(states, acts, n, r.generation);
  }

  lemma UnsavedInUse(s: System, g: nat)
    requires Inv(s) && Unsaved(s, g)
    ensures g in s.created
  {
  }

  function ForkActs(t: OAuthToken, lost: OAuthToken, other: OAuthToken): seq<Action> {
    [ BeginSignIn(0), EndSignIn(0, true, Refused, Some(t), true, 0),
      BeginSignIn(1), EndSignIn(1, true, Current, None, true, 1),
      BeginToken(0), EndToken(0, true, Rotated(lost), false),
      BeginToken(1), EndToken(1, true, Rotated(other), true) ]
  }

  function ForkStates(t: OAuthToken, lost: OAuthToken, other: OAuthToken): seq<System> {
    var file, source := Stored(t, Gen(0)), SourceState(Some(t), Some(t), 0, Gen(0), false);
    var live, busy := Live(source, false, NotPublishing), Live(source, true, NotPublishing);
    var ahead := Live(source.(source := Some(lost)), false, NotPublishing);
    var rotator := Live(SourceState(Some(other), Some(other), 0, Gen(0), false), false, NotPublishing);
    var log := [Rotation(0, t, lost)];
    [ System(Missing, None, None, None, map[], {}, {}, []),
      System(Missing, None, Some(Holder(0, ForSignIn)), None, map[0 := SigningIn], {}, {}, []),
      System(file, None, None, None, map[0 := live], {0}, {}, []),
      System(file, None, Some(Holder(1, ForSignIn)), None, map[0 := live, 1 := SigningIn], {0}, {}, []),
      System(file, None, None, None, map[0 := live, 1 := live], {0, 1}, {}, []),
      System(file, None, Some(Holder(0, ForRefresh)), None, map[0 := busy, 1 := live], {0, 1}, {}, []),
      System(file, None, None, None, map[0 := ahead, 1 := live], {0, 1}, {}, log),
      System(file, None, Some(Holder(1, ForRefresh)), None, map[0 := ahead, 1 := busy], {0, 1}, {}, log),
      System(Stored(other, Gen(0)), None, None, None, map[0 := ahead, 1 := rotator], {0, 1}, {}, log + [Rotation(0, t, other)]) ]
  }

  lemma ForkSignIns(t: OAuthToken, lost: OAuthToken, other: OAuthToken, i: nat)
    requires t.hasRefresh && lost.hasRefresh && other.hasRefresh && lost != t && 0 <= i < 4
    ensures Enabled(ForkStates(t, lost, other)[i], ForkActs(t, lost, other)[i])
    ensures Next(ForkStates(t, lost, other)[i], ForkActs(t, lost, other)[i]) == ForkStates(t, lost, other)[i + 1]
  {
    var s, act, next := ForkStates(t, lost, other)[i], ForkActs(t, lost, other)[i], ForkStates(t, lost, other)[i + 1];
    assert i in {0, 1, 2, 3};
    assert Next(s, act).actors == next.actors;
  }

  lemma ForkRefreshes(t: OAuthToken, lost: OAuthToken, other: OAuthToken, i: nat)
    requires t.hasRefresh && lost.hasRefresh && other.hasRefresh && lost != t && 4 <= i < 8
    ensures Enabled(ForkStates(t, lost, other)[i], ForkActs(t, lost, other)[i])
    ensures Next(ForkStates(t, lost, other)[i], ForkActs(t, lost, other)[i]) == ForkStates(t, lost, other)[i + 1]
  {
    var s, act, next := ForkStates(t, lost, other)[i], ForkActs(t, lost, other)[i], ForkStates(t, lost, other)[i + 1];
    assert i in {4, 5, 6, 7};
    assert Next(s, act).actors == next.actors;
  }

  // One failed save is enough: the refreshed token stays in memory, and the next process rotates the token
  // it should have replaced. Only the sixth step's save fails.
  lemma FailedSaveForks(t: OAuthToken, lost: OAuthToken, other: OAuthToken)
    requires t.hasRefresh && lost.hasRefresh && other.hasRefresh && lost != t
    ensures Run(ForkStates(t, lost, other), ForkActs(t, lost, other))
    ensures forall i :: 0 <= i < 8 && i != 5 ==> Saves(ForkActs(t, lost, other)[i])
    ensures ForkStates(t, lost, other)[8].log == [Rotation(0, t, lost), Rotation(0, t, other)]
    ensures !Linear(ForkStates(t, lost, other)[8].log)
  {
    hide Next, Enabled;
    forall i | 0 <= i < 8
      ensures Enabled(ForkStates(t, lost, other)[i], ForkActs(t, lost, other)[i])
      ensures Next(ForkStates(t, lost, other)[i], ForkActs(t, lost, other)[i]) == ForkStates(t, lost, other)[i + 1]
    {
      if i < 4 { ForkSignIns(t, lost, other, i); } else { ForkRefreshes(t, lost, other, i); }
    }
    var log := [Rotation(0, t, lost), Rotation(0, t, other)];
    assert log[..1] == [Rotation(0, t, lost)];
    assert LastTo(log[..1], 0) == Some(lost) && log[1].generation == 0;
  }
}
