/**
 That the sign-in protocol never gets stuck: every lease is held by a process in a phase that needs it, and from
 every reachable state a process can sign in and publish, and a process can sign out.
 */
module SignInProgress {
  import opened Wrappers
  import opened SignInCache
  import opened SignInProtocol

  // ---- Who holds a lease ----

  // The phases in which an actor has the lease of the sign-in file, and that of the bundle.
  predicate NeedsOAuth(a: Actor) {
    a.SigningIn? || (a.Live? && (a.refreshing || a.publishing.HoldsBoth?)) || (a.Removing? && a.stage > 0)
  }

  predicate NeedsDerived(a: Actor) {
    (a.Live? && !a.publishing.NotPublishing?) || a.Removing?
  }

  function RoleOf(a: Actor): Role {
    match a
    case SigningIn => ForSignIn
    case Live(_, refreshing, _) => if refreshing then ForRefresh else ForPublish
    case Removing(_) => ForRemove
  }

  // A lease is held exactly by an actor in such a phase.
  ghost predicate LeasesHeld(s: System) {
    && (forall p :: p in s.actors && s.actors[p].Removing? ==> s.actors[p].stage <= 3)
    && (s.oauthLease.Some? ==>
          s.oauthLease.value.actor in s.actors && NeedsOAuth(s.actors[s.oauthLease.value.actor]) &&
          (s.oauthLease.value.role == RoleOf(s.actors[s.oauthLease.value.actor]) ||
           (s.oauthLease.value.role == ForPublish && s.actors[s.oauthLease.value.actor].Live? &&
            s.actors[s.oauthLease.value.actor].publishing.HoldsBoth?)))
    && (s.derivedLease.Some? ==>
          s.derivedLease.value.actor in s.actors && NeedsDerived(s.actors[s.derivedLease.value.actor]))
  }

  lemma StepHolds(s: System, act: Action)
    requires Inv(s) && LeasesHeld(s) && Enabled(s, act)
    ensures LeasesHeld(Next(s, act))
  {
    hide Open, GetToken, RoleOf;
    if act.EndSignIn? || act.EndToken? {
      CallHolds(s, act);
    } else if act.BeginRemove? || act.LeaseRemove? || act.RemoveOAuth? || act.RemoveBundle? || act.EndRemove? || act.Die? {
      RemoveHolds(s, act);
    } else {
      OtherHolds(s, act);
    }
  }

  lemma CallHolds(s: System, act: Action)
    requires Inv(s) && LeasesHeld(s) && Enabled(s, act) && (act.EndSignIn? || act.EndToken?)
    ensures LeasesHeld(Next(s, act))
  {
    hide Open, GetToken;
    assert ActorGood(s, act.p, s.actors[act.p]);
  }

  lemma RemoveHolds(s: System, act: Action)
    requires Inv(s) && LeasesHeld(s) && Enabled(s, act)
    requires act.BeginRemove? || act.LeaseRemove? || act.RemoveOAuth? || act.RemoveBundle? || act.EndRemove? || act.Die?
    ensures LeasesHeld(Next(s, act))
  {
    if act.p in s.actors { assert ActorGood(s, act.p, s.actors[act.p]); }
  }

  lemma OtherHolds(s: System, act: Action)
    requires Inv(s) && LeasesHeld(s) && Enabled(s, act) && !act.EndSignIn? && !act.EndToken?
    requires !act.BeginRemove? && !act.LeaseRemove? && !act.RemoveOAuth? && !act.RemoveBundle? && !act.EndRemove? && !act.Die?
    ensures LeasesHeld(Next(s, act))
  {
    if act.p in s.actors { assert ActorGood(s, act.p, s.actors[act.p]); }
  }

  lemma {:induction false} EveryLeaseIsNeeded(states: seq<System>, acts: seq<Action>, i: nat)
    requires Run(states, acts) && i < |states|
    ensures LeasesHeld(states[i])
    decreases i
  {
    hide Next, Enabled, Inv, LeasesHeld;
    if i == 0 {
      NothingHeld(states[0]);
    } else {
      EveryLeaseIsNeeded(states, acts, i - 1);
      RunKeepsInvariant(states, acts, i - 1);
      StepHolds(states[i - 1], acts[i - 1]);
    }
  }

  lemma NothingHeld(s: System)
    requires Initial(s)
    ensures LeasesHeld(s)
  {
  }

  // ---- Going on from a run ----

  function Last(states: seq<System>): System
    requires states != []
  {
    states[|states| - 1]
  }

  ghost predicate GoesOn(states: seq<System>, acts: seq<Action>, longer: seq<System>, more: seq<Action>) {
    Run(longer, more) && states != [] && states <= longer && acts <= more
  }

  lemma Stays(states: seq<System>, acts: seq<Action>)
    requires Run(states, acts)
    ensures GoesOn(states, acts, states, acts)
  {
  }

  lemma OneMore(states: seq<System>, acts: seq<Action>, longer: seq<System>, more: seq<Action>, act: Action)
    returns (longest: seq<System>, most: seq<Action>)
    requires GoesOn(states, acts, longer, more) && longer != [] && Enabled(Last(longer), act)
    ensures GoesOn(states, acts, longest, most) && longest != [] && Last(longest) == Next(Last(longer), act)
  {
    longest, most := longer + [Next(Last(longer), act)], more + [act];
  }

  // What a holder does next towards giving its lease back, without touching either file.
  function Yields(p: nat, a: Actor): Action {
    match a
    case SigningIn => Die(p)
    case Live(_, refreshing, publishing) =>
      if refreshing then EndToken(p, false, Refused, false) else if publishing.HoldsBoth? then EndPublish(p) else GiveUpPublish(p)
    case Removing(stage) => if stage == 1 then RemoveOAuth(p, false) else if stage == 2 then RemoveBundle(p, false) else EndRemove(p)
  }

  // How far an actor is from holding nothing.
  function Distance(a: Actor): nat {
    match a
    case SigningIn => 1
    case Live(_, refreshing, publishing) => (if refreshing then 1 else 0) + if publishing.NotPublishing? then 0 else 1
    case Removing(stage) => if stage == 0 || stage >= 3 then 1 else 4 - stage
  }

  lemma HolderYields(s: System, p: nat)
    requires Inv(s) && LeasesHeld(s) && p in s.actors && Distance(s.actors[p]) > 0
    ensures var act := Yields(p, s.actors[p]);
            && Enabled(s, act) && SameFiles(s, Next(s, act)) && Next(s, act).actors.Keys <= s.actors.Keys
            && (p in Next(s, act).actors ==> Distance(Next(s, act).actors[p]) < Distance(s.actors[p]))
            && Next(s, act).oauthLease in {None, s.oauthLease} && Next(s, act).derivedLease in {None, s.derivedLease}
  {
    assert ActorGood(s, p, s.actors[p]);
  }

  predicate SameFiles(s: System, t: System) {
    t.oauth == s.oauth && t.bundle == s.bundle && t.created == s.created
  }

  lemma Sound(states: seq<System>, acts: seq<Action>)
    requires Run(states, acts)
    ensures states != [] && Inv(Last(states)) && LeasesHeld(Last(states))
  {
    RunKeepsInvariant(states, acts, |acts|);
    EveryLeaseIsNeeded(states, acts, |acts|);
  }

  function HolderOf(s: System, derived: bool): Option<Holder> {
    if derived then s.derivedLease else s.oauthLease
  }

  lemma HoldersAreBusy(s: System, derived: bool)
    requires LeasesHeld(s) && HolderOf(s, derived).Some?
    ensures HolderOf(s, derived).value.actor in s.actors && Distance(s.actors[HolderOf(s, derived).value.actor]) > 0
  {
  }

  // The holder of a lease gives it back in at most three steps of its own, whatever phase it is in.
  lemma {:induction false} LeaseComesBack(states: seq<System>, acts: seq<Action>, derived: bool, left: nat)
    returns (longer: seq<System>, more: seq<Action>)
    requires Run(states, acts) && states != []
    requires HolderOf(Last(states), derived).Some? ==>
               var h := HolderOf(Last(states), derived).value.actor;
               h in Last(states).actors && Distance(Last(states).actors[h]) <= left
    ensures GoesOn(states, acts, longer, more) && longer != [] && HolderOf(Last(longer), derived).None?
    ensures SameFiles(Last(states), Last(longer)) && Last(longer).actors.Keys <= Last(states).actors.Keys
    ensures HolderOf(Last(longer), !derived) in {None, HolderOf(Last(states), !derived)}
    decreases left
  {
    hide Run, Next, Enabled, Inv, LeasesHeld, Yields, Distance;
    Stays(states, acts);
    longer, more := states, acts;
    if HolderOf(Last(states), derived).Some? {
      Sound(states, acts);
      HoldersAreBusy(Last(states), derived);
      var h := HolderOf(Last(states), derived).value.actor;
      HolderYields(Last(states), h);
      var next, taken := OneMore(states, acts, states, acts, Yields(h, Last(states).actors[h]));
      if HolderOf(Last(next), derived).Some? {
        Sound(next, taken);
        HoldersAreBusy(Last(next), derived);
      }
      longer, more := LeaseComesBack(next, taken, derived, left - 1);
      Onward(states, acts, next, taken, longer, more);
    }
  }

  lemma Onward(states: seq<System>, acts: seq<Action>, longer: seq<System>, more: seq<Action>, longest: seq<System>, most: seq<Action>)
    requires GoesOn(states, acts, longer, more) && GoesOn(longer, more, longest, most)
    ensures GoesOn(states, acts, longest, most)
  {
  }

  lemma NeverFar(s: System, p: nat)
    requires Inv(s) && p in s.actors
    ensures Distance(s.actors[p]) <= 3
  {
    assert ActorGood(s, p, s.actors[p]);
  }

  // From every reachable state the holders' own steps free both leases and leave both files as they are.
  lemma BothLeasesComeBack(states: seq<System>, acts: seq<Action>) returns (longer: seq<System>, more: seq<Action>)
    requires Run(states, acts)
    ensures GoesOn(states, acts, longer, more) && longer != [] && SameFiles(Last(states), Last(longer))
    ensures Last(longer).oauthLease.None? && Last(longer).derivedLease.None? && Last(longer).actors.Keys <= Last(states).actors.Keys
  {
    hide Run, Inv, Distance, LeasesHeld;
    Sound(states, acts);
    if HolderOf(Last(states), false).Some? {
      HoldersAreBusy(Last(states), false);
      NeverFar(Last(states), HolderOf(Last(states), false).value.actor);
    }
    var free, freed := LeaseComesBack(states, acts, false, 3);
    Sound(free, freed);
    if HolderOf(Last(free), true).Some? {
      HoldersAreBusy(Last(free), true);
      NeverFar(Last(free), HolderOf(Last(free), true).value.actor);
    }
    longer, more := LeaseComesBack(free, freed, true, 3);
    Onward(states, acts, free, freed, longer, more);
  }

  // ---- What a process can always do ----

  // From every reachable state a process that is not running yet can sign out: both files are gone after it.
  lemma SigningOutSucceeds(states: seq<System>, acts: seq<Action>, p: nat) returns (longer: seq<System>, more: seq<Action>)
    requires Run(states, acts) && states != [] && p !in Last(states).actors
    ensures GoesOn(states, acts, longer, more) && longer != []
    ensures Last(longer).oauth == Missing && Last(longer).bundle == None && p !in Last(longer).actors
    ensures Last(longer).oauthLease.None? && Last(longer).derivedLease.None?
  {
    hide Run;
    longer, more := BothLeasesComeBack(states, acts);
    longer, more := OneMore(states, acts, longer, more, BeginRemove(p));
    longer, more := OneMore(states, acts, longer, more, LeaseRemove(p));
    longer, more := OneMore(states, acts, longer, more, RemoveOAuth(p, true));
    longer, more := OneMore(states, acts, longer, more, RemoveBundle(p, true));
    longer, more := OneMore(states, acts, longer, more, EndRemove(p));
  }

  // Unless the file cannot be read, a process that is not running yet can sign in and publish: the file then
  // holds its token under a generation of its own, and the bundle is its account's.
  lemma SigningInSucceeds(states: seq<System>, acts: seq<Action>, p: nat, t: OAuthToken, gen: nat)
    returns (longer: seq<System>, more: seq<Action>)
    requires Run(states, acts) && states != [] && p !in Last(states).actors && !Last(states).oauth.Unreadable?
    requires gen !in Last(states).created && t.hasRefresh
    ensures GoesOn(states, acts, longer, more) && longer != []
    ensures Last(longer).oauth == Stored(t, Gen(gen)) && Last(longer).bundle == Some(gen)
    ensures p in Last(longer).actors && Last(longer).actors[p] == Live(SourceState(Some(t), Some(t), gen, Gen(gen), false), false, NotPublishing)
    ensures Last(longer).oauthLease.None? && Last(longer).derivedLease.None?
  {
    hide Run;
    longer, more := BothLeasesComeBack(states, acts);
    longer, more := OneMore(states, acts, longer, more, BeginSignIn(p));
    Sound(longer, more);
    NewSignIn(Last(longer).oauth, t, gen);
    longer, more := OneMore(states, acts, longer, more, EndSignIn(p, true, Refused, Some(t), true, gen));
    longer, more := OneMore(states, acts, longer, more, BeginPublish(p));
    longer, more := OneMore(states, acts, longer, more, CheckSignIn(p));
    longer, more := OneMore(states, acts, longer, more, WriteBundle(p));
    longer, more := OneMore(states, acts, longer, more, EndPublish(p));
  }

  lemma NewSignIn(file: Contents, t: OAuthToken, gen: nat)
    requires !file.Unreadable? && t.hasRefresh && (file.Stored? ==> file.generation != Gen(gen))
    ensures var r := Open(file, true, Refused, Some(t), true, gen);
            && r.reply == Granted(t) && r.file == Stored(t, Gen(gen)) && r.rotated.None?
            && r.state == SourceState(Some(t), Some(t), gen, Gen(gen), false)
  {
  }

  // A process whose sign-in is still the file's can refresh its token, whatever other processes have done to
  // it: the file then holds the rotation, and the process stands on it.
  lemma RefreshingSucceeds(states: seq<System>, acts: seq<Action>, p: nat, to: OAuthToken) returns (longer: seq<System>, more: seq<Action>)
    requires Run(states, acts) && states != [] && IsLive(Last(states), p) && !Last(states).actors[p].refreshing
    requires var a := Last(states).actors[p].source; !a.changed && FileHas(Last(states), a.generation)
    requires Last(states).oauthLease.None? && to.hasRefresh
    ensures GoesOn(states, acts, longer, more) && IsLive(Last(longer), p)
    ensures var a, b := Last(states).actors[p].source, Last(longer).actors[p].source;
            a.source.Some? || a.last != Some(Last(states).oauth.token) ==>
              Last(longer).oauth == Stored(to, Gen(a.generation)) && b == SourceState(Some(to), Some(to), a.generation, Gen(a.generation), false)
  {
    hide Run;
    Sound(states, acts);
    assert ActorGood(Last(states), p, Last(states).actors[p]);
    var a := Last(states).actors[p].source;
    GrantedExactlyWhen(a, Last(states).oauth, true, Rotated(to), true);
    longer, more := OneMore(states, acts, states, acts, BeginToken(p)) by { Stays(states, acts); }
    longer, more := OneMore(states, acts, longer, more, EndToken(p, true, Rotated(to), true));
  }
}
