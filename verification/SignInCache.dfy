/** The Microsoft token file: loading, refreshing and rotating it while its lease is held. */
module SignInCache {
  import opened Wrappers

  // Equality of values is the comparison of all persisted OAuth fields.
  datatype OAuthToken = OAuthToken(id: nat, hasRefresh: bool)

  // A file written by an older version carries no generation.
  datatype Generation = Legacy | Gen(n: nat)

  datatype Contents = Missing | Invalid | Unreadable | Stored(token: OAuthToken, generation: Generation)

  // What the OAuth library's own source answers: its present token, or a rotation of it.
  datatype Answer = Refused | Current | Rotated(token: OAuthToken)

  // `source` is the token the OAuth source would present next; it is absent when none could be built.
  datatype SourceState = SourceState(
    source: Option<OAuthToken>,
    last: Option<OAuthToken>,
    generation: nat,
    lastGeneration: Generation,
    changed: bool)

  datatype Reply = Granted(token: OAuthToken) | AccountChanged | Failed

  // A refresh token used up, its successor, and the sign-in it belongs to.
  datatype Rotation = Rotation(generation: nat, from: OAuthToken, to: OAuthToken)

  datatype Outcome = Outcome(state: SourceState, file: Contents, reply: Reply, rotated: Option<Rotation>)

  function Persist(s: SourceState, file: Contents, t: OAuthToken, saved: bool): Outcome {
    if !t.hasRefresh then Outcome(s, file, Failed, None)
    else if s.last == Some(t) && s.lastGeneration == Gen(s.generation) then Outcome(s, file, Granted(t), None)
    else if !saved then Outcome(s, file, Failed, None)
    else Outcome(s.(last := Some(t), lastGeneration := Gen(s.generation)), Stored(t, Gen(s.generation)), Granted(t), None)
  }

  // The source's own answer, persisted; `rotated` is the rotation it made.
  function Answered(s: SourceState, file: Contents, answer: Answer, saved: bool): Outcome
    requires s.source.Some?
  {
    match answer
    case Refused => Outcome(s, file, Failed, None)
    case Current => Persist(s, file, s.source.value, saved)
    case Rotated(t) =>
      Persist(s.(source := Some(t)), file, t, saved).(rotated := Some(Rotation(s.generation, s.source.value, t)))
  }

  // `built` says whether a source can be built around the token on disk.
  function Reloaded(s: SourceState, t: OAuthToken, built: bool): SourceState {
    if s.last == Some(t) then s else s.(source := if built then Some(t) else None, last := Some(t))
  }

  // One call, from the acquired lease to its release.
  function GetToken(s: SourceState, file: Contents, built: bool, answer: Answer, saved: bool): Outcome {
    if s.changed then Outcome(s, file, AccountChanged, None)
    else match file
      case Missing => Outcome(s.(changed := true), file, AccountChanged, None)
      case Invalid => Outcome(s, file, Failed, None)
      case Unreadable => Outcome(s, file, Failed, None)
      case Stored(t, g) =>
        if g != Gen(s.generation) then Outcome(s.(changed := true), file, AccountChanged, None)
        else
          var r := Reloaded(s, t, built);
          if r.source.None? then Outcome(r, file, Failed, None) else Answered(r, file, answer, saved)
  }

  // A sign-in that could not reuse the file: a new generation around the requested token.
  function Requested(file: Contents, requested: Option<OAuthToken>, built: bool, saved: bool, gen: nat, s: SourceState): Outcome {
    if requested.None? then Outcome(s, file, Failed, None)
    else
      var p := Persist(s.(generation := gen), file, requested.value, saved);
      if !p.reply.Granted? then p
      else if built then p.(state := p.state.(source := requested))
      else p.(reply := Failed, state := p.state.(source := None))
  }

  // Opening a source. `gen` is an unused generation; a refresh that yields no usable token falls
  // through to an interactive request, having rotated the file's own away.
  function Open(file: Contents, built: bool, answer: Answer, requested: Option<OAuthToken>, saved: bool, gen: nat): Outcome {
    var blank := SourceState(None, None, gen, Legacy, false);
    match file
    case Unreadable => Outcome(blank, file, Failed, None)
    case Stored(t, g) =>
      var s := SourceState(if built then Some(t) else None, Some(t), if g.Gen? then g.n else gen, g, false);
      if built && ((answer.Current? && t.hasRefresh) || (answer.Rotated? && answer.token.hasRefresh))
      then Answered(s, file, answer, saved)
      else
        Requested(file, requested, built, saved, gen, s).(
          rotated := if built && answer.Rotated? && g.Gen? then Some(Rotation(g.n, t, answer.token)) else None)
    case _ => Requested(file, requested, built, saved, gen, blank)
  }

  // What every opened source keeps.
  predicate Opened(s: SourceState) {
    s.lastGeneration == Gen(s.generation)
  }

  // A token is handed out only while it is the one on disk, under the source's own generation.
  lemma TokenIsOnDisk(s: SourceState, file: Contents, built: bool, answer: Answer, saved: bool)
    requires Opened(s)
    ensures var r := GetToken(s, file, built, answer, saved);
            && Opened(r.state) && r.state.generation == s.generation
            && (s.changed ==> r.state.changed && r.reply.AccountChanged?)
            && (r.reply.AccountChanged? <==> r.state.changed)
            && (r.reply.Granted? ==> r.file == Stored(r.reply.token, Gen(s.generation)) && r.state.last == Some(r.reply.token))
            && (r.file != file ==> file.Stored? && file.generation == Gen(s.generation) &&
                                   r.reply.Granted? && r.file == Stored(r.reply.token, file.generation))
  {
  }

  // The token a call has in hand before it asks the provider: the file's own if another process moved the
  // file on, otherwise the one its source stands on. None if a source for it is missing or cannot be built.
  function InHand(s: SourceState, t: OAuthToken, built: bool): Option<OAuthToken> {
    if s.last == Some(t) then s.source else if built then Some(t) else None
  }

  // Exactly when a call is granted, and what: the source is unchanged and the file its own, there is a token
  // in hand and the provider does not refuse it, and the answer can be refreshed again and is on disk or saved.
  lemma GrantedExactlyWhen(s: SourceState, file: Contents, built: bool, answer: Answer, saved: bool)
    requires Opened(s)
    ensures var r := GetToken(s, file, built, answer, saved);
            var mine := !s.changed && file.Stored? && file.generation == Gen(s.generation);
            var hand := if mine then InHand(s, file.token, built) else None;
            var next := if answer.Rotated? then Some(answer.token) else hand;
            var granted := mine && hand.Some? && !answer.Refused? && next.value.hasRefresh && (next == Some(file.token) || saved);
            && (r.reply.Granted? <==> granted)
            && (granted ==> r.reply.token == next.value && r.state.source == r.state.last == next && r.file == Stored(next.value, file.generation))
            && (!granted ==> r.file == file)
            && (mine && s.last != Some(file.token) && built && answer.Current? && file.token.hasRefresh ==> r.reply == Granted(file.token))
  {
  }

  // What a call that is not granted leaves in memory: a moved file is taken note of, and a rotation is kept
  // even if it was not saved; nothing else changes but the flag of a changed sign-in.
  lemma UngrantedKeeps(s: SourceState, file: Contents, built: bool, answer: Answer, saved: bool)
    requires Opened(s) && !GetToken(s, file, built, answer, saved).reply.Granted?
    ensures var r := GetToken(s, file, built, answer, saved).state;
            var mine := !s.changed && file.Stored? && file.generation == Gen(s.generation);
            && r.generation == s.generation && r.lastGeneration == s.lastGeneration
            && r.changed == (s.changed || file.Missing? || (file.Stored? && file.generation != Gen(s.generation)))
            && r.last == (if mine then Some(file.token) else s.last)
            && r.source == (if !mine then s.source
                            else if answer.Rotated? && InHand(s, file.token, built).Some? then Some(answer.token)
                            else InHand(s, file.token, built))
  {
  }

  // Exactly when opening a source is granted, and what: the file's own token or a rotation of it, if one can
  // be had that can be refreshed again; otherwise the requested token, under a generation of its own.
  lemma OpenedExactlyWhen(file: Contents, built: bool, answer: Answer, requested: Option<OAuthToken>, saved: bool, gen: nat)
    requires file.Stored? ==> file.generation != Gen(gen)
    ensures var r := Open(file, built, answer, requested, saved, gen);
            var asked := if answer.Rotated? then Some(answer.token) else if answer.Current? && file.Stored? then Some(file.token) else None;
            var reused := file.Stored? && built && asked.Some? && asked.value.hasRefresh;
            var kept := reused && (saved || (asked == Some(file.token) && file.generation.Gen?));
            var anew := !reused && !file.Unreadable? && requested.Some? && requested.value.hasRefresh && saved && built;
            && (r.reply.Granted? <==> kept || anew)
            && (kept ==> r.reply == Granted(asked.value) && r.state.generation == (if file.generation.Gen? then file.generation.n else gen))
            && (anew ==> r.reply == Granted(requested.value) && r.state.generation == gen)
            && (!r.reply.Granted? ==>
                  r.file == if !reused && !file.Unreadable? && requested.Some? && requested.value.hasRefresh && saved
                            then Stored(requested.value, Gen(gen)) else file)
            && (r.reply.Granted? ==> r.file == Stored(r.reply.token, Gen(r.state.generation)) &&
                                     r.state.source == r.state.last == Some(r.reply.token) && !r.state.changed)
  {
  }

  // Exactly when a refresh token is used up, and for what: whenever the provider rotates the one in hand, saved
  // or not, and even if its successor is of no use.
  lemma RotatedExactlyWhen(s: SourceState, file: Contents, built: bool, answer: Answer, saved: bool)
    requires Opened(s)
    ensures var mine := !s.changed && file.Stored? && file.generation == Gen(s.generation);
            var hand := if mine then InHand(s, file.token, built) else None;
            GetToken(s, file, built, answer, saved).rotated ==
              if hand.Some? && answer.Rotated? then Some(Rotation(s.generation, hand.value, answer.token)) else None
  {
  }

  // The same for opening a source. A file without a generation, written by an older version, belongs to no
  // sign-in until its token has been saved under one.
  lemma OpenRotatesExactlyWhen(file: Contents, built: bool, answer: Answer, requested: Option<OAuthToken>, saved: bool, gen: nat)
    ensures var rotates := file.Stored? && built && answer.Rotated? && (file.generation.Gen? || answer.token.hasRefresh);
            Open(file, built, answer, requested, saved, gen).rotated ==
              if rotates then Some(Rotation(if file.generation.Gen? then file.generation.n else gen, file.token, answer.token)) else None
  {
  }

  // ---- The source as the program keeps it ----

  // A cache file; its lease is held by whoever calls a method that changes it.
  class TokenFile {
    var contents: Contents

    constructor (contents: Contents)
      ensures this.contents == contents
    {
      this.contents := contents;
    }
  }

  class PersistingSource {
    var source: Option<OAuthToken>
    var last: Option<OAuthToken>
    var generation: nat
    var lastGeneration: Generation
    var changed: bool

    function State(): SourceState
      reads this
    {
      SourceState(source, last, generation, lastGeneration, changed)
    }

    constructor (s: SourceState)
      ensures State() == s
    {
      source, last, generation, lastGeneration, changed := s.source, s.last, s.generation, s.lastGeneration, s.changed;
    }

    // Publishes a changed token; the file is left alone when it already holds this one.
    method PersistToken(file: TokenFile, t: OAuthToken, saved: bool) returns (ok: bool)
      modifies `last, `lastGeneration, file
      ensures var r := Persist(old(State()), old(file.contents), t, saved);
              State() == r.state && file.contents == r.file && ok == r.reply.Granted?
    {
      if !t.hasRefresh {
        return false;
      }
      if last == Some(t) && lastGeneration == Gen(generation) {
        return true;
      }
      if !saved {
        return false;
      }
      file.contents := Stored(t, Gen(generation));
      last, lastGeneration := Some(t), Gen(generation);
      return true;
    }

    // Reloads what another process rotated before asking its own source.
    method GetTokenLocked(file: TokenFile, built: bool, answer: Answer, saved: bool) returns (reply: Reply)
      requires Opened(State())
      modifies this, file
      ensures var r := GetToken(old(State()), old(file.contents), built, answer, saved);
              State() == r.state && file.contents == r.file && reply == r.reply
      ensures reply.Granted? ==> file.contents == Stored(reply.token, Gen(generation)) && last == Some(reply.token)
      ensures Opened(State()) && generation == old(generation)
    {
      TokenIsOnDisk(State(), file.contents, built, answer, saved);
      if changed {
        return AccountChanged;
      }
      if file.contents.Missing? || (file.contents.Stored? && file.contents.generation != Gen(generation)) {
        changed := true;
        return AccountChanged;
      }
      if !file.contents.Stored? {
        return Failed;
      }
      if last != Some(file.contents.token) {
        source, last := if built then Some(file.contents.token) else None, Some(file.contents.token);
      }
      if source.None? || answer.Refused? {
        return Failed;
      }
      if answer.Rotated? {
        source := Some(answer.token);
      }
      var t := source.value;
      var ok := PersistToken(file, t, saved);
      return if ok then Granted(t) else Failed;
    }
  }
}
