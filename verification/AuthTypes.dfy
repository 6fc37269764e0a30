/** The values the credential cache stores: tokens, environments and the derived bundle. */
module AuthTypes {
  import opened Wrappers

  type RelyingParty = string

  // `id` stands for the credential's own text (an XSTS token string or an authorization header),
  // which is what the cache compares; it is fresh whenever a credential is issued.
  datatype Token = Token(id: nat, notAfter: int)

  type TokenMap = map<RelyingParty, Token>

  predicate Valid(t: Option<Token>, now: int) {
    t.Some? && now < t.value.notAfter
  }

  function Id(t: Option<Token>): Option<nat> {
    if t.Some? then Some(t.value.id) else None
  }

  function At(tokens: TokenMap, rp: RelyingParty): Option<Token> {
    if rp in tokens then Some(tokens[rp]) else None
  }

  datatype Url = Url(text: string, https: bool, hasHost: bool, hasUser: bool)

  predicate ValidHttps(u: Url) {
    u.https && u.hasHost && !u.hasUser
  }

  datatype Environment = Environment(serviceUri: Url, issuer: Url, titleId: string)

  predicate ValidEnvironment(e: Environment) {
    ValidHttps(e.serviceUri) && ValidHttps(e.issuer) && e.titleId != ""
  }

  predicate SameEnvironment(left: Option<Environment>, right: Option<Environment>) {
    left.Some? && right.Some? && left == right
  }

  // SISU's cached state.
  datatype Snapshot = Snapshot(title: Option<Token>, user: Option<Token>, xsts: TokenMap)

  // The derived bundle. An absent proof key also stands for one that does not parse.
  datatype Bundle = Bundle(
    oauthBinding: string,
    clientBinding: string,
    environment: Option<Environment>,
    device: Option<Token>,
    proofKey: Option<nat>,
    sisu: Option<Snapshot>,
    service: Option<Token>)

  // The service and XSTS tokens of the bundle last read or written, by name only.
  datatype Synced = Synced(service: Option<nat>, xsts: map<RelyingParty, nat>)

  const NOTHING_SYNCED := Synced(None, map[])

  function SyncedXsts(s: Synced, rp: RelyingParty): Option<nat> {
    if rp in s.xsts then Some(s.xsts[rp]) else None
  }

  function SyncedFrom(b: Bundle): Synced {
    Synced(Id(b.service),
           if b.sisu.None? then map[]
           else map rp | rp in b.sisu.value.xsts :: b.sisu.value.xsts[rp].id)
  }
}
