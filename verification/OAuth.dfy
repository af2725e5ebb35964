// The OAuth code exchange: authorization codes and bearer tokens as expiring keys, the two
// endpoint handlers, and every interleaving of their storage operations.
module OAuth {
  import opened Wrappers

  datatype CodeData = CodeData(
    codeChallenge: string, redirectUri: string, clientId: string, userId: string, state: string)

  datatype TokenData = TokenData(userId: string, clientId: string, scope: string, createdAt: int, expiresAt: int)

  datatype Timed<T> = Timed(value: T, until: int)

  type Codes = map<string, Timed<CodeData>>
  type Tokens = map<string, Timed<TokenData>>

  // s256 stands for BASE64URL(SHA256(.)) and nothing is assumed of it.
  datatype Config = Config(
    allowedClients: seq<string>, demoMode: bool, codeTtl: int, tokenTtl: int, s256: string -> string)

  function Live<T>(m: map<string, Timed<T>>, key: string, now: int): Option<T> {
    if key in m && now < m[key].until then Some(m[key].value) else None
  }

  // ---- The store ----

  class Store {
    var codes: Codes
    var tokens: Tokens

    constructor ()
      ensures codes == map[] && tokens == map[]
    {
      codes, tokens := map[], map[];
    }

    method StoreAuthCode(code: string, data: CodeData, ttl: int, now: int)
      modifies this
      ensures codes == old(codes)[code := Timed(data, now + ttl)] && tokens == old(tokens)
    {
      codes := codes[code := Timed(data, now + ttl)];
    }

    // Get and delete in one transaction: whatever was there is gone, and is returned if it was live.
    method ConsumeAuthCode(code: string, now: int) returns (data: Option<CodeData>)
      modifies this
      ensures data == Live(old(codes), code, now)
      ensures codes == old(codes) - {code} && tokens == old(tokens)
    {
      data := Live(codes, code, now);
      codes := codes - {code};
    }

    method StoreBearerToken(token: string, userId: string, clientId: string, scope: string, ttl: int, now: int)
      modifies this
      ensures tokens == old(tokens)[token := Timed(TokenData(userId, clientId, scope, now, now + ttl), now + ttl)]
      ensures codes == old(codes)
    {
      tokens := tokens[token := Timed(TokenData(userId, clientId, scope, now, now + ttl), now + ttl)];
    }

    method LookupBearerToken(token: string, now: int) returns (data: Option<TokenData>)
      ensures data == Live(tokens, token, now)
    {
      data := Live(tokens, token, now);
    }
  }

  // ---- The handlers ----

  // methodUpper is the challenge method in upper case; cookieUser the user a valid session cookie names.
  datatype AuthorizeRequest = AuthorizeRequest(
    responseType: string, clientId: string, redirectUri: string, codeChallenge: string,
    methodUpper: string, state: string, cookieUser: Option<string>, queryUser: Option<string>)

  datatype TokenRequest = TokenRequest(
    grantType: string, code: string, codeVerifier: string, redirectUri: string, clientId: string)

  datatype AuthorizeOutcome = BadRequest | Forbidden | LoginRedirect | CodeRedirect(code: string, state: string)

  datatype Refusal = Malformed | UnknownCode | PkceFailed | RedirectMismatch | ServerError

  datatype TokenOutcome = Refused(why: Refusal) | Granted(token: string)

  // The cookie goes first; in demo mode the query parameter, or a fixed user, stands in.
  function ResolveUser(cfg: Config, r: AuthorizeRequest): Option<string> {
    if r.cookieUser.Some? && r.cookieUser.value != "" then r.cookieUser
    else if !cfg.demoMode then None
    else if r.queryUser.Some? && r.queryUser.value != "" then r.queryUser
    else Some("demo-user")
  }

  predicate WellFormed(r: AuthorizeRequest) {
    && r.responseType == "code" && r.methodUpper == "S256"
    && r.clientId != "" && r.redirectUri != "" && r.codeChallenge != ""
  }

  predicate ClientAllowed(cfg: Config, clientId: string) {
    cfg.allowedClients == [] || clientId in cfg.allowedClients
  }

  // What an authorize request stores, if anything.
  function Authorized(cfg: Config, r: AuthorizeRequest): Option<CodeData> {
    if WellFormed(r) && ClientAllowed(cfg, r.clientId) && ResolveUser(cfg, r).Some?
    then Some(CodeData(r.codeChallenge, r.redirectUri, r.clientId, ResolveUser(cfg, r).value, r.state))
    else None
  }

  predicate IsAscii(s: string) {
    forall i | 0 <= i < |s| :: s[i] < 128 as char
  }

  predicate TokenRequestWellFormed(r: TokenRequest) {
    r.grantType == "authorization_code" && r.code != "" && r.codeVerifier != ""
  }

  // The verdict on a consumed code.  A non-ASCII verifier or challenge makes the comparison raise;
  // an empty redirect_uri in the request is not compared, and the client_id never is.
  function Verdict(cfg: Config, r: TokenRequest, data: Option<CodeData>): Option<Refusal> {
    if data.None? then Some(UnknownCode)
    else if !IsAscii(r.codeVerifier) || !IsAscii(data.value.codeChallenge) then Some(ServerError)
    else if cfg.s256(r.codeVerifier) != data.value.codeChallenge then Some(PkceFailed)
    else if r.redirectUri != "" && r.redirectUri != data.value.redirectUri then Some(RedirectMismatch)
    else None
  }

  // The session cookie is valid and names a user.
  predicate HasSession(r: AuthorizeRequest) {
    r.cookieUser.Some? && r.cookieUser.value != ""
  }

  // The session's user, or in demo mode without a session, the named or the fixed demo user.
  predicate LoggedInAs(cfg: Config, r: AuthorizeRequest, userId: string) {
    if HasSession(r) then Some(userId) == r.cookieUser
    else cfg.demoMode && (Some(userId) == r.queryUser || (userId == "demo-user" && r.queryUser in {None, Some("")}))
  }

  class Handlers {
    const cfg: Config
    const store: Store

    constructor (cfg: Config, store: Store)
      ensures this.cfg == cfg && this.store == store
    {
      this.cfg, this.store := cfg, store;
    }

    // A code is stored exactly when the request is well formed, its client allowed and its user known.
    method Authorize(r: AuthorizeRequest, freshCode: string, now: int) returns (outcome: AuthorizeOutcome)
      modifies store
      ensures outcome.CodeRedirect? <==> Authorized(cfg, r).Some?
      ensures outcome.CodeRedirect? ==> outcome == CodeRedirect(freshCode, r.state)
      ensures outcome.CodeRedirect? ==>
        store.codes == old(store.codes)[freshCode := Timed(Authorized(cfg, r).value, now + cfg.codeTtl)]
      ensures !outcome.CodeRedirect? ==> store.codes == old(store.codes)
      ensures outcome.LoginRedirect? <==> WellFormed(r) && ClientAllowed(cfg, r.clientId) && ResolveUser(cfg, r).None?
      ensures outcome.Forbidden? <==> WellFormed(r) && !ClientAllowed(cfg, r.clientId)
      ensures store.tokens == old(store.tokens)
      // Well formed: a code for PKCE S256, with client, redirect URI and challenge; an empty allow list allows all.
      ensures outcome.BadRequest? <==>
        || r.responseType != "code" || r.methodUpper != "S256"
        || r.clientId == "" || r.redirectUri == "" || r.codeChallenge == ""
      ensures outcome.Forbidden? ==> cfg.allowedClients != [] && r.clientId !in cfg.allowedClients
      // The stored code carries the request, and a user that logged in: the one the session cookie names, and
      // only in demo mode, where there is none, the one the query names or the demo user.
      ensures outcome.CodeRedirect? ==>
        && (cfg.allowedClients == [] || r.clientId in cfg.allowedClients)
        && freshCode in store.codes
        && var data := store.codes[freshCode].value;
           && data.codeChallenge == r.codeChallenge && data.redirectUri == r.redirectUri
           && data.clientId == r.clientId && data.state == r.state
           && LoggedInAs(cfg, r, data.userId)
      ensures HasSession(r) && outcome.CodeRedirect? ==>
        freshCode in store.codes && Some(store.codes[freshCode].value.userId) == r.cookieUser
      ensures outcome.LoginRedirect? ==> !HasSession(r) && !cfg.demoMode
      ensures !HasSession(r) && !cfg.demoMode ==> !outcome.CodeRedirect?
      // It is one step of the protocol below.
      ensures var s := Next(cfg, Alone(old(store.codes), old(store.tokens)), Action.Authorize(r, freshCode, now));
        store.codes == s.codes && store.tokens == s.tokens
    {
      if r.responseType != "code" { return BadRequest; }
      if r.clientId == "" { return BadRequest; }
      if r.redirectUri == "" { return BadRequest; }
      if r.codeChallenge == "" { return BadRequest; }
      if r.methodUpper != "S256" { return BadRequest; }
      if cfg.allowedClients != [] && r.clientId !in cfg.allowedClients {
        return Forbidden;
      }
      var user := ResolveUser(cfg, r);
      if user.None? {
        return LoginRedirect;
      }
      store.StoreAuthCode(freshCode, CodeData(r.codeChallenge, r.redirectUri, r.clientId, user.value, r.state),
        cfg.codeTtl, now);
      outcome := CodeRedirect(freshCode, r.state);
    }

    // Without interference: a token is granted exactly when the code is live and the verdict on it is
    // favourable; every well-formed attempt uses the code up, whatever its outcome.
    method Token(r: TokenRequest, freshToken: string, now: int) returns (outcome: TokenOutcome)
      modifies store
      ensures var data := Live(old(store.codes), r.code, now);
        outcome == if !TokenRequestWellFormed(r) then Refused(Malformed)
                   else if Verdict(cfg, r, data).Some? then Refused(Verdict(cfg, r, data).value)
                   else Granted(freshToken)
      ensures store.codes == if TokenRequestWellFormed(r) then old(store.codes) - {r.code} else old(store.codes)
      ensures outcome == Refused(Malformed) <==>
        r.grantType != "authorization_code" || r.code == "" || r.codeVerifier == ""
      ensures outcome.Refused? ==> store.tokens == old(store.tokens)
      ensures outcome.Granted? ==>
        var data := old(store.codes)[r.code].value;
        store.tokens == old(store.tokens)[freshToken :=
          Timed(TokenData(data.userId, data.clientId, "mcp", now, now + cfg.tokenTtl), now + cfg.tokenTtl)]
      // It is two steps of the protocol below: taking the code, and, when that leaves an exchange, storing the token.
      ensures
        var taken := Next(cfg, Alone(old(store.codes), old(store.tokens)), BeginToken(0, r, now));
        var s := if 0 in taken.exchanges then Next(cfg, taken, FinishToken(0, freshToken, now)) else taken;
        store.codes == s.codes && store.tokens == s.tokens && (outcome.Granted? <==> 0 in taken.exchanges)
    {
      if r.grantType != "authorization_code" { return Refused(Malformed); }
      if r.code == "" { return Refused(Malformed); }
      if r.codeVerifier == "" { return Refused(Malformed); }
      var data := store.ConsumeAuthCode(r.code, now);
      if data.None? { return Refused(UnknownCode); }
      if !IsAscii(r.codeVerifier) || !IsAscii(data.value.codeChallenge) { return Refused(ServerError); }
      if cfg.s256(r.codeVerifier) != data.value.codeChallenge { return Refused(PkceFailed); }
      if r.redirectUri != "" && r.redirectUri != data.value.redirectUri { return Refused(RedirectMismatch); }
      store.StoreBearerToken(freshToken, data.value.userId, data.value.clientId, "mcp", cfg.tokenTtl, now);
      outcome := Granted(freshToken);
    }
  }

  // ---- Every interleaving ----

  // A token handler that took a code: what it read and when, and the token it stored, once it has.
  datatype Exchange = Exchange(code: string, data: CodeData, verifier: string, takenAt: int, token: Option<string>)

  // codes and tokens are the storage; exchanges are the handlers, running and finished; stored
  // records every code ever stored.
  datatype System = System(codes: Codes, tokens: Tokens, exchanges: map<nat, Exchange>, stored: Codes)

  // The storage with no handler at work.
  function Alone(codes: Codes, tokens: Tokens): System {
    System(codes, tokens, map[], codes)
  }

  const EMPTY: System := System(map[], map[], map[], map[])

  datatype Action =
    | Authorize(request: AuthorizeRequest, code: string, at: int)
    | BeginToken(handler: nat, tokenRequest: TokenRequest, at: int)
    | FinishToken(handler: nat, token: string, at: int)
    | DropCode(code: string)
    | DropToken(token: string)

  // Generated codes and tokens are new, and a handler finishes the request it began, once.
  predicate Enabled(s: System, a: Action) {
    match a
    case Authorize(_, code, _) => code !in s.stored
    case BeginToken(h, _, _) => h !in s.exchanges
    case FinishToken(h, token, _) =>
      && h in s.exchanges && s.exchanges[h].token.None?
      && forall g | g in s.exchanges :: s.exchanges[g].token != Some(token)
    case _ => true
  }

  // Dropping stands for expiry, and may happen at any moment.
  function Next(cfg: Config, s: System, a: Action): System {
    match a
    case Authorize(r, code, at) =>
      var data := Authorized(cfg, r);
      if data.None? then s
      else s.(codes := s.codes[code := Timed(data.value, at + cfg.codeTtl)],
              stored := s.stored[code := Timed(data.value, at + cfg.codeTtl)])
    case BeginToken(h, r, at) =>
      if !TokenRequestWellFormed(r) then s
      else
        var data := Live(s.codes, r.code, at);
        var taken := s.(codes := s.codes - {r.code});
        if Verdict(cfg, r, data).Some? then taken
        else taken.(exchanges := s.exchanges[h := Exchange(r.code, data.value, r.codeVerifier, at, None)])
    case FinishToken(h, token, at) =>
      if h !in s.exchanges then s
      else
        var x := s.exchanges[h];
        s.(tokens := s.tokens[token :=
          Timed(TokenData(x.data.userId, x.data.clientId, "mcp", at, at + cfg.tokenTtl), at + cfg.tokenTtl)],
           exchanges := s.exchanges[h := x.(token := Some(token))])
    case DropCode(code) => s.(codes := s.codes - {code})
    case DropToken(token) => s.(tokens := s.tokens - {token})
  }

  function Run(cfg: Config, actions: seq<Action>): System {
    if actions == [] then EMPTY else Next(cfg, Run(cfg, actions[..|actions| - 1]), actions[|actions| - 1])
  }

  ghost predicate Possible(cfg: Config, actions: seq<Action>) {
    forall i | 0 <= i < |actions| :: Enabled(Run(cfg, actions[..i]), actions[i])
  }

  // ---- Single use ----

  // Some handler took the code, or it expired: no one can read it any more.
  predicate Spent(s: System, code: string) {
    code in s.stored && code !in s.codes
  }

  // The exchange took a stored code before it expired, and its verifier matches the challenge.
  ghost predicate Proven(cfg: Config, s: System, x: Exchange) {
    && Spent(s, x.code) && s.stored[x.code].value == x.data && x.takenAt < s.stored[x.code].until
    && cfg.s256(x.verifier) == x.data.codeChallenge
  }

  // A code is in the storage or with one handler, and no two handlers share a code or a token.
  ghost predicate Exclusive(cfg: Config, s: System) {
    && (forall c | c in s.codes :: c in s.stored && s.codes[c] == s.stored[c])
    && (forall h | h in s.exchanges :: Proven(cfg, s, s.exchanges[h]))
    && (forall g, h | g in s.exchanges && h in s.exchanges && g != h :: Apart(s.exchanges[g], s.exchanges[h]))
  }

  predicate Apart(x: Exchange, y: Exchange) {
    x.code != y.code && (x.token.Some? ==> x.token != y.token)
  }

  // Every stored token goes back to the exchange that stored it.
  ghost predicate Backed(s: System) {
    forall t | t in s.tokens :: exists h :: BackedBy(s, t, h)
  }

  ghost predicate BackedBy(s: System, t: string, h: nat)
    requires t in s.tokens
  {
    && h in s.exchanges && s.exchanges[h].token == Some(t)
    && s.tokens[t].value.userId == s.exchanges[h].data.userId
    && s.tokens[t].value.clientId == s.exchanges[h].data.clientId
  }

  lemma BeginKeepsExclusive(cfg: Config, s: System, a: Action)
    requires Exclusive(cfg, s) && a.BeginToken? && Enabled(s, a)
    ensures Exclusive(cfg, Next(cfg, s, a))
  {
  }

  lemma FinishKeepsExclusive(cfg: Config, s: System, a: Action)
    requires Exclusive(cfg, s) && a.FinishToken? && Enabled(s, a)
    ensures Exclusive(cfg, Next(cfg, s, a))
  {
  }

  // Codes change hands, but never have two holders.
  lemma NextKeepsExclusive(cfg: Config, s: System, a: Action)
    requires Exclusive(cfg, s) && Enabled(s, a)
    ensures Exclusive(cfg, Next(cfg, s, a))
  {
    if a.BeginToken? {
      BeginKeepsExclusive(cfg, s, a);
    } else if a.FinishToken? {
      FinishKeepsExclusive(cfg, s, a);
    }
  }

  lemma TokenStaysBacked(cfg: Config, s: System, a: Action, t: string, h: nat)
    requires t in s.tokens && BackedBy(s, t, h) && Enabled(s, a) && t in Next(cfg, s, a).tokens
    requires a.FinishToken? ==> a.token != t
    ensures BackedBy(Next(cfg, s, a), t, h)
  {
  }

  lemma NextKeepsBacked(cfg: Config, s: System, a: Action)
    requires Backed(s) && Enabled(s, a)
    ensures Backed(Next(cfg, s, a))
  {
    var out := Next(cfg, s, a);
    forall t | t in out.tokens ensures exists h :: BackedBy(out, t, h) {
      if a.FinishToken? && t == a.token {
        assert BackedBy(out, t, a.handler);
      } else {
        assert t in s.tokens;
        var h :| BackedBy(s, t, h);
        TokenStaysBacked(cfg, s, a, t, h);
      }
    }
  }

  lemma {:induction false} Invariants(cfg: Config, actions: seq<Action>)
    requires Possible(cfg, actions)
    ensures Exclusive(cfg, Run(cfg, actions)) && Backed(Run(cfg, actions))
  {
    if actions != [] {
      var init, last := actions[..|actions| - 1], actions[|actions| - 1];
      PossiblePrefix(cfg, actions);
      Invariants(cfg, init);
      NextKeepsExclusive(cfg, Run(cfg, init), last);
      NextKeepsBacked(cfg, Run(cfg, init), last);
    }
  }

  // In every interleaving each code yields at most one bearer token.
  lemma CodesAreSingleUse(cfg: Config, actions: seq<Action>, g: nat, h: nat)
    requires Possible(cfg, actions) && g in Run(cfg, actions).exchanges && h in Run(cfg, actions).exchanges
    requires Run(cfg, actions).exchanges[g].code == Run(cfg, actions).exchanges[h].code
    ensures g == h
  {
    Invariants(cfg, actions);
  }

  // Every stored token carries the user and the client stored with a code that was taken in time and
  // whose challenge matches the verifier presented for it.
  lemma TokensAreBacked(cfg: Config, actions: seq<Action>, t: string)
    requires Possible(cfg, actions) && t in Run(cfg, actions).tokens
    ensures var s := Run(cfg, actions);
      exists h | h in s.exchanges ::
        var x, token := s.exchanges[h], s.tokens[t].value;
        && x.token == Some(t) && x.code in s.stored && x.takenAt < s.stored[x.code].until
        && token.userId == s.stored[x.code].value.userId && token.clientId == s.stored[x.code].value.clientId
        && cfg.s256(x.verifier) == s.stored[x.code].value.codeChallenge
  {
    Invariants(cfg, actions);
    var s := Run(cfg, actions);
    var h :| BackedBy(s, t, h);
    assert Proven(cfg, s, s.exchanges[h]);
  }

  lemma AuthorizedUserIsLoggedIn(cfg: Config, r: AuthorizeRequest)
    ensures Authorized(cfg, r).Some? ==> LoggedInAs(cfg, r, Authorized(cfg, r).value.userId)
    ensures ResolveUser(cfg, r).None? <==> !HasSession(r) && !cfg.demoMode
  {
  }

  // The request in which the user of a code logged in.
  ghost predicate IssuedTo(cfg: Config, actions: seq<Action>, i: nat, code: string, userId: string) {
    && i < |actions| && actions[i].Authorize? && actions[i].code == code
    && LoggedInAs(cfg, actions[i].request, userId)
  }

  lemma {:induction false} StoredUsersLoggedIn(cfg: Config, actions: seq<Action>, code: string)
    requires code in Run(cfg, actions).stored
    ensures exists i :: IssuedTo(cfg, actions, i, code, Run(cfg, actions).stored[code].value.userId)
  {
    var init, last := actions[..|actions| - 1], actions[|actions| - 1];
    if last.Authorize? && last.code == code && Authorized(cfg, last.request).Some? {
      AuthorizedUserIsLoggedIn(cfg, last.request);
      assert IssuedTo(cfg, actions, |actions| - 1, code, Run(cfg, actions).stored[code].value.userId);
    } else {
      StoredUsersLoggedIn(cfg, init, code);
      var i :| IssuedTo(cfg, init, i, code, Run(cfg, init).stored[code].value.userId);
      assert IssuedTo(cfg, actions, i, code, Run(cfg, actions).stored[code].value.userId);
    }
  }

  lemma CodeOfAToken(cfg: Config, actions: seq<Action>, t: string) returns (code: string)
    requires Possible(cfg, actions) && t in Run(cfg, actions).tokens
    ensures var s := Run(cfg, actions); code in s.stored && s.tokens[t].value.userId == s.stored[code].value.userId
  {
    Invariants(cfg, actions);
    var s := Run(cfg, actions);
    var h :| BackedBy(s, t, h);
    assert Proven(cfg, s, s.exchanges[h]);
    code := s.exchanges[h].code;
  }

  // A request of the run in which this user was named by a session cookie.
  predicate SessionAt(actions: seq<Action>, i: nat, userId: string) {
    && i < |actions| && actions[i].Authorize? && HasSession(actions[i].request)
    && actions[i].request.cookieUser == Some(userId)
  }

  // Every stored token belongs to a user that logged in for its code; with demo mode off, through a session cookie.
  lemma TokenUsersLoggedIn(cfg: Config, actions: seq<Action>, t: string)
    requires Possible(cfg, actions) && t in Run(cfg, actions).tokens
    ensures exists i: nat, code: string :: IssuedTo(cfg, actions, i, code, Run(cfg, actions).tokens[t].value.userId)
    ensures !cfg.demoMode ==> exists i: nat :: SessionAt(actions, i, Run(cfg, actions).tokens[t].value.userId)
  {
    var userId := Run(cfg, actions).tokens[t].value.userId;
    var code := CodeOfAToken(cfg, actions, t);
    StoredUsersLoggedIn(cfg, actions, code);
    var i: nat :| IssuedTo(cfg, actions, i, code, userId);
    assert !cfg.demoMode ==> SessionAt(actions, i, userId);
  }

  // The answer to a well-formed token request: the first objection in this order, if any.
  lemma VerdictExactly(cfg: Config, r: TokenRequest, data: Option<CodeData>)
    ensures
      var ascii := data.Some? && forall c | c in r.codeVerifier + data.value.codeChallenge :: c as int < 128;
      var matches := data.Some? && cfg.s256(r.codeVerifier) == data.value.codeChallenge;
      var sameUri := data.Some? && r.redirectUri in {"", data.value.redirectUri};
      match Verdict(cfg, r, data)
      case None => ascii && matches && sameUri
      case Some(UnknownCode) => data.None?
      case Some(ServerError) => data.Some? && !ascii
      case Some(PkceFailed) => ascii && !matches
      case Some(RedirectMismatch) => ascii && matches && !sameUri
      case Some(Malformed) => false
  {
    if data.Some? {
      AsciiConcat(r.codeVerifier, data.value.codeChallenge);
    }
  }

  lemma AsciiConcat(s: string, t: string)
    ensures IsAscii(s) && IsAscii(t) <==> forall c | c in s + t :: c as int < 128
  {
    assert forall i | 0 <= i < |s| :: (s + t)[i] == s[i] && s[i] in s + t;
    assert forall i | 0 <= i < |t| :: (s + t)[|s| + i] == t[i] && t[i] in s + t;
  }

  lemma SpentStaysSpent(cfg: Config, s: System, a: Action, code: string)
    requires Enabled(s, a) && Spent(s, code)
    ensures Spent(Next(cfg, s, a), code)
  {
  }

  lemma AttemptSpendsTheCode(cfg: Config, s: System, a: Action)
    requires a.BeginToken? && TokenRequestWellFormed(a.tokenRequest) && a.tokenRequest.code in s.stored
    ensures Spent(Next(cfg, s, a), a.tokenRequest.code)
  {
  }

  lemma PossiblePrefix(cfg: Config, actions: seq<Action>)
    requires Possible(cfg, actions) && actions != []
    ensures Possible(cfg, actions[..|actions| - 1])
    ensures Enabled(Run(cfg, actions[..|actions| - 1]), actions[|actions| - 1])
  {
    var init := actions[..|actions| - 1];
    forall i | 0 <= i < |init| ensures Enabled(Run(cfg, init[..i]), init[i]) {
      assert init[..i] == actions[..i] && init[i] == actions[i];
    }
  }

  lemma {:induction false} SpentCodesStaySpent(cfg: Config, actions: seq<Action>, n: nat, code: string)
    requires Possible(cfg, actions) && n <= |actions| && Spent(Run(cfg, actions[..n]), code)
    ensures Spent(Run(cfg, actions), code)
  {
    if n == |actions| {
      assert actions[..n] == actions;
    } else {
      var init, last := actions[..|actions| - 1], actions[|actions| - 1];
      PossiblePrefix(cfg, actions);
      assert init[..n] == actions[..n];
      SpentCodesStaySpent(cfg, init, n, code);
      SpentStaysSpent(cfg, Run(cfg, init), last, code);
    }
  }

  // Any well-formed attempt on a code, successful or not, is the last one that can read it.
  lemma AttemptedCodesStaySpent(cfg: Config, actions: seq<Action>, i: nat)
    requires Possible(cfg, actions) && i < |actions| && actions[i].BeginToken?
    requires TokenRequestWellFormed(actions[i].tokenRequest)
      && actions[i].tokenRequest.code in Run(cfg, actions[..i]).stored
    ensures Spent(Run(cfg, actions), actions[i].tokenRequest.code)
  {
    AttemptSpendsTheCode(cfg, Run(cfg, actions[..i]), actions[i]);
    assert actions[..i + 1][..i] == actions[..i];
    SpentCodesStaySpent(cfg, actions, i + 1, actions[i].tokenRequest.code);
  }

  // ---- What a grant does not check ----

  predicate CompleteAt(codes: Codes, code: string) {
    code in codes ==> codes[code].value.redirectUri != "" && codes[code].value.clientId != ""
  }

  lemma NextKeepsComplete(cfg: Config, s: System, a: Action, code: string)
    requires CompleteAt(s.codes, code) && CompleteAt(s.stored, code)
    ensures CompleteAt(Next(cfg, s, a).codes, code) && CompleteAt(Next(cfg, s, a).stored, code)
  {
  }

  lemma {:induction false} StoredCodesAreComplete(cfg: Config, actions: seq<Action>, code: string)
    ensures CompleteAt(Run(cfg, actions).codes, code) && CompleteAt(Run(cfg, actions).stored, code)
  {
    if actions != [] {
      StoredCodesAreComplete(cfg, actions[..|actions| - 1], code);
      NextKeepsComplete(cfg, Run(cfg, actions[..|actions| - 1]), actions[|actions| - 1], code);
    }
  }

  // Section 4.1.3 of RFC 6749: the code belongs to the requesting client, and the redirect URI, which every
  // authorize request had to carry, is repeated.
  predicate MeetsSection413(r: TokenRequest, data: CodeData) {
    r.clientId == data.clientId && r.redirectUri == data.redirectUri
  }

  // In every reachable state a request that is granted a token meets the section exactly if it names a
  // redirect URI and the client the code was issued to; leaving out the first, or naming any other
  // client, does not change the verdict.
  lemma GrantsMeetSection413Exactly(cfg: Config, actions: seq<Action>, r: TokenRequest, now: int)
    requires Live(Run(cfg, actions).codes, r.code, now).Some?
    requires Verdict(cfg, r, Live(Run(cfg, actions).codes, r.code, now)).None?
    ensures var data := Live(Run(cfg, actions).codes, r.code, now);
      && (MeetsSection413(r, data.value) <==> r.redirectUri != "" && r.clientId == data.value.clientId)
      && Verdict(cfg, r.(redirectUri := ""), data).None? && !MeetsSection413(r.(redirectUri := ""), data.value)
      && forall id :: Verdict(cfg, r.(clientId := id), data).None?
  {
    StoredCodesAreComplete(cfg, actions, r.code);
  }

  // A run in which a request without redirect URI, from another client, is granted a token: whatever the
  // digest, for every verifier that matches its own challenge.
  lemma GrantOutsideSection413(cfg: Config, verifier: string)
    requires ClientAllowed(cfg, "c1") && cfg.codeTtl > 0
    requires verifier != "" && IsAscii(verifier) && cfg.s256(verifier) != "" && IsAscii(cfg.s256(verifier))
    ensures exists actions: seq<Action>, r: TokenRequest, now: int ::
      var data := Live(Run(cfg, actions).codes, r.code, now);
      && Possible(cfg, actions) && TokenRequestWellFormed(r)
      && data.Some? && Verdict(cfg, r, data).None? && !MeetsSection413(r, data.value)
  {
    var issue := AuthorizeRequest("code", "c1", "https://app/cb", cfg.s256(verifier), "S256", "", Some("u1"), None);
    var actions, r := [Action.Authorize(issue, "k", 0)], TokenRequest("authorization_code", "k", verifier, "", "other");
    assert actions[..0] == [];
    assert Run(cfg, actions[..0]) == EMPTY && Run(cfg, actions) == Next(cfg, EMPTY, actions[0]);
    assert Authorized(cfg, issue).Some?;
    var data := Live(Run(cfg, actions).codes, r.code, 0);
    assert Possible(cfg, actions) && data.Some? && Verdict(cfg, r, data).None? && !MeetsSection413(r, data.value);
  }
}
