/** Keys of the ephemeral provider state and their rendering as store strings (internal/store/store.go). */
module Artifacts {
  import opened Text
  import Kv

  datatype Name = Session | Interaction | Code | PasswordChange | PasswordReset | Refresh | Revoked

  datatype Key = Art(name: Name, id: string) | Fail(who: string) | Lock(who: string)

  /** Parameters of an authorization request. */
  datatype Params = Params(
    clientId: string, redirectUri: string, scope: string, state: string, nonce: string, prompt: string,
    challenge: string, challengeMethod: string)

  /** The JSON payloads of the artifacts; a lock is the bare string "1". */
  datatype Doc =
    | LoginDoc(params: Params)
    | ConsentDoc(params: Params, audience: string, sub: string)
    | PersonDoc(sub: string, email: string)
    | CodeDoc(clientId: string, redirectUri: string, scope: string, sub: string, nonce: string, challenge: string)
    | RefreshDoc(clientId: string, sub: string, scope: string)
    | RevokedDoc
    | LockMark

  type Store = Kv.State<Key, Doc>

  function NameString(n: Name): (s: string)
    ensures ':' !in s
  {
    match n
    case Session => "Session"
    case Interaction => "Interaction"
    case Code => "AuthorizationCode"
    case PasswordChange => "PendingPasswordChange"
    case PasswordReset => "PendingPasswordReset"
    case Refresh => "RefreshToken"
    case Revoked => "RevokedToken"
  }

  function Render(k: Key): string
  {
    match k
    case Art(n, id) => "art:" + (NameString(n) + ":" + id)
    case Fail(who) => "login:fail:" + who
    case Lock(who) => "login:lock:" + who
  }

  lemma NamesDiffer(a: Name, b: Name)
    requires NameString(a) == NameString(b)
    ensures a == b
  {
    assert |NameString(Session)| == 7 && |NameString(Interaction)| == 11 && |NameString(Code)| == 17;
    assert |NameString(PasswordChange)| == 21 && |NameString(PasswordReset)| == 20;
    assert NameString(Refresh)[2] == 'f' && NameString(Revoked)[2] == 'v';
    assert |NameString(Refresh)| == 12 && |NameString(Revoked)| == 12;
  }

  /** Distinct keys render to distinct strings, so keys may stand for the strings they render to. */
  lemma RenderInjective(a: Key, b: Key)
    requires Render(a) == Render(b)
    ensures a == b
  {
    assert a.Art? == b.Art? by { assert Render(a)[0] == Render(b)[0]; }
    if a.Art? {
      var x, y := NameString(a.name) + ":" + a.id, NameString(b.name) + ":" + b.id;
      assert x == ("art:" + x)[4..] && y == ("art:" + y)[4..];
      HeadTailInjective(NameString(a.name), a.id, NameString(b.name), b.id, ':');
      NamesDiffer(a.name, b.name);
    } else {
      assert Render(a)[6] == Render(b)[6];
      assert ("login:fail:" + a.who)[11..] == a.who && ("login:lock:" + a.who)[11..] == a.who;
      assert ("login:fail:" + b.who)[11..] == b.who && ("login:lock:" + b.who)[11..] == b.who;
    }
  }

  // ---- artifacts ----

  function GetArtifact(s: Store, n: Name, id: string): Option<Doc>
  {
    match Kv.Get(s, Art(n, id))
    case Found(d) => Some(d)
    case _ => None
  }

  function PutArtifact(s: Store, n: Name, id: string, d: Doc, ttl: Kv.Time): Store
  {
    Kv.Set(s, Art(n, id), d, ttl)
  }

  function DeleteArtifact(s: Store, n: Name, id: string): Store { Kv.Del(s, {Art(n, id)}) }

  /** What is stored under an artifact key, whether or not it has expired. */
  function Stored(s: Store, n: Name, id: string): Option<Doc>
  {
    var k := Art(n, id);
    if k in s.entries && s.entries[k].value.Blob? then Some(s.entries[k].value.body) else None
  }

  // ---- login failure counters ----

  function RecordLoginFailure(s: Store, who: string, lockAfter: int, lockFor: Kv.Time): Store
  {
    var (s1, count) := Kv.IncrTtl(s, Fail(who), lockFor);
    if count.Found? && lockAfter > 0 && count.value >= lockAfter then Kv.Set(s1, Lock(who), LockMark, lockFor) else s1
  }

  function LoginLocked(s: Store, who: string): bool { Kv.Pttl(s, Lock(who)) > 0 }

  function ResetLoginFailures(s: Store, who: string): Store { Kv.Del(s, {Fail(who), Lock(who)}) }
}

/**
 The provider's handlers as steps of one machine (internal/idp/provider.go), with the explicit code and
 refresh engine. Backend replies, fresh random ids and the cookie's session id are parameters of a step.
 */
module Provider {
  import opened Text
  import opened Artifacts
  import Kv
  import Scopes

  datatype Client = Client(
    clientId: string, redirectUris: seq<string>, postLogoutUris: seq<string>, grantTypes: seq<string>,
    scopes: seq<string>)

  /**
   Settings, and the renderings and hashes the handlers use: the first-party test, the key a consent
   is filed under, the two lockout keys, the PKCE digest and the lower-hex digest.
   */
  datatype Config = Config(
    codeTTL: Kv.Time, refreshTTL: Kv.Time, resetTTL: Kv.Time, trusted: Client -> bool,
    consentId: (string, string) -> string, ipKey: (string, string) -> string, userKey: string -> string,
    sha: string -> string, hexSha: string -> string)

  datatype Consent = Consent(subject: string, clientId: string, scopes: seq<string>, audiences: seq<string>)

  /** What an authorization was for; kept as history per authorization code. */
  datatype Grant = Grant(clientId: string, sub: string, scope: string)

  /** Stored state, plus two histories: the grant behind each code, and the code behind each refresh token. */
  datatype World = World(
    kv: Store, clients: map<string, Client>, consents: map<string, Consent>,
    grants: map<string, Grant>, lineage: map<string, string>)

  /** The query of an authorization request; an absent parameter reads as the empty string. */
  datatype Query = Query(params: Params, responseType: string, audiences: seq<string>)

  const IP_LOCK_AFTER: int := 5
  const USER_LOCK_AFTER: int := 20
  const LOCK_FOR: Kv.Time := 15 * Kv.MINUTE

  datatype Why =
    | InvalidClient | InvalidRequest | UnsupportedResponseType | InvalidScope | InvalidGrant | UnauthorizedClient
    | Locked | BadCredentials | BackendFailure | NoInteraction | PasswordNotSet | AccessDenied

  datatype Reply =
    | Refused(why: Why)
    | AskLogin(uid: string)
    | AskConsent(uid: string)
    | Finished(client: Client, sub: string, q: Query, code: string)
    | SignedIn(sid: string, sub: string)
    | ChangeRequired
    | Tokens(client: Client, sub: string, scope: string, refresh: Option<string>)
    | Done

  // ---- authorization ----

  datatype Validation = Invalid(why: Why) | Valid(client: Client, q: Query)

  /** The checks of Authorize that precede any session; the scope parameter is replaced by its granted form. */
  function Validate(clients: map<string, Client>, q: Query): Validation
  {
    if q.params.clientId !in clients then Invalid(InvalidClient)
    else
      var client := clients[q.params.clientId];
      if q.params.redirectUri !in client.redirectUris then Invalid(InvalidRequest)
      else if q.responseType != "code" then Invalid(UnsupportedResponseType)
      else if q.params.challenge == "" || q.params.challengeMethod != "S256" then Invalid(InvalidRequest)
      else
        match Scopes.Allowed(client.scopes, q.params.scope, false)
        case Err(_) => Invalid(InvalidScope)
        case Ok(scope) => Valid(client, q.(params := q.params.(scope := scope)))
  }

  /** The query rebuilt from an interaction, by ConfirmConsent and by RedirectAfterLogin alike. */
  function QueryOf(d: Doc): Query
    requires d.LoginDoc? || d.ConsentDoc?
  {
    Query(d.params, "code", if d.ConsentDoc? && d.audience != "" then [d.audience] else [])
  }

  function FirstAudience(q: Query): string { if q.audiences == [] then "" else q.audiences[0] }

  predicate CanAutoGrant(cfg: Config, w: World, client: Client, sub: string, q: Query)
  {
    || cfg.trusted(client)
    || (&& q.params.prompt != "consent"
        && cfg.consentId(sub, client.clientId) in w.consents
        && Scopes.Subset(Scopes.Parse(q.params.scope), w.consents[cfg.consentId(sub, client.clientId)].scopes)
        && client.clientId in w.consents[cfg.consentId(sub, client.clientId)].audiences)
  }

  /** finishAuthorization of the explicit engine: store a code that carries the grant. */
  function Finish(cfg: Config, w: World, client: Client, sub: string, q: Query, code: string): (World, Reply)
  {
    var d := CodeDoc(client.clientId, q.params.redirectUri, q.params.scope, sub, q.params.nonce, q.params.challenge);
    (w.(kv := PutArtifact(w.kv, Code, code, d, cfg.codeTTL),
        grants := w.grants[code := Grant(client.clientId, sub, q.params.scope)]),
     Finished(client, sub, q, code))
  }

  /** The subject of the live session the cookie names, if any. */
  function SessionSub(w: World, sid: Option<string>): Option<string>
  {
    if sid.None? then None
    else
      var d := GetArtifact(w.kv, Session, sid.value);
      if d.Some? && d.value.PersonDoc? then Some(d.value.sub) else None
  }

  /** Answer a validated request: ask for login, finish at once, or ask for consent. */
  function Answer(cfg: Config, w: World, client: Client, q: Query, sub: Option<string>, auto: bool,
      rnd: string): (World, Reply)
  {
    if sub.None? then
      (w.(kv := PutArtifact(w.kv, Interaction, rnd, LoginDoc(q.params), 10 * Kv.MINUTE)), AskLogin(rnd))
    else if auto then Finish(cfg, w, client, sub.value, q, rnd)
    else
      var d := ConsentDoc(q.params.(clientId := client.clientId), Join(q.audiences, ' '), sub.value);
      (w.(kv := PutArtifact(w.kv, Interaction, rnd, d, 10 * Kv.MINUTE)), AskConsent(rnd))
  }

  function Authorize(cfg: Config, w: World, q: Query, sid: Option<string>, rnd: string): (World, Reply)
  {
    match Validate(w.clients, q)
    case Invalid(why) => (w, Refused(why))
    case Valid(client, q1) =>
      var sub := SessionSub(w, sid);
      Answer(cfg, w, client, q1, sub, sub.Some? && CanAutoGrant(cfg, w, client, sub.value, q1), rnd)
  }

  /** The consent a subject gives to a client by confirming a request. */
  function ConsentFor(client: Client, sub: string, q: Query): Consent
  {
    var audiences := Scopes.UniqueStrings(Scopes.Parse(FirstAudience(q)) + [client.clientId]);
    Consent(sub, client.clientId, Scopes.Parse(q.params.scope), audiences)
  }

  function FileConsent(cfg: Config, w: World, c: Consent): World
  {
    w.(consents := w.consents[cfg.consentId(c.subject, c.clientId) := c])
  }

  function ConfirmConsent(cfg: Config, w: World, uid: string, allow: string, sid: Option<string>,
      rnd: string): (World, Reply)
  {
    var sub, d := SessionSub(w, sid), GetArtifact(w.kv, Interaction, uid);
    if allow != "yes" then (w, Refused(if d.None? then NoInteraction else AccessDenied))
    else if sub.None? then (w, AskLogin(uid))
    else if d.None? || !(d.value.LoginDoc? || d.value.ConsentDoc?) then (w, Refused(NoInteraction))
    else if d.value.params.clientId !in w.clients then (w, Refused(InvalidClient))
    else
      var client, q := w.clients[d.value.params.clientId], QueryOf(d.value);
      Finish(cfg, FileConsent(cfg, w, ConsentFor(client, sub.value, q)), client, sub.value, q, rnd)
  }

  // ---- sign-in ----

  datatype Account = Account(id: string, email: string, activated: bool, suspended: bool, disabled: bool)

  predicate Usable(a: Account) { a.activated && !a.suspended && !a.disabled }

  /** The backend's reply to a password check, and the account fetched for the returned id. */
  datatype AuthReply = AuthReply(success: bool, id: string, requireChange: bool, account: Option<Account>)

  function RecordBoth(cfg: Config, kv: Store, uname: string, ip: string): Store
  {
    var kv1 := RecordLoginFailure(kv, cfg.ipKey(uname, ip), IP_LOCK_AFTER, LOCK_FOR);
    RecordLoginFailure(kv1, cfg.userKey(uname), USER_LOCK_AFTER, LOCK_FOR)
  }

  function StartSession(w: World, sub: string, email: string, sid: string): (World, Reply)
  {
    (w.(kv := PutArtifact(w.kv, Session, sid, PersonDoc(sub, email), 24 * Kv.HOUR)), SignedIn(sid, sub))
  }

  datatype Verdict = Reject(why: Why) | Failure | Accept(account: Account)

  /** How FinishLogin judges an attempt: refused outright, a failure to record, or accepted. */
  function Judge(cfg: Config, w: World, uid: string, uname: string, ip: string, auth: AuthReply): Verdict
  {
    if GetArtifact(w.kv, Interaction, uid).None? then Reject(NoInteraction)
    else if LoginLocked(w.kv, cfg.ipKey(uname, ip)) || LoginLocked(w.kv, cfg.userKey(uname)) then Reject(Locked)
    else if !auth.success || auth.id == "" then Failure
    else if auth.account.None? then Reject(BackendFailure)
    else if !Usable(auth.account.value) then Failure
    else Accept(auth.account.value)
  }

  function ResetBoth(cfg: Config, kv: Store, uname: string, ip: string): Store
  {
    ResetLoginFailures(ResetLoginFailures(kv, cfg.ipKey(uname, ip)), cfg.userKey(uname))
  }

  /** Carry out a verdict on a login under the folded user name. */
  function Conclude(cfg: Config, w: World, uid: string, uname: string, ip: string, v: Verdict, requireChange: bool,
      rnd: string): (World, Reply)
  {
    match v
    case Reject(why) => (w, Refused(why))
    case Failure => (w.(kv := RecordBoth(cfg, w.kv, uname, ip)), Refused(BadCredentials))
    case Accept(account) =>
      var w1 := w.(kv := ResetBoth(cfg, w.kv, uname, ip));
      if requireChange then
        var d := PersonDoc(account.id, account.email);
        (w1.(kv := PutArtifact(w1.kv, PasswordChange, uid, d, 10 * Kv.MINUTE)), ChangeRequired)
      else StartSession(w1, account.id, account.email, rnd)
  }

  function FinishLogin(cfg: Config, w: World, uid: string, username: string, ip: string, auth: AuthReply,
      rnd: string): (World, Reply)
  {
    var uname := ToLower(username);
    Conclude(cfg, w, uid, uname, ip, Judge(cfg, w, uid, uname, ip, auth), auth.requireChange, rnd)
  }

  /** Take a pending artifact, once the backend has accepted the new password, and sign its subject in. */
  function Redeem(w: World, name: Name, id: string, passwordSet: bool, rnd: string): (World, Reply)
  {
    var d := GetArtifact(w.kv, name, id);
    if d.None? || !d.value.PersonDoc? || d.value.sub == "" || !passwordSet then (w, Refused(PasswordNotSet))
    else StartSession(w.(kv := DeleteArtifact(w.kv, name, id)), d.value.sub, d.value.email, rnd)
  }

  datatype Destination = Destination(address: string, hash: string)

  predicate DestinationMatches(cfg: Config, dests: seq<Destination>, email: string)
  {
    exists i :: 0 <= i < |dests| && (
      (dests[i].address != "" && EqualFold(dests[i].address, email)) ||
      (dests[i].hash != "" && EqualFold(dests[i].hash, cfg.hexSha(email))))
  }

  function Clean(s: string): string { TrimSpace(ToLower(s)) }

  function BeginReset(cfg: Config, w: World, login: string, recovery: string, found: Option<Account>,
                      dests: seq<Destination>, rnd: string): (World, Reply)
  {
    var email := Clean(recovery);
    if Clean(login) == "" || email == "" || found.None? || !Usable(found.value)
        || !DestinationMatches(cfg, dests, email)
    then (w, Done)
    else (w.(kv := PutArtifact(w.kv, PasswordReset, rnd, PersonDoc(found.value.id, email), cfg.resetTTL)), Done)
  }

  function Logout(w: World, sid: Option<string>): (World, Reply)
  {
    (if sid.Some? then w.(kv := DeleteArtifact(w.kv, Session, sid.value)) else w, Done)
  }

  // ---- the explicit token engine ----

  /** issueTokenResponse: a refresh token only for a subject, a client that may refresh, and the offline scope. */
  function IssueTokens(cfg: Config, w: World, client: Client, sub: string, scope: string, root: string,
      rnd: string): (World, Reply)
  {
    if sub != "" && "refresh_token" in client.grantTypes && Scopes.HasScope(scope, "offline_access") then
      (w.(kv := PutArtifact(w.kv, Refresh, rnd, RefreshDoc(client.clientId, sub, scope), cfg.refreshTTL),
          lineage := w.lineage[rnd := root]),
       Tokens(client, sub, scope, Some(rnd)))
    else (w, Tokens(client, sub, scope, None))
  }

  /** Erase a spent baton and issue tokens for the scope that is granted. */
  function Spend(cfg: Config, w: World, client: Client, name: Name, id: string, sub: string, granted: string,
      root: string, rnd: string): (World, Reply)
  {
    IssueTokens(cfg, w.(kv := DeleteArtifact(w.kv, name, id)), client, sub, granted, root, rnd)
  }

  function TokenFromCode(cfg: Config, w: World, clientId: string, code: string, redirectUri: string, verifier: string,
                         rnd: string): (World, Reply)
  {
    if clientId !in w.clients then (w, Refused(InvalidClient))
    else
      var client, d := w.clients[clientId], GetArtifact(w.kv, Code, code);
      if "authorization_code" !in client.grantTypes then (w, Refused(UnauthorizedClient))
      else if d.None? || !d.value.CodeDoc? then (w, Refused(InvalidGrant))
      else if d.value.clientId != client.clientId || d.value.redirectUri != redirectUri then (w, Refused(InvalidGrant))
      else if d.value.challenge != "" && d.value.challenge != cfg.sha(verifier) then (w, Refused(InvalidGrant))
      else
        match Scopes.Allowed(client.scopes, d.value.scope, false)
        case Err(_) => (w.(kv := DeleteArtifact(w.kv, Code, code)), Refused(InvalidScope))
        case Ok(granted) => Spend(cfg, w, client, Code, code, d.value.sub, granted, code, rnd)
  }

  function TokenFromRefresh(cfg: Config, w: World, clientId: string, token: string, rnd: string): (World, Reply)
  {
    if clientId !in w.clients then (w, Refused(InvalidClient))
    else
      var client, d := w.clients[clientId], GetArtifact(w.kv, Refresh, token);
      if "refresh_token" !in client.grantTypes then (w, Refused(UnauthorizedClient))
      else if d.None? || !d.value.RefreshDoc? || d.value.clientId != client.clientId then (w, Refused(InvalidGrant))
      else
        match Scopes.Allowed(client.scopes, d.value.scope, false)
        case Err(_) => (w, Refused(InvalidScope))
        case Ok(granted) =>
          var root := if token in w.lineage then w.lineage[token] else "";
          Spend(cfg, w, client, Refresh, token, d.value.sub, granted, root, rnd)
  }

  /** Revocation of a refresh token by the client it was issued to. */
  function RevokeRefresh(w: World, clientId: string, token: string): (World, Reply)
  {
    var d := GetArtifact(w.kv, Refresh, token);
    if d.Some? && d.value.RefreshDoc? && d.value.clientId == clientId
    then (w.(kv := DeleteArtifact(w.kv, Refresh, token)), Done) else (w, Done)
  }

  // ---- one step ----

  datatype Op =
    | Tick(d: nat)
    | SetClient(client: Client)
    | RemoveClient(clientId: string)
    | AuthorizeOp(q: Query, sid: Option<string>, rnd: string)
    | LoginOp(uid: string, username: string, ip: string, auth: AuthReply, rnd: string)
    | ChangeOp(uid: string, passwordSet: bool, rnd: string)
    | BeginResetOp(login: string, recovery: string, found: Option<Account>, dests: seq<Destination>, rnd: string)
    | ResetOp(token: string, passwordSet: bool, rnd: string)
    | ConfirmOp(uid: string, allow: string, sid: Option<string>, rnd: string)
    | LogoutOp(sid: Option<string>)
    | CodeOp(clientId: string, code: string, redirectUri: string, verifier: string, rnd: string)
    | RefreshOp(clientId: string, token: string, rnd: string)
    | RevokeOp(clientId: string, token: string)

  function Step(cfg: Config, w: World, op: Op): (World, Reply)
  {
    match op
    case Tick(d) => (w.(kv := Kv.Tick(w.kv, d)), Done)
    case SetClient(c) => (w.(clients := w.clients[c.clientId := c]), Done)
    case RemoveClient(id) => (w.(clients := w.clients - {id}), Done)
    case AuthorizeOp(q, sid, rnd) => Authorize(cfg, w, q, sid, rnd)
    case LoginOp(uid, username, ip, auth, rnd) => FinishLogin(cfg, w, uid, username, ip, auth, rnd)
    case ChangeOp(uid, ok, rnd) => Redeem(w, PasswordChange, uid, ok, rnd)
    case BeginResetOp(login, recovery, found, dests, rnd) => BeginReset(cfg, w, login, recovery, found, dests, rnd)
    case ResetOp(token, ok, rnd) => Redeem(w, PasswordReset, token, ok, rnd)
    case ConfirmOp(uid, allow, sid, rnd) => ConfirmConsent(cfg, w, uid, allow, sid, rnd)
    case LogoutOp(sid) => Logout(w, sid)
    case CodeOp(clientId, code, uri, verifier, rnd) => TokenFromCode(cfg, w, clientId, code, uri, verifier, rnd)
    case RefreshOp(clientId, token, rnd) => TokenFromRefresh(cfg, w, clientId, token, rnd)
    case RevokeOp(clientId, token) => RevokeRefresh(w, clientId, token)
  }
}
