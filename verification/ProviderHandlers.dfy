/** The handlers as methods that change the stored state step by step, each proved against its step function. */
module ProviderHandlers {
  import opened Text
  import opened Artifacts
  import opened Provider
  import AuthorizationSafety
  import LockoutRuns
  import Hosts
  import Kv
  import KvClient
  import Scopes

  /** What the deployment supplies: lifetimes, trusted domains, the URL parser and the digests. */
  datatype Settings = Settings(
    codeTTL: Kv.Time, refreshTTL: Kv.Time, resetTTL: Kv.Time, domains: seq<string>, hostOf: string -> Option<string>,
    digest: string -> string, sha: string -> string, hexSha: string -> string)

  /** The configuration the handlers run with. */
  function Wire(s: Settings): Config
  {
    Config(s.codeTTL, s.refreshTTL, s.resetTTL,
           (c: Client) => Hosts.TrustedClient(c.redirectUris, c.postLogoutUris, s.hostOf, s.domains),
           (sub, clientId) => AuthorizationSafety.ConsentGrantId(s.digest, sub, clientId),
           (uname, ip) => LockoutRuns.IpKey(uname, ip), uname => LockoutRuns.UserKey(uname), s.sha, s.hexSha)
  }

  /** That configuration meets what the theorems over runs ask of theirs. */
  lemma WiringIsLawful(s: Settings)
    requires forall x, y :: s.digest(x) == s.digest(y) ==> x == y
    ensures AuthorizationSafety.FilesApart(Wire(s)) && LockoutRuns.UsesRealKeys(Wire(s))
  {
    var cfg := Wire(s);
    forall s1, c1, s2, c2 | NulFree(s1) && NulFree(s2) && cfg.consentId(s1, c1) == cfg.consentId(s2, c2)
        ensures s1 == s2 && c1 == c2 {
      AuthorizationSafety.ConsentGrantIdFilesApart(s.digest, s1, c1, s2, c2);
    }
  }

  /** The first-party test looks at the redirect and the post-logout URIs of the client alike. */
  lemma WiredTrustIff(s: Settings, c: Client)
    ensures Wire(s).trusted(c) <==>
      || (exists i :: 0 <= i < |c.redirectUris| && TrustedUri(s, c.redirectUris[i]))
      || (exists i :: 0 <= i < |c.postLogoutUris| && TrustedUri(s, c.postLogoutUris[i]))
  {
    Hosts.TrustedClientIff(c.redirectUris, c.postLogoutUris, s.hostOf, s.domains);
    forall i | 0 <= i < |c.redirectUris| && TrustedUri(s, c.redirectUris[i]) ensures Wire(s).trusted(c) {
      assert s.hostOf(c.redirectUris[i]).Some?;
    }
    forall i | 0 <= i < |c.postLogoutUris| && TrustedUri(s, c.postLogoutUris[i]) ensures Wire(s).trusted(c) {
      assert s.hostOf(c.postLogoutUris[i]).Some?;
    }
    if Wire(s).trusted(c) {
      if i :| 0 <= i < |c.redirectUris| && s.hostOf(c.redirectUris[i]).Some?
              && Hosts.TrustedLabels(s.hostOf(c.redirectUris[i]).value, s.domains) {
        assert TrustedUri(s, c.redirectUris[i]);
      } else {
        var i :| 0 <= i < |c.postLogoutUris| && s.hostOf(c.postLogoutUris[i]).Some?
          && Hosts.TrustedLabels(s.hostOf(c.postLogoutUris[i]).value, s.domains);
        assert TrustedUri(s, c.postLogoutUris[i]);
      }
    }
  }

  /** The URI's host is, or is below, some configured domain, label by label. */
  predicate TrustedUri(s: Settings, uri: string)
  {
    s.hostOf(uri).Some? && Hosts.TrustedLabels(s.hostOf(uri).value, s.domains)
  }

  class Server {
    const settings: Settings
    const kv: KvClient.Client<Key, Doc>
    var clients: map<string, Client>
    var consents: map<string, Consent>
    ghost var grants: map<string, Grant>
    ghost var lineage: map<string, string>

    constructor (settings: Settings, kv: KvClient.Client<Key, Doc>, clients: map<string, Client>)
      ensures this.settings == settings && this.kv == kv
      ensures Snapshot() == World(kv.Snapshot(), clients, map[], map[], map[])
    {
      this.settings, this.kv := settings, kv;
      this.clients, this.consents := clients, map[];
      this.grants, this.lineage := map[], map[];
    }

    ghost function Snapshot(): World
      reads this, kv
    {
      World(kv.Snapshot(), clients, consents, grants, lineage)
    }

    ghost function Cfg(): Config { Wire(settings) }

    // ---- artifacts and counters ----

    method ReadArtifact(name: Name, id: string) returns (d: Option<Doc>)
      ensures d == GetArtifact(kv.Snapshot(), name, id)
    {
      var r := kv.Get(Art(name, id));
      d := if r.Found? then Some(r.value) else None;
    }

    method WriteArtifact(name: Name, id: string, d: Doc, ttl: Kv.Time)
      modifies kv
      ensures kv.Snapshot() == PutArtifact(old(kv.Snapshot()), name, id, d, ttl)
    {
      kv.Set(Art(name, id), d, ttl);
    }

    method EraseArtifact(name: Name, id: string)
      modifies kv
      ensures kv.Snapshot() == DeleteArtifact(old(kv.Snapshot()), name, id)
    {
      kv.Del({Art(name, id)});
    }

    method RecordFailure(who: string, lockAfter: int, lockFor: Kv.Time)
      modifies kv
      ensures kv.Snapshot() == RecordLoginFailure(old(kv.Snapshot()), who, lockAfter, lockFor)
    {
      var count := kv.IncrTtl(Fail(who), lockFor);
      if !count.Found? { return; }
      if lockAfter > 0 && count.value >= lockAfter { kv.Set(Lock(who), LockMark, lockFor); }
    }

    method IsLocked(who: string) returns (locked: bool, until: Option<Kv.Time>)
      ensures locked == LoginLocked(kv.Snapshot(), who)
      ensures until == if locked then kv.entries[Lock(who)].expiry else None
    {
      var d := kv.Pttl(Lock(who));
      if d <= 0 { return false, None; }
      return true, Some(kv.now + d);
    }

    method ResetFailures(who: string)
      modifies kv
      ensures kv.Snapshot() == ResetLoginFailures(old(kv.Snapshot()), who)
    {
      kv.Del({Fail(who), Lock(who)});
    }

    // ---- authorization ----

    method SessionSubject(sid: Option<string>) returns (sub: Option<string>)
      ensures sub == SessionSub(Snapshot(), sid)
    {
      if sid.None? { return None; }
      var d := ReadArtifact(Session, sid.value);
      sub := if d.Some? && d.value.PersonDoc? then Some(d.value.sub) else None;
    }

    method CanAutoGrantAuthorization(client: Client, sub: string, q: Query) returns (ok: bool)
      ensures ok == CanAutoGrant(Cfg(), Snapshot(), client, sub, q)
    {
      var trusted := Hosts.TrustedFirstParty(client.redirectUris, client.postLogoutUris, settings.hostOf,
          settings.domains);
      if trusted { return true; }
      if q.params.prompt == "consent" { return false; }
      var id := AuthorizationSafety.ConsentGrantId(settings.digest, sub, client.clientId);
      if id !in consents { return false; }
      var requested := Scopes.ParseScopes(q.params.scope);
      var covered := Scopes.ScopeSubset(requested, consents[id].scopes);
      ok := covered && client.clientId in consents[id].audiences;
    }

    method FinishAuthorization(client: Client, sub: string, q: Query, code: string) returns (r: Reply)
      modifies this`grants, kv
      ensures (Snapshot(), r) == Finish(Cfg(), old(Snapshot()), client, sub, q, code)
    {
      var d := CodeDoc(client.clientId, q.params.redirectUri, q.params.scope, sub, q.params.nonce, q.params.challenge);
      WriteArtifact(Code, code, d, settings.codeTTL);
      grants := grants[code := Grant(client.clientId, sub, q.params.scope)];
      r := Finished(client, sub, q, code);
    }

    method CheckRequest(q: Query) returns (v: Validation)
      ensures v == Validate(clients, q)
    {
      if q.params.clientId !in clients { return Invalid(InvalidClient); }
      var client := clients[q.params.clientId];
      if q.params.redirectUri !in client.redirectUris { return Invalid(InvalidRequest); }
      if q.responseType != "code" { return Invalid(UnsupportedResponseType); }
      if q.params.challenge == "" || q.params.challengeMethod != "S256" { return Invalid(InvalidRequest); }
      var scope := Scopes.Allowed(client.scopes, q.params.scope, false);
      if scope.Err? { return Invalid(InvalidScope); }
      v := Valid(client, q.(params := q.params.(scope := scope.value)));
    }

    method HandleAuthorize(q: Query, sid: Option<string>, rnd: string) returns (r: Reply)
      modifies this`grants, kv
      ensures (Snapshot(), r) == Authorize(Cfg(), old(Snapshot()), q, sid, rnd)
    {
      var v := CheckRequest(q);
      if v.Invalid? { return Refused(v.why); }
      var sub := SessionSubject(sid);
      if sub.Some? {
        var auto := CanAutoGrantAuthorization(v.client, sub.value, v.q);
        if !auto {
          var d := ConsentDoc(v.q.params.(clientId := v.client.clientId), Join(v.q.audiences, ' '), sub.value);
          WriteArtifact(Interaction, rnd, d, 10 * Kv.MINUTE);
          return AskConsent(rnd);
        }
        r := FinishAuthorization(v.client, sub.value, v.q, rnd);
        return;
      }
      WriteArtifact(Interaction, rnd, LoginDoc(v.q.params), 10 * Kv.MINUTE);
      r := AskLogin(rnd);
    }

    method HandleConfirmConsent(uid: string, allow: string, sid: Option<string>, rnd: string) returns (r: Reply)
      modifies this`grants, this`consents, kv
      ensures (Snapshot(), r) == ConfirmConsent(Cfg(), old(Snapshot()), uid, allow, sid, rnd)
    {
      var d := ReadArtifact(Interaction, uid);
      if allow != "yes" { return Refused(if d.None? then NoInteraction else AccessDenied); }
      var sub := SessionSubject(sid);
      if sub.None? { return AskLogin(uid); }
      if d.None? || !(d.value.LoginDoc? || d.value.ConsentDoc?) { return Refused(NoInteraction); }
      if d.value.params.clientId !in clients { return Refused(InvalidClient); }
      var client, q := clients[d.value.params.clientId], QueryOf(d.value);
      StoreConsent(client, sub.value, q);
      r := FinishAuthorization(client, sub.value, q, rnd);
    }

    method StoreConsent(client: Client, sub: string, q: Query)
      modifies this`consents
      ensures Snapshot() == FileConsent(Cfg(), old(Snapshot()), ConsentFor(client, sub, q))
    {
      var scopes := Scopes.ParseScopes(q.params.scope);
      var audiences := Scopes.ParseScopes(FirstAudience(q));
      audiences := Scopes.Unique(audiences + [client.clientId]);
      var id := AuthorizationSafety.ConsentGrantId(settings.digest, sub, client.clientId);
      consents := consents[id := Consent(sub, client.clientId, scopes, audiences)];
    }

    // ---- sign-in ----

    method BeginSession(sub: string, email: string, sid: string) returns (r: Reply)
      modifies kv
      ensures (Snapshot(), r) == StartSession(old(Snapshot()), sub, email, sid)
    {
      WriteArtifact(Session, sid, PersonDoc(sub, email), 24 * Kv.HOUR);
      r := SignedIn(sid, sub);
    }

    method RecordLoginFailures(uname: string, ip: string)
      modifies kv
      ensures kv.Snapshot() == RecordBoth(Cfg(), old(kv.Snapshot()), uname, ip)
    {
      RecordFailure(LockoutRuns.IpKey(uname, ip), IP_LOCK_AFTER, LOCK_FOR);
      RecordFailure(LockoutRuns.UserKey(uname), USER_LOCK_AFTER, LOCK_FOR);
    }

    method HandleLogin(uid: string, username: string, ip: string, auth: AuthReply, rnd: string) returns (r: Reply)
      modifies kv
      ensures (Snapshot(), r) == FinishLogin(Cfg(), old(Snapshot()), uid, username, ip, auth, rnd)
    {
      var interaction := ReadArtifact(Interaction, uid);
      if interaction.None? { return Refused(NoInteraction); }
      var uname := ToLower(username);
      var ipKey, userKey := LockoutRuns.IpKey(uname, ip), LockoutRuns.UserKey(uname);
      var ipLocked, _ := IsLocked(ipKey);
      if ipLocked { return Refused(Locked); }
      var userLocked, _ := IsLocked(userKey);
      if userLocked { return Refused(Locked); }
      if !auth.success || auth.id == "" {
        RecordLoginFailures(uname, ip);
        return Refused(BadCredentials);
      }
      if auth.account.None? { return Refused(BackendFailure); }
      var account := auth.account.value;
      if !account.activated || account.suspended || account.disabled {
        RecordLoginFailures(uname, ip);
        return Refused(BadCredentials);
      }
      ResetFailures(ipKey);
      ResetFailures(userKey);
      if auth.requireChange {
        WriteArtifact(PasswordChange, uid, PersonDoc(account.id, account.email), 10 * Kv.MINUTE);
        return ChangeRequired;
      }
      r := BeginSession(account.id, account.email, rnd);
    }

    /** CompletePasswordChange and CompletePasswordReset, which differ in the artifact they redeem. */
    method CompletePassword(name: Name, id: string, passwordSet: bool, rnd: string) returns (r: Reply)
      modifies kv
      ensures (Snapshot(), r) == Redeem(old(Snapshot()), name, id, passwordSet, rnd)
    {
      var d := ReadArtifact(name, id);
      if d.None? || !d.value.PersonDoc? || d.value.sub == "" { return Refused(PasswordNotSet); }
      if !passwordSet { return Refused(PasswordNotSet); }
      EraseArtifact(name, id);
      r := BeginSession(d.value.sub, d.value.email, rnd);
    }

    method MatchDestination(dests: seq<Destination>, email: string) returns (ok: bool)
      ensures ok == DestinationMatches(Cfg(), dests, email)
    {
      var h := settings.hexSha(email);
      for i := 0 to |dests|
        invariant forall j :: 0 <= j < i ==>
          !(dests[j].address != "" && EqualFold(dests[j].address, email))
              && !(dests[j].hash != "" && EqualFold(dests[j].hash, h))
      {
        if dests[i].address != "" && EqualFold(dests[i].address, email) { return true; }
        if dests[i].hash != "" && EqualFold(dests[i].hash, h) { return true; }
      }
      ok := false;
    }

    method BeginPasswordReset(login: string, recovery: string, found: Option<Account>, dests: seq<Destination>,
        rnd: string) returns (r: Reply)
      modifies kv
      ensures (Snapshot(), r) == BeginReset(Cfg(), old(Snapshot()), login, recovery, found, dests, rnd)
    {
      var name, email := Clean(login), Clean(recovery);
      if name == "" || email == "" { return Done; }
      if found.None? || !Usable(found.value) { return Done; }
      var matches := MatchDestination(dests, email);
      if matches {
        WriteArtifact(PasswordReset, rnd, PersonDoc(found.value.id, email), settings.resetTTL);
      }
      r := Done;
    }

    method HandleLogout(sid: Option<string>) returns (r: Reply)
      modifies kv
      ensures (Snapshot(), r) == Logout(old(Snapshot()), sid)
    {
      if sid.Some? { EraseArtifact(Session, sid.value); }
      r := Done;
    }

    // ---- tokens ----

    method IssueTokenResponse(client: Client, sub: string, scope: string, ghost root: string, rnd: string)
        returns (r: Reply)
      modifies this`lineage, kv
      ensures (Snapshot(), r) == IssueTokens(Cfg(), old(Snapshot()), client, sub, scope, root, rnd)
    {
      var scopes := Scopes.ParseScopes(scope);
      if sub != "" && "refresh_token" in client.grantTypes && "offline_access" in scopes {
        WriteArtifact(Refresh, rnd, RefreshDoc(client.clientId, sub, scope), settings.refreshTTL);
        lineage := lineage[rnd := root];
        return Tokens(client, sub, scope, Some(rnd));
      }
      r := Tokens(client, sub, scope, None);
    }

    method TokenAuthorizationCode(clientId: string, code: string, redirectUri: string, verifier: string, rnd: string)
        returns (r: Reply)
      modifies this`lineage, kv
      ensures (Snapshot(), r) == TokenFromCode(Cfg(), old(Snapshot()), clientId, code, redirectUri, verifier, rnd)
    {
      if clientId !in clients { return Refused(InvalidClient); }
      var client := clients[clientId];
      if "authorization_code" !in client.grantTypes { return Refused(UnauthorizedClient); }
      var d := ReadArtifact(Code, code);
      if d.None? || !d.value.CodeDoc? { return Refused(InvalidGrant); }
      if d.value.clientId != client.clientId || d.value.redirectUri != redirectUri { return Refused(InvalidGrant); }
      if d.value.challenge != "" && d.value.challenge != settings.sha(verifier) { return Refused(InvalidGrant); }
      EraseArtifact(Code, code);
      var scope := Scopes.Allowed(client.scopes, d.value.scope, false);
      if scope.Err? { return Refused(InvalidScope); }
      r := IssueTokenResponse(client, d.value.sub, scope.value, code, rnd);
    }

    method TokenRefresh(clientId: string, token: string, rnd: string) returns (r: Reply)
      modifies this`lineage, kv
      ensures (Snapshot(), r) == TokenFromRefresh(Cfg(), old(Snapshot()), clientId, token, rnd)
    {
      if clientId !in clients { return Refused(InvalidClient); }
      var client := clients[clientId];
      if "refresh_token" !in client.grantTypes { return Refused(UnauthorizedClient); }
      var d := ReadArtifact(Refresh, token);
      if d.None? || !d.value.RefreshDoc? || d.value.clientId != client.clientId { return Refused(InvalidGrant); }
      var scope := Scopes.Allowed(client.scopes, d.value.scope, false);
      if scope.Err? { return Refused(InvalidScope); }
      EraseArtifact(Refresh, token);
      r := IssueTokenResponse(client, d.value.sub, scope.value, if token in lineage then lineage[token] else "", rnd);
    }

    method RevokeRefreshToken(clientId: string, token: string) returns (r: Reply)
      modifies kv
      ensures (Snapshot(), r) == RevokeRefresh(old(Snapshot()), clientId, token)
    {
      var d := ReadArtifact(Refresh, token);
      if d.Some? && d.value.RefreshDoc? && d.value.clientId == clientId { EraseArtifact(Refresh, token); }
      r := Done;
    }

    // ---- one step ----

    method PerformAuthorization(op: Op) returns (r: Reply)
      requires op.AuthorizeOp? || op.ConfirmOp? || op.LogoutOp?
      modifies this`grants, this`consents, kv
      ensures (Snapshot(), r) == Step(Cfg(), old(Snapshot()), op)
    {
      match op
      case AuthorizeOp(q, sid, rnd) => r := HandleAuthorize(q, sid, rnd);
      case ConfirmOp(uid, allow, sid, rnd) => r := HandleConfirmConsent(uid, allow, sid, rnd);
      case LogoutOp(sid) => r := HandleLogout(sid);
    }

    method PerformSignIn(op: Op) returns (r: Reply)
      requires op.LoginOp? || op.ChangeOp? || op.BeginResetOp? || op.ResetOp?
      modifies kv
      ensures (Snapshot(), r) == Step(Cfg(), old(Snapshot()), op)
    {
      match op
      case LoginOp(uid, username, ip, auth, rnd) => r := HandleLogin(uid, username, ip, auth, rnd);
      case ChangeOp(uid, ok, rnd) => r := CompletePassword(PasswordChange, uid, ok, rnd);
      case BeginResetOp(login, recovery, found, dests, rnd) =>
          r := BeginPasswordReset(login, recovery, found, dests, rnd);
      case ResetOp(token, ok, rnd) => r := CompletePassword(PasswordReset, token, ok, rnd);
    }

    method PerformToken(op: Op) returns (r: Reply)
      requires op.CodeOp? || op.RefreshOp? || op.RevokeOp?
      modifies this`lineage, kv
      ensures (Snapshot(), r) == Step(Cfg(), old(Snapshot()), op)
    {
      match op
      case CodeOp(clientId, code, uri, verifier, rnd) =>
          r := TokenAuthorizationCode(clientId, code, uri, verifier, rnd);
      case RefreshOp(clientId, token, rnd) => r := TokenRefresh(clientId, token, rnd);
      case RevokeOp(clientId, token) => r := RevokeRefreshToken(clientId, token);
    }

    method PerformAdministration(op: Op) returns (r: Reply)
      requires op.Tick? || op.SetClient? || op.RemoveClient?
      modifies this`clients, kv
      ensures (Snapshot(), r) == Step(Cfg(), old(Snapshot()), op)
    {
      match op
      case Tick(d) => kv.Tick(d); r := Done;
      case SetClient(c) => clients := clients[c.clientId := c]; r := Done;
      case RemoveClient(id) => clients := clients - {id}; r := Done;
    }

    /** Every step of the machine is carried out by a handler. */
    method Perform(op: Op) returns (r: Reply)
      modifies this, kv
      ensures Performed(Cfg(), old(Snapshot()), op, Snapshot(), r)
    {
      if op.AuthorizeOp? || op.ConfirmOp? || op.LogoutOp? {
        r := PerformAuthorization(op);
      } else if op.LoginOp? || op.ChangeOp? || op.BeginResetOp? || op.ResetOp? {
        r := PerformSignIn(op);
      } else if op.CodeOp? || op.RefreshOp? || op.RevokeOp? {
        r := PerformToken(op);
      } else {
        r := PerformAdministration(op);
      }
    }
  }

  ghost predicate Performed(cfg: Config, w: World, op: Op, w': World, r: Reply) { (w', r) == Step(cfg, w, op) }
}

/** Runs of the server are runs of the machine, so what holds of every run holds of the server. */
module ProviderServer {
  import opened Text
  import opened Artifacts
  import opened Provider
  import opened Effects
  import opened Runs
  import opened AuthorizationSafety
  import opened LockoutRuns
  import opened ProviderHandlers
  import SessionProvenance
  import Kv
  import KvClient

  /** Nothing stored yet, apart from clients under their own ids. */
  ghost predicate Untouched(w: World)
  {
    w.kv.entries == map[] && w.consents == map[] && w.grants == map[] && w.lineage == map[] && Keyed(w)
  }

  /** What may be asked: fresh random ids, and account ids without NUL. */
  ghost predicate Orderly(ops: seq<Op>) { Fresh(ops) && forall i :: 0 <= i < |ops| ==> CleanOp(ops[i]) }

  lemma PerformedIsRun(cfg: Config, t: Trace)
    requires Shape(t) && Untouched(t.ws[0]) && Orderly(t.ops)
    requires forall i: nat {:trigger Performed(cfg, t.ws[i], t.ops[i], t.ws[i + 1], t.rs[i])} ::
      i < |t.ops| ==> Performed(cfg, t.ws[i], t.ops[i], t.ws[i + 1], t.rs[i])
    ensures IsRun(cfg, t)
  {
    forall i: nat | i < |t.ops| ensures StepAt(cfg, t, i) {
      assert Performed(cfg, t.ws[i], t.ops[i], t.ws[i + 1], t.rs[i]);
    }
  }

  /**
   Requests served one after the other by an untouched server are a run of the machine, from its
   state to its state.
   */
  method Serve(server: Server, ops: seq<Op>) returns (rs: seq<Reply>, ghost t: Trace)
    requires Untouched(server.Snapshot()) && Orderly(ops)
    modifies server, server.kv
    ensures IsRun(server.Cfg(), t) && t.ops == ops && t.rs == rs
    ensures t.ws[0] == old(server.Snapshot()) && t.ws[|ops|] == server.Snapshot()
  {
    rs := [];
    ghost var ws, cfg := [server.Snapshot()], server.Cfg();
    for i := 0 to |ops|
      invariant |ws| == i + 1 && |rs| == i && ws[0] == old(server.Snapshot()) && ws[i] == server.Snapshot()
      invariant forall j: nat {:trigger Performed(cfg, ws[j], ops[j], ws[j + 1], rs[j])} ::
        j < i ==> Performed(cfg, ws[j], ops[j], ws[j + 1], rs[j])
    {
      var r := server.Perform(ops[i]);
      Extend(cfg, ws, ops, rs, i, server.Snapshot(), r);
      ws, rs := ws + [server.Snapshot()], rs + [r];
    }
    t := Trace(ws, ops, rs);
    PerformedIsRun(cfg, t);
  }

  lemma Extend(cfg: Config, ws: seq<World>, ops: seq<Op>, rs: seq<Reply>, i: nat, w: World, r: Reply)
    requires |ws| == i + 1 && |rs| == i < |ops| && Performed(cfg, ws[i], ops[i], w, r)
    requires forall j: nat {:trigger Performed(cfg, ws[j], ops[j], ws[j + 1], rs[j])} ::
      j < i ==> Performed(cfg, ws[j], ops[j], ws[j + 1], rs[j])
    ensures var ws', rs' := ws + [w], rs + [r];
      forall j: nat {:trigger Performed(cfg, ws'[j], ops[j], ws'[j + 1], rs'[j])} ::
        j < i + 1 ==> Performed(cfg, ws'[j], ops[j], ws'[j + 1], rs'[j])
  {
    var ws', rs' := ws + [w], rs + [r];
    forall j: nat | j < i + 1 ensures Performed(cfg, ws'[j], ops[j], ws'[j + 1], rs'[j]) {
      if j < i { assert Performed(cfg, ws[j], ops[j], ws[j + 1], rs[j]); }
    }
  }

  /** The i-th reply finishes no authorization, or a safe one. */
  ghost predicate SafeReply(cfg: Config, t: Trace, i: nat)
    requires Shape(t) && i < |t.ops|
  {
    t.rs[i].Finished? ==>
      && ValidatedBefore(t, i + 1, t.rs[i].q.params)
      && (t.ops[i].AuthorizeOp? || t.ops[i].ConfirmOp?) && SessionSub(t.ws[i], t.ops[i].sid) == Some(t.rs[i].sub)
      && (cfg.trusted(t.rs[i].client)
          || Consented(t.ws[i + 1], t.rs[i].sub, t.rs[i].client.clientId, t.rs[i].q.params.scope))
  }

  /** No quarter of an hour without a reset counts more than 38 failed logins under a key. */
  ghost predicate LoginsBounded(cfg: Config, t: Trace, who: string, a: nat, b: nat, start: Kv.Time)
    requires Shape(t) && a <= b <= |t.ops|
  {
    Quarter(cfg, t, who, a, b, start) ==> Recorded(cfg, t, who, a, b) <= 38
  }

  ghost predicate OpenedSometime(cfg: Config, t: Trace, sid: string, sub: string)
    requires Shape(t)
  {
    exists m: nat :: m < |t.ops| && SessionProvenance.OpenedAt(cfg, t, m, sid, sub)
  }

  /** Sessions that are still stored were opened legitimately. */
  ghost predicate SessionsProper(cfg: Config, t: Trace)
    requires Shape(t)
  {
    forall sid :: Stored(t.ws[|t.ops|].kv, Session, sid).Some? ==>
      && Stored(t.ws[|t.ops|].kv, Session, sid).value.PersonDoc?
      && OpenedSometime(cfg, t, sid, Stored(t.ws[|t.ops|].kv, Session, sid).value.sub)
  }

  /**
   A new server with the deployment's own keys and digests, serving any orderly requests: every
   authorization it finishes is safe, every session it keeps has a legitimate origin, and failed logins are bounded.
   */
  method ServeFromStart(settings: Settings, start: Kv.Time, clients: map<string, Client>, ops: seq<Op>)
      returns (rs: seq<Reply>, ghost t: Trace)
    requires Orderly(ops) && (forall k :: k in clients ==> clients[k].clientId == k)
    requires forall x, y :: settings.digest(x) == settings.digest(y) ==> x == y
    ensures IsRun(Wire(settings), t) && t.ops == ops && t.rs == rs
    ensures forall i: nat :: i < |ops| ==> SafeReply(Wire(settings), t, i)
    ensures SessionsProper(Wire(settings), t)
    ensures forall who, a: nat, b: nat, since :: a <= b <= |ops| ==> LoginsBounded(Wire(settings), t, who, a, b, since)
  {
    var kv := new KvClient.Client<Key, Doc>(start);
    var server := new Server(settings, kv, clients);
    rs, t := Serve(server, ops);
    RunIsProper(settings, t);
  }

  lemma RunIsProper(settings: Settings, t: Trace)
    requires IsRun(Wire(settings), t) && (forall x, y :: settings.digest(x) == settings.digest(y) ==> x == y)
    ensures forall i: nat :: i < |t.ops| ==> SafeReply(Wire(settings), t, i)
    ensures SessionsProper(Wire(settings), t)
    ensures forall who, a: nat, b: nat, since :: a <= b <= |t.ops| ==>
        LoginsBounded(Wire(settings), t, who, a, b, since)
  {
    var cfg := Wire(settings);
    WiringIsLawful(settings);
    forall i: nat | i < |t.ops| ensures SafeReply(cfg, t, i) {
      if t.rs[i].Finished? { FinishedIsSafe(cfg, t, i); }
    }
    forall sid | Stored(t.ws[|t.ops|].kv, Session, sid).Some?
      ensures Stored(t.ws[|t.ops|].kv, Session, sid).value.PersonDoc?
      ensures OpenedSometime(cfg, t, sid, Stored(t.ws[|t.ops|].kv, Session, sid).value.sub)
    {
      var m := SessionProvenance.SessionsHaveProvenance(cfg, t, |t.ops|, sid);
    }
    forall who, a: nat, b: nat, since | a <= b <= |t.ops| ensures LoginsBounded(cfg, t, who, a, b, since) {
      if Quarter(cfg, t, who, a, b, since) { FailuresPerKey(cfg, t, who, a, b, since); }
    }
  }
}
