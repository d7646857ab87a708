/** Which answer each handler gives, exactly, and what it leaves behind, in terms of what is stored and asked. */
module ProviderAnswers {
  import opened Text
  import opened Artifacts
  import opened Provider
  import opened Effects
  import Kv
  import Scopes

  /** The live artifact of that name and id, if there is one. */
  function Live(w: World, name: Name, id: string): Option<Doc>
  {
    var k := Art(name, id);
    if k in w.kv.entries && w.kv.entries[k].value.Blob?
       && (w.kv.entries[k].expiry.None? || w.kv.now < w.kv.entries[k].expiry.value)
    then Some(w.kv.entries[k].value.body) else None
  }

  /** The key has a lock with time left. */
  predicate HasLock(w: World, who: string)
  {
    && Lock(who) in w.kv.entries && w.kv.entries[Lock(who)].expiry.Some?
    && w.kv.now < w.kv.entries[Lock(who)].expiry.value
  }

  predicate Untouched(w: World, w': World, name: Name, id: string)
  {
    SameEntry(w.kv, w'.kv, Art(name, id))
  }

  // ---- sign-in ----

  /** Either of the keys a login counts under is locked. */
  predicate LockedOut(cfg: Config, w: World, username: string, ip: string)
  {
    HasLock(w, cfg.ipKey(ToLower(username), ip)) || HasLock(w, cfg.userKey(ToLower(username)))
  }

  /** The backend accepted the password and named an account. */
  predicate RightPassword(auth: AuthReply) { auth.success && auth.id != "" }

  predicate GoodAccount(a: Option<Account>)
  {
    a.Some? && a.value.activated && !a.value.suspended && !a.value.disabled
  }

  /** While a key is locked no login gets through, whatever the password, and nothing changes. */
  lemma LockedLoginIsRefused(cfg: Config, w: World, op: Op)
    requires op.LoginOp? && Live(w, Interaction, op.uid).Some? && LockedOut(cfg, w, op.username, op.ip)
    ensures Step(cfg, w, op) == (w, Refused(Locked))
  {
  }

  /** The answer to a login, exactly: each of the six answers has its own condition. */
  lemma LoginRepliesIff(cfg: Config, w: World, op: Op)
    requires op.LoginOp?
    ensures var r := Step(cfg, w, op).1;
      var heard := Live(w, Interaction, op.uid).Some? && !LockedOut(cfg, w, op.username, op.ip);
      var right, account := RightPassword(op.auth), op.auth.account;
      && (r == Refused(NoInteraction) <==> Live(w, Interaction, op.uid).None?)
      && (r == Refused(Locked) <==> Live(w, Interaction, op.uid).Some? && LockedOut(cfg, w, op.username, op.ip))
      && (r == Refused(BackendFailure) <==> heard && right && account.None?)
      && (r == Refused(BadCredentials) <==> heard && (!right || (account.Some? && !GoodAccount(account))))
      && (r.ChangeRequired? <==> heard && right && GoodAccount(account) && op.auth.requireChange)
      && (r.SignedIn? <==> heard && right && GoodAccount(account) && !op.auth.requireChange)
      && (r.SignedIn? ==> r == SignedIn(op.rnd, account.value.id))
  {
  }

  predicate Cleared(w: World, who: string) { Fail(who) !in w.kv.entries && Lock(who) !in w.kv.entries }

  /** A success clears both keys and stores the account's session, or its pending change of password. */
  lemma LoginSuccessLeaves(cfg: Config, w: World, op: Op)
    requires op.LoginOp?
    ensures var w', r := Step(cfg, w, op).0, Step(cfg, w, op).1;
      var uname, account := ToLower(op.username), op.auth.account;
      && (r.SignedIn? || r.ChangeRequired? ==> Cleared(w', cfg.ipKey(uname, op.ip)) && Cleared(w', cfg.userKey(uname)))
      && (r.SignedIn? ==>
            account.Some? && Live(w', Session, op.rnd) == Some(PersonDoc(account.value.id, account.value.email)))
      && (r.ChangeRequired? ==>
            account.Some? && Live(w', PasswordChange, op.uid) == Some(PersonDoc(account.value.id, account.value.email)))
      && (r.ChangeRequired? ==> Untouched(w, w', Session, op.rnd))
  {
  }

  /** The live count of a key, or none. */
  function CountOf(w: World, who: string): int { CountIn(w.kv, who) }

  /** Counters hold counts, and locks have an end. */
  predicate ProperCounter(w: World, who: string)
  {
    && (Fail(who) in w.kv.entries ==> w.kv.entries[Fail(who)].value.Count?)
    && (Lock(who) in w.kv.entries ==> w.kv.entries[Lock(who)].expiry.Some?)
  }

  /** A failed login adds one to each of its counters, and locks exactly the keys that reach 5 and 20. */
  lemma FailureCounts(cfg: Config, w: World, op: Op)
    requires op.LoginOp? && Step(cfg, w, op).1 == Refused(BadCredentials)
    requires var uname := ToLower(op.username);
      && cfg.ipKey(uname, op.ip) != cfg.userKey(uname)
      && ProperCounter(w, cfg.ipKey(uname, op.ip)) && ProperCounter(w, cfg.userKey(uname))
    ensures var w', uname := Step(cfg, w, op).0, ToLower(op.username);
      var ipKey, userKey := cfg.ipKey(uname, op.ip), cfg.userKey(uname);
      && Fail(ipKey) in w'.kv.entries && w'.kv.entries[Fail(ipKey)].value == Kv.Count(CountOf(w, ipKey) + 1)
      && Fail(userKey) in w'.kv.entries && w'.kv.entries[Fail(userKey)].value == Kv.Count(CountOf(w, userKey) + 1)
      && (HasLock(w', ipKey) <==> CountOf(w, ipKey) + 1 >= 5)
      && (HasLock(w', userKey) <==> CountOf(w, userKey) + 1 >= 20)
  {
    LoginRepliesIff(cfg, w, op);
    BothCount(cfg, w.kv, ToLower(op.username), op.ip);
    assert Step(cfg, w, op).0.kv == RecordBoth(cfg, w.kv, ToLower(op.username), op.ip);
  }

  predicate LockedAt(s: Store, who: string)
  {
    Lock(who) in s.entries && s.entries[Lock(who)].expiry.Some? && s.now < s.entries[Lock(who)].expiry.value
  }

  predicate Countable(s: Store, who: string)
  {
    && (Fail(who) in s.entries ==> s.entries[Fail(who)].value.Count?)
    && (Lock(who) in s.entries ==> s.entries[Lock(who)].expiry.Some?)
    && !LoginLocked(s, who)
  }

  /** The key has one failure more, and is locked exactly if that fills it. */
  predicate Counted(s: Store, s': Store, who: string, lockAfter: int)
  {
    && Fail(who) in s'.entries && s'.entries[Fail(who)].value == Kv.Count(CountIn(s, who) + 1)
    && (LockedAt(s', who) <==> CountIn(s, who) + 1 >= lockAfter)
  }

  lemma BothCount(cfg: Config, kv: Store, uname: string, ip: string)
    requires var ipKey, userKey := cfg.ipKey(uname, ip), cfg.userKey(uname);
      ipKey != userKey && Countable(kv, ipKey) && Countable(kv, userKey)
    ensures var kv' := RecordBoth(cfg, kv, uname, ip);
      && Counted(kv, kv', cfg.ipKey(uname, ip), IP_LOCK_AFTER)
      && Counted(kv, kv', cfg.userKey(uname), USER_LOCK_AFTER)
      && kv'.now == kv.now
  {
    var ipKey, userKey := cfg.ipKey(uname, ip), cfg.userKey(uname);
    var one := RecordLoginFailure(kv, ipKey, IP_LOCK_AFTER, LOCK_FOR);
    OneKeyCounts(kv, ipKey, IP_LOCK_AFTER);
    CountersKeepOthers(kv, ipKey, IP_LOCK_AFTER, Fail(userKey));
    CountersKeepOthers(kv, ipKey, IP_LOCK_AFTER, Lock(userKey));
    OneKeyCounts(one, userKey, USER_LOCK_AFTER);
    CountersKeepOthers(one, userKey, USER_LOCK_AFTER, Fail(ipKey));
    CountersKeepOthers(one, userKey, USER_LOCK_AFTER, Lock(ipKey));
  }

  function CountIn(s: Store, who: string): int
  {
    match Kv.Lookup(s, Fail(who))
    case Some(Count(n)) => n
    case _ => 0
  }

  lemma OneKeyCounts(s: Store, who: string, lockAfter: int)
    requires Countable(s, who) && lockAfter > 0
    ensures var s' := RecordLoginFailure(s, who, lockAfter, LOCK_FOR); s'.now == s.now && Counted(s, s', who, lockAfter)
  {
  }

  /**
   Bad credentials leave everything but the two keys' counters and locks as it was; other refusals
   change nothing at all.
   */
  lemma LoginRefusalLeaves(cfg: Config, w: World, op: Op, k: Key)
    requires op.LoginOp? && Step(cfg, w, op).1.Refused?
    ensures var w', r := Step(cfg, w, op).0, Step(cfg, w, op).1;
      && (r != Refused(BadCredentials) ==> w' == w)
      && (k.Art? ==> SameEntry(w.kv, w'.kv, k))
  {
    if k.Art? { BothKeepArtifacts(cfg, w.kv, ToLower(op.username), op.ip, k); }
  }

  /**
   A pending change or reset signs its subject in, once, exactly when it is live, names someone and
   the password was set.
   */
  lemma RedeemRepliesIff(cfg: Config, w: World, op: Op)
    requires op.ChangeOp? || op.ResetOp?
    ensures var w', r := Step(cfg, w, op).0, Step(cfg, w, op).1;
      var name, id := if op.ChangeOp? then PasswordChange else PasswordReset, if op.ChangeOp? then op.uid else op.token;
      var pending := Live(w, name, id);
      && (r.SignedIn? <==> pending.Some? && pending.value.PersonDoc? && pending.value.sub != "" && op.passwordSet)
      && (r.SignedIn? ==>
            && r == SignedIn(op.rnd, pending.value.sub) && Live(w', Session, op.rnd) == pending
            && Live(w', name, id).None?)
      && (!r.SignedIn? ==> w' == w)
  {
  }

  /**
   A reset is mailed exactly for a usable account with a recovery address, or digest, equal to the
   one given; the answer is the same.
   */
  lemma ResetBegunIff(cfg: Config, w: World, op: Op)
    requires op.BeginResetOp? && Live(w, PasswordReset, op.rnd).None?
    ensures var w', r := Step(cfg, w, op).0, Step(cfg, w, op).1;
      var email := TrimSpace(ToLower(op.recovery));
      && (Live(w', PasswordReset, op.rnd).Some? <==>
            && TrimSpace(ToLower(op.login)) != "" && email != "" && GoodAccount(op.found)
            && exists i :: 0 <= i < |op.dests| && (
                 (op.dests[i].address != "" && EqualFold(op.dests[i].address, email))
                 || (op.dests[i].hash != "" && EqualFold(op.dests[i].hash, cfg.hexSha(email)))))
      && (Live(w', PasswordReset, op.rnd).Some? ==>
          Live(w', PasswordReset, op.rnd) == Some(PersonDoc(op.found.value.id, email)))
      && r == Done
  {
  }

  /** After logout the session the cookie names is gone, and no other. */
  lemma LogoutEndsSession(cfg: Config, w: World, op: Op)
    requires op.LogoutOp?
    ensures var w' := Step(cfg, w, op).0;
      && (op.sid.Some? ==> Live(w', Session, op.sid.value).None?)
      && (forall k :: !(op.sid.Some? && k == Art(Session, op.sid.value)) ==> SameEntry(w.kv, w'.kv, k))
      && w' == w.(kv := w'.kv)
  {
  }

  /** Time passes, and clients come and go, by these steps alone and with no other effect. */
  lemma AdministrationMeans(cfg: Config, w: World, d: nat, c: Client, id: string)
    ensures Step(cfg, w, Tick(d)).0.kv.now == w.kv.now + d && Step(cfg, w, Tick(d)).0.clients == w.clients
    ensures var w' := Step(cfg, w, SetClient(c)).0;
      && c.clientId in w'.clients && w'.clients[c.clientId] == c && w'.kv == w.kv && w'.consents == w.consents
      && (forall k :: k != c.clientId ==> (k in w'.clients <==> k in w.clients))
      && (forall k :: k != c.clientId && k in w.clients ==> w'.clients[k] == w.clients[k])
    ensures var w' := Step(cfg, w, RemoveClient(id)).0;
      && id !in w'.clients && w'.kv == w.kv && w'.consents == w.consents
      && (forall k :: k != id ==> (k in w'.clients <==> k in w.clients))
      && (forall k :: k != id && k in w.clients ==> w'.clients[k] == w.clients[k])
  {
  }

  // ---- authorization ----

  /** The subject of the live session a cookie names. */
  function SignedInAs(w: World, sid: Option<string>): Option<string>
  {
    if sid.None? || Live(w, Session, sid.value).None? || !Live(w, Session, sid.value).value.PersonDoc? then None
    else Some(Live(w, Session, sid.value).value.sub)
  }

  /** The first check a request fails decides its refusal. */
  lemma RefusalTellsCheck(cfg: Config, w: World, op: Op)
    requires op.AuthorizeOp?
    ensures var w', r, p := Step(cfg, w, op).0, Step(cfg, w, op).1, op.q.params;
      var known := p.clientId in w.clients;
      var uri := known && p.redirectUri in w.clients[p.clientId].redirectUris;
      var code := uri && op.q.responseType == "code";
      var pkce := code && p.challenge != "" && p.challengeMethod == "S256";
      var scopes := pkce && forall s :: s in Scopes.Parse(p.scope) ==> s in w.clients[p.clientId].scopes;
      && (r == Refused(InvalidClient) <==> !known)
      && (r == Refused(UnsupportedResponseType) <==> uri && !code)
      && (r == Refused(InvalidRequest) <==> (known && !uri) || (code && !pkce))
      && (r == Refused(InvalidScope) <==> pkce && !scopes)
      && (r.Refused? <==> !scopes) && (r.Refused? ==> w' == w)
  {
  }

  /** The stored consent of the subject for the client covers what is asked. */
  predicate ConsentCovers(cfg: Config, w: World, sub: string, clientId: string, scope: string)
  {
    var k := cfg.consentId(sub, clientId);
    && k in w.consents && clientId in w.consents[k].audiences
    && forall s :: s in Scopes.Parse(scope) ==> s in w.consents[k].scopes
  }

  /**
   The answer to a valid request, exactly: without a live session it asks for login; with one it is
   finished at once for a trusted client, or a covering consent unless a new prompt is demanded; else
   it asks for consent.
   */
  lemma AuthorizeRepliesIff(cfg: Config, w: World, op: Op, client: Client, q: Query)
    requires op.AuthorizeOp? && Validate(w.clients, op.q) == Valid(client, q)
    ensures var r, sub := Step(cfg, w, op).1, SignedInAs(w, op.sid);
      var free := sub.Some?
        && (cfg.trusted(client) || (q.params.prompt != "consent"
            && ConsentCovers(cfg, w, sub.value, client.clientId, q.params.scope)));
      && (r.AskLogin? <==> sub.None?) && (r.Finished? <==> free) && (r.AskConsent? <==> sub.Some? && !free)
  {
  }

  /** prompt=consent always asks, unless the client is trusted. */
  lemma PromptAsks(cfg: Config, w: World, op: Op, client: Client, q: Query)
    requires op.AuthorizeOp? && Validate(w.clients, op.q) == Valid(client, q) && SignedInAs(w, op.sid).Some?
    requires q.params.prompt == "consent" && !cfg.trusted(client)
    ensures Step(cfg, w, op).1 == AskConsent(op.rnd)
  {
    AuthorizeRepliesIff(cfg, w, op, client, q);
  }

  /** What a request that must wait leaves behind: its own parameters, and for consent also audience and subject. */
  lemma AskingStores(cfg: Config, w: World, op: Op, client: Client, q: Query)
    requires op.AuthorizeOp? && Validate(w.clients, op.q) == Valid(client, q)
    ensures var w', r := Step(cfg, w, op).0, Step(cfg, w, op).1;
      && (r.AskLogin? ==> r == AskLogin(op.rnd) && Live(w', Interaction, op.rnd) == Some(LoginDoc(q.params)))
      && (r.AskConsent? ==>
            && r == AskConsent(op.rnd) && Live(w', Interaction, op.rnd).Some?
                && Live(w', Interaction, op.rnd).value.ConsentDoc?
            && Live(w', Interaction, op.rnd).value.params == q.params.(clientId := client.clientId)
            && Live(w', Interaction, op.rnd).value.audience == Join(q.audiences, ' ')
            && Some(Live(w', Interaction, op.rnd).value.sub) == SignedInAs(w, op.sid))
  {
  }

  /**
   A confirmation finishes the stored request as it is: its parameters, and the audience a consent
   interaction kept.
   */
  lemma ConfirmedRequest(cfg: Config, w: World, op: Op)
    requires op.ConfirmOp? && Step(cfg, w, op).1.Finished?
    ensures Live(w, Interaction, op.uid).Some?
    ensures var r, d := Step(cfg, w, op).1, Live(w, Interaction, op.uid).value;
      && (d.LoginDoc? || d.ConsentDoc?) && r.q.params == d.params && r.q.responseType == "code"
      && (d.ConsentDoc? && d.audience != "" ==> r.q.audiences == [d.audience])
      && (d.LoginDoc? || d.audience == "" ==> r.q.audiences == [])
  {
  }

  /** Why a confirmation is refused or postponed. */
  lemma ConfirmRefusalsIff(cfg: Config, w: World, op: Op)
    requires op.ConfirmOp?
    ensures var w', r, d := Step(cfg, w, op).0, Step(cfg, w, op).1, Live(w, Interaction, op.uid);
      var request := d.Some? && (d.value.LoginDoc? || d.value.ConsentDoc?);
      var signedIn := SignedInAs(w, op.sid).Some?;
      && (r == Refused(AccessDenied) <==> op.allow != "yes" && d.Some?)
      && (r == Refused(NoInteraction) <==>
          (op.allow != "yes" && d.None?) || (op.allow == "yes" && signedIn && !request))
      && (r == AskLogin(op.uid) <==> op.allow == "yes" && !signedIn)
      && (r == Refused(InvalidClient) <==>
          op.allow == "yes" && signedIn && request && d.value.params.clientId !in w.clients)
      && (!r.Finished? ==> w' == w)
  {
  }

  // ---- tokens ----

  /** Granted exactly the scopes of the baton, when the client still has all of them. */
  predicate StillRegistered(client: Client, scope: string)
  {
    forall s :: s in Scopes.Parse(scope) ==> s in client.scopes
  }

  /** When a code yields tokens, and what a refusal does to it: only a scope no longer registered spends it in vain. */
  lemma CodeRepliesIff(cfg: Config, w: World, op: Op)
    requires op.CodeOp?
    ensures var w', r, d := Step(cfg, w, op).0, Step(cfg, w, op).1, Live(w, Code, op.code);
      var known := op.clientId in w.clients;
      var may := known && "authorization_code" in w.clients[op.clientId].grantTypes;
      var own := may && d.Some? && d.value.CodeDoc? && d.value.clientId == w.clients[op.clientId].clientId
        && d.value.redirectUri == op.redirectUri
            && (d.value.challenge == "" || d.value.challenge == cfg.sha(op.verifier));
      && (r.Tokens? <==> own && StillRegistered(w.clients[op.clientId], d.value.scope))
      && (r == Refused(InvalidClient) <==> !known) && (r == Refused(UnauthorizedClient) <==> known && !may)
      && (r == Refused(InvalidGrant) <==> may && !own)
      && (r == Refused(InvalidScope) <==> own && !StillRegistered(w.clients[op.clientId], d.value.scope))
      && (r.Refused? && r != Refused(InvalidScope) ==> w' == w)
      && (r == Refused(InvalidScope) ==> Live(w', Code, op.code).None?)
  {
  }

  /** When a refresh token yields tokens; a refusal never spends it. */
  lemma RefreshRepliesIff(cfg: Config, w: World, op: Op)
    requires op.RefreshOp?
    ensures var w', r, d := Step(cfg, w, op).0, Step(cfg, w, op).1, Live(w, Refresh, op.token);
      var known := op.clientId in w.clients;
      var may := known && "refresh_token" in w.clients[op.clientId].grantTypes;
      var own := may && d.Some? && d.value.RefreshDoc? && d.value.clientId == w.clients[op.clientId].clientId;
      && (r.Tokens? <==> own && StillRegistered(w.clients[op.clientId], d.value.scope))
      && (r == Refused(InvalidClient) <==> !known) && (r == Refused(UnauthorizedClient) <==> known && !may)
      && (r == Refused(InvalidGrant) <==> may && !own)
      && (r == Refused(InvalidScope) <==> own && !StillRegistered(w.clients[op.clientId], d.value.scope))
      && (r.Refused? ==> w' == w)
  {
  }

  /**
   A token response comes with a refresh token exactly for a subject, a client that may refresh, and
   the offline scope.
   */
  lemma RefreshIssuedIff(cfg: Config, w: World, op: Op)
    requires (op.CodeOp? || op.RefreshOp?) && Step(cfg, w, op).1.Tokens?
    ensures var w', r := Step(cfg, w, op).0, Step(cfg, w, op).1;
      && (r.refresh.Some? <==>
            r.sub != "" && "refresh_token" in r.client.grantTypes && "offline_access" in Scopes.Parse(r.scope))
      && (r.refresh.Some? ==>
            r.refresh == Some(op.rnd)
                && Live(w', Refresh, op.rnd) == Some(RefreshDoc(r.client.clientId, r.sub, r.scope)))
  {
  }

  /** A refresh token is revoked exactly by its own client. */
  lemma RefreshRevokedIff(cfg: Config, w: World, op: Op)
    requires op.RevokeOp? && Live(w, Refresh, op.token).Some? && Live(w, Refresh, op.token).value.RefreshDoc?
    ensures var w' := Step(cfg, w, op).0;
      && (Live(w', Refresh, op.token).None? <==> Live(w, Refresh, op.token).value.clientId == op.clientId)
      && (Live(w', Refresh, op.token).Some? ==> w' == w)
  {
  }
}
