/** What one step of the provider may read, write, erase and answer, in one place. */
module Effects {
  import opened Text
  import opened Artifacts
  import opened Provider
  import Kv
  import Scopes

  ghost predicate Keyed(w: World)
  {
    forall k :: k in w.clients ==> w.clients[k].clientId == k
  }

  /** The random id a step draws, if it draws one. */
  function Rnd(op: Op): Option<string>
  {
    match op
    case AuthorizeOp(_, _, r) => Some(r)
    case LoginOp(_, _, _, _, r) => Some(r)
    case ChangeOp(_, _, r) => Some(r)
    case BeginResetOp(_, _, _, _, r) => Some(r)
    case ResetOp(_, _, r) => Some(r)
    case ConfirmOp(_, _, _, r) => Some(r)
    case CodeOp(_, _, _, _, r) => Some(r)
    case RefreshOp(_, _, r) => Some(r)
    case _ => None
  }

  /** The backend accepted the password, returned an id, and the fetched account is usable. */
  predicate AcceptedLogin(op: Op, sub: string)
  {
    && op.LoginOp? && op.auth.success && op.auth.id != ""
    && op.auth.account.Some? && Usable(op.auth.account.value) && op.auth.account.value.id == sub
  }

  /** The step mails reset token `token` for usable account `sub`, whose recovery destination matched. */
  predicate BeginsReset(cfg: Config, op: Op, token: string, sub: string)
  {
    && op.BeginResetOp? && op.rnd == token && op.found.Some? && Usable(op.found.value)
    && op.found.value.id == sub && DestinationMatches(cfg, op.dests, Clean(op.recovery))
  }

  /** The step presents pending artifact (name, id) with a password the backend accepted. */
  predicate Redeems(op: Op, name: Name, id: string)
  {
    || (op.ChangeOp? && name == PasswordChange && op.uid == id && op.passwordSet)
    || (op.ResetOp? && name == PasswordReset && op.token == id && op.passwordSet)
  }

  /** Why artifact (name, id) may hold d after a step that changed it. */
  ghost predicate Wrote(cfg: Config, w: World, op: Op, r: Reply, name: Name, id: string, d: Doc)
  {
    match name
    case Session =>
      && d.PersonDoc? && r == SignedIn(id, d.sub) && Rnd(op) == Some(id)
      && ( || (AcceptedLogin(op, d.sub) && !op.auth.requireChange)
           || (exists n, x :: Redeems(op, n, x) && Stored(w.kv, n, x).Some? && Stored(w.kv, n, x).value.PersonDoc?
                              && Stored(w.kv, n, x).value.sub == d.sub))
    case Interaction =>
      && op.AuthorizeOp? && op.rnd == id && Validate(w.clients, op.q).Valid?
      && (d.LoginDoc? || d.ConsentDoc?) && (Keyed(w) ==> d.params == Validate(w.clients, op.q).q.params)
    case Code =>
      && r.Finished? && r.code == id
      && d == CodeDoc(r.client.clientId, r.q.params.redirectUri, r.q.params.scope, r.sub, r.q.params.nonce,
          r.q.params.challenge)
    case PasswordChange =>
      d.PersonDoc? && op.LoginOp? && op.uid == id && r.ChangeRequired? && AcceptedLogin(op, d.sub)
          && op.auth.requireChange
    case PasswordReset => d.PersonDoc? && BeginsReset(cfg, op, id, d.sub)
    case Refresh => r.Tokens? && r.refresh == Some(id) && d == RefreshDoc(r.client.clientId, r.sub, r.scope)
    case Revoked => false
  }

  ghost predicate ArtEffect(cfg: Config, w: World, op: Op, w': World, r: Reply)
  {
    forall name, id :: Stored(w'.kv, name, id).Some? && Stored(w'.kv, name, id) != Stored(w.kv, name, id) ==>
      Wrote(cfg, w, op, r, name, id, Stored(w'.kv, name, id).value)
  }

  /** A finished authorization: who, for whom, on what grounds, and the code it leaves behind. */
  ghost predicate FinishEffect(cfg: Config, w: World, op: Op, w': World, r: Reply)
  {
    r.Finished? ==>
      && (op.AuthorizeOp? || op.ConfirmOp?) && SessionSub(w, op.sid) == Some(r.sub) && Rnd(op) == Some(r.code)
      && r.q.params.clientId in w.clients && r.client == w.clients[r.q.params.clientId]
      && Stored(w'.kv, Code, r.code).Some?
      && (op.AuthorizeOp? ==>
            Validate(w.clients, op.q) == Valid(r.client, r.q) && CanAutoGrant(cfg, w, r.client, r.sub, r.q))
      && (op.ConfirmOp? ==>
            && op.allow == "yes" && Stored(w.kv, Interaction, op.uid).Some?
            && (Stored(w.kv, Interaction, op.uid).value.LoginDoc?
                || Stored(w.kv, Interaction, op.uid).value.ConsentDoc?)
            && Stored(w.kv, Interaction, op.uid).value.params == r.q.params)
  }

  ghost predicate HistoryEffect(cfg: Config, w: World, op: Op, w': World, r: Reply)
  {
    && w'.grants == (if r.Finished?
                     then w.grants[r.code := Grant(r.client.clientId, r.sub, r.q.params.scope)]
                     else w.grants)
    && w'.consents == (if op.ConfirmOp? && r.Finished?
                       then w.consents[cfg.consentId(r.sub, r.client.clientId) := ConsentFor(r.client, r.sub, r.q)]
                       else w.consents)
    && (Keyed(w) ==> Keyed(w'))
  }

  /** The baton of a token step: the code or refresh token it presents. */
  function BatonName(op: Op): Name { if op.CodeOp? then Code else Refresh }

  function BatonId(op: Op): string
    requires op.CodeOp? || op.RefreshOp?
  {
    if op.CodeOp? then op.code else op.token
  }

  function GrantOf(d: Doc): Option<Grant>
  {
    if d.CodeDoc? || d.RefreshDoc? then Some(Grant(d.clientId, d.sub, d.scope)) else None
  }

  /** The code at the root of the baton a token step presents. */
  function RootOf(w: World, op: Op): string
    requires op.CodeOp? || op.RefreshOp?
  {
    if op.CodeOp? then op.code else if op.token in w.lineage then w.lineage[op.token] else ""
  }

  /** A token response spends a baton of the calling client and grants the scope Allowed makes of the baton's. */
  ghost predicate TokenEffect(w: World, op: Op, w': World, r: Reply)
  {
    && (r.Tokens? ==>
          && (op.CodeOp? || op.RefreshOp?) && op.clientId in w.clients && r.client == w.clients[op.clientId]
          && Stored(w.kv, BatonName(op), BatonId(op)).Some?
          && (var d := Stored(w.kv, BatonName(op), BatonId(op)).value;
              && (d.CodeDoc? || d.RefreshDoc?) && d.clientId == r.client.clientId && d.sub == r.sub
              && Scopes.Allowed(r.client.scopes, d.scope, false) == Ok(r.scope))
          && (Stored(w'.kv, BatonName(op), BatonId(op)).None? || r.refresh == Some(BatonId(op)))
          && (r.refresh.Some? ==> Rnd(op) == r.refresh))
    && w'.lineage == (if r.Tokens? && r.refresh.Some? then w.lineage[r.refresh.value := RootOf(w, op)] else w.lineage)
  }

  /** A password that was set by redeeming a pending artifact leaves that artifact erased. */
  ghost predicate RedeemEffect(w: World, op: Op, w': World, r: Reply)
  {
    && (op.ResetOp? && r.SignedIn? ==>
        Stored(w.kv, PasswordReset, op.token).Some? && Stored(w'.kv, PasswordReset, op.token).None?)
    && (op.ChangeOp? && r.SignedIn? ==>
        Stored(w.kv, PasswordChange, op.uid).Some? && Stored(w'.kv, PasswordChange, op.uid).None?)
  }

  ghost predicate Effect(cfg: Config, w: World, op: Op, w': World, r: Reply)
  {
    && ArtEffect(cfg, w, op, w', r) && FinishEffect(cfg, w, op, w', r) && HistoryEffect(cfg, w, op, w', r)
    && TokenEffect(w, op, w', r) && RedeemEffect(w, op, w', r)
  }

  lemma OneArtifactWritten(cfg: Config, w: World, op: Op, w': World, r: Reply, n: Name, x: string)
    requires forall name, id :: (name, id) != (n, x) ==>
        Stored(w'.kv, name, id) == Stored(w.kv, name, id) || Stored(w'.kv, name, id).None?
    requires Stored(w'.kv, n, x).Some? ==> Wrote(cfg, w, op, r, n, x, Stored(w'.kv, n, x).value)
    ensures ArtEffect(cfg, w, op, w', r)
  {
  }

  lemma AnswerSteps(cfg: Config, w: World, op: Op, w': World, r: Reply, client: Client, q: Query, sub: Option<string>,
      auto: bool)
    requires op.AuthorizeOp? && Validate(w.clients, op.q) == Valid(client, q) && sub == SessionSub(w, op.sid)
    requires sub.Some? && auto ==> CanAutoGrant(cfg, w, client, sub.value, q)
    requires q.params.clientId in w.clients && client == w.clients[q.params.clientId]
    requires (w', r) == Answer(cfg, w, client, q, sub, auto, op.rnd)
    ensures Effect(cfg, w, op, w', r)
  {
    if r.Finished? {
      OneArtifactWritten(cfg, w, op, w', r, Code, op.rnd);
    } else {
      OneArtifactWritten(cfg, w, op, w', r, Interaction, op.rnd);
    }
  }

  lemma AuthorizeSteps(cfg: Config, w: World, op: Op, w': World, r: Reply)
    requires op.AuthorizeOp? && (w', r) == Authorize(cfg, w, op.q, op.sid, op.rnd)
    ensures Effect(cfg, w, op, w', r)
  {
    match Validate(w.clients, op.q)
    case Invalid(_) =>
    case Valid(client, q) =>
      var sub := SessionSub(w, op.sid);
      AnswerSteps(cfg, w, op, w', r, client, q, sub, sub.Some? && CanAutoGrant(cfg, w, client, sub.value, q));
  }

  lemma ConsentedSteps(cfg: Config, w: World, op: Op, w': World, r: Reply, client: Client, d: Doc, sub: string,
      c: Consent)
    requires op.ConfirmOp? && op.allow == "yes" && SessionSub(w, op.sid) == Some(sub)
    requires Stored(w.kv, Interaction, op.uid) == Some(d) && (d.LoginDoc? || d.ConsentDoc?)
    requires d.params.clientId in w.clients && client == w.clients[d.params.clientId]
    requires c == ConsentFor(client, sub, QueryOf(d))
    requires (w', r) == Finish(cfg, FileConsent(cfg, w, c), client, sub, QueryOf(d), op.rnd)
    ensures Effect(cfg, w, op, w', r)
  {
    OneArtifactWritten(cfg, w, op, w', r, Code, op.rnd);
  }

  lemma ConfirmSteps(cfg: Config, w: World, op: Op, w': World, r: Reply)
    requires op.ConfirmOp? && (w', r) == ConfirmConsent(cfg, w, op.uid, op.allow, op.sid, op.rnd)
    ensures Effect(cfg, w, op, w', r)
  {
    if r.Finished? {
      var sub, d := SessionSub(w, op.sid).value, GetArtifact(w.kv, Interaction, op.uid).value;
      ConsentedSteps(cfg, w, op, w', r, r.client, d, sub, ConsentFor(r.client, sub, QueryOf(d)));
    }
  }

  lemma CountersAreNoArtifacts(s: Store, who: string, lockAfter: int)
    ensures forall name, id :: Stored(RecordLoginFailure(s, who, lockAfter, LOCK_FOR), name, id) == Stored(s, name, id)
    ensures forall name, id :: Stored(ResetLoginFailures(s, who), name, id) == Stored(s, name, id)
  {
  }

  lemma BothAreNoArtifacts(cfg: Config, kv: Store, uname: string, ip: string)
    ensures forall name, id :: Stored(RecordBoth(cfg, kv, uname, ip), name, id) == Stored(kv, name, id)
    ensures forall name, id :: Stored(ResetBoth(cfg, kv, uname, ip), name, id) == Stored(kv, name, id)
  {
    var ipKey := cfg.ipKey(uname, ip);
    CountersAreNoArtifacts(kv, ipKey, IP_LOCK_AFTER);
    CountersAreNoArtifacts(RecordLoginFailure(kv, ipKey, IP_LOCK_AFTER, LOCK_FOR), cfg.userKey(uname), USER_LOCK_AFTER);
    CountersAreNoArtifacts(ResetLoginFailures(kv, ipKey), cfg.userKey(uname), USER_LOCK_AFTER);
  }

  lemma ConcludeSteps(cfg: Config, w: World, op: Op, w': World, r: Reply, uname: string, v: Verdict)
    requires op.LoginOp? && (w', r) == Conclude(cfg, w, op.uid, uname, op.ip, v, op.auth.requireChange, op.rnd)
    requires v.Accept? ==> AcceptedLogin(op, v.account.id)
    ensures Effect(cfg, w, op, w', r)
  {
    BothAreNoArtifacts(cfg, w.kv, uname, op.ip);
    if v.Accept? {
      if op.auth.requireChange {
        OneArtifactWritten(cfg, w, op, w', r, PasswordChange, op.uid);
      } else {
        OneArtifactWritten(cfg, w, op, w', r, Session, op.rnd);
      }
    }
  }

  lemma RedeemSteps(cfg: Config, w: World, op: Op, w': World, r: Reply, n: Name, x: string)
    requires (op.ChangeOp? && n == PasswordChange && x == op.uid)
        || (op.ResetOp? && n == PasswordReset && x == op.token)
    requires (w', r) == Redeem(w, n, x, op.passwordSet, op.rnd)
    ensures Effect(cfg, w, op, w', r)
  {
    if r.SignedIn? {
      assert Redeems(op, n, x) && Stored(w.kv, n, x).value.sub == r.sub;
      OneArtifactWritten(cfg, w, op, w', r, Session, op.rnd);
    }
  }

  lemma BeginResetSteps(cfg: Config, w: World, op: Op, w': World, r: Reply)
    requires op.BeginResetOp? && (w', r) == BeginReset(cfg, w, op.login, op.recovery, op.found, op.dests, op.rnd)
    ensures Effect(cfg, w, op, w', r)
  {
    if w' != w { OneArtifactWritten(cfg, w, op, w', r, PasswordReset, op.rnd); }
  }

  lemma SpendWrites(cfg: Config, w: World, op: Op, w': World, r: Reply, client: Client, sub: string, granted: string)
    requires op.CodeOp? || op.RefreshOp?
    requires (w', r) == Spend(cfg, w, client, BatonName(op), BatonId(op), sub, granted, RootOf(w, op), op.rnd)
    ensures ArtEffect(cfg, w, op, w', r)
    ensures Stored(w'.kv, BatonName(op), BatonId(op)).None? || r.refresh == Some(BatonId(op))
  {
    if r.refresh.Some? { OneArtifactWritten(cfg, w, op, w', r, Refresh, op.rnd); }
  }

  lemma SpendTokens(cfg: Config, w: World, op: Op, w': World, r: Reply, client: Client, d: Doc, granted: string)
    requires (op.CodeOp? || op.RefreshOp?) && op.clientId in w.clients && client == w.clients[op.clientId]
    requires Stored(w.kv, BatonName(op), BatonId(op)) == Some(d) && (d.CodeDoc? || d.RefreshDoc?)
        && d.clientId == client.clientId
    requires Scopes.Allowed(client.scopes, d.scope, false) == Ok(granted)
    requires (w', r) == Spend(cfg, w, client, BatonName(op), BatonId(op), d.sub, granted, RootOf(w, op), op.rnd)
    ensures TokenEffect(w, op, w', r)
  {
    SpendWrites(cfg, w, op, w', r, client, d.sub, granted);
  }

  lemma SpendSteps(cfg: Config, w: World, op: Op, w': World, r: Reply, client: Client, d: Doc, granted: string)
    requires (op.CodeOp? || op.RefreshOp?) && op.clientId in w.clients && client == w.clients[op.clientId]
    requires Stored(w.kv, BatonName(op), BatonId(op)) == Some(d) && (d.CodeDoc? || d.RefreshDoc?)
        && d.clientId == client.clientId
    requires Scopes.Allowed(client.scopes, d.scope, false) == Ok(granted)
    requires (w', r) == Spend(cfg, w, client, BatonName(op), BatonId(op), d.sub, granted, RootOf(w, op), op.rnd)
    ensures Effect(cfg, w, op, w', r)
  {
    SpendTokens(cfg, w, op, w', r, client, d, granted);
    SpendWrites(cfg, w, op, w', r, client, d.sub, granted);
  }

  lemma CodeSteps(cfg: Config, w: World, op: Op, w': World, r: Reply)
    requires op.CodeOp? && (w', r) == TokenFromCode(cfg, w, op.clientId, op.code, op.redirectUri, op.verifier, op.rnd)
    ensures Effect(cfg, w, op, w', r)
  {
    if r.Tokens? {
      SpendSteps(cfg, w, op, w', r, w.clients[op.clientId], GetArtifact(w.kv, Code, op.code).value, r.scope);
    } else {
      assert w' == w || w' == w.(kv := DeleteArtifact(w.kv, Code, op.code));
    }
  }

  lemma RefreshSteps(cfg: Config, w: World, op: Op, w': World, r: Reply)
    requires op.RefreshOp? && (w', r) == TokenFromRefresh(cfg, w, op.clientId, op.token, op.rnd)
    ensures Effect(cfg, w, op, w', r)
  {
    if r.Tokens? {
      SpendSteps(cfg, w, op, w', r, w.clients[op.clientId], GetArtifact(w.kv, Refresh, op.token).value, r.scope);
    } else {
      assert w' == w;
    }
  }

  lemma ErasingSteps(cfg: Config, w: World, op: Op, w': World, r: Reply)
    requires op.LogoutOp? || op.RevokeOp?
    requires (w', r) == Step(cfg, w, op)
    ensures Effect(cfg, w, op, w', r)
  {
  }

  lemma PlainSteps(cfg: Config, w: World, op: Op, w': World, r: Reply)
    requires op.Tick? || op.SetClient? || op.RemoveClient?
    requires (w', r) == Step(cfg, w, op)
    ensures Effect(cfg, w, op, w', r)
  {
  }

  /** Every step has its effect as described. */
  lemma StepEffect(cfg: Config, w: World, op: Op, w': World, r: Reply)
    requires (w', r) == Step(cfg, w, op)
    ensures Effect(cfg, w, op, w', r)
  {
    match op
    case AuthorizeOp(_, _, _) => AuthorizeSteps(cfg, w, op, w', r);
    case LoginOp(uid, username, ip, auth, _) =>
      ConcludeSteps(cfg, w, op, w', r, ToLower(username), Judge(cfg, w, uid, ToLower(username), ip, auth));
    case ChangeOp(uid, _, _) => RedeemSteps(cfg, w, op, w', r, PasswordChange, uid);
    case BeginResetOp(_, _, _, _, _) => BeginResetSteps(cfg, w, op, w', r);
    case ResetOp(token, _, _) => RedeemSteps(cfg, w, op, w', r, PasswordReset, token);
    case ConfirmOp(_, _, _, _) => ConfirmSteps(cfg, w, op, w', r);
    case CodeOp(_, _, _, _, _) => CodeSteps(cfg, w, op, w', r);
    case RefreshOp(_, _, _) => RefreshSteps(cfg, w, op, w', r);
    case LogoutOp(_) => ErasingSteps(cfg, w, op, w', r);
    case RevokeOp(_, _) => ErasingSteps(cfg, w, op, w', r);
    case _ => PlainSteps(cfg, w, op, w', r);
  }

  // ---- frames ----

  predicate SameEntry(kv: Store, kv': Store, k: Key)
  {
    (k in kv.entries <==> k in kv'.entries) && (k in kv.entries ==> kv'.entries[k] == kv.entries[k])
  }

  /** How long an artifact is kept; zero or less means without limit. */
  function Lifetime(cfg: Config, name: Name): Kv.Time
  {
    match name
    case Session => 24 * Kv.HOUR
    case Interaction => 10 * Kv.MINUTE
    case Code => cfg.codeTTL
    case PasswordChange => 10 * Kv.MINUTE
    case PasswordReset => cfg.resetTTL
    case Refresh => cfg.refreshTTL
    case Revoked => cfg.refreshTTL
  }

  /** A step writes an artifact under its own random id or its own interaction, with the artifact's lifetime. */
  predicate Timed(cfg: Config, w: World, op: Op, k: Key, e: Kv.Entry<Key, Doc>)
    requires k.Art?
  {
    && e.value.Blob? && e.expiry == Kv.Deadline(w.kv.now, Lifetime(cfg, k.name))
    && (Rnd(op) == Some(k.id) || (k.name == PasswordChange && op.LoginOp? && op.uid == k.id))
  }

  /**
   Time moves by ticks alone, revocation marks are left alone, only logins touch counters and locks,
   and writes are timed.
   */
  ghost predicate FrameEffect(cfg: Config, w: World, op: Op, w': World)
  {
    && (forall k: Key :: k.Art? && k in w'.kv.entries && !SameEntry(w.kv, w'.kv, k) ==>
        Timed(cfg, w, op, k, w'.kv.entries[k]))
    && w'.kv.now == w.kv.now + (if op.Tick? then op.d else 0)
    && (forall k: Key :: k.Art? && k.name == Revoked ==> SameEntry(w.kv, w'.kv, k))
    && (!op.LoginOp? ==> forall k: Key :: !k.Art? ==> SameEntry(w.kv, w'.kv, k))
  }

  /** Writing one artifact under the step's own random id, with its kind's lifetime. */
  lemma WrittenFrame(cfg: Config, w: World, op: Op, w': World, n: Name, d: Doc)
    requires !op.Tick? && Rnd(op).Some? && n != Revoked
    requires w'.kv == PutArtifact(w.kv, n, Rnd(op).value, d, Lifetime(cfg, n))
    ensures FrameEffect(cfg, w, op, w')
  {
  }

  lemma AnswerFrame(cfg: Config, w: World, op: Op, w': World, client: Client, q: Query, sub: Option<string>, auto: bool)
    requires op.AuthorizeOp? && w' == Answer(cfg, w, client, q, sub, auto, op.rnd).0
    ensures FrameEffect(cfg, w, op, w')
  {
  }

  lemma ConsentedFrame(cfg: Config, w: World, op: Op, w': World, client: Client, sub: string, q: Query, c: Consent)
    requires op.ConfirmOp? && w' == Finish(cfg, FileConsent(cfg, w, c), client, sub, q, op.rnd).0
    ensures FrameEffect(cfg, w, op, w')
  {
  }

  lemma CountersKeepOthers(s: Store, who: string, lockAfter: int, k: Key)
    requires k != Fail(who) && k != Lock(who)
    ensures SameEntry(s, RecordLoginFailure(s, who, lockAfter, LOCK_FOR), k)
    ensures SameEntry(s, ResetLoginFailures(s, who), k)
  {
  }

  lemma BothKeepArtifacts(cfg: Config, kv: Store, uname: string, ip: string, k: Key)
    requires k.Art?
    ensures SameEntry(kv, RecordBoth(cfg, kv, uname, ip), k) && SameEntry(kv, ResetBoth(cfg, kv, uname, ip), k)
  {
    var ipKey := cfg.ipKey(uname, ip);
    CountersKeepOthers(kv, ipKey, IP_LOCK_AFTER, k);
    CountersKeepOthers(RecordLoginFailure(kv, ipKey, IP_LOCK_AFTER, LOCK_FOR), cfg.userKey(uname), USER_LOCK_AFTER, k);
    CountersKeepOthers(ResetLoginFailures(kv, ipKey), cfg.userKey(uname), USER_LOCK_AFTER, k);
  }

  lemma ConcludeFrame(cfg: Config, w: World, op: Op, w': World, uname: string, v: Verdict)
    requires op.LoginOp? && w' == Conclude(cfg, w, op.uid, uname, op.ip, v, op.auth.requireChange, op.rnd).0
    ensures FrameEffect(cfg, w, op, w')
  {
    forall k: Key | k.Art? && (k.name == Revoked || (k in w'.kv.entries && !SameEntry(w.kv, w'.kv, k)))
      ensures k.name == Revoked ==> SameEntry(w.kv, w'.kv, k)
      ensures k in w'.kv.entries && !SameEntry(w.kv, w'.kv, k) ==> Timed(cfg, w, op, k, w'.kv.entries[k])
    {
      BothKeepArtifacts(cfg, w.kv, uname, op.ip, k);
    }
  }

  lemma SpendFrame(cfg: Config, w: World, op: Op, w': World, client: Client, d: Doc, granted: string)
    requires op.CodeOp? || op.RefreshOp?
    requires d.CodeDoc? || d.RefreshDoc?
    requires w' == Spend(cfg, w, client, BatonName(op), BatonId(op), d.sub, granted, RootOf(w, op), op.rnd).0
    ensures FrameEffect(cfg, w, op, w')
  {
    SpentFrame(cfg, w, op, w', DeleteArtifact(w.kv, BatonName(op), BatonId(op)),
        RefreshDoc(client.clientId, d.sub, granted));
  }

  lemma SpentFrame(cfg: Config, w: World, op: Op, w': World, gone: Store, d: Doc)
    requires op.CodeOp? || op.RefreshOp?
    requires gone == DeleteArtifact(w.kv, BatonName(op), BatonId(op))
    requires w'.kv == gone || w'.kv == PutArtifact(gone, Refresh, op.rnd, d, cfg.refreshTTL)
    ensures FrameEffect(cfg, w, op, w')
  {
  }

  lemma CodeFrame(cfg: Config, w: World, op: Op, w': World, r: Reply)
    requires op.CodeOp? && (w', r) == TokenFromCode(cfg, w, op.clientId, op.code, op.redirectUri, op.verifier, op.rnd)
    ensures FrameEffect(cfg, w, op, w')
  {
    if r.Tokens? {
      SpendFrame(cfg, w, op, w', w.clients[op.clientId], GetArtifact(w.kv, Code, op.code).value, r.scope);
    } else {
      assert w' == w || w' == w.(kv := DeleteArtifact(w.kv, Code, op.code));
    }
  }

  lemma RefreshFrame(cfg: Config, w: World, op: Op, w': World, r: Reply)
    requires op.RefreshOp? && (w', r) == TokenFromRefresh(cfg, w, op.clientId, op.token, op.rnd)
    ensures FrameEffect(cfg, w, op, w')
  {
    if r.Tokens? {
      SpendFrame(cfg, w, op, w', w.clients[op.clientId], GetArtifact(w.kv, Refresh, op.token).value, r.scope);
    } else {
      assert w' == w;
    }
  }

  lemma RedeemFrame(cfg: Config, w: World, op: Op, w': World, n: Name, x: string)
    requires (op.ChangeOp? || op.ResetOp?) && n != Revoked && w' == Redeem(w, n, x, op.passwordSet, op.rnd).0
    ensures FrameEffect(cfg, w, op, w')
  {
  }

  lemma BeginResetFrame(cfg: Config, w: World, op: Op, w': World)
    requires op.BeginResetOp? && w' == BeginReset(cfg, w, op.login, op.recovery, op.found, op.dests, op.rnd).0
    ensures FrameEffect(cfg, w, op, w')
  {
    if w' != w { WrittenFrame(cfg, w, op, w', PasswordReset, PersonDoc(op.found.value.id, Clean(op.recovery))); }
  }

  lemma ConfirmFrame(cfg: Config, w: World, op: Op, w': World, r: Reply)
    requires op.ConfirmOp? && (w', r) == ConfirmConsent(cfg, w, op.uid, op.allow, op.sid, op.rnd)
    ensures FrameEffect(cfg, w, op, w')
  {
    if r.Finished? { ConsentedFrame(cfg, w, op, w', r.client, r.sub, r.q, ConsentFor(r.client, r.sub, r.q)); }
  }

  lemma AuthorizeFrame(cfg: Config, w: World, op: Op, w': World, r: Reply)
    requires op.AuthorizeOp? && (w', r) == Authorize(cfg, w, op.q, op.sid, op.rnd)
    ensures FrameEffect(cfg, w, op, w')
  {
    match Validate(w.clients, op.q)
    case Invalid(_) =>
    case Valid(client, q) =>
      var sub := SessionSub(w, op.sid);
      AnswerFrame(cfg, w, op, w', client, q, sub, sub.Some? && CanAutoGrant(cfg, w, client, sub.value, q));
  }

  lemma ErasingFrame(cfg: Config, w: World, op: Op, w': World, n: Name, x: string)
    requires !op.Tick? && n != Revoked && (w'.kv == w.kv || w'.kv == DeleteArtifact(w.kv, n, x))
    ensures FrameEffect(cfg, w, op, w')
  {
  }

  lemma PlainFrame(cfg: Config, w: World, op: Op, w': World)
    requires op.Tick? || op.SetClient? || op.RemoveClient?
    requires w' == Step(cfg, w, op).0
    ensures FrameEffect(cfg, w, op, w')
  {
  }

  lemma StepFrame(cfg: Config, w: World, op: Op, w': World, r: Reply)
    requires (w', r) == Step(cfg, w, op)
    ensures FrameEffect(cfg, w, op, w')
  {
    match op
    case AuthorizeOp(_, _, _) => AuthorizeFrame(cfg, w, op, w', r);
    case LoginOp(uid, username, ip, auth, _) =>
      ConcludeFrame(cfg, w, op, w', ToLower(username), Judge(cfg, w, uid, ToLower(username), ip, auth));
    case ChangeOp(uid, _, _) => RedeemFrame(cfg, w, op, w', PasswordChange, uid);
    case BeginResetOp(_, _, _, _, _) => BeginResetFrame(cfg, w, op, w');
    case ResetOp(token, _, _) => RedeemFrame(cfg, w, op, w', PasswordReset, token);
    case ConfirmOp(_, _, _, _) => ConfirmFrame(cfg, w, op, w', r);
    case CodeOp(_, _, _, _, _) => CodeFrame(cfg, w, op, w', r);
    case RefreshOp(_, _, _) => RefreshFrame(cfg, w, op, w', r);
    case LogoutOp(sid) => ErasingFrame(cfg, w, op, w', Session, if sid.Some? then sid.value else "");
    case RevokeOp(_, token) => ErasingFrame(cfg, w, op, w', Refresh, token);
    case _ => PlainFrame(cfg, w, op, w');
  }

  /** Tokens for a code need its redirect URI and a verifier whose digest is its challenge, while the code is live. */
  lemma CodeChecked(cfg: Config, w: World, op: Op, w': World, r: Reply)
    requires op.CodeOp? && (w', r) == Step(cfg, w, op) && r.Tokens?
    ensures GetArtifact(w.kv, Code, op.code).Some?
    ensures var d := GetArtifact(w.kv, Code, op.code).value;
      d.CodeDoc? && d.redirectUri == op.redirectUri && (d.challenge == "" || d.challenge == cfg.sha(op.verifier))
  {
  }
}
