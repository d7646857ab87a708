/** Runs of the provider machine from an empty store, and facts every run shares. */
module Runs {
  import opened Text
  import opened Artifacts
  import opened Provider
  import opened Effects
  import Kv

  /** Successive worlds, the steps between them, and the replies to those steps. */
  datatype Trace = Trace(ws: seq<World>, ops: seq<Op>, rs: seq<Reply>)

  /** Account ids, which become subjects, contain no NUL. */
  predicate CleanOp(op: Op)
  {
    && (op.LoginOp? && op.auth.account.Some? ==> NulFree(op.auth.account.value.id))
    && (op.BeginResetOp? && op.found.Some? ==> NulFree(op.found.value.id))
  }

  ghost predicate Fresh(ops: seq<Op>)
  {
    forall i, j :: 0 <= i < j < |ops| && Rnd(ops[i]).Some? ==> Rnd(ops[i]) != Rnd(ops[j])
  }

  predicate Shape(t: Trace) { |t.ws| == |t.ops| + 1 && |t.rs| == |t.ops| }

  ghost predicate StepAt(cfg: Config, t: Trace, i: nat)
    requires Shape(t) && i < |t.ops|
  {
    (t.ws[i + 1], t.rs[i]) == Step(cfg, t.ws[i], t.ops[i])
  }

  /** The trace runs the machine from an empty store; random ids never repeat. */
  ghost predicate IsRun(cfg: Config, t: Trace)
  {
    && Shape(t)
    && t.ws[0].kv.entries == map[] && t.ws[0].consents == map[] && t.ws[0].grants == map[] && t.ws[0].lineage == map[]
    && Keyed(t.ws[0])
    && Fresh(t.ops)
    && (forall i :: 0 <= i < |t.ops| ==> CleanOp(t.ops[i]))
    && (forall i: nat {:trigger StepAt(cfg, t, i)} :: i < |t.ops| ==> StepAt(cfg, t, i))
  }

  /** Steps of a run, seen through their effects. */
  lemma At(cfg: Config, t: Trace, i: nat)
    requires IsRun(cfg, t) && i < |t.ops|
    ensures Effect(cfg, t.ws[i], t.ops[i], t.ws[i + 1], t.rs[i])
  {
    assert StepAt(cfg, t, i);
    StepEffect(cfg, t.ws[i], t.ops[i], t.ws[i + 1], t.rs[i]);
  }

  lemma FrameAt(cfg: Config, t: Trace, i: nat)
    requires IsRun(cfg, t) && i < |t.ops|
    ensures FrameEffect(cfg, t.ws[i], t.ops[i], t.ws[i + 1])
  {
    assert StepAt(cfg, t, i);
    StepFrame(cfg, t.ws[i], t.ops[i], t.ws[i + 1], t.rs[i]);
  }

  /** Time never goes back. */
  lemma {:induction false} TimeMovesOn(cfg: Config, t: Trace, i: nat, j: nat)
    requires IsRun(cfg, t) && i <= j <= |t.ops|
    ensures t.ws[i].kv.now <= t.ws[j].kv.now
    decreases j
  {
    if i < j {
      TimeMovesOn(cfg, t, i, j - 1);
      FrameAt(cfg, t, j - 1);
    }
  }

  lemma {:induction false} AlwaysKeyed(cfg: Config, t: Trace, n: nat)
    requires IsRun(cfg, t) && n <= |t.ops|
    ensures Keyed(t.ws[n])
  {
    if n > 0 {
      AlwaysKeyed(cfg, t, n - 1);
      At(cfg, t, n - 1);
    }
  }

  /** A step writes an artifact other than a pending password change only under its own random id. */
  lemma WritesAreFresh(cfg: Config, w: World, op: Op, w': World, r: Reply, name: Name, id: string)
    requires Effect(cfg, w, op, w', r) && name != PasswordChange
    ensures Stored(w'.kv, name, id) == Stored(w.kv, name, id) || Stored(w'.kv, name, id).None? || Rnd(op) == Some(id)
  {
  }

  /**
   Birth: an artifact under a random id was absent until the one step that drew the id, and is stored
   to this day exactly as that step wrote it, with the lifetime of its kind.
   */
  lemma {:induction false} Birth(cfg: Config, t: Trace, n: nat, name: Name, id: string) returns (b: nat)
    requires IsRun(cfg, t) && n <= |t.ops| && name != PasswordChange
    requires Art(name, id) in t.ws[n].kv.entries
    ensures b < n && Rnd(t.ops[b]) == Some(id) && Art(name, id) !in t.ws[b].kv.entries
    ensures SameEntry(t.ws[b + 1].kv, t.ws[n].kv, Art(name, id))
    ensures Timed(cfg, t.ws[b], t.ops[b], Art(name, id), t.ws[n].kv.entries[Art(name, id)])
  {
    assert n > 0;
    var k := Art(name, id);
    FrameAt(cfg, t, n - 1);
    if k in t.ws[n - 1].kv.entries {
      b := Birth(cfg, t, n - 1, name, id);
      assert SameEntry(t.ws[n - 1].kv, t.ws[n].kv, k);
    } else {
      b := n - 1;
    }
  }

  lemma BornFresh(cfg: Config, t: Trace, n: nat, name: Name, id: string) returns (b: nat)
    requires IsRun(cfg, t) && n <= |t.ops| && name != PasswordChange
    requires Stored(t.ws[n].kv, name, id).Some?
    ensures b < n && Rnd(t.ops[b]) == Some(id)
        && Wrote(cfg, t.ws[b], t.ops[b], t.rs[b], name, id, Stored(t.ws[n].kv, name, id).value)
    ensures GetArtifact(t.ws[n].kv, name, id).Some? && Lifetime(cfg, name) > 0 ==>
        t.ws[n].kv.now < t.ws[b].kv.now + Kv.SetTtl(Lifetime(cfg, name))
  {
    b := Birth(cfg, t, n, name, id);
    At(cfg, t, b);
    assert Stored(t.ws[b].kv, name, id).None? && Stored(t.ws[b + 1].kv, name, id) == Stored(t.ws[n].kv, name, id);
  }

  /** Once such an artifact is gone it never comes back. */
  lemma {:induction false} NeverReturns(cfg: Config, t: Trace, name: Name, id: string, i: nat, j: nat, k: nat)
    requires IsRun(cfg, t) && i < j <= k <= |t.ops| && name != PasswordChange
    requires Stored(t.ws[i].kv, name, id).Some? && Stored(t.ws[j].kv, name, id).None?
    ensures Stored(t.ws[k].kv, name, id).None?
    decreases k
  {
    if j < k {
      NeverReturns(cfg, t, name, id, i, j, k - 1);
      var b := BornFresh(cfg, t, i, name, id);
      At(cfg, t, k - 1);
      WritesAreFresh(cfg, t.ws[k - 1], t.ops[k - 1], t.ws[k], t.rs[k - 1], name, id);
    }
  }

  /** A code that yielded tokens yields none later. */
  lemma CodeSpentOnce(cfg: Config, t: Trace, i: nat, j: nat)
    requires IsRun(cfg, t) && i < j < |t.ops|
    requires t.ops[i].CodeOp? && t.ops[j].CodeOp? && t.ops[i].code == t.ops[j].code && t.rs[i].Tokens?
    ensures !t.rs[j].Tokens?
  {
    var code := t.ops[i].code;
    At(cfg, t, i);
    At(cfg, t, j);
    var b := BornFresh(cfg, t, i, Code, code);
    WritesAreFresh(cfg, t.ws[i], t.ops[i], t.ws[i + 1], t.rs[i], Code, code);
    assert Stored(t.ws[i + 1].kv, Code, code).None?;
    NeverReturns(cfg, t, Code, code, i, i + 1, j);
  }

  /** A reset token that set a password sets none later. */
  lemma ResetSpentOnce(cfg: Config, t: Trace, i: nat, j: nat)
    requires IsRun(cfg, t) && i < j < |t.ops|
    requires t.ops[i].ResetOp? && t.ops[j].ResetOp? && t.ops[i].token == t.ops[j].token && t.rs[i].SignedIn?
    ensures !t.rs[j].SignedIn?
  {
    At(cfg, t, i);
    At(cfg, t, j);
    NeverReturns(cfg, t, PasswordReset, t.ops[i].token, i, i + 1, j);
  }
}

/** Every authorization the provider finishes was validated, and is trusted or consented to by that subject. */
module AuthorizationSafety {
  import opened Text
  import opened Artifacts
  import opened Provider
  import opened Effects
  import opened Runs
  import Kv
  import Scopes

  /** What validation promises about a client row and the request's parameters. */
  predicate ValidFor(client: Client, p: Params)
  {
    && p.redirectUri in client.redirectUris
    && p.challenge != "" && p.challengeMethod == "S256"
    && Scopes.Subset(Scopes.Parse(p.scope), client.scopes)
    && Scopes.Canonical(p.scope)
  }

  /** Validation succeeds exactly on code requests of known clients that meet ValidFor, up to the form of the scope. */
  lemma ValidateMeans(clients: map<string, Client>, q: Query)
    ensures Validate(clients, q).Valid? <==>
      && q.params.clientId in clients && q.responseType == "code"
      && ValidFor(clients[q.params.clientId], q.params.(scope := Scopes.Format(Scopes.Parse(q.params.scope))))
    ensures var r := Validate(clients, q);
      r.Valid? ==>
        && r.client == clients[q.params.clientId] && ValidFor(r.client, r.q.params)
        && r.q == q.(params := q.params.(scope := r.q.params.scope))
        && Scopes.Parse(r.q.params.scope) == Scopes.Parse(q.params.scope)
  {
    if q.params.clientId in clients {
      Scopes.AllowedIdempotent(clients[q.params.clientId].scopes, q.params.scope);
      Scopes.ParseFormatParse(q.params.scope);
    }
  }

  /** Step j is an authorization request that was validated with exactly these parameters. */
  ghost predicate ValidatedAt(t: Trace, j: nat, p: Params)
    requires Shape(t) && j < |t.ops|
  {
    && t.ops[j].AuthorizeOp?
    && Validate(t.ws[j].clients, t.ops[j].q).Valid?
    && Validate(t.ws[j].clients, t.ops[j].q).q.params == p
    && p.clientId in t.ws[j].clients && ValidFor(t.ws[j].clients[p.clientId], p)
  }

  ghost predicate ValidatedBefore(t: Trace, n: nat, p: Params)
    requires Shape(t) && n <= |t.ops|
  {
    exists j: nat :: j < n && ValidatedAt(t, j, p)
  }

  /** Invariant: every stored interaction holds parameters some earlier request was validated with. */
  lemma InteractionsValidated(cfg: Config, t: Trace, n: nat, uid: string)
    requires IsRun(cfg, t) && n <= |t.ops| && Stored(t.ws[n].kv, Interaction, uid).Some?
    ensures var d := Stored(t.ws[n].kv, Interaction, uid).value;
      (d.LoginDoc? || d.ConsentDoc?) && ValidatedBefore(t, n, d.params)
  {
    var j := BornFresh(cfg, t, n, Interaction, uid);
    AlwaysKeyed(cfg, t, j);
    ValidateMeans(t.ws[j].clients, t.ops[j].q);
    assert ValidatedAt(t, j, Stored(t.ws[n].kv, Interaction, uid).value.params);
  }

  /** A live interaction is less than ten minutes old. */
  lemma InteractionsAreYoung(cfg: Config, t: Trace, n: nat, uid: string) returns (j: nat)
    requires IsRun(cfg, t) && n <= |t.ops| && GetArtifact(t.ws[n].kv, Interaction, uid).Some?
    ensures j < n && t.ops[j].AuthorizeOp? && t.ops[j].rnd == uid
    ensures t.ws[j].kv.now <= t.ws[n].kv.now < t.ws[j].kv.now + 10 * Kv.MINUTE
  {
    j := BornFresh(cfg, t, n, Interaction, uid);
    TimeMovesOn(cfg, t, j, n);
  }

  // ---- subjects and consents ----

  ghost predicate CleanSubjects(w: World)
  {
    forall name, id :: Stored(w.kv, name, id).Some? && Stored(w.kv, name, id).value.PersonDoc? ==>
      NulFree(Stored(w.kv, name, id).value.sub)
  }

  /** Each consent is filed under its own subject and client. */
  ghost predicate FiledConsents(cfg: Config, w: World)
  {
    forall k :: k in w.consents ==>
      k == cfg.consentId(w.consents[k].subject, w.consents[k].clientId) && NulFree(w.consents[k].subject)
  }

  lemma StepKeepsSubjects(cfg: Config, w: World, op: Op, w': World, r: Reply)
    requires Effect(cfg, w, op, w', r) && CleanSubjects(w) && CleanOp(op)
    ensures CleanSubjects(w')
  {
    forall name, id | Stored(w'.kv, name, id).Some? && Stored(w'.kv, name, id).value.PersonDoc?
      ensures NulFree(Stored(w'.kv, name, id).value.sub)
    {
      if Stored(w'.kv, name, id) != Stored(w.kv, name, id) {
        assert Wrote(cfg, w, op, r, name, id, Stored(w'.kv, name, id).value);
      }
    }
  }

  lemma StepKeepsConsents(cfg: Config, w: World, op: Op, w': World, r: Reply)
    requires Effect(cfg, w, op, w', r) && CleanSubjects(w) && FiledConsents(cfg, w)
    ensures FiledConsents(cfg, w')
  {
    assert r.Finished? ==> Stored(w.kv, Session, op.sid.value).Some?;
  }

  lemma {:induction false} SubjectsClean(cfg: Config, t: Trace, n: nat)
    requires IsRun(cfg, t) && n <= |t.ops|
    ensures CleanSubjects(t.ws[n]) && FiledConsents(cfg, t.ws[n])
  {
    if n > 0 {
      SubjectsClean(cfg, t, n - 1);
      At(cfg, t, n - 1);
      StepKeepsSubjects(cfg, t.ws[n - 1], t.ops[n - 1], t.ws[n], t.rs[n - 1]);
      StepKeepsConsents(cfg, t.ws[n - 1], t.ops[n - 1], t.ws[n], t.rs[n - 1]);
    }
  }

  /** Step m is the confirmation, by the subject in person, that filed this consent. */
  ghost predicate GivenAt(t: Trace, m: nat, c: Consent)
    requires Shape(t) && m < |t.ops|
  {
    && t.ops[m].ConfirmOp? && t.ops[m].allow == "yes" && SessionSub(t.ws[m], t.ops[m].sid) == Some(c.subject)
    && t.rs[m].Finished? && c == ConsentFor(t.rs[m].client, c.subject, t.rs[m].q)
  }

  /** A step that changes a consent is the confirmation that files it. */
  lemma ChangedConsentIsGiven(cfg: Config, t: Trace, m: nat, k: string)
    requires IsRun(cfg, t) && m < |t.ops| && k in t.ws[m + 1].consents
    requires !(k in t.ws[m].consents && t.ws[m].consents[k] == t.ws[m + 1].consents[k])
    ensures GivenAt(t, m, t.ws[m + 1].consents[k])
  {
    At(cfg, t, m);
    FinishGives(cfg, t.ws[m], t.ops[m], t.ws[m + 1], t.rs[m], k);
  }

  lemma FinishGives(cfg: Config, w: World, op: Op, w': World, r: Reply, k: string)
    requires HistoryEffect(cfg, w, op, w', r) && FinishEffect(cfg, w, op, w', r)
    requires k in w'.consents && !(k in w.consents && w.consents[k] == w'.consents[k])
    ensures op.ConfirmOp? && op.allow == "yes" && r.Finished? && SessionSub(w, op.sid) == Some(r.sub)
    ensures w'.consents[k] == ConsentFor(r.client, r.sub, r.q)
  {
  }

  /** Every stored consent was given by its subject, from a live session, for the parameters that were then finished. */
  lemma {:induction false} ConsentsWereGiven(cfg: Config, t: Trace, n: nat, k: string) returns (m: nat)
    requires IsRun(cfg, t) && n <= |t.ops| && k in t.ws[n].consents
    ensures m < n && GivenAt(t, m, t.ws[n].consents[k])
  {
    assert n > 0;
    if k in t.ws[n - 1].consents && t.ws[n - 1].consents[k] == t.ws[n].consents[k] {
      m := ConsentsWereGiven(cfg, t, n - 1, k);
    } else {
      m := n - 1;
      ChangedConsentIsGiven(cfg, t, m, k);
    }
  }

  /** Consents of distinct NUL-free subjects, or for distinct clients, are filed apart. */
  ghost predicate FilesApart(cfg: Config)
  {
    forall s1, c1, s2, c2 :: NulFree(s1) && NulFree(s2) && cfg.consentId(s1, c1) == cfg.consentId(s2, c2) ==>
      s1 == s2 && c1 == c2
  }

  function ConsentGrantId(sha: string -> string, sub: string, clientId: string): string
  {
    "consent:" + sha(sub + [NUL] + clientId)
  }

  /** The real consent key files apart when the hash is injective. */
  lemma ConsentGrantIdFilesApart(sha: string -> string, s1: string, c1: string, s2: string, c2: string)
    requires forall x, y :: sha(x) == sha(y) ==> x == y
    requires NulFree(s1) && NulFree(s2) && ConsentGrantId(sha, s1, c1) == ConsentGrantId(sha, s2, c2)
    ensures s1 == s2 && c1 == c2
  {
    var h1, h2 := sha(s1 + [NUL] + c1), sha(s2 + [NUL] + c2);
    assert h1 == ("consent:" + h1)[8..] && h2 == ("consent:" + h2)[8..];
    HeadTailInjective(s1, c1, s2, c2, NUL);
  }

  ghost predicate Consented(w: World, sub: string, clientId: string, scope: string)
  {
    exists k :: k in w.consents && w.consents[k].subject == sub && w.consents[k].clientId == clientId
      && Scopes.Subset(Scopes.Parse(scope), w.consents[k].scopes)
  }

  lemma FinishIsConsented(cfg: Config, w: World, op: Op, w': World, r: Reply)
    requires Effect(cfg, w, op, w', r) && r.Finished?
    requires CleanSubjects(w) && FiledConsents(cfg, w) && FilesApart(cfg)
    ensures cfg.trusted(r.client) || Consented(w', r.sub, r.client.clientId, r.q.params.scope)
  {
    assert Stored(w.kv, Session, op.sid.value).Some?;
    if op.ConfirmOp? || !cfg.trusted(r.client) {
      var k := cfg.consentId(r.sub, r.client.clientId);
      assert k in w'.consents && w'.consents[k].subject == r.sub;
    }
  }

  /** What a consent holds: the scopes that were asked for, and as audiences those asked for and the client itself. */
  ghost predicate HoldsWhatWasAsked(c: Consent, client: Client, q: Query)
  {
    && (forall s :: s in c.scopes <==> s in Scopes.Parse(q.params.scope))
    && (forall a :: a in c.audiences <==>
          a != "" && ((q.audiences != [] && a in Scopes.Parse(q.audiences[0])) || a == TrimSpace(client.clientId)))
  }

  lemma ConsentHoldsWhatWasAsked(client: Client, sub: string, q: Query)
    ensures HoldsWhatWasAsked(ConsentFor(client, sub, q), client, q)
  {
    var c, asked := ConsentFor(client, sub, q), Scopes.Parse(FirstAudience(q));
    var values := asked + [client.clientId];
    Scopes.ParseFormatParse(FirstAudience(q));
    forall a ensures a in c.audiences <==>
      a != "" && ((q.audiences != [] && a in Scopes.Parse(q.audiences[0])) || a == TrimSpace(client.clientId))
    {
      Scopes.NonBlankMeans(values, a);
      forall x | x in asked ensures TrimSpace(x) == x { TrimSpaceFree(x); }
      assert client.clientId in values;
      if a in asked { assert a in values && TrimSpace(a) == a; }
      assert forall x :: x in values ==> x in asked || x == client.clientId;
    }
  }

  /** Step m is a confirmation, from a live session of `sub`, that finished an authorization of this client. */
  ghost predicate ConfirmedBy(t: Trace, m: nat, sub: string, clientId: string)
    requires Shape(t) && m < |t.ops|
  {
    && t.ops[m].ConfirmOp? && t.ops[m].allow == "yes" && SessionSub(t.ws[m], t.ops[m].sid) == Some(sub)
    && t.rs[m].Finished? && t.rs[m].sub == sub && t.rs[m].client.clientId == clientId
  }

  /** In every reachable state each consent holds exactly what its subject was asked when confirming it. */
  lemma ConsentsHoldWhatWasAsked(cfg: Config, t: Trace, n: nat, k: string) returns (m: nat)
    requires IsRun(cfg, t) && n <= |t.ops| && k in t.ws[n].consents
    ensures var c := t.ws[n].consents[k];
      && m < n && ConfirmedBy(t, m, c.subject, c.clientId) && HoldsWhatWasAsked(c, t.rs[m].client, t.rs[m].q)
  {
    m := ConsentsWereGiven(cfg, t, n, k);
    At(cfg, t, m);
    ConsentHoldsWhatWasAsked(t.rs[m].client, t.ws[n].consents[k].subject, t.rs[m].q);
  }

  /**
   No request of an untrusted client is finished without asking unless the same subject has confirmed,
   for the same client, a request for at least the same scopes before.
   */
  lemma UnaskedWasConfirmed(cfg: Config, t: Trace, i: nat) returns (m: nat)
    requires IsRun(cfg, t) && FilesApart(cfg) && i < |t.ops|
    requires t.ops[i].AuthorizeOp? && t.rs[i].Finished? && !cfg.trusted(t.rs[i].client)
    ensures m < i && ConfirmedBy(t, m, t.rs[i].sub, t.rs[i].client.clientId)
    ensures forall s :: s in Scopes.Parse(t.rs[i].q.params.scope) ==> s in Scopes.Parse(t.rs[m].q.params.scope)
  {
    At(cfg, t, i);
    SubjectsClean(cfg, t, i);
    FinishIsConsented(cfg, t.ws[i], t.ops[i], t.ws[i + 1], t.rs[i]);
    var k :| k in t.ws[i + 1].consents && t.ws[i + 1].consents[k].subject == t.rs[i].sub
      && t.ws[i + 1].consents[k].clientId == t.rs[i].client.clientId
      && Scopes.Subset(Scopes.Parse(t.rs[i].q.params.scope), t.ws[i + 1].consents[k].scopes);
    m := ConsentsHoldWhatWasAsked(cfg, t, i, k);
  }

  /**
   Authorization safety over whole runs: whenever the provider finishes an authorization, its
   parameters are exactly those some request was validated with against the client's registration at
   that time, the subject is that of the live session, and the client is trusted or holds a stored
   consent of that same subject that covers the scopes.
   */
  lemma FinishedIsSafe(cfg: Config, t: Trace, i: nat)
    requires IsRun(cfg, t) && FilesApart(cfg) && i < |t.ops| && t.rs[i].Finished?
    ensures var r := t.rs[i]; var p := r.q.params;
      && ValidatedBefore(t, i + 1, p)
      && p.clientId in t.ws[i].clients && r.client == t.ws[i].clients[p.clientId]
      && (t.ops[i].AuthorizeOp? || t.ops[i].ConfirmOp?) && SessionSub(t.ws[i], t.ops[i].sid) == Some(r.sub)
      && (cfg.trusted(r.client) || Consented(t.ws[i + 1], r.sub, r.client.clientId, p.scope))
  {
    At(cfg, t, i);
    SubjectsClean(cfg, t, i);
    FinishIsConsented(cfg, t.ws[i], t.ops[i], t.ws[i + 1], t.rs[i]);
    FinishedIsValidated(cfg, t, i);
  }

  lemma FinishedIsValidated(cfg: Config, t: Trace, i: nat)
    requires IsRun(cfg, t) && i < |t.ops| && t.rs[i].Finished?
    ensures ValidatedBefore(t, i + 1, t.rs[i].q.params)
  {
    var w, op, r := t.ws[i], t.ops[i], t.rs[i];
    At(cfg, t, i);
    if op.AuthorizeOp? {
      ValidateMeans(w.clients, op.q);
      assert ValidatedAt(t, i, r.q.params);
    } else {
      InteractionsValidated(cfg, t, i, op.uid);
      var j: nat :| j < i && ValidatedAt(t, j, r.q.params);
    }
  }

  // ---- the login detour ----

  /** Parameters that were valid for a client are validated again, unchanged, while the client stays as it was. */
  lemma RevalidatesAsIs(clients: map<string, Client>, d: Doc)
    requires d.LoginDoc? || d.ConsentDoc?
    requires d.params.clientId in clients && ValidFor(clients[d.params.clientId], d.params)
    ensures Validate(clients, QueryOf(d)) == Valid(clients[d.params.clientId], QueryOf(d))
  {
    Scopes.AllowedKeepsCanonical(clients[d.params.clientId].scopes, d.params.scope);
  }

  /**
   The login detour: if the client's registration is still what it was when the request was
   validated, the query rebuilt after login is validated again, with exactly the stored parameters.
   */
  lemma DetourRevalidates(cfg: Config, t: Trace, n: nat, uid: string) returns (j: nat)
    requires IsRun(cfg, t) && n <= |t.ops| && Stored(t.ws[n].kv, Interaction, uid).Some?
    ensures var d := Stored(t.ws[n].kv, Interaction, uid).value;
      && (d.LoginDoc? || d.ConsentDoc?) && j < n && ValidatedAt(t, j, d.params)
      && (d.params.clientId in t.ws[n].clients
          && t.ws[n].clients[d.params.clientId] == t.ws[j].clients[d.params.clientId] ==>
            Validate(t.ws[n].clients, QueryOf(d)) == Valid(t.ws[j].clients[d.params.clientId], QueryOf(d)))
  {
    InteractionsValidated(cfg, t, n, uid);
    var d := Stored(t.ws[n].kv, Interaction, uid).value;
    j :| j < n && ValidatedAt(t, j, d.params);
    if d.params.clientId in t.ws[n].clients
        && t.ws[n].clients[d.params.clientId] == t.ws[j].clients[d.params.clientId] {
      RevalidatesAsIs(t.ws[n].clients, d);
    }
  }

  /**
   What the detour does not carry: whenever a valid request meets no live session, with or without a
   cookie, the query rebuilt after login keeps the audiences exactly when there were none.
   */
  lemma DetourKeepsAudienceIff(cfg: Config, w: World, q: Query, sid: Option<string>, rnd: string)
    requires Validate(w.clients, q).Valid? && SessionSub(w, sid).None?
    ensures var w' := Authorize(cfg, w, q, sid, rnd).0;
      && Stored(w'.kv, Interaction, rnd).Some? && Stored(w'.kv, Interaction, rnd).value.LoginDoc?
      && (QueryOf(Stored(w'.kv, Interaction, rnd).value).audiences == q.audiences <==> q.audiences == [])
  {
    ValidateMeans(w.clients, q);
  }

  // ---- who may confirm, and how often ----

  /** The interaction is live and names a known client, and the cookie names a live session. */
  predicate Confirmable(w: World, uid: string, sid: Option<string>)
  {
    var d := GetArtifact(w.kv, Interaction, uid);
    SessionSub(w, sid).Some? && d.Some? && (d.value.LoginDoc? || d.value.ConsentDoc?)
        && d.value.params.clientId in w.clients
  }

  /**
   Who may confirm: anyone signed in, on any live interaction, finishes the authorization in their own
   name, whoever the interaction was recorded for and whether or not it was meant for consent.
   */
  lemma ConfirmFinishesIff(cfg: Config, w: World, uid: string, allow: string, sid: Option<string>, rnd: string)
    ensures var r := ConfirmConsent(cfg, w, uid, allow, sid, rnd).1;
      && (r.Finished? <==> allow == "yes" && Confirmable(w, uid, sid))
      && (r.Finished? ==>
            Some(r.sub) == SessionSub(w, sid) && r.code == rnd
                && r.q.params == GetArtifact(w.kv, Interaction, uid).value.params)
  {
  }

  /** All artifacts but codes, and all clients, are as before. */
  ghost predicate OnlyCodesAdded(w: World, w': World)
  {
    w'.clients == w.clients && forall n, x :: n != Code ==> GetArtifact(w'.kv, n, x) == GetArtifact(w.kv, n, x)
  }

  lemma CodeWritten(w: World, w': World, code: string, d: Doc, ttl: Kv.Time)
    requires w'.clients == w.clients && w'.kv == PutArtifact(w.kv, Code, code, d, ttl)
    ensures OnlyCodesAdded(w, w')
  {
  }

  /** Confirming leaves the interaction and every session in place. */
  lemma ConfirmAddsCode(cfg: Config, w: World, uid: string, sid: Option<string>, rnd: string, w': World, r: Reply)
    requires Confirmable(w, uid, sid) && (w', r) == ConfirmConsent(cfg, w, uid, "yes", sid, rnd)
    ensures OnlyCodesAdded(w, w') && r.Finished? && r.code == rnd && Some(r.sub) == SessionSub(w, sid)
  {
    var p := r.q.params;
    CodeWritten(w, w', rnd, CodeDoc(r.client.clientId, p.redirectUri, p.scope, r.sub, p.nonce, p.challenge),
        cfg.codeTTL);
  }

  lemma StaysConfirmable(w: World, w': World, uid: string, sid: Option<string>)
    requires OnlyCodesAdded(w, w') && Confirmable(w, uid, sid)
    ensures Confirmable(w', uid, sid) && SessionSub(w', sid) == SessionSub(w, sid)
  {
    assert GetArtifact(w'.kv, Session, sid.value) == GetArtifact(w.kv, Session, sid.value);
  }

  /**
   One interaction, confirmed again and again: who confirms with which fresh code, the worlds
   between, and the replies.
   */
  datatype Confirmations = Confirmations(
    uid: string, sids: seq<Option<string>>, codes: seq<string>, ws: seq<World>, rs: seq<Reply>)

  predicate Aligned(c: Confirmations) { |c.sids| == |c.codes| == |c.rs| == |c.ws| - 1 }

  ghost predicate ConfirmedAt(cfg: Config, c: Confirmations, i: nat)
    requires Aligned(c) && i < |c.rs|
  {
    (c.ws[i + 1], c.rs[i]) == ConfirmConsent(cfg, c.ws[i], c.uid, "yes", c.sids[i], c.codes[i])
  }

  ghost predicate AllConfirmed(cfg: Config, c: Confirmations)
  {
    Aligned(c) && forall j: nat {:trigger ConfirmedAt(cfg, c, j)} :: j < |c.rs| ==> ConfirmedAt(cfg, c, j)
  }

  lemma CodeAddedAt(cfg: Config, c: Confirmations, i: nat)
    requires AllConfirmed(cfg, c) && i < |c.rs| && Confirmable(c.ws[i], c.uid, c.sids[i])
    ensures OnlyCodesAdded(c.ws[i], c.ws[i + 1])
    ensures c.rs[i].Finished? && c.rs[i].code == c.codes[i] && Some(c.rs[i].sub) == SessionSub(c.ws[i], c.sids[i])
  {
    assert ConfirmedAt(cfg, c, i);
    ConfirmAddsCode(cfg, c.ws[i], c.uid, c.sids[i], c.codes[i], c.ws[i + 1], c.rs[i]);
  }

  /**
   How often: while its interaction lives, one validated request yields any number of codes, to any
   signed-in subjects, each for the subject who confirmed.
   */
  lemma {:induction false} OneRequestManyCodes(cfg: Config, c: Confirmations, i: nat)
    requires AllConfirmed(cfg, c) && i <= |c.rs|
    requires forall j :: 0 <= j < |c.rs| ==> Confirmable(c.ws[0], c.uid, c.sids[j])
    ensures forall j :: 0 <= j < |c.rs| ==>
        Confirmable(c.ws[i], c.uid, c.sids[j]) && SessionSub(c.ws[i], c.sids[j]) == SessionSub(c.ws[0], c.sids[j])
    ensures forall j :: 0 <= j < i ==>
        c.rs[j].Finished? && c.rs[j].code == c.codes[j] && Some(c.rs[j].sub) == SessionSub(c.ws[0], c.sids[j])
    decreases i
  {
    if i > 0 {
      OneRequestManyCodes(cfg, c, i - 1);
      CodeAddedAt(cfg, c, i - 1);
      forall j | 0 <= j < |c.rs|
        ensures Confirmable(c.ws[i], c.uid, c.sids[j])
            && SessionSub(c.ws[i], c.sids[j]) == SessionSub(c.ws[0], c.sids[j])
      {
        StaysConfirmable(c.ws[i - 1], c.ws[i], c.uid, c.sids[j]);
      }
    }
  }
}

/** Where sessions come from. */
module SessionProvenance {
  import opened Text
  import opened Artifacts
  import opened Provider
  import opened Effects
  import opened Runs
  import Kv

  /** Step i was an accepted login of `sub` on interaction `uid` that demanded a password change. */
  ghost predicate ForcedAt(t: Trace, i: nat, uid: string, sub: string)
    requires Shape(t) && i < |t.ops|
  {
    AcceptedLogin(t.ops[i], sub) && t.ops[i].auth.requireChange && t.ops[i].uid == uid && t.rs[i].ChangeRequired?
  }

  /** Step m opened session `sid` for `sub`, in one of the three legitimate ways. */
  ghost predicate OpenedAt(cfg: Config, t: Trace, m: nat, sid: string, sub: string)
    requires Shape(t) && m < |t.ops|
  {
    var op := t.ops[m];
    && t.rs[m] == SignedIn(sid, sub)
    && ( || (AcceptedLogin(op, sub) && !op.auth.requireChange)
         || (op.ChangeOp? && op.passwordSet && exists i: nat :: i < m && ForcedAt(t, i, op.uid, sub))
         || (op.ResetOp? && op.passwordSet && exists i: nat :: i < m && BeginsReset(cfg, t.ops[i], op.token, sub)))
  }

  lemma {:induction false} PendingChangeOrigin(cfg: Config, t: Trace, n: nat, uid: string) returns (i: nat)
    requires IsRun(cfg, t) && n <= |t.ops| && Stored(t.ws[n].kv, PasswordChange, uid).Some?
    ensures Stored(t.ws[n].kv, PasswordChange, uid).value.PersonDoc?
    ensures i < n && ForcedAt(t, i, uid, Stored(t.ws[n].kv, PasswordChange, uid).value.sub)
  {
    assert n > 0;
    At(cfg, t, n - 1);
    if Stored(t.ws[n - 1].kv, PasswordChange, uid) == Stored(t.ws[n].kv, PasswordChange, uid) {
      i := PendingChangeOrigin(cfg, t, n - 1, uid);
    } else {
      i := n - 1;
    }
  }

  lemma PendingResetOrigin(cfg: Config, t: Trace, n: nat, token: string) returns (i: nat)
    requires IsRun(cfg, t) && n <= |t.ops| && Stored(t.ws[n].kv, PasswordReset, token).Some?
    ensures Stored(t.ws[n].kv, PasswordReset, token).value.PersonDoc?
    ensures i < n && BeginsReset(cfg, t.ops[i], token, Stored(t.ws[n].kv, PasswordReset, token).value.sub)
    ensures GetArtifact(t.ws[n].kv, PasswordReset, token).Some? && cfg.resetTTL > 0 ==>
        t.ws[n].kv.now < t.ws[i].kv.now + Kv.SetTtl(cfg.resetTTL)
  {
    i := BornFresh(cfg, t, n, PasswordReset, token);
  }

  /** The step that writes a session opens it. */
  lemma WrittenIsOpened(cfg: Config, t: Trace, m: nat, sid: string, d: Doc)
    requires IsRun(cfg, t) && m < |t.ops| && Wrote(cfg, t.ws[m], t.ops[m], t.rs[m], Session, sid, d)
    ensures d.PersonDoc? && OpenedAt(cfg, t, m, sid, d.sub)
  {
    var op := t.ops[m];
    if !(AcceptedLogin(op, d.sub) && !op.auth.requireChange) {
      var n, x :| Redeems(op, n, x) && Stored(t.ws[m].kv, n, x).Some? && Stored(t.ws[m].kv, n, x).value.PersonDoc?
        && Stored(t.ws[m].kv, n, x).value.sub == d.sub;
      if op.ChangeOp? {
        var i := PendingChangeOrigin(cfg, t, m, x);
      } else {
        var i := PendingResetOrigin(cfg, t, m, x);
      }
    }
  }

  /**
   Provenance: in every reachable state, every stored session was opened for its subject in a
   legitimate way, and every live one less than a day ago.
   */
  lemma SessionsHaveProvenance(cfg: Config, t: Trace, n: nat, sid: string) returns (m: nat)
    requires IsRun(cfg, t) && n <= |t.ops| && Stored(t.ws[n].kv, Session, sid).Some?
    ensures Stored(t.ws[n].kv, Session, sid).value.PersonDoc?
    ensures m < n && OpenedAt(cfg, t, m, sid, Stored(t.ws[n].kv, Session, sid).value.sub)
    ensures GetArtifact(t.ws[n].kv, Session, sid).Some? ==>
        t.ws[m].kv.now <= t.ws[n].kv.now < t.ws[m].kv.now + 24 * Kv.HOUR
  {
    m := BornFresh(cfg, t, n, Session, sid);
    TimeMovesOn(cfg, t, m, n);
    WrittenIsOpened(cfg, t, m, sid, Stored(t.ws[n].kv, Session, sid).value);
  }
}

/** What binds a token response to the authorization request it goes back to. */
module CodeBinding {
  import opened Text
  import opened Artifacts
  import opened Provider
  import opened Effects
  import opened Runs
  import opened AuthorizationSafety
  import Kv

  /**
   Tokens for a code are issued only to the client, for the redirect URI and the subject of the one
   authorization that produced the code, to a caller whose verifier hashes to the non-empty challenge
   that was validated with it, and before the code's lifetime is over.
   */
  lemma TokensAreBoundToRequest(cfg: Config, t: Trace, j: nat) returns (i: nat)
    requires IsRun(cfg, t) && j < |t.ops| && t.ops[j].CodeOp? && t.rs[j].Tokens?
    ensures i < j && t.rs[i].Finished? && t.rs[i].code == t.ops[j].code
    ensures var p := t.rs[i].q.params;
      && ValidatedBefore(t, i + 1, p) && p.challenge != "" && p.challenge == cfg.sha(t.ops[j].verifier)
      && p.redirectUri == t.ops[j].redirectUri && p.clientId == t.ops[j].clientId && t.rs[i].sub == t.rs[j].sub
    ensures cfg.codeTTL > 0 ==> t.ws[j].kv.now < t.ws[i].kv.now + Kv.SetTtl(cfg.codeTTL)
  {
    var op := t.ops[j];
    CheckedAt(cfg, t, j);
    At(cfg, t, j);
    i := BornFresh(cfg, t, j, Code, op.code);
    FinishedIsValidated(cfg, t, i);
    var v: nat :| v < i + 1 && ValidatedAt(t, v, t.rs[i].q.params);
    ClientsAgree(cfg, t, i, j);
  }

  lemma CheckedAt(cfg: Config, t: Trace, j: nat)
    requires IsRun(cfg, t) && j < |t.ops| && t.ops[j].CodeOp? && t.rs[j].Tokens?
    ensures GetArtifact(t.ws[j].kv, Code, t.ops[j].code).Some?
    ensures var d := GetArtifact(t.ws[j].kv, Code, t.ops[j].code).value;
      d.CodeDoc? && d.redirectUri == t.ops[j].redirectUri
          && (d.challenge == "" || d.challenge == cfg.sha(t.ops[j].verifier))
  {
    assert StepAt(cfg, t, j);
    CodeChecked(cfg, t.ws[j], t.ops[j], t.ws[j + 1], t.rs[j]);
  }

  /** A client row carries the id it is looked up by, when a code is made and when it is spent. */
  lemma ClientsAgree(cfg: Config, t: Trace, i: nat, j: nat)
    requires IsRun(cfg, t) && i < |t.ops| && j < |t.ops| && t.rs[i].Finished? && t.ops[j].CodeOp? && t.rs[j].Tokens?
    ensures t.rs[i].client.clientId == t.rs[i].q.params.clientId && t.rs[j].client.clientId == t.ops[j].clientId
  {
    AlwaysKeyed(cfg, t, i);
    AlwaysKeyed(cfg, t, j);
    At(cfg, t, i);
    At(cfg, t, j);
  }
}
