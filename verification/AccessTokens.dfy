/** Verification and revocation of access tokens (internal/idp/provider.go). */
module AccessTokens {
  import opened Text
  import opened Claims
  import opened Artifacts
  import opened Provider
  import opened Effects
  import Kv

  const EXCHANGE_GRANT: string := "urn:ietf:params:oauth:grant-type:token-exchange"

  /** The signing key, and the introspection reply of the Fosite engine when that engine is wired in. */
  datatype Signer = Signer(
    sign: Claims -> Option<string>, verify: string -> Option<Claims>, introspect: Option<string -> bool>)

  /** A token that was signed verifies to the claims it was signed with. */
  ghost predicate Lawful(k: Signer)
  {
    forall c :: k.sign(c).Some? ==> k.verify(k.sign(c).value) == Some(c)
  }

  function Unix(t: Kv.Time): int { t / Kv.SECOND }

  predicate Expired(c: Claims, now: Kv.Time)
  {
    "exp" in c && c["exp"].Num? && c["exp"].n < Unix(now)
  }

  predicate MarkedRevoked(kv: Store, jti: string) { GetArtifact(kv, Revoked, jti).Some? }

  predicate NeedsIntrospection(k: Signer, c: Claims)
  {
    k.introspect.Some? && ClaimString(c, "gty") != EXCHANGE_GRANT && "aud" in c && c["aud"].List?
  }

  function VerifyAccessToken(k: Signer, kv: Store, token: string): Option<Claims>
  {
    match k.verify(token)
    case None => None
    case Some(c) =>
      if Expired(c, kv.now) then None
      else if ClaimString(c, "jti") != "" && MarkedRevoked(kv, ClaimString(c, "jti")) then None
      else if NeedsIntrospection(k, c) && !k.introspect.value(token) then None
      else Some(c)
  }

  /** The token is one the Fosite engine issued: its audience is a list, and it does not come from an exchange. */
  predicate FositeShaped(c: Claims)
  {
    "aud" in c && c["aud"].List? && !("gty" in c && c["gty"] == Str(EXCHANGE_GRANT))
  }

  /**
   Acceptance, exactly: the token verifies, the second named by exp is not over, its id is not marked,
   and where the Fosite engine is wired in it still knows each token of its own.
   */
  lemma AcceptedIff(k: Signer, kv: Store, token: string)
    ensures VerifyAccessToken(k, kv, token).Some? <==>
      && k.verify(token).Some?
      && var c := k.verify(token).value;
      && (!("exp" in c && c["exp"].Num?) || kv.now < (c["exp"].n + 1) * Kv.SECOND)
      && !("jti" in c && c["jti"].Str? && c["jti"].s != "" && Kv.Get(kv, Art(Revoked, c["jti"].s)).Found?)
      && (k.introspect.Some? && FositeShaped(c) ==> k.introspect.value(token))
    ensures VerifyAccessToken(k, kv, token).Some? ==> VerifyAccessToken(k, kv, token) == k.verify(token)
  {
  }

  // ---- revocation ----

  function MarkRevoked(cfg: Config, w: World, jti: string): World
  {
    w.(kv := PutArtifact(w.kv, Revoked, jti, RevokedDoc, cfg.refreshTTL))
  }

  /** revokeLegacyJWTIfOwned: the token's own client, or any client when the token names none. */
  function RevokeIfOwned(cfg: Config, k: Signer, w: World, token: string, clientId: string): World
  {
    if clientId == "" || k.verify(token).None? then w
    else
      var c := k.verify(token).value;
      if ClaimString(c, "client_id") != "" && ClaimString(c, "client_id") != clientId then w
      else if ClaimString(c, "jti") == "" then w
      else MarkRevoked(cfg, w, ClaimString(c, "jti"))
  }

  /** Revoke of the explicit engine; it does not ask whose access token it is. */
  function RevokeExplicit(cfg: Config, k: Signer, w: World, token: string, clientId: string): World
  {
    match VerifyAccessToken(k, w.kv, token)
    case Some(c) => if ClaimString(c, "jti") != "" then MarkRevoked(cfg, w, ClaimString(c, "jti")) else w
    case None => RevokeRefresh(w, clientId, token).0
  }

  /**
   When a revocation takes effect, by caller and engine: beside the Fosite engine exactly for the
   token's own client, or any named client when the token names none; in the explicit engine for
   every caller, exactly when the token is still accepted.
   */
  lemma RevocationTakesEffectIff(cfg: Config, k: Signer, w: World, token: string, clientId: string)
    requires k.verify(token).Some? && ClaimString(k.verify(token).value, "jti") != ""
    ensures var jti, owner := ClaimString(k.verify(token).value, "jti"),
        ClaimString(k.verify(token).value, "client_id");
      && (MarkedRevoked(RevokeIfOwned(cfg, k, w, token, clientId).kv, jti) <==>
            MarkedRevoked(w.kv, jti) || (clientId != "" && owner in ["", clientId]))
      && (MarkedRevoked(RevokeExplicit(cfg, k, w, token, clientId).kv, jti) <==>
            MarkedRevoked(w.kv, jti) || VerifyAccessToken(k, w.kv, token).Some?)
  {
    var jti := ClaimString(k.verify(token).value, "jti");
    assert MarkedRevoked(MarkRevoked(cfg, w, jti).kv, jti);
    assert MarkedRevoked(RevokeRefresh(w, clientId, token).0.kv, jti) == MarkedRevoked(w.kv, jti);
  }

  /**
   In the explicit engine what is no accepted access token may be a refresh token, which only its
   own client revokes.
   */
  lemma ExplicitRevokesRefreshIff(cfg: Config, k: Signer, w: World, token: string, clientId: string)
    requires GetArtifact(w.kv, Refresh, token).Some? && GetArtifact(w.kv, Refresh, token).value.RefreshDoc?
    ensures GetArtifact(RevokeExplicit(cfg, k, w, token, clientId).kv, Refresh, token).None? <==>
      VerifyAccessToken(k, w.kv, token).None? && GetArtifact(w.kv, Refresh, token).value.clientId == clientId
  {
  }

  /** Revoking a token decides nothing about tokens with another id. */
  lemma RevocationIsLocal(cfg: Config, k: Signer, w: World, token: string, clientId: string, other: string)
    requires k.verify(token).Some? && k.verify(other).Some?
    requires ClaimString(k.verify(token).value, "jti") != ClaimString(k.verify(other).value, "jti")
    ensures VerifyAccessToken(k, RevokeIfOwned(cfg, k, w, token, clientId).kv, other) ==
        VerifyAccessToken(k, w.kv, other)
  {
  }

  /** What may happen next: a step of the provider, or a revocation in either form. */
  datatype Happening =
    | Other(op: Op)
    | Owned(token: string, clientId: string)
    | Explicit(token: string, clientId: string)

  function Next(cfg: Config, k: Signer, w: World, e: Happening): World
  {
    match e
    case Other(op) => Step(cfg, w, op).0
    case Owned(token, clientId) => RevokeIfOwned(cfg, k, w, token, clientId)
    case Explicit(token, clientId) => RevokeExplicit(cfg, k, w, token, clientId)
  }

  function Continue(cfg: Config, k: Signer, w: World, es: seq<Happening>): World
  {
    if es == [] then w else Next(cfg, k, Continue(cfg, k, w, es[..|es| - 1]), es[|es| - 1])
  }

  /** `jti` was marked at `since`, and the mark lasts at least a refresh-token lifetime from then. */
  ghost predicate Marked(cfg: Config, kv: Store, jti: string, since: Kv.Time)
  {
    var key := Art(Revoked, jti);
    && since <= kv.now && key in kv.entries && kv.entries[key].value.Blob?
    && (match kv.entries[key].expiry
        case None => true
        case Some(x) => cfg.refreshTTL > 0 && since + Kv.SetTtl(cfg.refreshTTL) <= x)
  }

  lemma MarkingMarks(cfg: Config, w: World, jti: string, other: string, since: Kv.Time)
    requires jti == other ==> since <= w.kv.now
    requires jti != other ==> Marked(cfg, w.kv, jti, since)
    ensures Marked(cfg, MarkRevoked(cfg, w, other).kv, jti, since)
  {
  }

  lemma NextKeepsMark(cfg: Config, k: Signer, w: World, e: Happening, jti: string, since: Kv.Time)
    requires Marked(cfg, w.kv, jti, since)
    ensures Marked(cfg, Next(cfg, k, w, e).kv, jti, since)
  {
    match e
    case Other(op) =>
      StepFrame(cfg, w, op, Step(cfg, w, op).0, Step(cfg, w, op).1);
      assert SameEntry(w.kv, Step(cfg, w, op).0.kv, Art(Revoked, jti));
    case Owned(token, clientId) =>
      if k.verify(token).Some? { MarkingMarks(cfg, w, jti, ClaimString(k.verify(token).value, "jti"), since); }
    case Explicit(token, clientId) =>
      if k.verify(token).Some? { MarkingMarks(cfg, w, jti, ClaimString(k.verify(token).value, "jti"), since); }
  }

  lemma {:induction false} MarkPersists(cfg: Config, k: Signer, w: World, es: seq<Happening>, jti: string,
      since: Kv.Time)
    requires Marked(cfg, w.kv, jti, since)
    ensures Marked(cfg, Continue(cfg, k, w, es).kv, jti, since)
  {
    if es != [] {
      var before := es[..|es| - 1];
      MarkPersists(cfg, k, w, before, jti, since);
      NextKeepsMark(cfg, k, Continue(cfg, k, w, before), es[|es| - 1], jti, since);
    }
  }

  /** No continuation of provider steps and revocations from w reaches a state that accepts the token. */
  ghost predicate NeverAccepted(cfg: Config, k: Signer, w: World, token: string)
  {
    forall es :: VerifyAccessToken(k, Continue(cfg, k, w, es).kv, token) == None
  }

  /** `clientId` may revoke this token, whose exp is `exp`. */
  ghost predicate Revocable(k: Signer, token: string, clientId: string, exp: int)
  {
    && k.verify(token).Some? && clientId != "" && ClaimString(k.verify(token).value, "client_id") == clientId
    && ClaimString(k.verify(token).value, "jti") != ""
    && "exp" in k.verify(token).value && k.verify(token).value["exp"] == Num(exp)
  }

  lemma RevokedForever(cfg: Config, k: Signer, w: World, token: string, clientId: string, exp: int, es: seq<Happening>)
    requires Revocable(k, token, clientId, exp)
    requires cfg.refreshTTL <= 0 || (exp + 1) * Kv.SECOND <= w.kv.now + Kv.SetTtl(cfg.refreshTTL)
    ensures VerifyAccessToken(k, Continue(cfg, k, RevokeIfOwned(cfg, k, w, token, clientId), es).kv, token) == None
  {
    var w1 := RevokeIfOwned(cfg, k, w, token, clientId);
    MarkPersists(cfg, k, w1, es, ClaimString(k.verify(token).value, "jti"), w.kv.now);
  }

  /**
   Once the Fosite engine refuses a token of its own, for one because its session was revoked, it is
   never accepted.
   */
  lemma UnknownToFositeNeverAccepted(cfg: Config, k: Signer, w: World, token: string)
    requires k.introspect.Some? && k.verify(token).Some? && FositeShaped(k.verify(token).value)
        && !k.introspect.value(token)
    ensures NeverAccepted(cfg, k, w, token)
  {
    forall es ensures VerifyAccessToken(k, Continue(cfg, k, w, es).kv, token) == None {
      AcceptedIff(k, Continue(cfg, k, w, es).kv, token);
    }
  }

  /**
   When revocation is permanent, exactly: the mark has no deadline, or it lasts until the second named
   by exp is over, because exp is truncated to seconds and compared inclusively.
   */
  lemma RevokedForeverIff(cfg: Config, k: Signer, w: World, token: string, clientId: string, exp: int)
    requires Revocable(k, token, clientId, exp)
    ensures NeverAccepted(cfg, k, RevokeIfOwned(cfg, k, w, token, clientId), token) <==>
      || cfg.refreshTTL <= 0 || (exp + 1) * Kv.SECOND <= w.kv.now + Kv.SetTtl(cfg.refreshTTL)
      || (k.introspect.Some? && FositeShaped(k.verify(token).value) && !k.introspect.value(token))
  {
    var w1 := RevokeIfOwned(cfg, k, w, token, clientId);
    if k.introspect.Some? && FositeShaped(k.verify(token).value) && !k.introspect.value(token) {
      UnknownToFositeNeverAccepted(cfg, k, w1, token);
    } else if cfg.refreshTTL <= 0 || (exp + 1) * Kv.SECOND <= w.kv.now + Kv.SetTtl(cfg.refreshTTL) {
      forall es ensures VerifyAccessToken(k, Continue(cfg, k, w1, es).kv, token) == None {
        RevokedForever(cfg, k, w, token, clientId, exp, es);
      }
    } else {
      var tick := [Other(Tick(Kv.SetTtl(cfg.refreshTTL)))];
      assert Continue(cfg, k, w1, tick) == Next(cfg, k, w1, tick[0]) by { assert tick[..0] == []; }
      assert VerifyAccessToken(k, Continue(cfg, k, w1, tick).kv, token).Some?;
    }
  }

  /**
   On a token it accepts, the explicit engine does for any caller what its own client may ask beside
   the Fosite engine.
   */
  lemma ExplicitRevokesForAnyone(cfg: Config, k: Signer, w: World, token: string, clientId: string, owner: string,
      exp: int)
    requires Revocable(k, token, owner, exp) && VerifyAccessToken(k, w.kv, token).Some?
    ensures RevokeExplicit(cfg, k, w, token, clientId) == RevokeIfOwned(cfg, k, w, token, owner)
  {
  }

  /**
   What that costs: a client that does not own an accepted token ends it for good, under the very
   condition under which the owner would; beside the Fosite engine the same call changes nothing.
   */
  lemma StrangerRevokesForeverIff(cfg: Config, k: Signer, w: World, token: string, stranger: string, owner: string,
      exp: int)
    requires Revocable(k, token, owner, exp) && stranger != owner && VerifyAccessToken(k, w.kv, token).Some?
    ensures NeverAccepted(cfg, k, RevokeExplicit(cfg, k, w, token, stranger), token) <==>
      cfg.refreshTTL <= 0 || (exp + 1) * Kv.SECOND <= w.kv.now + Kv.SetTtl(cfg.refreshTTL)
    ensures RevokeIfOwned(cfg, k, w, token, stranger) == w
  {
    ExplicitRevokesForAnyone(cfg, k, w, token, stranger, owner, exp);
    RevokedForeverIff(cfg, k, w, token, owner, exp);
  }

  /**
   Revocation is permanent for every token of lifetime accessTTL, whenever it was issued and revoked,
   if the mark's lifetime is unlimited or exceeds the token's by at least a second.
   */
  lemma RevocationIsPermanent(cfg: Config, k: Signer, w: World, token: string, clientId: string, issued: Kv.Time,
      accessTTL: Kv.Time)
    requires Revocable(k, token, clientId, Unix(issued + accessTTL)) && issued <= w.kv.now
    requires cfg.refreshTTL <= 0 || accessTTL + Kv.SECOND <= Kv.SetTtl(cfg.refreshTTL)
    ensures NeverAccepted(cfg, k, RevokeIfOwned(cfg, k, w, token, clientId), token)
  {
    var w1 := RevokeIfOwned(cfg, k, w, token, clientId);
    forall es ensures VerifyAccessToken(k, Continue(cfg, k, w1, es).kv, token) == None {
      RevokedForever(cfg, k, w, token, clientId, Unix(issued + accessTTL), es);
    }
  }

  /**
   That second is needed: a shorter lifetime fails a token that is revoked as it is issued and
   expires on a full second.
   */
  lemma RevocationLapses(cfg: Config, k: Signer, w: World, token: string, clientId: string, accessTTL: Kv.Time)
    requires 0 < cfg.refreshTTL && Kv.SetTtl(cfg.refreshTTL) < accessTTL + Kv.SECOND
        && (w.kv.now + accessTTL) % Kv.SECOND == 0
    requires Revocable(k, token, clientId, Unix(w.kv.now + accessTTL))
    requires k.introspect.Some? && FositeShaped(k.verify(token).value) ==> k.introspect.value(token)
    ensures !NeverAccepted(cfg, k, RevokeIfOwned(cfg, k, w, token, clientId), token)
  {
    RevokedForeverIff(cfg, k, w, token, clientId, Unix(w.kv.now + accessTTL));
  }
}
