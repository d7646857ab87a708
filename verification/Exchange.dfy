/** Selection of a token exchange policy (internal/store/store.go). */
module ExchangePolicies {
  import opened Text

  datatype Policy = Policy(
    id: string, clientId: string, priority: int, subject: Option<string>, tokenTypes: seq<string>,
    audiences: seq<string>, scopes: seq<string>, actorRequired: bool, enabled: bool, createdAt: int)

  /** What a policy is asked to cover. */
  datatype Ask = Ask(subject: string, tokenType: string, audience: string, actorPresent: bool)

  predicate MatchesList(values: seq<string>, candidate: string)
  {
    values == [] || "*" in values || candidate in values
  }

  predicate Matches(p: Policy, ask: Ask)
  {
    && (p.subject.None? || p.subject.value in ["", "*", ask.subject])
    && MatchesList(p.tokenTypes, ask.tokenType)
    && MatchesList(p.audiences, ask.audience)
    && (p.actorRequired ==> ask.actorPresent)
  }

  predicate Eligible(p: Policy, clientId: string, ask: Ask)
  {
    p.enabled && p.clientId == clientId && Matches(p, ask)
  }

  /** p comes before q in every ordering the query may return. */
  predicate Outranks(p: Policy, q: Policy)
  {
    p.priority > q.priority || (p.priority == q.priority && p.createdAt < q.createdAt)
  }

  /** `rows` is an answer to the query: the client's enabled policies, by priority and then age; ties in any order. */
  ghost predicate Answers(rows: seq<Policy>, table: set<Policy>, clientId: string)
  {
    && (forall p :: p in rows <==> p in table && p.enabled && p.clientId == clientId)
    && (forall i, j :: 0 <= i < j < |rows| ==> !Outranks(rows[j], rows[i]))
  }

  function FirstMatch(rows: seq<Policy>, ask: Ask): Option<Policy>
  {
    if rows == [] then None
    else if Matches(rows[0], ask) then Some(rows[0])
    else FirstMatch(rows[1..], ask)
  }

  method MatchesAny(values: seq<string>, candidate: string) returns (found: bool)
    ensures found == MatchesList(values, candidate)
  {
    if |values| == 0 { return true; }
    for i := 0 to |values|
      invariant "*" !in values[..i] && candidate !in values[..i]
    {
      if values[i] == "*" || values[i] == candidate { return true; }
    }
    assert values[..|values|] == values;
    found := false;
  }

  method FindTokenExchangePolicy(rows: seq<Policy>, ask: Ask) returns (found: Option<Policy>)
    ensures found == FirstMatch(rows, ask)
  {
    for i := 0 to |rows|
      invariant FirstMatch(rows, ask) == FirstMatch(rows[i..], ask)
    {
      var p := rows[i];
      assert rows[i..][0] == p && rows[i..][1..] == rows[i + 1..];
      var types := MatchesAny(p.tokenTypes, ask.tokenType);
      var audiences := MatchesAny(p.audiences, ask.audience);
      if (p.subject.None? || p.subject.value == "" || p.subject.value == "*" || p.subject.value == ask.subject)
         && types && audiences && (!p.actorRequired || ask.actorPresent) {
        return Some(p);
      }
    }
    found := None;
  }

  lemma {:induction false} FirstMatchIsFirst(rows: seq<Policy>, ask: Ask) returns (i: nat)
    ensures FirstMatch(rows, ask).Some? ==>
        i < |rows| && FirstMatch(rows, ask) == Some(rows[i]) && Matches(rows[i], ask)
    ensures FirstMatch(rows, ask).None? ==> i == |rows|
    ensures forall j :: 0 <= j < i ==> !Matches(rows[j], ask)
  {
    if rows == [] || Matches(rows[0], ask) {
      i := 0;
    } else {
      var k := FirstMatchIsFirst(rows[1..], ask);
      i := k + 1;
      forall j | 0 <= j < i ensures !Matches(rows[j], ask) {
        if j > 0 { assert rows[j] == rows[1..][j - 1]; }
      }
    }
  }

  /**
   Selection is optimal: nothing is found exactly when no policy is eligible; otherwise the result is
   eligible and no eligible policy outranks it.
   */
  lemma SelectionIsOptimal(rows: seq<Policy>, table: set<Policy>, clientId: string, ask: Ask)
    requires Answers(rows, table, clientId)
    ensures FirstMatch(rows, ask).None? <==> forall p :: p in table ==> !Eligible(p, clientId, ask)
    ensures FirstMatch(rows, ask).Some? ==>
      var best := FirstMatch(rows, ask).value;
      best in table && Eligible(best, clientId, ask) && forall p :: p in table && Eligible(p, clientId, ask) ==>
          !Outranks(p, best)
  {
    var i := FirstMatchIsFirst(rows, ask);
    if FirstMatch(rows, ask).Some? {
      var best := rows[i];
      assert best in rows;
      forall p | p in table && Eligible(p, clientId, ask) ensures !Outranks(p, best) {
        assert p in rows;
        var j :| 0 <= j < |rows| && rows[j] == p;
      }
    } else {
      forall p | p in table ensures !Eligible(p, clientId, ask) {
        if p in rows { var j :| 0 <= j < |rows| && rows[j] == p; }
      }
    }
  }
}

/** Token exchange (section 2 of RFC 8693) as internal/idp/provider.go carries it out. */
module Exchange {
  import opened Text
  import opened Claims
  import opened Artifacts
  import opened AccessTokens
  import opened ExchangePolicies
  import Scopes
  import Kv

  const ACCESS_TOKEN_TYPE: string := "urn:ietf:params:oauth:token-type:access_token"

  datatype Client = Client(clientId: string, grantTypes: seq<string>)

  datatype Form = Form(
    subjectTokenType: string, requestedTokenType: string, subjectToken: string, scope: string,
    audiences: seq<string>, resources: seq<string>, actorToken: string, actorTokenType: string)

  /** What surrounds one request: key, store, settings, the policy query's answer and a fresh token id. */
  datatype Env = Env(signer: Signer, kv: Store, issuer: string, accessTTL: Kv.Time, rows: seq<Policy>, jti: string)

  /**
   Why an exchange is denied; Describe gives the error code and the description, which is also what
   the audit log records.
   */
  datatype Denial =
    | GrantNotAllowed | RequestedTypeUnsupported | SubjectTypeUnsupported | SubjectMissing
    | SubjectInvalid | SubjectForeign | AudienceMissing | AudienceAmbiguous
    | ActorIncomplete | ActorTypeUnsupported | ActorInvalid | ActorForeign
    | NoPolicy | ExceedsSubject | ExceedsPolicy | SigningFailed

  function Describe(d: Denial): (string, string)
  {
    match d
    case GrantNotAllowed => ("unauthorized_client", "client is not allowed to use token exchange")
    case RequestedTypeUnsupported => ("invalid_request", "requested_token_type is not supported")
    case SubjectTypeUnsupported => ("invalid_request", "subject_token_type must be access_token")
    case SubjectMissing => ("invalid_request", "subject_token is required")
    case SubjectInvalid => ("invalid_grant", "subject_token is invalid")
    case SubjectForeign => ("invalid_grant", "subject_token was not issued to the authenticated client")
    case AudienceMissing => ("invalid_request", "audience parameter is required for token exchange")
    case AudienceAmbiguous => ("invalid_request", "multiple audience/resource values are not supported")
    case ActorIncomplete => ("invalid_request", "actor_token and actor_token_type must be provided together")
    case ActorTypeUnsupported => ("invalid_request", "actor_token_type must be access_token")
    case ActorInvalid => ("invalid_grant", "actor_token is invalid")
    case ActorForeign => ("invalid_grant", "actor_token was not issued to the authenticated client")
    case NoPolicy => ("invalid_grant", "token exchange is not permitted for this subject or audience")
    case ExceedsSubject => ("invalid_scope", "requested scope exceeds the rights of the subject_token")
    case ExceedsPolicy => ("invalid_scope", "requested scope is not permitted by policy")
    case SigningFailed => ("server_error", "failed to sign token")
  }

  datatype Resolved = Success(audience: string) | Failure(why: Denial)

  datatype Event = Event(
    clientId: string, policyId: Option<string>, subject: Option<string>, subjectTokenType: string,
    subjectTokenId: Option<string>, requestedAudience: Option<string>, grantedAudience: Option<string>,
    requestedScopes: seq<string>, grantedScopes: seq<string>, actorSubject: Option<string>,
    success: bool, error: Option<Denial>, issuedTokenId: Option<string>)

  datatype Outcome = Denied(why: Denial) | Issued(token: string, claims: Claims)

  function Optional(s: string): Option<string> { if s == "" then None else Some(s) }

  function FirstNonEmpty(a: string, b: string): string { if a != "" then a else b }

  function Fail(e: Event, why: Denial): (Outcome, Event)
  {
    (Denied(why), e.(error := Some(why)))
  }

  function ResolveAudience(form: Form): Resolved
  {
    var given := Scopes.NonBlank(if form.audiences == [] then form.resources else form.audiences);
    if |given| == 0 then Failure(AudienceMissing)
    else if |given| > 1 then Failure(AudienceAmbiguous)
    else Success(given[0])
  }

  predicate PolicyAllows(policyScopes: seq<string>, requested: seq<string>)
  {
    policyScopes == [] || "*" in policyScopes || Scopes.Subset(requested, policyScopes)
  }

  /** The claims an exchange writes over those of the subject token. */
  function Written(env: Env, clientId: string, from: Claims, audience: string, scopes: seq<string>): Claims
  {
    map["iss" := Str(env.issuer), "aud" := Str(audience), "client_id" := Str(clientId),
        "scope" := Str(Scopes.Format(scopes)),
        "jti" := Str(env.jti), "iat" := Num(Unix(env.kv.now)), "exp" := Num(Unix(env.kv.now + env.accessTTL)),
        "gty" := Str(EXCHANGE_GRANT),
        "token_exchange" := Obj(map["subject_token_jti" := Str(ClaimString(from, "jti")),
            "subject_token_type" := Str(ACCESS_TOKEN_TYPE)])]
  }

  function ActorClaims(subject: string, actor: string): Claims
  {
    if actor == "" then map[]
    else if subject != "" && subject != actor then
      map["act" := Obj(map["sub" := Str(actor)]), "may_act" := Obj(map["sub" := Str(subject)])]
    else map["act" := Obj(map["sub" := Str(actor)])]
  }

  function ExchangedClaims(env: Env, clientId: string, from: Claims, audience: string, scopes: seq<string>,
      actor: string): Claims
  {
    from + Written(env, clientId, from, audience, scopes) + ActorClaims(ClaimString(from, "sub"), actor)
  }

  // ---- the checks, in order; each failure leaves the event as filled in so far ----

  function ExchangeToken(env: Env, client: Client, form: Form): (Outcome, Event)
  {
    var e := Event(client.clientId, None, None, FirstNonEmpty(form.subjectTokenType, "unknown"), None, None, None,
                   Scopes.Parse(form.scope), [], None, false, None, None);
    if EXCHANGE_GRANT !in client.grantTypes then Fail(e, GrantNotAllowed)
    else if form.requestedTokenType != "" && form.requestedTokenType != ACCESS_TOKEN_TYPE then
      Fail(e, RequestedTypeUnsupported)
    else if form.subjectTokenType != ACCESS_TOKEN_TYPE then Fail(e, SubjectTypeUnsupported)
    else if form.subjectToken == "" then Fail(e, SubjectMissing)
    else
      match VerifyAccessToken(env.signer, env.kv, form.subjectToken)
      case None => Fail(e, SubjectInvalid)
      case Some(from) =>
        if ClaimString(from, "client_id") != client.clientId then
          Fail(e, SubjectForeign)
        else WithSubject(env, client, form, from,
                         e.(subject := Optional(ClaimString(from, "sub")),
                             subjectTokenId := Optional(ClaimString(from, "jti"))))
  }

  function WithSubject(env: Env, client: Client, form: Form, from: Claims, e: Event): (Outcome, Event)
  {
    match ResolveAudience(form)
    case Failure(why) => Fail(e, why)
    case Success(audience) => WithAudience(env, client, form, from, audience, e.(requestedAudience := Some(audience)))
  }

  function WithAudience(env: Env, client: Client, form: Form, from: Claims, audience: string, e: Event)
    : (Outcome, Event)
  {
    if form.actorToken == "" && form.actorTokenType == "" then WithActor(env, client, form, from, audience, "", e)
    else if form.actorToken == "" || form.actorTokenType == "" then
      Fail(e, ActorIncomplete)
    else if form.actorTokenType != ACCESS_TOKEN_TYPE then Fail(e, ActorTypeUnsupported)
    else
      match VerifyAccessToken(env.signer, env.kv, form.actorToken)
      case None => Fail(e, ActorInvalid)
      case Some(actor) =>
        if ClaimString(actor, "client_id") != client.clientId then
          Fail(e, ActorForeign)
        else WithActor(env, client, form, from, audience, ClaimString(actor, "sub"),
                       e.(actorSubject := Optional(ClaimString(actor, "sub"))))
  }

  function AskOf(form: Form, from: Claims, audience: string): Ask
  {
    Ask(ClaimString(from, "sub"), ACCESS_TOKEN_TYPE, audience, form.actorToken != "")
  }

  /** The scopes asked for; none asked for means all of the subject token's. */
  function RequestedScopes(form: Form, from: Claims): seq<string>
  {
    if Scopes.Parse(form.scope) == [] then Scopes.Parse(ClaimString(from, "scope")) else Scopes.Parse(form.scope)
  }

  function WithActor(env: Env, client: Client, form: Form, from: Claims, audience: string, actor: string,
      e: Event): (Outcome, Event)
  {
    match FirstMatch(env.rows, AskOf(form, from, audience))
    case None => Fail(e, NoPolicy)
    case Some(policy) =>
      Grant(env, client, from, audience, actor, policy, RequestedScopes(form, from),
            e.(policyId := Some(policy.id), requestedScopes := RequestedScopes(form, from)))
  }

  function Grant(env: Env, client: Client, from: Claims, audience: string, actor: string, policy: Policy,
      scopes: seq<string>, e: Event): (Outcome, Event)
  {
    if !Scopes.Subset(scopes, Scopes.Parse(ClaimString(from, "scope"))) then
      Fail(e, ExceedsSubject)
    else if !PolicyAllows(policy.scopes, scopes) then Fail(e, ExceedsPolicy)
    else
      var claims := ExchangedClaims(env, client.clientId, from, audience, scopes, actor);
      match env.signer.sign(claims)
      case None => Fail(e, SigningFailed)
      case Some(token) =>
        (Issued(token, claims),
         e.(success := true, error := None, grantedAudience := Some(audience), grantedScopes := scopes,
            issuedTokenId := Some(env.jti)))
  }

  // ---- what an issued token inherits ----

  /** The claims an exchange may overwrite. */
  const OVERWRITTEN: set<string> :=
    {"iss", "aud", "client_id", "scope", "jti", "iat", "exp", "gty", "token_exchange", "act", "may_act"}

  /** Every other claim is inherited as it is. */
  predicate Inherits(from: Claims, to: Claims, name: string)
  {
    (name in from <==> name in to) && (name in from ==> to[name] == from[name])
  }

  /** A claim the exchange writes, and that is no actor claim, reads as written. */
  lemma ReadsAsWritten(env: Env, clientId: string, from: Claims, audience: string, scopes: seq<string>, actor: string,
      name: string)
    requires name in Written(env, clientId, from, audience, scopes) && name != "act" && name != "may_act"
    ensures var c := ExchangedClaims(env, clientId, from, audience, scopes, actor);
      name in c && c[name] == Written(env, clientId, from, audience, scopes)[name]
  {
  }

  lemma WrittenScope(env: Env, clientId: string, from: Claims, audience: string, scopes: seq<string>, actor: string)
    ensures var c := ExchangedClaims(env, clientId, from, audience, scopes, actor);
      ClaimString(c, "client_id") == clientId && ClaimString(c, "scope") == Scopes.Format(scopes)
  {
    ReadsAsWritten(env, clientId, from, audience, scopes, actor, "client_id");
    ReadsAsWritten(env, clientId, from, audience, scopes, actor, "scope");
  }

  lemma WrittenReceipt(env: Env, clientId: string, from: Claims, audience: string, scopes: seq<string>, actor: string)
    ensures var c := ExchangedClaims(env, clientId, from, audience, scopes, actor);
      ClaimString(c, "jti") == env.jti && ClaimString(c, "aud") == audience
  {
    ReadsAsWritten(env, clientId, from, audience, scopes, actor, "jti");
    ReadsAsWritten(env, clientId, from, audience, scopes, actor, "aud");
  }

  /** The new token's lifetime, id and audience are those of the exchange. */
  lemma WrittenRenewal(env: Env, clientId: string, from: Claims, audience: string, scopes: seq<string>, actor: string)
    ensures var c := ExchangedClaims(env, clientId, from, audience, scopes, actor);
      && "exp" in c && c["exp"] == Num(Unix(env.kv.now + env.accessTTL))
      && ClaimString(c, "jti") == env.jti && ClaimString(c, "aud") == audience
          && ClaimString(c, "gty") == EXCHANGE_GRANT
  {
    ReadsAsWritten(env, clientId, from, audience, scopes, actor, "exp");
    ReadsAsWritten(env, clientId, from, audience, scopes, actor, "jti");
    ReadsAsWritten(env, clientId, from, audience, scopes, actor, "aud");
    ReadsAsWritten(env, clientId, from, audience, scopes, actor, "gty");
  }

  lemma OthersInherited(env: Env, clientId: string, from: Claims, audience: string, scopes: seq<string>,
      actor: string, name: string)
    requires name !in OVERWRITTEN
    ensures Inherits(from, ExchangedClaims(env, clientId, from, audience, scopes, actor), name)
  {
  }

  lemma ActorStageMeans(env: Env, client: Client, form: Form, from: Claims, audience: string, actor: string, e: Event)
    requires WithActor(env, client, form, from, audience, actor, e).0.Issued?
    ensures FirstMatch(env.rows, AskOf(form, from, audience)).Some?
    ensures Scopes.Subset(RequestedScopes(form, from), Scopes.Parse(ClaimString(from, "scope")))
    ensures PolicyAllows(FirstMatch(env.rows, AskOf(form, from, audience)).value.scopes, RequestedScopes(form, from))
    ensures var o := WithActor(env, client, form, from, audience, actor, e).0;
      && o.claims == ExchangedClaims(env, client.clientId, from, audience, RequestedScopes(form, from), actor)
      && env.signer.sign(o.claims) == Some(o.token)
  {
  }

  /** The subject of the actor token, if one is presented and accepted. */
  function ActorOf(env: Env, form: Form): string
  {
    var verified := VerifyAccessToken(env.signer, env.kv, form.actorToken);
    if form.actorToken == "" || verified.None? then "" else ClaimString(verified.value, "sub")
  }

  /** The event of a request whose parties have been checked. */
  function EventAtPolicy(client: Client, form: Form, from: Claims, audience: string, actor: string): Event
  {
    Event(client.clientId, None, Optional(ClaimString(from, "sub")), FirstNonEmpty(form.subjectTokenType, "unknown"),
          Optional(ClaimString(from, "jti")), Some(audience), None, Scopes.Parse(form.scope), [], Optional(actor),
              false,
          None, None)
  }

  /** An issued token has passed the checks of the request, its subject token, its audience and its actor. */
  lemma ReachesPolicy(env: Env, client: Client, form: Form)
      returns (from: Claims, audience: string, actor: string, e: Event)
    requires ExchangeToken(env, client, form).0.Issued?
    ensures VerifyAccessToken(env.signer, env.kv, form.subjectToken) == Some(from)
    ensures ClaimString(from, "client_id") == client.clientId && ResolveAudience(form) == Success(audience)
    ensures ExchangeToken(env, client, form) == WithActor(env, client, form, from, audience, actor, e)
    ensures actor == ActorOf(env, form) && e == EventAtPolicy(client, form, from, audience, actor)
  {
    from := VerifyAccessToken(env.signer, env.kv, form.subjectToken).value;
    audience := ResolveAudience(form).audience;
    actor := ActorOf(env, form);
    e := EventAtPolicy(client, form, from, audience, actor);
  }

  /** Everything that holds when a token is issued. */
  lemma IssuedMeans(env: Env, client: Client, form: Form) returns (from: Claims, audience: string, actor: string)
    requires ExchangeToken(env, client, form).0.Issued?
    ensures VerifyAccessToken(env.signer, env.kv, form.subjectToken) == Some(from)
        && ClaimString(from, "client_id") == client.clientId
    ensures ResolveAudience(form) == Success(audience) && FirstMatch(env.rows, AskOf(form, from, audience)).Some?
    ensures Scopes.Subset(RequestedScopes(form, from), Scopes.Parse(ClaimString(from, "scope")))
    ensures PolicyAllows(FirstMatch(env.rows, AskOf(form, from, audience)).value.scopes, RequestedScopes(form, from))
    ensures var o := ExchangeToken(env, client, form).0;
      && o.claims == ExchangedClaims(env, client.clientId, from, audience, RequestedScopes(form, from), actor)
      && env.signer.sign(o.claims) == Some(o.token)
    ensures actor == ActorOf(env, form)
  {
    var e: Event;
    from, audience, actor, e := ReachesPolicy(env, client, form);
    ActorStageMeans(env, client, form, from, audience, actor, e);
  }

  /** What is requested survives the trip through a scope string. */
  lemma RequestedRoundTrip(form: Form, from: Claims)
    ensures Scopes.Parse(Scopes.Format(RequestedScopes(form, from))) == RequestedScopes(form, from)
  {
    Scopes.ParseFormatParse(form.scope);
    Scopes.ParseFormatParse(ClaimString(from, "scope"));
  }
}

/** The answer to every exchange, exactly, and what an issued token and its event say of the parties. */
module ExchangeAnswers {
  import opened Text
  import opened Claims
  import opened AccessTokens
  import opened ExchangePolicies
  import opened Exchange
  import Scopes
  import Kv

  predicate OnlyAccessToken(kind: string) { kind == ACCESS_TOKEN_TYPE }

  /** The non-blank audiences, or when no audience is given at all the non-blank resources. */
  function Named(form: Form): seq<string>
  {
    Scopes.NonBlank(if form.audiences != [] then form.audiences else form.resources)
  }

  predicate ActorHalfGiven(form: Form) { (form.actorToken == "") != (form.actorTokenType == "") }

  /** The request is well formed and comes with a subject token of the calling client. */
  predicate SubjectFits(env: Env, client: Client, form: Form)
  {
    && EXCHANGE_GRANT in client.grantTypes
    && (form.requestedTokenType == "" || OnlyAccessToken(form.requestedTokenType))
    && OnlyAccessToken(form.subjectTokenType) && form.subjectToken != ""
    && VerifyAccessToken(env.signer, env.kv, form.subjectToken).Some?
    && ClaimString(VerifyAccessToken(env.signer, env.kv, form.subjectToken).value, "client_id") == client.clientId
  }

  /** There is no actor, or an actor token of the calling client. */
  predicate ActorFits(env: Env, client: Client, form: Form)
  {
    || (form.actorToken == "" && form.actorTokenType == "")
    || (&& form.actorToken != "" && OnlyAccessToken(form.actorTokenType)
        && VerifyAccessToken(env.signer, env.kv, form.actorToken).Some?
        && ClaimString(VerifyAccessToken(env.signer, env.kv, form.actorToken).value, "client_id") == client.clientId)
  }

  /** The first check of the request or the subject token that fails decides the denial. */
  lemma SubjectDenialsIff(env: Env, client: Client, form: Form)
    ensures var o, from := ExchangeToken(env, client, form).0, VerifyAccessToken(env.signer, env.kv, form.subjectToken);
      var may := EXCHANGE_GRANT in client.grantTypes;
      var wanted := may && (form.requestedTokenType == "" || OnlyAccessToken(form.requestedTokenType));
      var typed := wanted && OnlyAccessToken(form.subjectTokenType);
      var given := typed && form.subjectToken != "";
      && (o == Denied(GrantNotAllowed) <==> !may) && (o == Denied(RequestedTypeUnsupported) <==> may && !wanted)
      && (o == Denied(SubjectTypeUnsupported) <==> wanted && !typed)
          && (o == Denied(SubjectMissing) <==> typed && !given)
      && (o == Denied(SubjectInvalid) <==> given && from.None?)
      && (o == Denied(SubjectForeign) <==>
          given && from.Some? && ClaimString(from.value, "client_id") != client.clientId)
  {
    var from := VerifyAccessToken(env.signer, env.kv, form.subjectToken);
    if SubjectFits(env, client, form) {
      var e := SubjectEvent(client, form, from.value);
      assert ExchangeToken(env, client, form) == WithSubject(env, client, form, from.value, e);
      PartyDenials(env, client, form, from.value, e);
    }
  }

  function SubjectEvent(client: Client, form: Form, from: Claims): Event
  {
    Event(client.clientId, None, Optional(ClaimString(from, "sub")), FirstNonEmpty(form.subjectTokenType, "unknown"),
          Optional(ClaimString(from, "jti")), None, None, Scopes.Parse(form.scope), [], None, false, None, None)
  }

  /** The denials that remain once the subject token fits. */
  lemma PartyDenials(env: Env, client: Client, form: Form, from: Claims, e: Event)
    ensures var o := WithSubject(env, client, form, from, e).0;
      o.Denied? ==> o.why in {AudienceMissing, AudienceAmbiguous, ActorIncomplete, ActorTypeUnsupported, ActorInvalid,
                              ActorForeign, NoPolicy, ExceedsSubject, ExceedsPolicy, SigningFailed}
  {
  }

  /** Then the audience must be one. */
  lemma AudienceDenialsIff(env: Env, client: Client, form: Form, from: Claims, e: Event)
    ensures var o := WithSubject(env, client, form, from, e).0;
      && (o == Denied(AudienceMissing) <==> |Named(form)| == 0)
      && (o == Denied(AudienceAmbiguous) <==> |Named(form)| > 1)
  {
    if |Named(form)| == 1 { ActorDenialsIff(env, client, form, from, Named(form)[0],
        e.(requestedAudience := Some(Named(form)[0]))); }
  }

  /** Then the first check of the actor that fails decides. */
  lemma ActorDenialsIff(env: Env, client: Client, form: Form, from: Claims, audience: string, e: Event)
    ensures var o := WithAudience(env, client, form, from, audience, e).0;
      var actor := VerifyAccessToken(env.signer, env.kv, form.actorToken);
      var whole := !ActorHalfGiven(form);
      var typed := whole && (form.actorToken == "" || OnlyAccessToken(form.actorTokenType));
      && (o == Denied(ActorIncomplete) <==> !whole) && (o == Denied(ActorTypeUnsupported) <==> whole && !typed)
      && (o == Denied(ActorInvalid) <==> typed && form.actorToken != "" && actor.None?)
      && (o == Denied(ActorForeign) <==>
            typed && form.actorToken != "" && actor.Some? && ClaimString(actor.value, "client_id") != client.clientId)
      && o != Denied(AudienceMissing) && o != Denied(AudienceAmbiguous)
  {
    if ActorFits(env, client, form) {
      var actor := ActorOf(env, form);
      var e' := if form.actorToken == "" then e else e.(actorSubject := Optional(actor));
      assert WithAudience(env, client, form, from, audience, e) ==
          WithActor(env, client, form, from, audience, actor, e');
      LaterDenials(env, client, form, from, audience, actor, e');
    }
  }

  lemma LaterDenials(env: Env, client: Client, form: Form, from: Claims, audience: string, actor: string, e: Event)
    ensures var o := WithActor(env, client, form, from, audience, actor, e).0;
      o.Denied? ==> o.why in {NoPolicy, ExceedsSubject, ExceedsPolicy, SigningFailed}
  {
  }

  /** A policy covers the parties, and the subject token and the policy cover all scopes asked for. */
  predicate RightsFit(env: Env, form: Form, from: Claims, audience: string)
  {
    var policy := FirstMatch(env.rows,
        Ask(ClaimString(from, "sub"), ACCESS_TOKEN_TYPE, audience, form.actorToken != ""));
    var held := Scopes.Parse(ClaimString(from, "scope"));
    var asked := if Scopes.Parse(form.scope) == [] then held else Scopes.Parse(form.scope);
    && policy.Some? && (forall s :: s in asked ==> s in held)
    && (policy.value.scopes == [] || "*" in policy.value.scopes || forall s :: s in asked ==> s in policy.value.scopes)
  }

  /**
   Last, the policy and the scopes: the policy must cover the parties, the subject token and the
   policy the scopes.
   */
  lemma RightsDenialsIff(env: Env, client: Client, form: Form, from: Claims, audience: string, actor: string, e: Event)
    ensures var o := WithActor(env, client, form, from, audience, actor, e).0;
      var policy := FirstMatch(env.rows,
          Ask(ClaimString(from, "sub"), ACCESS_TOKEN_TYPE, audience, form.actorToken != ""));
      var asked := if Scopes.Parse(form.scope) == [] then Scopes.Parse(ClaimString(from, "scope"))
          else Scopes.Parse(form.scope);
      var held := policy.Some? && forall s :: s in asked ==> s in Scopes.Parse(ClaimString(from, "scope"));
      var allowed := held && (policy.value.scopes == [] || "*" in policy.value.scopes || forall s :: s in asked ==>
          s in policy.value.scopes);
      && (o == Denied(NoPolicy) <==> policy.None?) && (o == Denied(ExceedsSubject) <==> policy.Some? && !held)
      && (o == Denied(ExceedsPolicy) <==> held && !allowed)
      && (o.Issued? ==> allowed) && (allowed ==> o.Issued? || o == Denied(SigningFailed))
  {
  }

  /** A token is issued exactly when subject, audience, actor and rights fit and it can be signed. */
  lemma IssuedIff(env: Env, client: Client, form: Form)
    ensures ExchangeToken(env, client, form).0.Issued? <==>
      && SubjectFits(env, client, form) && |Named(form)| == 1 && ActorFits(env, client, form)
      && RightsFit(env, form, VerifyAccessToken(env.signer, env.kv, form.subjectToken).value, Named(form)[0])
      && ExchangeToken(env, client, form).0 != Denied(SigningFailed)
  {
    if SubjectFits(env, client, form) {
      var from := VerifyAccessToken(env.signer, env.kv, form.subjectToken).value;
      assert ExchangeToken(env, client, form) == WithSubject(env, client, form, from, SubjectEvent(client, form, from));
      PartiesPass(env, client, form, from);
      if |Named(form)| == 1 && ActorFits(env, client, form) {
        var audience, actor := Named(form)[0], ActorOf(env, form);
        RightsPass(env, client, form, from, audience, actor, EventAtPolicy(client, form, from, audience, actor));
      }
    }
  }

  lemma RightsPass(env: Env, client: Client, form: Form, from: Claims, audience: string, actor: string, e: Event)
    ensures var o := WithActor(env, client, form, from, audience, actor, e).0;
      o.Issued? <==> RightsFit(env, form, from, audience) && o != Denied(SigningFailed)
  {
    RightsDenialsIff(env, client, form, from, audience, actor, e);
  }

  lemma PartiesPass(env: Env, client: Client, form: Form, from: Claims)
    ensures var e, o := SubjectEvent(client, form, from),
        WithSubject(env, client, form, from, SubjectEvent(client, form, from));
      if |Named(form)| == 1 && ActorFits(env, client, form)
      then o == WithActor(env, client, form, from, Named(form)[0], ActorOf(env, form),
                          EventAtPolicy(client, form, from, Named(form)[0], ActorOf(env, form)))
      else o.0.Denied?
  {
  }

  /** What an issued token says of its issuer, its time, its origin and its parties. */
  lemma IssuedTokenTells(env: Env, client: Client, form: Form)
    requires ExchangeToken(env, client, form).0.Issued?
    ensures VerifyAccessToken(env.signer, env.kv, form.subjectToken).Some?
    ensures var c, from := ExchangeToken(env, client, form).0.claims,
        VerifyAccessToken(env.signer, env.kv, form.subjectToken).value;
      && "iss" in c && c["iss"] == Str(env.issuer) && "gty" in c && c["gty"] == Str(EXCHANGE_GRANT)
      && "iat" in c && c["iat"].Num? && c["iat"].n * Kv.SECOND <= env.kv.now < (c["iat"].n + 1) * Kv.SECOND
      && "token_exchange" in c && c["token_exchange"] ==
           Obj(map["subject_token_jti" := Str(ClaimString(from, "jti")),
               "subject_token_type" := Str(ACCESS_TOKEN_TYPE)])
  {
    var from, audience, actor := IssuedMeans(env, client, form);
    var scopes := RequestedScopes(form, from);
    ReadsAsWritten(env, client.clientId, from, audience, scopes, actor, "iss");
    ReadsAsWritten(env, client.clientId, from, audience, scopes, actor, "gty");
    ReadsAsWritten(env, client.clientId, from, audience, scopes, actor, "iat");
    ReadsAsWritten(env, client.clientId, from, audience, scopes, actor, "token_exchange");
  }

  lemma ActorWritten(env: Env, clientId: string, from: Claims, audience: string, scopes: seq<string>, actor: string)
    ensures var c, subject := ExchangedClaims(env, clientId, from, audience, scopes, actor), ClaimString(from, "sub");
      && (actor != "" ==> "act" in c && c["act"] == Obj(map["sub" := Str(actor)]))
      && (actor == "" ==> Inherits(from, c, "act"))
      && (actor != "" && subject != "" && subject != actor ==>
          "may_act" in c && c["may_act"] == Obj(map["sub" := Str(subject)]))
      && (actor == "" || subject == "" || subject == actor ==> Inherits(from, c, "may_act"))
  {
    var written := Written(env, clientId, from, audience, scopes);
    assert "act" !in written && "may_act" !in written;
  }

  /**
   Who acts for whom: with an actor token whose subject is a, the issued token names a as the actor,
   and the subject token's subject as the one acted for when that is someone else; without an actor
   both claims are inherited.
   */
  lemma IssuedTokenNamesParties(env: Env, client: Client, form: Form)
    requires ExchangeToken(env, client, form).0.Issued?
    ensures VerifyAccessToken(env.signer, env.kv, form.subjectToken).Some?
    ensures form.actorToken != "" ==> VerifyAccessToken(env.signer, env.kv, form.actorToken).Some?
    ensures var c, from := ExchangeToken(env, client, form).0.claims,
        VerifyAccessToken(env.signer, env.kv, form.subjectToken).value;
      var a := if form.actorToken == "" then ""
          else ClaimString(VerifyAccessToken(env.signer, env.kv, form.actorToken).value, "sub");
      var subject := ClaimString(from, "sub");
      && (a != "" ==> "act" in c && c["act"] == Obj(map["sub" := Str(a)])) && (a == "" ==> Inherits(from, c, "act"))
      && (a != "" && subject != "" && subject != a ==>
          "may_act" in c && c["may_act"] == Obj(map["sub" := Str(subject)]))
      && (a == "" || subject == "" || subject == a ==> Inherits(from, c, "may_act"))
  {
    IssuedIff(env, client, form);
    var from, audience, actor := IssuedMeans(env, client, form);
    ActorWritten(env, client.clientId, from, audience, RequestedScopes(form, from), actor);
  }

  /** The event of an issued token names its subject, that token, the actor, the audience, the policy and the scopes. */
  lemma SuccessEventTells(env: Env, client: Client, form: Form)
    requires ExchangeToken(env, client, form).0.Issued?
    ensures var e, subject := ExchangeToken(env, client, form).1,
        VerifyAccessToken(env.signer, env.kv, form.subjectToken);
      && subject.Some? && |Named(form)| == 1
      && e.clientId == client.clientId && e.subjectTokenType == form.subjectTokenType
      && e.subject == Optional(ClaimString(subject.value, "sub"))
          && e.subjectTokenId == Optional(ClaimString(subject.value, "jti"))
      && e.actorSubject == Optional(ActorOf(env, form))
      && e.requestedAudience == e.grantedAudience == Some(Named(form)[0])
      && e.requestedScopes == e.grantedScopes && e.issuedTokenId == Some(env.jti) && e.policyId.Some?
      && exists p :: p in env.rows && e.policyId == Some(p.id)
  {
    IssuedIff(env, client, form);
    var from, audience, actor, e := ReachesPolicy(env, client, form);
    var i := FirstMatchIsFirst(env.rows, AskOf(form, from, audience));
    assert env.rows[i] in env.rows;
  }

  // ---- policies ----

  /** A policy matches exactly when each of its four restrictions is absent or met. */
  lemma MatchesIff(p: Policy, ask: Ask)
    ensures Matches(p, ask) <==>
      && !(p.subject.Some? && p.subject.value != "" && p.subject.value != "*" && p.subject.value != ask.subject)
      && !(|p.tokenTypes| > 0 && forall i :: 0 <= i < |p.tokenTypes| ==>
          p.tokenTypes[i] != "*" && p.tokenTypes[i] != ask.tokenType)
      && !(|p.audiences| > 0 && forall i :: 0 <= i < |p.audiences| ==>
          p.audiences[i] != "*" && p.audiences[i] != ask.audience)
      && !(p.actorRequired && !ask.actorPresent)
  {
    if "*" in p.tokenTypes { var i :| 0 <= i < |p.tokenTypes| && p.tokenTypes[i] == "*"; }
    if ask.tokenType in p.tokenTypes { var i :| 0 <= i < |p.tokenTypes| && p.tokenTypes[i] == ask.tokenType; }
    if "*" in p.audiences { var i :| 0 <= i < |p.audiences| && p.audiences[i] == "*"; }
    if ask.audience in p.audiences { var i :| 0 <= i < |p.audiences| && p.audiences[i] == ask.audience; }
  }

  /** A policy that requires an actor covers no request without one. */
  lemma ActorRequired(rows: seq<Policy>, ask: Ask)
    requires FirstMatch(rows, ask).Some? && FirstMatch(rows, ask).value.actorRequired
    ensures ask.actorPresent
  {
    var i := FirstMatchIsFirst(rows, ask);
    MatchesIff(rows[i], ask);
  }
}

/** Chains of exchanges never widen rights. */
module ExchangeChains {
  import opened Text
  import opened Claims
  import opened AccessTokens
  import opened ExchangePolicies
  import opened Exchange
  import Authz
  import Provider
  import Scopes

  datatype Hop = Hop(env: Env, client: Client, form: Form)

  /**
   Token i is exchanged by hop i for token i + 1; all are signed with one key, and everything else
   may change between hops.
   */
  ghost predicate IsChain(k: Signer, tokens: seq<string>, hops: seq<Hop>)
  {
    && |tokens| == |hops| + 1
    && forall i {:trigger hops[i]} :: 0 <= i < |hops| ==> Links(k, tokens[i], hops[i], tokens[i + 1])
  }

  ghost predicate Links(k: Signer, token: string, h: Hop, token': string)
  {
    && h.env.signer.sign == k.sign && h.env.signer.verify == k.verify && h.form.subjectToken == token
    && ExchangeToken(h.env, h.client, h.form).0.Issued? && ExchangeToken(h.env, h.client, h.form).0.token == token'
  }

  /** The policy a successful hop was granted under. */
  function PolicyOf(h: Hop): Option<Policy>
  {
    var from, audience := VerifyAccessToken(h.env.signer, h.env.kv, h.form.subjectToken), ResolveAudience(h.form);
    if from.None? || audience.Failure? then None
    else FirstMatch(h.env.rows, AskOf(h.form, from.value, audience.audience))
  }

  function ScopesOf(c: Claims): seq<string> { Scopes.Parse(ClaimString(c, "scope")) }

  /**
   `to` has no scope that `from` lacks, was issued to the same client, and repeats every claim that is
   not overwritten. Its lifetime and audience are its own: see HopRenews.
   */
  ghost predicate NoWider(from: Claims, to: Claims)
  {
    && ClaimString(to, "client_id") == ClaimString(from, "client_id")
    && Scopes.Subset(ScopesOf(to), ScopesOf(from))
    && forall name :: name !in OVERWRITTEN ==> Inherits(from, to, name)
  }

  lemma HopAttenuates(k: Signer, token: string, h: Hop, token': string)
    requires Lawful(k) && Links(k, token, h, token')
    ensures k.verify(token).Some? && k.verify(token').Some?
    ensures NoWider(k.verify(token).value, k.verify(token').value)
    ensures PolicyOf(h).Some? && PolicyAllows(PolicyOf(h).value.scopes, ScopesOf(k.verify(token').value))
  {
    var from, audience, actor := IssuedMeans(h.env, h.client, h.form);
    var to, scopes := ExchangeToken(h.env, h.client, h.form).0.claims, RequestedScopes(h.form, from);
    RequestedRoundTrip(h.form, from);
    WrittenScope(h.env, h.client.clientId, from, audience, scopes, actor);
    forall name | name !in OVERWRITTEN ensures Inherits(from, to, name) {
      OthersInherited(h.env, h.client.clientId, from, audience, scopes, actor, name);
    }
    assert k.verify(token') == Some(to);
  }

  /** What a hop's token says of its lifetime, audience and id. */
  lemma HopWrites(k: Signer, token: string, h: Hop, token': string) returns (from: Claims, audience: string)
    requires Lawful(k) && Links(k, token, h, token')
    ensures VerifyAccessToken(h.env.signer, h.env.kv, h.form.subjectToken) == Some(from)
        && ResolveAudience(h.form) == Success(audience)
    ensures FirstMatch(h.env.rows, AskOf(h.form, from, audience)).Some? && k.verify(token').Some?
    ensures var to := k.verify(token').value;
      && "exp" in to && to["exp"] == Num(Unix(h.env.kv.now + h.env.accessTTL))
      && ClaimString(to, "jti") == h.env.jti && ClaimString(to, "aud") == audience
  {
    var actor: string;
    from, audience, actor := IssuedMeans(h.env, h.client, h.form);
    WrittenRenewal(h.env, h.client.clientId, from, audience, RequestedScopes(h.form, from), actor);
    assert k.verify(token') == Some(ExchangeToken(h.env, h.client, h.form).0.claims);
  }

  /** Lifetime, audience and id are the hop's own: a fresh full lifetime, and an audience its policy matches. */
  lemma HopRenews(k: Signer, token: string, h: Hop, token': string)
    requires Lawful(k) && Links(k, token, h, token')
    ensures k.verify(token').Some? && PolicyOf(h).Some?
    ensures var to := k.verify(token').value;
      && "exp" in to && to["exp"] == Num(Unix(h.env.kv.now + h.env.accessTTL)) && ClaimString(to, "jti") == h.env.jti
      && MatchesList(PolicyOf(h).value.audiences, ClaimString(to, "aud"))
  {
    var from, audience := HopWrites(k, token, h, token');
    var i := FirstMatchIsFirst(h.env.rows, AskOf(h.form, from, audience));
  }

  /** The new token expires no later than its subject token exactly when a fresh lifetime would. */
  lemma HopOutlivesIff(k: Signer, token: string, h: Hop, token': string, exp: int)
    requires Lawful(k) && Links(k, token, h, token')
    requires k.verify(token).Some? && "exp" in k.verify(token).value && k.verify(token).value["exp"] == Num(exp)
    ensures k.verify(token').Some? && "exp" in k.verify(token').value && k.verify(token').value["exp"].Num?
    ensures k.verify(token').value["exp"].n <= exp <==> Unix(h.env.kv.now + h.env.accessTTL) <= exp
    ensures h.env.accessTTL >= 0 ==> k.verify(token').value["exp"].n >= Unix(h.env.kv.now)
  {
    HopRenews(k, token, h, token');
  }

  /** What attenuation does not cover: revoking the subject token spares the token exchanged for it. */
  lemma ExchangedTokenSurvivesRevocation(cfg: Provider.Config, k: Signer, w: Provider.World, token: string, h: Hop,
      token': string, clientId: string)
    requires Lawful(k) && Links(k, token, h, token') && k.verify(token).Some?
    requires h.env.jti != ClaimString(k.verify(token).value, "jti")
    ensures VerifyAccessToken(k, RevokeIfOwned(cfg, k, w, token, clientId).kv, token') ==
        VerifyAccessToken(k, w.kv, token')
  {
    HopRenews(k, token, h, token');
    RevocationIsLocal(cfg, k, w, token, clientId, token');
  }

  lemma NoWiderTransitive(a: Claims, b: Claims, c: Claims)
    requires NoWider(a, b) && NoWider(b, c)
    ensures NoWider(a, c)
  {
    forall name | name !in OVERWRITTEN ensures Inherits(a, c, name) {
      assert Inherits(a, b, name) && Inherits(b, c, name);
    }
  }

  /** Fewer scopes pass every policy that more scopes pass. */
  lemma PolicyAllowsFewer(policyScopes: seq<string>, more: seq<string>, fewer: seq<string>)
    requires PolicyAllows(policyScopes, more) && Scopes.Subset(fewer, more)
    ensures PolicyAllows(policyScopes, fewer)
  {
  }

  /** The same for bare claims: each step is no wider than the one before and passes its own policy. */
  ghost predicate Narrowing(cs: seq<Claims>, policies: seq<seq<string>>)
  {
    && |cs| == |policies| + 1
    && (forall i :: 0 <= i < |policies| ==> NoWider(cs[i], cs[i + 1]) && PolicyAllows(policies[i], ScopesOf(cs[i + 1])))
  }

  lemma {:induction false} NarrowingComposes(cs: seq<Claims>, policies: seq<seq<string>>, i: nat, j: nat)
    requires Narrowing(cs, policies) && i < j < |cs|
    ensures NoWider(cs[i], cs[j]) && PolicyAllows(policies[i], ScopesOf(cs[j]))
    decreases j
  {
    if i < j - 1 {
      NarrowingComposes(cs, policies, i, j - 1);
      assert NoWider(cs[j - 1], cs[j - 1 + 1]);
      NoWiderTransitive(cs[i], cs[j - 1], cs[j]);
      PolicyAllowsFewer(policies[i], ScopesOf(cs[j - 1]), ScopesOf(cs[j]));
    }
  }

  function ClaimsOf(k: Signer, token: string): Claims
  {
    if k.verify(token).Some? then k.verify(token).value else map[]
  }

  function PolicyScopes(h: Hop): seq<string>
  {
    if PolicyOf(h).Some? then PolicyOf(h).value.scopes else []
  }

  lemma ChainNarrows(k: Signer, tokens: seq<string>, hops: seq<Hop>)
    requires Lawful(k) && IsChain(k, tokens, hops)
    ensures Narrowing(seq(|tokens|, n requires 0 <= n < |tokens| => ClaimsOf(k, tokens[n])),
                      seq(|hops|, n requires 0 <= n < |hops| => PolicyScopes(hops[n])))
  {
    forall i | 0 <= i < |hops|
      ensures NoWider(ClaimsOf(k, tokens[i]), ClaimsOf(k, tokens[i + 1]))
      ensures PolicyAllows(PolicyScopes(hops[i]), ScopesOf(ClaimsOf(k, tokens[i + 1])))
    {
      HopAttenuates(k, tokens[i], hops[i], tokens[i + 1]);
    }
  }

  /** Every token of a non-trivial chain verifies, and every hop was granted under a policy. */
  lemma ChainVerifies(k: Signer, tokens: seq<string>, hops: seq<Hop>, i: nat)
    requires Lawful(k) && IsChain(k, tokens, hops) && i < |hops|
    ensures k.verify(tokens[i]).Some? && k.verify(tokens[i + 1]).Some? && PolicyOf(hops[i]).Some?
  {
    HopAttenuates(k, tokens[i], hops[i], tokens[i + 1]);
  }

  /**
   Along any chain of successful exchanges, no later token is wider than an earlier one, and every
   token's scopes pass the policy of every hop before it.
   */
  lemma ChainsNeverWiden(k: Signer, tokens: seq<string>, hops: seq<Hop>, i: nat, j: nat)
    requires Lawful(k) && IsChain(k, tokens, hops) && i < j <= |hops|
    ensures k.verify(tokens[i]).Some? && k.verify(tokens[j]).Some? && PolicyOf(hops[i]).Some?
    ensures NoWider(k.verify(tokens[i]).value, k.verify(tokens[j]).value)
    ensures PolicyAllows(PolicyOf(hops[i]).value.scopes, ScopesOf(k.verify(tokens[j]).value))
  {
    ChainVerifies(k, tokens, hops, i);
    ChainVerifies(k, tokens, hops, j - 1);
    ChainNarrows(k, tokens, hops);
    NarrowingComposes(seq(|tokens|, n requires 0 <= n < |tokens| => ClaimsOf(k, tokens[n])),
                      seq(|hops|, n requires 0 <= n < |hops| => PolicyScopes(hops[n])), i, j);
  }

  lemma IdentityClaimsAreNotOverwritten()
    ensures "sub" !in OVERWRITTEN && "customer_id" !in OVERWRITTEN && "roles" !in OVERWRITTEN
  {
  }

  /** Hence the subject the decision point sees, with its customer and roles, is the same all along the chain. */
  lemma ChainsKeepSubject(k: Signer, tokens: seq<string>, hops: seq<Hop>, i: nat, j: nat)
    requires Lawful(k) && IsChain(k, tokens, hops) && i < j <= |hops|
    ensures k.verify(tokens[i]).Some? && k.verify(tokens[j]).Some?
    ensures Authz.SubjectFromClaims(k.verify(tokens[j]).value) == Authz.SubjectFromClaims(k.verify(tokens[i]).value)
  {
    ChainsNeverWiden(k, tokens, hops, i, j);
    IdentityClaimsAreNotOverwritten();
    var from, to := k.verify(tokens[i]).value, k.verify(tokens[j]).value;
    assert Inherits(from, to, "sub") && Inherits(from, to, "customer_id") && Inherits(from, to, "roles");
  }
}

/** Rights that are exchanged in time last for ever. */
module ExchangeForever {
  import opened Text
  import opened Claims
  import opened AccessTokens
  import opened ExchangePolicies
  import opened Exchange
  import opened ExchangeChains
  import Scopes
  import Kv

  /** What stays the same from hop to hop: the key, the settings, the policies and what is asked for. */
  datatype Habit = Habit(
    k: Signer, issuer: string, accessTTL: Kv.Time, rows: seq<Policy>, jti: string, clientId: string, audience: string)

  /** The hop that exchanges `token` at `now` for the same audience again, with nothing revoked. */
  function Again(h: Habit, token: string, now: Kv.Time): Hop
  {
    Hop(Env(h.k, Kv.State(now, map[]), h.issuer, h.accessTTL, h.rows, h.jti), Client(h.clientId, [EXCHANGE_GRANT]),
        Form(ACCESS_TOKEN_TYPE, "", token, "", [h.audience], [], "", ""))
  }

  /** The habit can be kept up: tokens can be signed and last a while, and a policy admits these rights. */
  ghost predicate Sustainable(h: Habit, from: Claims)
  {
    && Lawful(h.k) && (forall c :: h.k.sign(c).Some? && h.k.sign(c).value != "") && h.accessTTL > 0
    && h.audience != "" && TrimSpace(h.audience) == h.audience && ClaimString(from, "client_id") == h.clientId
    && var policy := FirstMatch(h.rows, Ask(ClaimString(from, "sub"), ACCESS_TOKEN_TYPE, h.audience, false));
    policy.Some? && PolicyAllows(policy.value.scopes, ScopesOf(from))
  }

  /** The token is accepted at `now` and stands for these claims. */
  ghost predicate Holds(h: Habit, token: string, from: Claims, now: Kv.Time)
  {
    token != "" && VerifyAccessToken(h.k, Kv.State(now, map[]), token) == Some(from)
  }

  lemma TheAudience(h: Habit, token: string, now: Kv.Time)
    requires h.audience != "" && TrimSpace(h.audience) == h.audience
    ensures ResolveAudience(Again(h, token, now).form) == Success(h.audience)
  {
    var given := [h.audience];
    assert given[..|given| - 1] == [];
    assert Scopes.NonBlank(given) == Scopes.NonBlank([]) + [h.audience];
  }

  /** The exchange succeeds, with all the scopes there were. */
  lemma AgainSucceeds(h: Habit, token: string, from: Claims, now: Kv.Time)
    requires Sustainable(h, from) && Holds(h, token, from, now)
    ensures var hop := Again(h, token, now);
      var to := ExchangedClaims(hop.env, h.clientId, from, h.audience, Scopes.Parse(ClaimString(from, "scope")), "");
      ExchangeToken(hop.env, hop.client, hop.form).0 == Issued(h.k.sign(to).value, to)
  {
    TheAudience(h, token, now);
    assert Scopes.Parse("") == [];
    var hop := Again(h, token, now);
    assert RequestedScopes(hop.form, from) == Scopes.Parse(ClaimString(from, "scope"));
    var sub, jti := Optional(ClaimString(from, "sub")), Optional(ClaimString(from, "jti"));
    var e := Event(h.clientId, None, sub, ACCESS_TOKEN_TYPE, jti, Some(h.audience), None, Scopes.Parse(""), [], None,
                   false, None, None);
    assert ExchangeToken(hop.env, hop.client, hop.form) ==
        WithActor(hop.env, hop.client, hop.form, from, h.audience, "", e);
  }

  /** One renewal: the same rights, accepted for a whole lifetime from now. */
  lemma Renewal(h: Habit, token: string, from: Claims, now: Kv.Time) returns (token': string, to: Claims)
    requires Sustainable(h, from) && Holds(h, token, from, now)
    ensures Links(h.k, token, Again(h, token, now), token')
    ensures Sustainable(h, to) && ScopesOf(to) == ScopesOf(from)
    ensures forall later :: later <= now + h.accessTTL ==> Holds(h, token', to, later)
  {
    var hop, scopes := Again(h, token, now), Scopes.Parse(ClaimString(from, "scope"));
    AgainSucceeds(h, token, from, now);
    to := ExchangedClaims(hop.env, h.clientId, from, h.audience, scopes, "");
    token' := h.k.sign(to).value;
    Scopes.ParseFormatParse(ClaimString(from, "scope"));
    WrittenScope(hop.env, h.clientId, from, h.audience, scopes, "");
    SubjectInherited(hop.env, h.clientId, from, h.audience, scopes);
    RenewedHolds(h, hop.env, from, to, token', now);
  }

  lemma SubjectInherited(env: Env, clientId: string, from: Claims, audience: string, scopes: seq<string>)
    ensures ClaimString(ExchangedClaims(env, clientId, from, audience, scopes, ""), "sub") == ClaimString(from, "sub")
  {
    IdentityClaimsAreNotOverwritten();
    OthersInherited(env, clientId, from, audience, scopes, "", "sub");
  }

  lemma RenewedHolds(h: Habit, env: Env, from: Claims, to: Claims, token': string, now: Kv.Time)
    requires Lawful(h.k) && h.k.sign(to) == Some(token') && token' != ""
    requires env.accessTTL == h.accessTTL && env.kv.now == now
    requires to == ExchangedClaims(env, h.clientId, from, h.audience, Scopes.Parse(ClaimString(from, "scope")), "")
    ensures forall later :: later <= now + h.accessTTL ==> Holds(h, token', to, later)
  {
    WrittenRenewal(env, h.clientId, from, h.audience, Scopes.Parse(ClaimString(from, "scope")), "");
  }

  /**
   For ever: from any accepted token whose rights a policy admits there is, for every later time, a
   chain of exchanges to a token with exactly the same scopes that is accepted then.
   */
  lemma {:induction false} RightsLastForever(h: Habit, token: string, from: Claims, now: Kv.Time, later: Kv.Time)
      returns (tokens: seq<string>, hops: seq<Hop>, to: Claims)
    requires Sustainable(h, from) && Holds(h, token, from, now) && now <= later
    ensures IsChain(h.k, tokens, hops) && tokens[0] == token
    ensures Holds(h, tokens[|hops|], to, later) && ScopesOf(to) == ScopesOf(from)
    decreases later - now
  {
    if now == later {
      tokens, hops, to := [token], [], from;
    } else {
      var token', to' := Renewal(h, token, from, now);
      var next := if later <= now + h.accessTTL then later else now + h.accessTTL;
      var ts, hs;
      ts, hs, to := RightsLastForever(h, token', to', next, later);
      tokens, hops := [token] + ts, [Again(h, token, now)] + hs;
      ChainGrows(h.k, token, Again(h, token, now), ts, hs);
    }
  }

  lemma ChainGrows(k: Signer, token: string, hop: Hop, ts: seq<string>, hs: seq<Hop>)
    requires IsChain(k, ts, hs) && Links(k, token, hop, ts[0])
    ensures IsChain(k, [token] + ts, [hop] + hs)
  {
    var tokens, hops := [token] + ts, [hop] + hs;
    forall i | 0 <= i < |hops| ensures Links(k, tokens[i], hops[i], tokens[i + 1]) {
      if i > 0 { assert hops[i] == hs[i - 1] && Links(k, ts[i - 1], hs[i - 1], ts[i]); }
    }
  }
}

/** The audit log of exchanges. */
module ExchangeAudit {
  import opened Text
  import opened Claims
  import opened AccessTokens
  import opened ExchangePolicies
  import opened Exchange
  import opened ExchangeChains
  import Scopes

  /** What a success event and an issued token should agree on. */
  datatype Receipt = Receipt(tokenId: string, audience: string, scopes: seq<string>)

  function TokenReceipt(c: Claims): Receipt
  {
    Receipt(ClaimString(c, "jti"), ClaimString(c, "aud"), ScopesOf(c))
  }

  function EventReceipt(e: Event): Option<Receipt>
  {
    if e.issuedTokenId.Some? && e.grantedAudience.Some?
    then Some(Receipt(e.issuedTokenId.value, e.grantedAudience.value, e.grantedScopes)) else None
  }

  /** An event that so far claims nothing. */
  predicate Pending(e: Event)
  {
    !e.success && e.error.None? && e.grantedAudience.None? && e.grantedScopes == [] && e.issuedTokenId.None?
  }

  /** A success exactly when a token is issued, and then it tells that token; otherwise it tells the error. */
  predicate Tells(o: Outcome, e: Event)
  {
    && (e.success <==> o.Issued?)
    && (o.Issued? ==> EventReceipt(e) == Some(TokenReceipt(o.claims)) && e.error.None?)
    && (o.Denied? ==> EventReceipt(e).None? && e.error == Some(o.why) && e.grantedScopes == [])
  }

  lemma GrantTells(env: Env, client: Client, from: Claims, audience: string, actor: string, policy: Policy,
      scopes: seq<string>, e: Event)
    requires Pending(e) && Scopes.Parse(Scopes.Format(scopes)) == scopes
    ensures var (o, e') := Grant(env, client, from, audience, actor, policy, scopes, e); Tells(o, e')
  {
    WrittenScope(env, client.clientId, from, audience, scopes, actor);
    WrittenReceipt(env, client.clientId, from, audience, scopes, actor);
  }

  lemma ActorStageTells(env: Env, client: Client, form: Form, from: Claims, audience: string, actor: string, e: Event)
    requires Pending(e)
    ensures var (o, e') := WithActor(env, client, form, from, audience, actor, e); Tells(o, e')
  {
    var policy, scopes := FirstMatch(env.rows, AskOf(form, from, audience)), RequestedScopes(form, from);
    if policy.Some? {
      RequestedRoundTrip(form, from);
      GrantTells(env, client, from, audience, actor, policy.value, scopes,
          e.(policyId := Some(policy.value.id), requestedScopes := scopes));
    }
  }

  lemma AudienceStageTells(env: Env, client: Client, form: Form, from: Claims, audience: string, e: Event)
    requires Pending(e)
    ensures var (o, e') := WithAudience(env, client, form, from, audience, e); Tells(o, e')
  {
    var actor := VerifyAccessToken(env.signer, env.kv, form.actorToken);
    if form.actorToken == "" && form.actorTokenType == "" {
      ActorStageTells(env, client, form, from, audience, "", e);
    } else if form.actorToken == "" || form.actorTokenType != ACCESS_TOKEN_TYPE || actor.None?
              || ClaimString(actor.value, "client_id") != client.clientId {
      var o := WithAudience(env, client, form, from, audience, e).0;
      assert o.Denied? && WithAudience(env, client, form, from, audience, e) == Fail(e, o.why);
    } else {
      var sub := ClaimString(actor.value, "sub");
      ActorStageTells(env, client, form, from, audience, sub, e.(actorSubject := Optional(sub)));
    }
  }

  lemma SubjectStageTells(env: Env, client: Client, form: Form, from: Claims, e: Event)
    requires Pending(e)
    ensures var (o, e') := WithSubject(env, client, form, from, e); Tells(o, e')
  {
    var audience := ResolveAudience(form);
    if audience.Success? {
      var a := audience.audience;
      AudienceStageTells(env, client, form, from, a, e.(requestedAudience := Some(a)));
    }
  }

  /** Every request's event tells its outcome. */
  lemma EventTellsOutcome(env: Env, client: Client, form: Form)
    ensures var (o, e) := ExchangeToken(env, client, form); Tells(o, e)
  {
    var (o, e) := ExchangeToken(env, client, form);
    var from := VerifyAccessToken(env.signer, env.kv, form.subjectToken);
    var e0 := Event(client.clientId, None, None, FirstNonEmpty(form.subjectTokenType, "unknown"), None, None, None,
                    Scopes.Parse(form.scope), [], None, false, None, None);
    if from.None? || (o, e) == Fail(e0, SubjectForeign) {
      assert o.Denied? && (o, e) == Fail(e0, o.why);
    } else {
      var e1 := e0.(subject := Optional(ClaimString(from.value, "sub")),
          subjectTokenId := Optional(ClaimString(from.value, "jti")));
      SubjectStageTells(env, client, form, from.value, e1);
      assert (o, e) == WithSubject(env, client, form, from.value, e1) || (o.Denied? && (o, e) == Fail(e0, o.why));
    }
  }

  // ---- over runs ----

  /** Receipts of the tokens that were issued. */
  function IssuedReceipts(os: seq<Outcome>): seq<Receipt>
  {
    if os == [] then []
    else IssuedReceipts(os[..|os| - 1]) + (if os[|os| - 1].Issued? then [TokenReceipt(os[|os| - 1].claims)] else [])
  }

  /** Receipts of the events that claim success. */
  function LoggedReceipts(es: seq<Event>): seq<Receipt>
  {
    if es == [] then []
    else
      var last := es[|es| - 1];
      var own := if last.success && EventReceipt(last).Some? then [EventReceipt(last).value] else [];
      LoggedReceipts(es[..|es| - 1]) + own
  }

  lemma {:induction false} TellingLogsAgree(os: seq<Outcome>, es: seq<Event>)
    requires |os| == |es| && forall i :: 0 <= i < |os| ==> Tells(os[i], es[i])
    ensures LoggedReceipts(es) == IssuedReceipts(os)
  {
    if os != [] {
      var n := |os| - 1;
      assert forall i :: 0 <= i < n ==> os[..n][i] == os[i] && es[..n][i] == es[i];
      TellingLogsAgree(os[..n], es[..n]);
      assert Tells(os[n], es[n]);
    }
  }

  function OutcomeOf(h: Hop): Outcome { ExchangeToken(h.env, h.client, h.form).0 }

  function EventOf(h: Hop): Event { ExchangeToken(h.env, h.client, h.form).1 }

  /** The outcomes of requests, and the events they log, in order. */
  function Outcomes(hs: seq<Hop>): seq<Outcome> { seq(|hs|, i requires 0 <= i < |hs| => OutcomeOf(hs[i])) }

  function Events(hs: seq<Hop>): seq<Event> { seq(|hs|, i requires 0 <= i < |hs| => EventOf(hs[i])) }

  lemma OneMoreRequest(hs: seq<Hop>, n: nat)
    requires n < |hs|
    ensures Outcomes(hs[..n + 1]) == Outcomes(hs[..n]) + [OutcomeOf(hs[n])]
    ensures Events(hs[..n + 1]) == Events(hs[..n]) + [EventOf(hs[n])]
  {
  }

  /** Conservation: over any run of requests, the log's success events list the issued tokens one for one, in order. */
  lemma AuditConservation(hs: seq<Hop>)
    ensures |Events(hs)| == |Outcomes(hs)| == |hs| && LoggedReceipts(Events(hs)) == IssuedReceipts(Outcomes(hs))
  {
    forall i | 0 <= i < |hs| ensures Tells(OutcomeOf(hs[i]), EventOf(hs[i])) {
      EventTellsOutcome(hs[i].env, hs[i].client, hs[i].form);
    }
    TellingLogsAgree(Outcomes(hs), Events(hs));
  }
}

/** The handler itself: checks that return early, an event filled in on the way, and a log entry at every exit. */
module ExchangeHandler {
  import opened Text
  import opened Claims
  import opened AccessTokens
  import opened ExchangePolicies
  import opened Exchange
  import opened ExchangeChains
  import opened ExchangeAudit
  import Scopes

  class Exchanger {
    var log: seq<Event>
    var event: Event

    constructor (event: Event)
      ensures log == []
    {
      this.event, this.log := event, [];
    }

    /** Exactly one event is appended, whichever way the request ends. */
    method TokenExchange(env: Env, client: Client, form: Form) returns (o: Outcome, error: Option<(string, string)>)
      modifies this
      ensures o == ExchangeToken(env, client, form).0
      ensures error == if o.Denied? then Some(Describe(o.why)) else None
      ensures log == old(log) + [ExchangeToken(env, client, form).1]
    {
      var requested := Scopes.ParseScopes(form.scope);
      event := Event(client.clientId, None, None, FirstNonEmpty(form.subjectTokenType, "unknown"), None, None, None,
                     requested, [], None, false, None, None);
      o := CheckRequest(env, client, form);
      error := if o.Denied? then Some(Describe(o.why)) else None;
      log := log + [event];
    }

    method Handle(h: Hop) returns (o: Outcome)
      modifies this
      ensures o == OutcomeOf(h) && log == old(log) + [EventOf(h)]
    {
      var outcome, _ := TokenExchange(h.env, h.client, h.form);
      o := outcome;
    }

    method HandleNext(hs: seq<Hop>, n: nat, os: seq<Outcome>) returns (os': seq<Outcome>)
      requires n < |hs| && os == Outcomes(hs[..n])
      modifies this
      ensures os' == Outcomes(hs[..n + 1])
      ensures forall before :: old(log) == before + Events(hs[..n]) ==> log == before + Events(hs[..n + 1])
    {
      var o := Handle(hs[n]);
      os' := os + [o];
      OneMoreRequest(hs, n);
    }

    /** Requests handled one after the other: one event each, in order. */
    method Serve(hs: seq<Hop>) returns (os: seq<Outcome>)
      modifies this
      ensures os == Outcomes(hs) && log == old(log) + Events(hs)
    {
      os := [];
      for n := 0 to |hs|
        invariant os == Outcomes(hs[..n]) && log == old(log) + Events(hs[..n])
      {
        os := HandleNext(hs, n, os);
      }
      assert hs[..|hs|] == hs;
    }

    /** Hence the success events of a log that starts empty list the issued tokens one for one. */
    method ServeAudited(hs: seq<Hop>) returns (os: seq<Outcome>)
      requires log == []
      modifies this
      ensures os == Outcomes(hs) && |log| == |os| && LoggedReceipts(log) == IssuedReceipts(os)
    {
      os := Serve(hs);
      AuditConservation(hs);
      assert log == Events(hs);
    }

    method Deny(why: Denial) returns (o: Outcome)
      modifies this`event
      ensures (o, event) == Fail(old(event), why)
    {
      event := event.(error := Some(why));
      o := Denied(why);
    }

    method CheckRequest(env: Env, client: Client, form: Form) returns (o: Outcome)
      requires event == Event(client.clientId, None, None, FirstNonEmpty(form.subjectTokenType, "unknown"), None, None,
                              None, Scopes.Parse(form.scope), [], None, false, None, None)
      modifies this`event
      ensures (o, event) == ExchangeToken(env, client, form)
    {
      if EXCHANGE_GRANT !in client.grantTypes {
        o := Deny(GrantNotAllowed);
        return;
      }
      if form.requestedTokenType != "" && form.requestedTokenType != ACCESS_TOKEN_TYPE {
        o := Deny(RequestedTypeUnsupported);
        return;
      }
      if form.subjectTokenType != ACCESS_TOKEN_TYPE {
        o := Deny(SubjectTypeUnsupported);
        return;
      }
      if form.subjectToken == "" {
        o := Deny(SubjectMissing);
        return;
      }
      var from := VerifyAccessToken(env.signer, env.kv, form.subjectToken);
      if from.None? {
        o := Deny(SubjectInvalid);
        return;
      }
      if ClaimString(from.value, "client_id") != client.clientId {
        o := Deny(SubjectForeign);
        return;
      }
      event := event.(subject := Optional(ClaimString(from.value, "sub")));
      event := event.(subjectTokenId := Optional(ClaimString(from.value, "jti")));
      o := CheckParties(env, client, form, from.value);
    }

    method CheckParties(env: Env, client: Client, form: Form, from: Claims) returns (o: Outcome)
      modifies this`event
      ensures (o, event) == WithSubject(env, client, form, from, old(event))
    {
      var audience := ResolveTokenExchangeAudience(form);
      if audience.Failure? {
        o := Deny(audience.why);
        return;
      }
      event := event.(requestedAudience := Some(audience.audience));
      var actorSubject := "";
      if form.actorToken != "" || form.actorTokenType != "" {
        if form.actorToken == "" || form.actorTokenType == "" {
          o := Deny(ActorIncomplete);
          return;
        }
        if form.actorTokenType != ACCESS_TOKEN_TYPE {
          o := Deny(ActorTypeUnsupported);
          return;
        }
        var actor := VerifyAccessToken(env.signer, env.kv, form.actorToken);
        if actor.None? {
          o := Deny(ActorInvalid);
          return;
        }
        if ClaimString(actor.value, "client_id") != client.clientId {
          o := Deny(ActorForeign);
          return;
        }
        actorSubject := ClaimString(actor.value, "sub");
        event := event.(actorSubject := Optional(actorSubject));
      }
      o := CheckPolicy(env, client, form, from, audience.audience, actorSubject);
    }

    method CheckPolicy(env: Env, client: Client, form: Form, from: Claims, audience: string, actor: string)
        returns (o: Outcome)
      modifies this`event
      ensures (o, event) == WithActor(env, client, form, from, audience, actor, old(event))
    {
      var policy := FindTokenExchangePolicy(env.rows, AskOf(form, from, audience));
      if policy.None? {
        o := Deny(NoPolicy);
        return;
      }
      event := event.(policyId := Some(policy.value.id));
      var held := Scopes.ParseScopes(ClaimString(from, "scope"));
      var requested := Scopes.ParseScopes(form.scope);
      if |requested| == 0 { requested := held; }
      event := event.(requestedScopes := requested);
      var within := Scopes.ScopeSubset(requested, held);
      if !within {
        o := Deny(ExceedsSubject);
        return;
      }
      var allowed := AllowsScopes(policy.value.scopes, requested);
      if !allowed {
        o := Deny(ExceedsPolicy);
        return;
      }
      o := Sign(env, client, from, audience, actor, requested);
    }

    method Sign(env: Env, client: Client, from: Claims, audience: string, actor: string, scopes: seq<string>)
        returns (o: Outcome)
      modifies this`event
      ensures var claims := ExchangedClaims(env, client.clientId, from, audience, scopes, actor);
        if env.signer.sign(claims).None? then (o, event) == Fail(old(event), SigningFailed)
        else
          && o == Issued(env.signer.sign(claims).value, claims)
          && event == old(event).(success := true, error := None, grantedAudience := Some(audience),
                                  grantedScopes := scopes, issuedTokenId := Some(env.jti))
    {
      var claims := BuildClaims(env, client.clientId, from, audience, scopes, actor);
      var token := env.signer.sign(claims);
      if token.None? {
        o := Deny(SigningFailed);
        return;
      }
      event := event.(success := true, error := None);
      event := event.(grantedAudience := Some(audience), grantedScopes := scopes, issuedTokenId := Some(env.jti));
      o := Issued(token.value, claims);
    }
  }

  method ResolveTokenExchangeAudience(form: Form) returns (r: Resolved)
    ensures r == ResolveAudience(form)
  {
    var candidates := form.audiences;
    if |candidates| == 0 { candidates := form.resources; }
    var normalized: seq<string> := [];
    for i := 0 to |candidates|
      invariant normalized == Scopes.NonBlank(candidates[..i])
    {
      var candidate := TrimSpace(candidates[i]);
      assert candidates[..i + 1][..i] == candidates[..i];
      if candidate != "" { normalized := normalized + [candidate]; }
    }
    assert candidates[..|candidates|] == candidates;
    if |normalized| == 0 { return Failure(AudienceMissing); }
    if |normalized| > 1 { return Failure(AudienceAmbiguous); }
    r := Success(normalized[0]);
  }

  method AllowsScopes(policyScopes: seq<string>, requested: seq<string>) returns (ok: bool)
    ensures ok == PolicyAllows(policyScopes, requested)
  {
    if |policyScopes| == 0 { return true; }
    for i := 0 to |policyScopes|
      invariant "*" !in policyScopes[..i]
    {
      if policyScopes[i] == "*" { return true; }
    }
    assert policyScopes[..|policyScopes|] == policyScopes;
    ok := Scopes.ScopeSubset(requested, policyScopes);
  }

  /** The clone of the subject token's claims, overwritten one claim at a time. */
  method BuildClaims(env: Env, clientId: string, from: Claims, audience: string, scopes: seq<string>, actor: string)
      returns (claims: Claims)
    ensures claims == ExchangedClaims(env, clientId, from, audience, scopes, actor)
  {
    var subject := ClaimString(from, "sub");
    claims := from;
    claims := claims["iss" := Str(env.issuer)];
    claims := claims["aud" := Str(audience)];
    claims := claims["client_id" := Str(clientId)];
    claims := claims["scope" := Str(Scopes.Format(scopes))];
    claims := claims["jti" := Str(env.jti)];
    claims := claims["iat" := Num(Unix(env.kv.now))];
    claims := claims["exp" := Num(Unix(env.kv.now + env.accessTTL))];
    claims := claims["gty" := Str(EXCHANGE_GRANT)];
    claims := claims["token_exchange" :=
      Obj(map["subject_token_jti" := Str(ClaimString(from, "jti")), "subject_token_type" := Str(ACCESS_TOKEN_TYPE)])];
    assert claims == from + Written(env, clientId, from, audience, scopes);
    if actor != "" {
      claims := claims["act" := Obj(map["sub" := Str(actor)])];
      if subject != "" && subject != actor {
        claims := claims["may_act" := Obj(map["sub" := Str(subject)])];
      }
    }
  }
}
