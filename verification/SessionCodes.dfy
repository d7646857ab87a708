/**
 Authorization codes over whole runs of the session store: a code that was invalidated is never
 handed out as good.
 */
module SessionCodes {
  import opened Text
  import Kv
  import opened SessionStore
  import opened SessionRefinement

  predicate CreatesCode(op: Op, key: string) { op.Create? && op.kind.AuthorizeCode? && op.key == key }

  /** The code was invalidated since it was last created. */
  function Spent(ops: seq<Op>, key: string): bool
  {
    if ops == [] then false
    else
      var op := ops[|ops| - 1];
      if CreatesCode(op, key) then false
      else if op.InvalidateCode? && op.key == key then true
      else Spent(ops[..|ops| - 1], key)
  }

  /** The request the code was last created for, with the signature given then. */
  function Latest(ops: seq<Op>, key: string): Option<(Request, string)>
  {
    if ops == [] then None
    else
      var op := ops[|ops| - 1];
      if CreatesCode(op, key) then Some((op.request, op.accessSignature)) else Latest(ops[..|ops| - 1], key)
  }

  /** Each live code record is what its last create made of it, marked exactly when it is spent. */
  ghost predicate CodesTold(c: Config, s: Store, ops: seq<Op>)
  {
    forall key :: Rec(c, s, AuthorizeCode, key).Some? ==> CodeTold(ops, key, Rec(c, s, AuthorizeCode, key).value.p)
  }

  predicate CodeTold(ops: seq<Op>, key: string, p: Persisted)
  {
    && Latest(ops, key).Some?
    && p == Row(AuthorizeCode, Latest(ops, key).value.0, Latest(ops, key).value.1).(invalidated := Spent(ops, key))
  }

  lemma StepTellsCodes(c: Config, s: Store, ops: seq<Op>, op: Op)
    requires ValidConfig(c) && Typed(c, s) && CodesTold(c, s, ops)
    ensures CodesTold(c, Step(c, s, op).0, ops + [op])
  {
    var s', ops' := Step(c, s, op).0, ops + [op];
    assert ops'[..|ops|] == ops && ops'[|ops|] == op;
    match op {
      case Create(kind, key, r, sig) => PutEffect(c, s, kind, key, r, sig);
      case Read(kind, key, _, _) => DeleteEffect(c, s, kind, key);
      case Remove(kind, key) => DeleteEffect(c, s, kind, key);
      case InvalidateCode(key) => InvalidateEffect(c, s, key);
      case RevokeAll(kind, id) => RevokeEffect(c, s, kind, id);
      case Tick(d) => TickEffect(c, s, d);
    }
    forall key | Rec(c, s', AuthorizeCode, key).Some?
        ensures CodeTold(ops', key, Rec(c, s', AuthorizeCode, key).value.p) {
      if Rec(c, s, AuthorizeCode, key).Some? { assert CodeTold(ops, key, Rec(c, s, AuthorizeCode, key).value.p); }
    }
  }

  lemma {:induction false} AfterOneMore(c: Config, s: Store, ops: seq<Op>, op: Op)
    requires c.defaultTTL > 0
    ensures After(c, s, ops + [op]) == Step(c, After(c, s, ops), op).0
    decreases |ops|
  {
    if ops == [] {
      assert [] + [op] == [op];
    } else {
      assert (ops + [op])[1..] == ops[1..] + [op];
      AfterOneMore(c, Step(c, s, ops[0]).0, ops[1..], op);
    }
  }

  lemma {:induction false} RunTellsCodes(c: Config, start: Kv.Time, ops: seq<Op>)
    requires ValidConfig(c)
    ensures Typed(c, After(c, Kv.State(start, map[]), ops)) && CodesTold(c, After(c, Kv.State(start, map[]), ops), ops)
  {
    if ops != [] {
      var before, op := ops[..|ops| - 1], ops[|ops| - 1];
      RunTellsCodes(c, start, before);
      assert ops == before + [op];
      AfterOneMore(c, Kv.State(start, map[]), before, op);
      StepTellsCodes(c, After(c, Kv.State(start, map[]), before), before, op);
      StepKeepsTyped(c, After(c, Kv.State(start, map[]), before), op);
    }
  }

  /** The code can still be read: its record is live, and its own deadline, if any, has not passed. */
  predicate Readable(c: Config, s: Store, key: string)
  {
    var r := Rec(c, s, AuthorizeCode, key);
    r.Some? && (r.value.p.expiresAt.None? || s.now <= r.value.p.expiresAt.value)
  }

  /** A request rebuilt for a reader has everything the stored one had; a foreign session is the reader's or empty. */
  predicate RebuiltFrom(back: Request, r: Request, session: Option<Session>)
  {
    && back == r.(session := back.session)
    && (if r.session.Munin? then back.session == r.session
        else if session.Some? then back.session == session.value
        else back.session == Munin("", map[]))
  }

  /**
   Reading a code, over every run: it is handed out as good exactly when it is readable, its client
   is known and it was not invalidated since its last create; invalidated, it is handed out as such;
   in either case with the request it was last created for. Otherwise it is not found.
   */
  lemma CodeReadIff(c: Config, start: Kv.Time, ops: seq<Op>, key: string, session: Option<Session>,
      clients: set<string>)
    requires ValidConfig(c)
    ensures var s := After(c, Kv.State(start, map[]), ops);
      var out := Step(c, s, Read(AuthorizeCode, key, session, clients)).1;
      var known := Latest(ops, key).Some? && Latest(ops, key).value.0.clientId in clients;
      && (out.Got? <==> Readable(c, s, key) && known && !Spent(ops, key))
      && (out.InvalidatedCode? <==> Readable(c, s, key) && known && Spent(ops, key))
      && (out.Got? || out.InvalidatedCode? ==> RebuiltFrom(out.request, Latest(ops, key).value.0, session))
      && out != Done
  {
    RunTellsCodes(c, start, ops);
    var s := After(c, Kv.State(start, map[]), ops);
    if Rec(c, s, AuthorizeCode, key).Some? { assert CodeTold(ops, key, Rec(c, s, AuthorizeCode, key).value.p); }
  }

  /** Once a code has been invalidated, no run without a new create of it reads it as good. */
  lemma InvalidatedStaysSpent(c: Config, start: Kv.Time, ops: seq<Op>, later: seq<Op>, key: string,
      session: Option<Session>,
      clients: set<string>)
    requires ValidConfig(c) && (forall i :: 0 <= i < |later| ==> !CreatesCode(later[i], key))
    ensures var s := After(c, Kv.State(start, map[]), ops + [InvalidateCode(key)] + later);
      !Step(c, s, Read(AuthorizeCode, key, session, clients)).1.Got?
  {
    SpentPersists(ops + [InvalidateCode(key)], later, key);
    CodeReadIff(c, start, ops + [InvalidateCode(key)] + later, key, session, clients);
  }

  lemma {:induction false} SpentPersists(ops: seq<Op>, later: seq<Op>, key: string)
    requires Spent(ops, key) && (forall i :: 0 <= i < |later| ==> !CreatesCode(later[i], key))
    ensures Spent(ops + later, key)
  {
    if later == [] {
      assert ops + later == ops;
    } else {
      var n := |later| - 1;
      SpentPersists(ops, later[..n], key);
      assert (ops + later)[..|ops + later| - 1] == ops + later[..n];
    }
  }

  /**
   A session of another kind is handed out exactly when it is readable and its client known, and
   never as an invalidated code.
   */
  lemma OtherReadIff(c: Config, s: Store, kind: Kind, key: string, session: Option<Session>, clients: set<string>)
    requires ValidConfig(c) && Typed(c, s) && kind != AuthorizeCode
    ensures var out, r := Step(c, s, Read(kind, key, session, clients)).1, Rec(c, s, kind, key);
      && (out.Got? || out == NotFound)
      && (out.Got? <==>
            r.Some? && r.value.p.clientId in clients
            && (r.value.p.expiresAt.None? || s.now <= r.value.p.expiresAt.value))
      && (out.Got? ==> out.request.id == r.value.p.id && out.request.clientId == r.value.p.clientId)
      && (out.Got? ==> out.request.grantedScope == r.value.p.grantedScope)
      && (out.Got? ==> out.request.grantedAudience == r.value.p.grantedAudience)
  {
  }

  /**
   Which deadline of a session governs a record: an access token its own, a refresh token its own,
   all else the code's.
   */
  lemma DeadlinePerKind(subject: string, code: Kv.Time, access: Kv.Time, refresh: Kv.Time)
    requires code != ZERO_TIME && access != ZERO_TIME && refresh != ZERO_TIME
    ensures var session := Munin(subject, map[CodeType := code, AccessType := access, RefreshType := refresh]);
      && ExpiryFor(session, AccessToken) == Some(access) && ExpiryFor(session, RefreshToken) == Some(refresh)
      && ExpiryFor(session, AuthorizeCode) == ExpiryFor(session, Pkce) == ExpiryFor(session, OpenId) == Some(code)
  {
  }

  /** A session has a deadline for a kind exactly when it is the provider's own and names a non-zero one. */
  lemma DeadlineIff(session: Session, kind: Kind)
    ensures ExpiryFor(session, kind).Some? <==>
      && session.Munin?
      && ( || (kind == AccessToken && AccessType in session.expiresAt && session.expiresAt[AccessType] != ZERO_TIME)
           || (kind == RefreshToken && RefreshType in session.expiresAt && session.expiresAt[RefreshType] != ZERO_TIME)
           || (!Indexed(kind) && CodeType in session.expiresAt && session.expiresAt[CodeType] != ZERO_TIME))
  {
  }
}
