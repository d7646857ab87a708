/**
 The token-session store of internal/fositestore/store.go: typed sessions flattened into hashed
 string keys of one key-value store, with a reverse index from request id to keys for revocation.
 The hash (SHA-256 followed by base64url) is a parameter assumed injective.
 */
module SessionStore {
  import opened Text
  import Kv

  datatype Kind = AuthorizeCode | AccessToken | RefreshToken | Pkce | OpenId

  datatype TokenType = CodeType | AccessType | RefreshType

  /** The provider's own session type, or some other implementation of the library's interface. */
  datatype Session = Munin(subject: string, expiresAt: map<TokenType, Kv.Time>) | Foreign(tag: string)

  datatype Request = Request(
    id: string, requestedAt: Kv.Time, clientId: string,
    requestedScope: seq<string>, grantedScope: seq<string>,
    requestedAudience: seq<string>, grantedAudience: seq<string>,
    form: map<string, seq<string>>, session: Session)

  datatype Persisted = Persisted(
    id: string, requestedAt: Kv.Time, clientId: string,
    requestedScope: seq<string>, grantedScope: seq<string>,
    requestedAudience: seq<string>, grantedAudience: seq<string>,
    form: map<string, seq<string>>, session: Option<Session>,
    accessSignature: string, invalidated: bool, expiresAt: Option<Kv.Time>)

  type Store = Kv.State<string, Persisted>

  /** The default lifetime and the two key renderings: of a session, and of a request id's index. */
  datatype Config = Config(defaultTTL: Kv.Time, storeId: (Kind, string) -> string, indexKey: (Kind, string) -> string)

  ghost predicate Injective(f: string -> string)
  {
    forall x, y :: f(x) == f(y) ==> x == y
  }

  /** Distinct sessions and indexes have distinct keys; HashedKeysAreValid proves it of the real keys. */
  ghost predicate ValidConfig(c: Config)
  {
    && c.defaultTTL > 0
    && (forall k1, x1, k2, x2 :: c.storeId(k1, x1) == c.storeId(k2, x2) ==> k1 == k2 && x1 == x2)
    && (forall k1, x1, k2, x2 :: c.indexKey(k1, x1) == c.indexKey(k2, x2) ==> k1 == k2 && x1 == x2)
    && (forall k1, x1, k2, x2 :: c.storeId(k1, x1) != c.indexKey(k2, x2))
  }

  const ZERO_TIME: Kv.Time := 0

  predicate Indexed(kind: Kind) { kind.AccessToken? || kind.RefreshToken? }

  function Name(kind: Kind): (n: string)
    ensures NulFree(n)
  {
    match kind
    case AuthorizeCode => "fosite_authorize_code"
    case AccessToken => "fosite_access_token"
    case RefreshToken => "fosite_refresh_token"
    case Pkce => "fosite_pkce"
    case OpenId => "fosite_openid"
  }

  function Flat(kind: Kind, key: string): string { Name(kind) + [NUL] + key }

  function StoreId(sha: string -> string, kind: Kind, key: string): string
  {
    "fs:" + sha(Flat(kind, key))
  }

  function IndexKey(sha: string -> string, kind: Kind, requestId: string): string
  {
    "fsidx:" + sha("idx" + [NUL] + Flat(kind, requestId))
  }

  function HashedConfig(defaultTTL: Kv.Time, sha: string -> string): Config
  {
    Config(if defaultTTL <= 0 then 30 * 24 * Kv.HOUR else defaultTTL,
           (kind, key) => StoreId(sha, kind, key), (kind, id) => IndexKey(sha, kind, id))
  }

  function TtlFor(c: Config, now: Kv.Time, exp: Option<Kv.Time>): (ttl: Kv.Time)
    requires c.defaultTTL > 0
    ensures ttl > 0
    ensures exp.Some? && exp.value > now ==> now + ttl == exp.value
    ensures exp.Some? && exp.value <= now ==> ttl == Kv.SECOND
    ensures exp.None? ==> ttl == c.defaultTTL
  {
    match exp
    case None => c.defaultTTL
    case Some(e) => if e - now > 0 then e - now else Kv.SECOND
  }

  function ExpiryFor(session: Session, kind: Kind): Option<Kv.Time>
  {
    if session.Foreign? then None
    else
      var t := match kind case AccessToken => AccessType case RefreshToken => RefreshType case _ => CodeType;
      if t in session.expiresAt && session.expiresAt[t] != ZERO_TIME then Some(session.expiresAt[t]) else None
  }

  function RequestToPersisted(r: Request): Persisted
  {
    Persisted(r.id, r.requestedAt, r.clientId, r.requestedScope, r.grantedScope, r.requestedAudience,
              r.grantedAudience, r.form, if r.session.Munin? then Some(r.session) else None, "", false, None)
  }

  function PersistedToRequest(clients: set<string>, p: Persisted, session: Option<Session>): Result<Request>
  {
    if p.clientId !in clients then Err("not_found")
    else
      var stored := if p.session.Some? then p.session.value
                    else if session.Some? then session.value else Munin("", map[]);
      Ok(Request(p.id, p.requestedAt, p.clientId, p.requestedScope, p.grantedScope,
                 p.requestedAudience, p.grantedAudience, p.form, stored))
  }

  // ---- store operations ----

  function Row(kind: Kind, r: Request, sig: string): Persisted
  {
    RequestToPersisted(r).(accessSignature := sig, expiresAt := ExpiryFor(r.session, kind))
  }

  function PutPersisted(c: Config, s: Store, kind: Kind, key: string, p: Persisted): Store
    requires c.defaultTTL > 0
  {
    Kv.Set(s, c.storeId(kind, key), p, TtlFor(c, s.now, p.expiresAt))
  }

  function Put(c: Config, s: Store, kind: Kind, key: string, r: Request, sig: string): Store
    requires c.defaultTTL > 0
  {
    var p := Row(kind, r, sig);
    var s1 := PutPersisted(c, s, kind, key, p);
    if Indexed(kind) && p.id != "" then
      Kv.SAdd(s1, c.indexKey(kind, p.id), TtlFor(c, s.now, p.expiresAt), {c.storeId(kind, key)})
    else s1
  }

  function GetPersisted(c: Config, s: Store, kind: Kind, key: string): (Store, Option<Persisted>)
  {
    match Kv.Get(s, c.storeId(kind, key))
    case Found(p) =>
      if p.expiresAt.Some? && s.now > p.expiresAt.value then (Delete(c, s, kind, key), None) else (s, Some(p))
    case _ => (s, None)
  }

  function Delete(c: Config, s: Store, kind: Kind, key: string): Store
  {
    Kv.Del(s, {c.storeId(kind, key)})
  }

  function Invalidate(c: Config, s: Store, code: string): (Store, bool)
    requires c.defaultTTL > 0
  {
    var (s1, found) := GetPersisted(c, s, AuthorizeCode, code);
    if found.None? then (s1, false)
    else (PutPersisted(c, s1, AuthorizeCode, code, found.value.(invalidated := true)), true)
  }

  function Revoke(c: Config, s: Store, kind: Kind, requestId: string): Store
  {
    match Kv.SMembers(s, c.indexKey(kind, requestId))
    case Found(ids) => Kv.Del(s, ids + {c.indexKey(kind, requestId)})
    case _ => s
  }

  // ---- the storage interface as one step function ----

  datatype Op =
    | Create(kind: Kind, key: string, request: Request, accessSignature: string)
    | Read(kind: Kind, key: string, session: Option<Session>, clients: set<string>)
    | Remove(kind: Kind, key: string)
    | InvalidateCode(key: string)
    | RevokeAll(kind: Kind, requestId: string)
    | Tick(d: nat)

  datatype Out = Done | NotFound | Got(request: Request) | InvalidatedCode(request: Request)

  /** What a reader gets from a row: the rebuilt request, flagged when it is an invalidated code. */
  function ReadOut(kind: Kind, found: Option<Persisted>, session: Option<Session>, clients: set<string>): Out
  {
    if found.None? then NotFound
    else
      match PersistedToRequest(clients, found.value, session)
      case Err(_) => NotFound
      case Ok(r) => if kind.AuthorizeCode? && found.value.invalidated then InvalidatedCode(r) else Got(r)
  }

  function Step(c: Config, s: Store, op: Op): (Store, Out)
    requires c.defaultTTL > 0
  {
    match op
    case Create(kind, key, r, sig) => (Put(c, s, kind, key, r, sig), Done)
    case Read(kind, key, session, clients) =>
      var (s1, found) := GetPersisted(c, s, kind, key);
      (s1, ReadOut(kind, found, session, clients))
    case Remove(kind, key) => (Delete(c, s, kind, key), Done)
    case InvalidateCode(key) =>
      var (s1, found) := Invalidate(c, s, key);
      (s1, if found then Done else NotFound)
    case RevokeAll(kind, id) => (if Indexed(kind) then Revoke(c, s, kind, id) else s, Done)
    case Tick(d) => (Kv.Tick(s, d), Done)
  }

  /** A stored request reads back unchanged, unless its session was not the provider's own type. */
  lemma RequestRoundTrip(clients: set<string>, kind: Kind, r: Request, sig: string, session: Option<Session>)
    requires r.clientId in clients
    ensures PersistedToRequest(clients, Row(kind, r, sig), session) == Ok(r)
       <==> r.session.Munin? || session == Some(r.session)
  {
    var back := PersistedToRequest(clients, Row(kind, r, sig), session);
    assert back.Ok? && back.value == r.(session := back.value.session);
  }

  // ---- key shapes ----

  lemma NamesDiffer(k1: Kind, k2: Kind)
    ensures Name(k1) == Name(k2) ==> k1 == k2
  {
    assert Name(AuthorizeCode)[8] == 'u' && Name(AccessToken)[8] == 'c';
    assert Name(RefreshToken)[7] == 'r' && Name(Pkce)[7] == 'p' && Name(OpenId)[7] == 'o';
    assert Name(AuthorizeCode)[7] == 'a' && Name(AccessToken)[7] == 'a';
  }

  lemma FlatInjective(k1: Kind, key1: string, k2: Kind, key2: string)
    requires Flat(k1, key1) == Flat(k2, key2)
    ensures k1 == k2 && key1 == key2
  {
    HeadTailInjective(Name(k1), key1, Name(k2), key2, NUL);
    NamesDiffer(k1, k2);
  }

  lemma StoreIdInjective(sha: string -> string, k1: Kind, key1: string, k2: Kind, key2: string)
    requires Injective(sha) && StoreId(sha, k1, key1) == StoreId(sha, k2, key2)
    ensures k1 == k2 && key1 == key2
  {
    var h1, h2 := sha(Flat(k1, key1)), sha(Flat(k2, key2));
    assert h1 == ("fs:" + h1)[3..] && h2 == ("fs:" + h2)[3..];
    FlatInjective(k1, key1, k2, key2);
  }

  lemma IndexKeyInjective(sha: string -> string, k1: Kind, id1: string, k2: Kind, id2: string)
    requires Injective(sha) && IndexKey(sha, k1, id1) == IndexKey(sha, k2, id2)
    ensures k1 == k2 && id1 == id2
  {
    var x, f1, f2 := "idx" + [NUL], Flat(k1, id1), Flat(k2, id2);
    var h1, h2 := sha(x + f1), sha(x + f2);
    assert h1 == ("fsidx:" + h1)[6..] && h2 == ("fsidx:" + h2)[6..];
    assert f1 == (x + f1)[4..] && f2 == (x + f2)[4..];
    FlatInjective(k1, id1, k2, id2);
  }

  /** The names, NUL separators and prefixes keep all keys apart when the hash does. */
  lemma HashedKeysAreValid(defaultTTL: Kv.Time, sha: string -> string)
    requires Injective(sha)
    ensures ValidConfig(HashedConfig(defaultTTL, sha))
  {
    var c := HashedConfig(defaultTTL, sha);
    forall k1, x1, k2, x2 | c.storeId(k1, x1) == c.storeId(k2, x2) ensures k1 == k2 && x1 == x2 {
      StoreIdInjective(sha, k1, x1, k2, x2);
    }
    forall k1, x1, k2, x2 | c.indexKey(k1, x1) == c.indexKey(k2, x2) ensures k1 == k2 && x1 == x2 {
      IndexKeyInjective(sha, k1, x1, k2, x2);
    }
    forall k1, x1, k2, x2 ensures c.storeId(k1, x1) != c.indexKey(k2, x2) {
      assert StoreId(sha, k1, x1)[2] == ':' && IndexKey(sha, k2, x2)[2] == 'i';
    }
  }
}

/** The store as the object whose methods the OAuth library calls. */
module SessionStoreObject {
  import opened Text
  import Kv
  import KvClient
  import opened SessionStore

  class TokenStore {
    const c: Config
    const kv: KvClient.Client<string, Persisted>

    constructor (kv: KvClient.Client<string, Persisted>, sha: string -> string, defaultTTL: Kv.Time)
      ensures this.kv == kv && c == HashedConfig(defaultTTL, sha)
    {
      this.kv := kv;
      c := HashedConfig(defaultTTL, sha);
    }

    method CreateSession(kind: Kind, key: string, request: Request, accessSignature: string)
      requires c.defaultTTL > 0
      modifies kv
      ensures kv.Snapshot() == Step(c, old(kv.Snapshot()), Create(kind, key, request, accessSignature)).0
    {
      var p := RequestToPersisted(request);
      p := p.(accessSignature := accessSignature, invalidated := false);
      p := p.(expiresAt := ExpiryFor(request.session, kind));
      kv.Set(c.storeId(kind, key), p, TtlFor(c, kv.now, p.expiresAt));
      if Indexed(kind) && p.id != "" {
        kv.SAdd(c.indexKey(kind, p.id), TtlFor(c, kv.now, p.expiresAt), {c.storeId(kind, key)});
      }
    }

    method ReadPersisted(kind: Kind, key: string) returns (found: Option<Persisted>)
      modifies kv
      ensures kv.Snapshot() == GetPersisted(c, old(kv.Snapshot()), kind, key).0
      ensures found == GetPersisted(c, old(kv.Snapshot()), kind, key).1
    {
      var r := kv.Get(c.storeId(kind, key));
      if !r.Found? { return None; }
      if r.value.expiresAt.Some? && kv.now > r.value.expiresAt.value {
        DeleteSession(kind, key);
        return None;
      }
      found := Some(r.value);
    }

    method GetSession(kind: Kind, key: string, session: Option<Session>, clients: set<string>) returns (out: Out)
      requires c.defaultTTL > 0
      modifies kv
      ensures kv.Snapshot() == Step(c, old(kv.Snapshot()), Read(kind, key, session, clients)).0
      ensures out == Step(c, old(kv.Snapshot()), Read(kind, key, session, clients)).1
    {
      var found := ReadPersisted(kind, key);
      if found.None? { return NotFound; }
      var r := PersistedToRequest(clients, found.value, session);
      if r.Err? { return NotFound; }
      out := if kind.AuthorizeCode? && found.value.invalidated then InvalidatedCode(r.value) else Got(r.value);
    }

    method DeleteSession(kind: Kind, key: string)
      modifies kv
      ensures kv.Snapshot() == Delete(c, old(kv.Snapshot()), kind, key)
    {
      kv.Del({c.storeId(kind, key)});
    }

    /** Rotation only deletes the used refresh token. */
    method RotateRefreshToken(signature: string)
      requires c.defaultTTL > 0
      modifies kv
      ensures kv.Snapshot() == Step(c, old(kv.Snapshot()), Remove(RefreshToken, signature)).0
    {
      DeleteSession(RefreshToken, signature);
    }

    method InvalidateAuthorizeCode(code: string) returns (out: Out)
      requires c.defaultTTL > 0
      modifies kv
      ensures kv.Snapshot() == Step(c, old(kv.Snapshot()), InvalidateCode(code)).0
      ensures out == Step(c, old(kv.Snapshot()), InvalidateCode(code)).1
    {
      var found := ReadPersisted(AuthorizeCode, code);
      if found.None? { return NotFound; }
      var p := found.value.(invalidated := true);
      kv.Set(c.storeId(AuthorizeCode, code), p, TtlFor(c, kv.now, p.expiresAt));
      out := Done;
    }

    method RevokeByRequestId(kind: Kind, requestId: string)
      requires c.defaultTTL > 0 && Indexed(kind)
      modifies kv
      ensures kv.Snapshot() == Step(c, old(kv.Snapshot()), RevokeAll(kind, requestId)).0
    {
      var idx := c.indexKey(kind, requestId);
      var members := kv.SMembers(idx);
      if !members.Found? { return; }
      kv.Del(members.value + {idx});
    }
  }
}
