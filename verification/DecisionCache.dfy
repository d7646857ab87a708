/** The caching client of the remote decision point (internal/authz/solutrix.go). */
module DecisionCache {
  import opened Text
  import opened Authz
  import Kv

  datatype Body = Body(
    userId: string, customerId: Option<string>, action: string, resource: string, instanceOwner: Option<string>)

  datatype Visibility = Visibility(kind: string, customerIds: seq<string>)
  datatype Response = Response(allow: bool, reason: string, visibility: Visibility)

  datatype Cached = Cached(decision: Decision, scope: Scope, expiresAt: Kv.Time)

  /** One answer of the decision point: when, to which request body, and what. */
  datatype Answer = Answer(at: Kv.Time, body: Body, response: Response)

  /** The clock, the cache, and the history of answers the decision point gave. */
  datatype State = State(now: Kv.Time, cache: map<string, Cached>, answers: seq<Answer>)

  function PtrOrNil(s: string): Option<string> { if s == "" then None else Some(s) }

  function Key(parts: seq<string>): string { Join(parts, NUL) }

  function DecisionParts(r: Request): seq<string>
  {
    ["dec", r.subject.id, r.subject.customerId, r.action, r.resource.kind, r.resource.id, r.resource.owner]
  }

  function ScopeParts(sub: Subject, action: string, kind: string): seq<string>
  {
    ["scope", sub.id, sub.customerId, action, kind, "", ""]
  }

  function DecisionBody(r: Request): Body
  {
    Body(r.subject.id, PtrOrNil(r.subject.customerId), r.action, r.resource.kind, PtrOrNil(r.resource.owner))
  }

  function ScopeBody(sub: Subject, action: string, kind: string): Body
  {
    Body(sub.id, PtrOrNil(sub.customerId), action, kind, None)
  }

  function ToScope(v: Visibility): Scope
  {
    if v.kind == "all" then Scope(true, [])
    else if v.kind == "customerIds" then Scope(false, v.customerIds)
    else Scope(false, [])
  }

  function Hit(ttl: Kv.Time, s: State, key: string): Option<Cached>
  {
    if ttl > 0 && key in s.cache && !(s.now > s.cache[key].expiresAt) then Some(s.cache[key]) else None
  }

  function Store(ttl: Kv.Time, s: State, key: string, c: Cached): State
  {
    if ttl <= 0 then s else s.(cache := s.cache[key := c.(expiresAt := s.now + ttl)])
  }

  datatype Ask = Decide(req: Request) | Scoping(sub: Subject, action: string, kind: string) | Wait(d: nat)

  datatype Reply = Decided(decision: Decision) | Scoped(scope: Scope) | Failed | Waited

  const ZERO: Cached := Cached(Decision(false, ""), Scope(false, []), 0)

  /** One call; `pdp` is what the decision point answers if it is asked now, or None if the check fails. */
  function Step(ttl: Kv.Time, s: State, ask: Ask, pdp: Option<Response>): (State, Reply)
  {
    match ask
    case Wait(d) => (s.(now := s.now + d), Waited)
    case Decide(req) =>
      var key := Key(DecisionParts(req));
      var hit := Hit(ttl, s, key);
      if hit.Some? then (s, Decided(hit.value.decision))
      else if pdp.None? then (s, Failed)
      else
        var d := Decision(pdp.value.allow, pdp.value.reason);
        var s1 := s.(answers := s.answers + [Answer(s.now, DecisionBody(req), pdp.value)]);
        (Store(ttl, s1, key, ZERO.(decision := d)), Decided(d))
    case Scoping(sub, action, kind) =>
      var key := Key(ScopeParts(sub, action, kind));
      var hit := Hit(ttl, s, key);
      if hit.Some? then (s, Scoped(hit.value.scope))
      else if pdp.None? then (s, Failed)
      else
        var scope := ToScope(pdp.value.visibility);
        var s1 := s.(answers := s.answers + [Answer(s.now, ScopeBody(sub, action, kind), pdp.value)]);
        (Store(ttl, s1, key, ZERO.(scope := scope)), Scoped(scope))
  }

  // ---- what is asked and answered ----

  /** The decision point is asked about the very subject, customer, action, resource type and owner of the question. */
  lemma BodyAsksQuestion(r: Request, sub: Subject, action: string, kind: string)
    ensures DecisionBody(r).userId == r.subject.id && DecisionBody(r).action == r.action
    ensures DecisionBody(r).resource == r.resource.kind
    ensures DecisionBody(r).customerId == None <==> r.subject.customerId == ""
    ensures DecisionBody(r).customerId.Some? ==> DecisionBody(r).customerId.value == r.subject.customerId
    ensures DecisionBody(r).instanceOwner == None <==> r.resource.owner == ""
    ensures DecisionBody(r).instanceOwner.Some? ==> DecisionBody(r).instanceOwner.value == r.resource.owner
    ensures ScopeBody(sub, action, kind) == DecisionBody(Request(sub, action, Resource(kind, "", "")))
  {
  }

  /**
   Only the visibility "all" sees everything, and only "customerIds" sees the customers it lists;
   anything else sees nothing.
   */
  lemma VisibilityIff(v: Visibility)
    ensures ToScope(v).all <==> v.kind == "all"
    ensures forall c :: c in ToScope(v).customerIds <==> v.kind == "customerIds" && c in v.customerIds
  {
  }

  /** Asked without a cached answer, the decision point decides; if it fails, nothing is decided. */
  lemma UncachedAskedIff(ttl: Kv.Time, s: State, req: Request, pdp: Option<Response>)
    requires ttl <= 0 || Key(DecisionParts(req)) !in s.cache || s.now > s.cache[Key(DecisionParts(req))].expiresAt
    ensures Step(ttl, s, Decide(req), pdp).1 ==
      if pdp.None? then Failed else Decided(Decision(pdp.value.allow, pdp.value.reason))
  {
  }

  /** An answer is repeated, without asking again, up to and including the end of the cache lifetime. */
  lemma AnswerIsRepeated(ttl: Kv.Time, s: State, req: Request, first: Response, d: nat, pdp: Option<Response>)
    requires ttl > 0 && (Key(DecisionParts(req)) !in s.cache || s.now > s.cache[Key(DecisionParts(req))].expiresAt)
    ensures var s1 := Step(ttl, s, Decide(req), Some(first)).0; var s2 := Step(ttl, s1, Wait(d), None).0;
      Step(ttl, s2, Decide(req), pdp).1 ==
        if d <= ttl then Decided(Decision(first.allow, first.reason))
        else if pdp.None? then Failed else Decided(Decision(pdp.value.allow, pdp.value.reason))
  {
  }

  /** The same for scopes. */
  lemma ScopeIsRepeated(ttl: Kv.Time, s: State, sub: Subject, action: string, kind: string, first: Response, d: nat,
      pdp: Option<Response>)
    requires ttl > 0
    requires var k := Key(ScopeParts(sub, action, kind)); k !in s.cache || s.now > s.cache[k].expiresAt
    ensures var s1 := Step(ttl, s, Scoping(sub, action, kind), Some(first)).0; var s2 := Step(ttl, s1, Wait(d), None).0;
      Step(ttl, s2, Scoping(sub, action, kind), pdp).1 ==
        if d <= ttl then Scoped(ToScope(first.visibility))
        else if pdp.None? then Failed else Scoped(ToScope(pdp.value.visibility))
  {
  }

  // ---- keys ----

  predicate NulFreeParts(parts: seq<string>) { forall p :: p in parts ==> NulFree(p) }

  predicate CleanAsk(ask: Ask)
  {
    match ask
    case Decide(req) => NulFreeParts(DecisionParts(req))
    case Scoping(sub, action, kind) => NulFreeParts(ScopeParts(sub, action, kind))
    case Wait(_) => true
  }

  lemma KeyInjective(a: seq<string>, b: seq<string>)
    requires a != [] && b != [] && NulFreeParts(a) && NulFreeParts(b) && Key(a) == Key(b)
    ensures a == b
  {
    SplitJoin(a, NUL);
    SplitJoin(b, NUL);
  }

  /** Equal keys of clean decision requests mean equal bodies; no scope key is a decision key. */
  lemma KeysTellBodies(r1: Request, r2: Request, sub: Subject, action: string, kind: string)
    requires NulFreeParts(DecisionParts(r1)) && NulFreeParts(DecisionParts(r2))
        && NulFreeParts(ScopeParts(sub, action, kind))
    ensures Key(DecisionParts(r1)) == Key(DecisionParts(r2)) ==> DecisionBody(r1) == DecisionBody(r2)
    ensures Key(DecisionParts(r1)) != Key(ScopeParts(sub, action, kind))
  {
    var p, q, z := DecisionParts(r1), DecisionParts(r2), ScopeParts(sub, action, kind);
    if Key(p) == Key(q) {
      KeyInjective(p, q);
      assert p[1] == q[1] && p[2] == q[2] && p[3] == q[3] && p[4] == q[4] && p[6] == q[6];
    }
    if Key(p) == Key(z) {
      KeyInjective(p, z);
    }
  }

  lemma ScopeKeysTellBodies(s1: Subject, a1: string, k1: string, s2: Subject, a2: string, k2: string)
    requires NulFreeParts(ScopeParts(s1, a1, k1)) && NulFreeParts(ScopeParts(s2, a2, k2))
    requires Key(ScopeParts(s1, a1, k1)) == Key(ScopeParts(s2, a2, k2))
    ensures ScopeBody(s1, a1, k1) == ScopeBody(s2, a2, k2)
  {
    var p, q := ScopeParts(s1, a1, k1), ScopeParts(s2, a2, k2);
    KeyInjective(p, q);
    assert p[1] == q[1] && p[2] == q[2] && p[3] == q[3] && p[4] == q[4];
  }

  /** Without the NUL-free assumption two different questions share one key. */
  lemma NulCollision()
    ensures exists r1, r2 :: Key(DecisionParts(r1)) == Key(DecisionParts(r2)) && DecisionBody(r1) != DecisionBody(r2)
  {
    var res := Resource(CLIENTS, "", "");
    var r1 := Request(Subject("x" + [NUL] + "y", "z", []), READ, res);
    var r2 := Request(Subject("x", "y" + [NUL] + "z", []), READ, res);
    var p1, p2 := DecisionParts(r1), DecisionParts(r2);
    var rest := Key(p1[3..]);
    assert p1[1..][1..] == p1[2..] && p1[2..][1..] == p1[3..] && p2[1..][1..] == p2[2..] && p2[2..][1..] == p2[3..];
    assert p1[3..] == p2[3..];
    assert Key(p1[2..]) == "z" + [NUL] + rest && Key(p2[2..]) == "y" + [NUL] + "z" + [NUL] + rest;
    assert Key(p1[1..]) == "x" + [NUL] + "y" + [NUL] + ("z" + [NUL] + rest);
    assert Key(p2[1..]) == "x" + [NUL] + ("y" + [NUL] + "z" + [NUL] + rest);
    assert Key(p1[1..]) == Key(p2[1..]);
    assert Key(p1) == Key(p2);
    assert DecisionBody(r1).userId != DecisionBody(r2).userId by { assert |r1.subject.id| != |r2.subject.id|; }
  }

  // ---- coherence ----

  /** The decision point itself gave this answer to this body, at `at` or later, and not in the future. */
  ghost predicate Gave(s: State, since: Kv.Time, body: Body, a: Answer)
  {
    a in s.answers && a.body == body && since <= a.at <= s.now
  }

  ghost predicate Backed(ttl: Kv.Time, s: State, c: Cached, body: Body, asScope: bool)
  {
    exists a :: Gave(s, c.expiresAt - ttl, body, a)
      && (if asScope then c.scope == ToScope(a.response.visibility)
          else c.decision == Decision(a.response.allow, a.response.reason))
  }

  /** Every entry a clean question can reach holds an answer to that question's own body. */
  ghost predicate Coherent(ttl: Kv.Time, s: State)
  {
    && (forall r :: NulFreeParts(DecisionParts(r)) && Key(DecisionParts(r)) in s.cache ==>
          Backed(ttl, s, s.cache[Key(DecisionParts(r))], DecisionBody(r), false))
    && (forall sub, action, kind |
          NulFreeParts(ScopeParts(sub, action, kind)) && Key(ScopeParts(sub, action, kind)) in s.cache ::
          Backed(ttl, s, s.cache[Key(ScopeParts(sub, action, kind))], ScopeBody(sub, action, kind), true))
  }

  lemma BackedGrows(ttl: Kv.Time, s: State, s': State, c: Cached, body: Body, asScope: bool)
    requires Backed(ttl, s, c, body, asScope) && s.answers <= s'.answers && s.now <= s'.now
    ensures Backed(ttl, s', c, body, asScope)
  {
    var a :| Gave(s, c.expiresAt - ttl, body, a)
      && (if asScope then c.scope == ToScope(a.response.visibility)
          else c.decision == Decision(a.response.allow, a.response.reason));
    assert Gave(s', c.expiresAt - ttl, body, a);
  }

  lemma StepKeepsCoherent(ttl: Kv.Time, s: State, ask: Ask, pdp: Option<Response>)
    requires Coherent(ttl, s) && CleanAsk(ask)
    ensures Coherent(ttl, Step(ttl, s, ask, pdp).0)
  {
    var s' := Step(ttl, s, ask, pdp).0;
    forall r | NulFreeParts(DecisionParts(r)) && Key(DecisionParts(r)) in s'.cache
      ensures Backed(ttl, s', s'.cache[Key(DecisionParts(r))], DecisionBody(r), false)
    {
      DecisionEntryBacked(ttl, s, ask, pdp, r);
    }
    forall sub, action, kind | NulFreeParts(ScopeParts(sub, action, kind))
        && Key(ScopeParts(sub, action, kind)) in s'.cache
      ensures Backed(ttl, s', s'.cache[Key(ScopeParts(sub, action, kind))], ScopeBody(sub, action, kind), true)
    {
      ScopeEntryBacked(ttl, s, ask, pdp, sub, action, kind);
    }
  }

  lemma DecisionEntryBacked(ttl: Kv.Time, s: State, ask: Ask, pdp: Option<Response>, r: Request)
    requires Coherent(ttl, s) && CleanAsk(ask) && NulFreeParts(DecisionParts(r))
    requires Key(DecisionParts(r)) in Step(ttl, s, ask, pdp).0.cache
    ensures var s' := Step(ttl, s, ask, pdp).0;
      Backed(ttl, s', s'.cache[Key(DecisionParts(r))], DecisionBody(r), false)
  {
    var s' := Step(ttl, s, ask, pdp).0;
    var k := Key(DecisionParts(r));
    if k in s.cache && s'.cache[k] == s.cache[k] {
      BackedGrows(ttl, s, s', s.cache[k], DecisionBody(r), false);
    } else if ask.Scoping? {
      KeysTellBodies(r, r, ask.sub, ask.action, ask.kind);
    } else {
      KeysTellBodies(r, ask.req, Subject("", "", []), "", "");
      assert Gave(s', s.now, DecisionBody(r), s'.answers[|s.answers|]);
    }
  }

  lemma ScopeEntryBacked(ttl: Kv.Time, s: State, ask: Ask, pdp: Option<Response>, sub: Subject, action: string,
      kind: string)
    requires Coherent(ttl, s) && CleanAsk(ask) && NulFreeParts(ScopeParts(sub, action, kind))
    requires Key(ScopeParts(sub, action, kind)) in Step(ttl, s, ask, pdp).0.cache
    ensures var s' := Step(ttl, s, ask, pdp).0;
      Backed(ttl, s', s'.cache[Key(ScopeParts(sub, action, kind))], ScopeBody(sub, action, kind), true)
  {
    var s' := Step(ttl, s, ask, pdp).0;
    var k := Key(ScopeParts(sub, action, kind));
    if k in s.cache && s'.cache[k] == s.cache[k] {
      BackedGrows(ttl, s, s', s.cache[k], ScopeBody(sub, action, kind), true);
    } else if ask.Decide? {
      KeysTellBodies(ask.req, ask.req, sub, action, kind);
    } else {
      ScopeKeysTellBodies(sub, action, kind, ask.sub, ask.action, ask.kind);
      assert Gave(s', s.now, ScopeBody(sub, action, kind), s'.answers[|s.answers|]);
    }
  }

  /** A reply is the decision point's own, to the same body, no older than the cache lifetime. */
  ghost predicate ReplyBacked(ttl: Kv.Time, s: State, ask: Ask, reply: Reply)
  {
    var since := s.now - (if ttl > 0 then ttl else 0);
    match reply
    case Decided(d) => ask.Decide? &&
      exists a :: Gave(s, since, DecisionBody(ask.req), a) && d == Decision(a.response.allow, a.response.reason)
    case Scoped(sc) => ask.Scoping? &&
      exists a :: Gave(s, since, ScopeBody(ask.sub, ask.action, ask.kind), a) && sc == ToScope(a.response.visibility)
    case _ => true
  }

  lemma StepReplyBacked(ttl: Kv.Time, s: State, ask: Ask, pdp: Option<Response>)
    requires Coherent(ttl, s) && CleanAsk(ask)
    ensures ReplyBacked(ttl, Step(ttl, s, ask, pdp).0, ask, Step(ttl, s, ask, pdp).1)
    ensures Step(ttl, s, ask, pdp).1.Failed? ==> Step(ttl, s, ask, pdp).0 == s
  {
    var (s', reply) := Step(ttl, s, ask, pdp);
    var since := s.now - (if ttl > 0 then ttl else 0);
    match ask
    case Wait(_) =>
    case Decide(req) =>
      var hit := Hit(ttl, s, Key(DecisionParts(req)));
      if hit.Some? {
        var a :| Gave(s, hit.value.expiresAt - ttl, DecisionBody(req), a)
          && hit.value.decision == Decision(a.response.allow, a.response.reason);
        assert Gave(s', since, DecisionBody(req), a);
      } else if pdp.Some? {
        assert Gave(s', since, DecisionBody(req), s'.answers[|s.answers|]);
      }
    case Scoping(sub, action, kind) =>
      var hit := Hit(ttl, s, Key(ScopeParts(sub, action, kind)));
      if hit.Some? {
        var a :| Gave(s, hit.value.expiresAt - ttl, ScopeBody(sub, action, kind), a)
          && hit.value.scope == ToScope(a.response.visibility);
        assert Gave(s', since, ScopeBody(sub, action, kind), a);
      } else if pdp.Some? {
        assert Gave(s', since, ScopeBody(sub, action, kind), s'.answers[|s.answers|]);
      }
  }

  datatype Asked = Asked(ask: Ask, pdp: Option<Response>)

  ghost predicate AllBacked(ttl: Kv.Time, s: State, asks: seq<Asked>)
    decreases |asks|
  {
    asks == [] ||
    var (s', reply) := Step(ttl, s, asks[0].ask, asks[0].pdp);
    ReplyBacked(ttl, s', asks[0].ask, reply) && (reply.Failed? ==> s' == s) && AllBacked(ttl, s', asks[1..])
  }

  lemma {:induction false} RunBacked(ttl: Kv.Time, s: State, asks: seq<Asked>)
    requires Coherent(ttl, s) && forall i :: 0 <= i < |asks| ==> CleanAsk(asks[i].ask)
    ensures AllBacked(ttl, s, asks)
    decreases |asks|
  {
    if asks != [] {
      StepReplyBacked(ttl, s, asks[0].ask, asks[0].pdp);
      StepKeepsCoherent(ttl, s, asks[0].ask, asks[0].pdp);
      RunBacked(ttl, Step(ttl, s, asks[0].ask, asks[0].pdp).0, asks[1..]);
    }
  }

  /** The replies to a run of questions, and the state after it. */
  function Replies(ttl: Kv.Time, s: State, asks: seq<Asked>): seq<Reply>
    decreases |asks|
  {
    if asks == [] then []
    else [Step(ttl, s, asks[0].ask, asks[0].pdp).1] + Replies(ttl, Step(ttl, s, asks[0].ask, asks[0].pdp).0, asks[1..])
  }

  function After(ttl: Kv.Time, s: State, asks: seq<Asked>): State
    decreases |asks|
  {
    if asks == [] then s else After(ttl, Step(ttl, s, asks[0].ask, asks[0].pdp).0, asks[1..])
  }

  /**
   Over any run of clean questions from an empty cache, every reply is backed and a failed check
   leaves the cache as it was.
   */
  lemma CacheCoherence(ttl: Kv.Time, start: Kv.Time, asks: seq<Asked>)
    requires forall i :: 0 <= i < |asks| ==> CleanAsk(asks[i].ask)
    ensures AllBacked(ttl, State(start, map[], []), asks)
  {
    RunBacked(ttl, State(start, map[], []), asks);
  }
}

/** The authorizer and its service-token source as objects. */
module SolutrixClient {
  import opened Text
  import opened Authz
  import opened DecisionCache
  import Kv

  class Authorizer {
    const ttl: Kv.Time
    var now: Kv.Time
    var cache: map<string, Cached>
    ghost var answers: seq<Answer>

    constructor (ttl: Kv.Time, start: Kv.Time)
      ensures this.ttl == ttl && Snapshot() == State(start, map[], [])
    {
      this.ttl, now, cache, answers := ttl, start, map[], [];
    }

    ghost function Snapshot(): State
      reads this
    {
      State(now, cache, answers)
    }

    method CachedEntry(key: string) returns (hit: Option<Cached>)
      ensures hit == Hit(ttl, Snapshot(), key)
    {
      if ttl <= 0 { return None; }
      if key !in cache || now > cache[key].expiresAt { return None; }
      hit := Some(cache[key]);
    }

    method PutCached(key: string, entry: Cached)
      modifies this`cache
      ensures Snapshot() == Store(ttl, old(Snapshot()), key, entry)
    {
      if ttl <= 0 { return; }
      cache := cache[key := entry.(expiresAt := now + ttl)];
    }

    method Authorize(req: Request, pdp: Option<Response>) returns (reply: DecisionCache.Reply)
      modifies this
      ensures Snapshot() == Step(ttl, old(Snapshot()), DecisionCache.Decide(req), pdp).0
      ensures reply == Step(ttl, old(Snapshot()), DecisionCache.Decide(req), pdp).1
    {
      var key := Key(DecisionParts(req));
      var hit := CachedEntry(key);
      if hit.Some? { return Decided(hit.value.decision); }
      if pdp.None? { return Failed; }
      answers := answers + [Answer(now, DecisionBody(req), pdp.value)];
      var d := Decision(pdp.value.allow, pdp.value.reason);
      PutCached(key, ZERO.(decision := d));
      reply := Decided(d);
    }

    method Scope(sub: Subject, action: string, kind: string, pdp: Option<Response>) returns (reply: DecisionCache.Reply)
      modifies this
      ensures Snapshot() == Step(ttl, old(Snapshot()), Scoping(sub, action, kind), pdp).0
      ensures reply == Step(ttl, old(Snapshot()), Scoping(sub, action, kind), pdp).1
    {
      var key := Key(ScopeParts(sub, action, kind));
      var hit := CachedEntry(key);
      if hit.Some? { return Scoped(hit.value.scope); }
      if pdp.None? { return Failed; }
      answers := answers + [Answer(now, ScopeBody(sub, action, kind), pdp.value)];
      var scope := ToScope(pdp.value.visibility);
      PutCached(key, ZERO.(scope := scope));
      reply := Scoped(scope);
    }

    method Perform(asked: Asked) returns (reply: DecisionCache.Reply)
      modifies this
      ensures (Snapshot(), reply) == Step(ttl, old(Snapshot()), asked.ask, asked.pdp)
    {
      match asked.ask
      case Decide(req) => reply := Authorize(req, asked.pdp);
      case Scoping(sub, action, kind) => reply := Scope(sub, action, kind, asked.pdp);
      case Wait(d) => now := now + d; reply := Waited;
    }

    /** Questions put one after the other are a run of the step function. */
    method Serve(asks: seq<Asked>) returns (replies: seq<DecisionCache.Reply>)
      modifies this
      ensures replies == Replies(ttl, old(Snapshot()), asks) && Snapshot() == After(ttl, old(Snapshot()), asks)
    {
      replies := [];
      ghost var start := Snapshot();
      for i := 0 to |asks|
        invariant replies + Replies(ttl, Snapshot(), asks[i..]) == Replies(ttl, start, asks)
        invariant After(ttl, Snapshot(), asks[i..]) == After(ttl, start, asks)
      {
        assert asks[i..][0] == asks[i] && asks[i..][1..] == asks[i + 1..];
        var reply := Perform(asks[i]);
        replies := replies + [reply];
      }
    }
  }

  /** A new authorizer, asked clean questions, gives backed replies only. */
  method ServeClean(ttl: Kv.Time, start: Kv.Time, asks: seq<Asked>) returns (replies: seq<DecisionCache.Reply>)
    requires forall i :: 0 <= i < |asks| ==> CleanAsk(asks[i].ask)
    ensures replies == Replies(ttl, State(start, map[], []), asks) && AllBacked(ttl, State(start, map[], []), asks)
  {
    var authorizer := new Authorizer(ttl, start);
    replies := authorizer.Serve(asks);
    CacheCoherence(ttl, start, asks);
  }

  /** The service token; `fetchedAt` and `lifetime` record where the current one came from. */
  class TokenSource {
    var token: string
    var expiresAt: Kv.Time
    ghost var fetchedAt: Kv.Time
    ghost var lifetime: Kv.Time

    ghost predicate Valid()
      reads this
    {
      token != "" ==> lifetime > 0 && expiresAt == fetchedAt + lifetime
    }

    constructor ()
      ensures Valid() && token == ""
    {
      token, expiresAt := "", 0;
    }

    /** A token is reused only while more than thirty seconds of its lifetime remain; a failed fetch changes nothing. */
    method Get(now: Kv.Time, fetch: Option<(string, int)>) returns (r: Option<string>)
      requires Valid()
      modifies this
      ensures Valid()
      ensures r.Some? ==> r.value != "" && r.value == token
      ensures old(token) != "" && now < old(expiresAt) - 30 * Kv.SECOND ==>
        r == Some(old(token)) && unchanged(this)
      ensures !(old(token) != "" && now < old(expiresAt) - 30 * Kv.SECOND) ==>
        (if fetch.None? || fetch.value.0 == "" then r.None? && unchanged(this)
         else r == Some(fetch.value.0) && fetchedAt == now
              && lifetime == (if fetch.value.1 > 0 then fetch.value.1 * Kv.SECOND else 5 * Kv.MINUTE))
    {
      if token != "" && now < expiresAt - 30 * Kv.SECOND { return Some(token); }
      if fetch.None? || fetch.value.0 == "" { return None; }
      var ttl := fetch.value.1 * Kv.SECOND;
      if ttl <= 0 { ttl := 5 * Kv.MINUTE; }
      token := fetch.value.0;
      expiresAt := now + ttl;
      fetchedAt, lifetime := now, ttl;
      r := Some(token);
    }
  }
}
