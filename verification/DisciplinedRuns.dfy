/** A condition on the calls alone, and what holds of every run that meets it. */
module DisciplinedRuns {
  import opened Text
  import Kv
  import opened SessionStore
  import opened SessionRefinement

  /** One create of an access or refresh session: when, and for how long. */
  datatype Made = Made(kind: Kind, key: string, id: string, at: Kv.Time, ttl: Kv.Time)

  function MadeBy(c: Config, s: Store, op: Op): seq<Made>
    requires c.defaultTTL > 0
  {
    if op.Create? && Indexed(op.kind) then
      [Made(op.kind, op.key, op.request.id, s.now, TtlFor(c, s.now, ExpiryFor(op.request.session, op.kind)))]
    else []
  }

  function MadeIn(c: Config, s: Store, ops: seq<Op>): seq<Made>
    requires c.defaultTTL > 0
    decreases |ops|
  {
    if ops == [] then [] else MadeBy(c, s, ops[0]) + MadeIn(c, Step(c, s, ops[0]).0, ops[1..])
  }

  /** Fresh signatures, non-empty request ids and, per kind and id, deadlines that never go back. */
  ghost predicate Disciplined(h: seq<Made>)
  {
    && (forall i :: 0 <= i < |h| ==> h[i].id != "")
    && (forall i, j :: 0 <= i < j < |h| && h[i].kind == h[j].kind ==>
          h[i].key != h[j].key && (h[i].id == h[j].id ==> h[i].at + h[i].ttl <= h[j].at + h[j].ttl))
  }

  /** Lifetimes are whole seconds, so that SET and EXPIRE keep them alike. */
  ghost predicate WholeSeconds(h: seq<Made>)
  {
    forall i :: 0 <= i < |h| ==> h[i].ttl % Kv.SECOND == 0
  }

  /** Less than a second: what rounding can cost. */
  const LAG: nat := Kv.SECOND - 1

  /** How much a run may fall short of exact revocation. */
  ghost function SlackOf(h: seq<Made>): nat { if WholeSeconds(h) then 0 else LAG }

  /** Made m may have left this record, or this index entry, behind. */
  predicate MadeRecord(m: Made, kind: Kind, key: string, r: Record, now: Kv.Time)
  {
    m.kind == kind && m.key == key && m.id == r.p.id && (r.expiry <= m.at + m.ttl || r.expiry <= now + Kv.MILLISECOND)
  }

  predicate MadeEntry(m: Made, kind: Kind, id: string, key: string) { m.kind == kind && m.key == key && m.id == id }

  ghost predicate Explains(c: Config, s: Store, h: seq<Made>)
  {
    && (forall kind, key :: Indexed(kind) && Rec(c, s, kind, key).Some? ==>
          exists i :: 0 <= i < |h| && MadeRecord(h[i], kind, key, Rec(c, s, kind, key).value, s.now))
    && (forall kind, id, key :: Indexed(kind) && Lists(c, s, kind, id, key) ==>
          exists i :: 0 <= i < |h| && MadeEntry(h[i], kind, id, key))
  }

  /** Dropping records and index entries, and the passing of time, leave what remains explained. */
  lemma FewerStayExplained(c: Config, s: Store, s': Store, h: seq<Made>)
    requires Explains(c, s, h) && s.now <= s'.now
    requires forall kind, key :: Indexed(kind) && Rec(c, s', kind, key).Some? ==>
        Rec(c, s', kind, key) == Rec(c, s, kind, key)
    requires forall kind, id, key :: Lists(c, s', kind, id, key) ==> Lists(c, s, kind, id, key)
    ensures Explains(c, s', h)
  {
    forall kind, key | Indexed(kind) && Rec(c, s', kind, key).Some?
      ensures exists i :: 0 <= i < |h| && MadeRecord(h[i], kind, key, Rec(c, s', kind, key).value, s'.now)
    {
      var i :| 0 <= i < |h| && MadeRecord(h[i], kind, key, Rec(c, s, kind, key).value, s.now);
      assert MadeRecord(h[i], kind, key, Rec(c, s', kind, key).value, s'.now);
    }
  }

  lemma CreateExplained(c: Config, s: Store, op: Op, h: seq<Made>)
    requires ValidConfig(c) && Typed(c, s) && Explains(c, s, h) && op.Create?
    ensures Explains(c, Step(c, s, op).0, h + MadeBy(c, s, op))
  {
    var s', h' := Step(c, s, op).0, h + MadeBy(c, s, op);
    PutEffect(c, s, op.kind, op.key, op.request, op.accessSignature);
    forall kind, key | Indexed(kind) && Rec(c, s', kind, key).Some?
      ensures exists i :: 0 <= i < |h'| && MadeRecord(h'[i], kind, key, Rec(c, s', kind, key).value, s'.now)
    {
      if (kind, key) == (op.kind, op.key) {
        assert MadeRecord(h'[|h|], kind, key, Rec(c, s', kind, key).value, s'.now);
      } else {
        var i :| 0 <= i < |h| && MadeRecord(h[i], kind, key, Rec(c, s, kind, key).value, s.now);
        assert h'[i] == h[i];
      }
    }
    forall kind, id, key | Indexed(kind) && Lists(c, s', kind, id, key)
      ensures exists i :: 0 <= i < |h'| && MadeEntry(h'[i], kind, id, key)
    {
      if Lists(c, s, kind, id, key) {
        var i :| 0 <= i < |h| && MadeEntry(h[i], kind, id, key);
        assert h'[i] == h[i];
      } else {
        assert MadeEntry(h'[|h|], kind, id, key);
      }
    }
  }

  lemma StepExplained(c: Config, s: Store, op: Op, h: seq<Made>)
    requires ValidConfig(c) && Typed(c, s) && Explains(c, s, h)
    ensures Explains(c, Step(c, s, op).0, h + MadeBy(c, s, op))
  {
    var s' := Step(c, s, op).0;
    if op.Create? {
      CreateExplained(c, s, op, h);
    } else {
      match op {
        case Read(kind, key, _, _) => DeleteEffect(c, s, kind, key);
        case Remove(kind, key) => DeleteEffect(c, s, kind, key);
        case InvalidateCode(key) => InvalidateEffect(c, s, key);
        case RevokeAll(kind, id) => RevokeEffect(c, s, kind, id);
        case Tick(d) => TickEffect(c, s, d);
      }
      assert h + [] == h;
      FewerStayExplained(c, s, s', h);
    }
  }

  lemma FreshKeyIsUnlisted(c: Config, s: Store, op: Op, h: seq<Made>)
    requires c.defaultTTL > 0 && Explains(c, s, h) && Disciplined(h + MadeBy(c, s, op)) && op.Create?
        && Indexed(op.kind)
    ensures forall id :: !Lists(c, s, op.kind, id, op.key)
  {
    var h' := h + MadeBy(c, s, op);
    assert forall i :: 0 <= i < |h| ==> h'[i] == h[i] && h[i].kind == op.kind ==> h'[i].key != h'[|h|].key;
  }

  lemma DisciplinedStepAdmissible(c: Config, s: Store, op: Op, h: seq<Made>, slack: nat)
    requires ValidConfig(c) && Explains(c, s, h) && Disciplined(h + MadeBy(c, s, op))
    requires slack >= LAG || WholeSeconds(MadeBy(c, s, op))
    ensures Admissible(c, s, op, slack)
  {
    if op.Create? && Indexed(op.kind) {
      var h', p := h + MadeBy(c, s, op), Row(op.kind, op.request, op.accessSignature);
      var m := h'[|h|];
      Kv.RoundingsCompared(m.ttl);
      assert m == MadeBy(c, s, op)[0] && m.at + m.ttl <= IndexDeadline(c, s, p) + slack;
      forall key | key != op.key && Rec(c, s, op.kind, key).Some? && Rec(c, s, op.kind, key).value.p.id == p.id
        ensures Rec(c, s, op.kind, key).value.expiry <= IndexDeadline(c, s, p) + slack
      {
        var i :| 0 <= i < |h| && MadeRecord(h[i], op.kind, key, Rec(c, s, op.kind, key).value, s.now);
        assert h'[i] == h[i];
      }
      FreshKeyIsUnlisted(c, s, op, h);
    }
  }

  lemma DisciplinedParts(h: seq<Made>, m: seq<Made>, rest: seq<Made>)
    requires Disciplined(h + (m + rest))
    ensures Disciplined(h + m) && Disciplined((h + m) + rest)
  {
    assert h + (m + rest) == (h + m) + rest;
    assert forall i :: 0 <= i < |h + m| ==> (h + m)[i] == ((h + m) + rest)[i];
  }

  lemma WholeParts(m: seq<Made>, rest: seq<Made>)
    ensures WholeSeconds(m + rest) ==> WholeSeconds(m) && WholeSeconds(rest)
  {
    assert forall i :: 0 <= i < |m| ==> m[i] == (m + rest)[i];
    assert forall i :: 0 <= i < |rest| ==> rest[i] == (m + rest)[|m| + i];
  }

  lemma {:induction false} DisciplinedFrom(c: Config, s: Store, h: seq<Made>, ops: seq<Op>, slack: nat)
    requires ValidConfig(c) && Typed(c, s) && Explains(c, s, h) && Disciplined(h + MadeIn(c, s, ops))
    requires slack >= LAG || WholeSeconds(MadeIn(c, s, ops))
    ensures AdmissibleRun(c, s, ops, slack)
    decreases |ops|
  {
    if ops != [] {
      var s', m, rest := Step(c, s, ops[0]).0, MadeBy(c, s, ops[0]), MadeIn(c, Step(c, s, ops[0]).0, ops[1..]);
      DisciplinedParts(h, m, rest);
      WholeParts(m, rest);
      DisciplinedStepAdmissible(c, s, ops[0], h, slack);
      StepExplained(c, s, ops[0], h);
      StepKeepsTyped(c, s, ops[0]);
      DisciplinedFrom(c, s', h + m, ops[1..], slack);
    }
  }

  lemma DisciplinedIsAdmissible(c: Config, start: Kv.Time, ops: seq<Op>)
    requires ValidConfig(c) && Disciplined(MadeIn(c, Kv.State(start, map[]), ops))
    ensures AdmissibleRun(c, Kv.State(start, map[]), ops, SlackOf(MadeIn(c, Kv.State(start, map[]), ops)))
  {
    var s: Store := Kv.State(start, map[]);
    assert [] + MadeIn(c, s, ops) == MadeIn(c, s, ops);
    DisciplinedFrom(c, s, [], ops, SlackOf(MadeIn(c, s, ops)));
  }

  /**
   Index coverage in every reachable state: the index of a live record outlives it, or misses it by
   less than a second.
   */
  lemma ReachableCovered(c: Config, start: Kv.Time, ops: seq<Op>)
    requires ValidConfig(c) && Disciplined(MadeIn(c, Kv.State(start, map[]), ops))
    ensures var s := Kv.State(start, map[]); Good(c, After(c, s, ops), SlackOf(MadeIn(c, s, ops)))
  {
    var s: Store := Kv.State(start, map[]);
    DisciplinedIsAdmissible(c, start, ops);
    RunStaysGood(c, s, ops, SlackOf(MadeIn(c, s, ops)));
  }

  /**
   In every state a disciplined run reaches, over the hashed keys, revoking a request id removes every
   live record of that kind and id that has at least a second left, and no record of another id.
   */
  lemma ReachableRevokes(sha: string -> string, defaultTTL: Kv.Time, start: Kv.Time, ops: seq<Op>, kind: Kind,
      id: string, k2: Kind, key: string)
    requires Injective(sha) && Indexed(kind)
    requires Disciplined(MadeIn(HashedConfig(defaultTTL, sha), Kv.State(start, map[]), ops))
    ensures var c := HashedConfig(defaultTTL, sha); var s := After(c, Kv.State(start, map[]), ops);
      var before, after := Rec(c, s, k2, key), Rec(c, Revoke(c, s, kind, id), k2, key);
      && (before.Some? && k2 == kind && before.value.p.id == id && before.value.expiry >= s.now + Kv.SECOND ==>
          after.None?)
      && (before.Some? && !(k2 == kind && before.value.p.id == id) ==> after == before)
  {
    HashedKeysAreValid(defaultTTL, sha);
    var c := HashedConfig(defaultTTL, sha);
    var s := After(c, Kv.State(start, map[]), ops);
    var slack := SlackOf(MadeIn(c, Kv.State(start, map[]), ops));
    ReachableCovered(c, start, ops);
    GoodRevokes(c, s, slack);
    if Rec(c, s, k2, key).Some? { assert RevokesRecord(c, s, slack, kind, id, k2, key, Rec(c, s, k2, key).value); }
  }

  /**
   The refinement for disciplined callers, over the hashed keys: every run answers like one map in
   which revocation may spare sessions in their last second.
   */
  lemma DisciplinedRefinement(sha: string -> string, defaultTTL: Kv.Time, start: Kv.Time, ops: seq<Op>)
    requires Injective(sha)
    requires Disciplined(MadeIn(HashedConfig(defaultTTL, sha), Kv.State(start, map[]), ops))
    ensures var c := HashedConfig(defaultTTL, sha);
      Allows(c, Spec(start, map[]), ops, Outs(c, Kv.State(start, map[]), ops),
          SlackOf(MadeIn(c, Kv.State(start, map[]), ops)))
  {
    HashedKeysAreValid(defaultTTL, sha);
    var c := HashedConfig(defaultTTL, sha);
    DisciplinedIsAdmissible(c, start, ops);
    RunsAgree(c, Kv.State(start, map[]), Spec(start, map[]), ops, SlackOf(MadeIn(c, Kv.State(start, map[]), ops)));
  }

  /** When all lifetimes are whole seconds the answers are exactly those of the one map. */
  lemma WholeSecondRefinement(sha: string -> string, defaultTTL: Kv.Time, start: Kv.Time, ops: seq<Op>)
    requires Injective(sha)
    requires var h := MadeIn(HashedConfig(defaultTTL, sha), Kv.State(start, map[]), ops);
        Disciplined(h) && WholeSeconds(h)
    ensures var c := HashedConfig(defaultTTL, sha);
        Outs(c, Kv.State(start, map[]), ops) == SpecOuts(c, Spec(start, map[]), ops)
  {
    HashedKeysAreValid(defaultTTL, sha);
    var c := HashedConfig(defaultTTL, sha);
    DisciplinedIsAdmissible(c, start, ops);
    Refinement(c, start, ops);
  }
}

/** The store object, run. */
module SessionStoreRuns {
  import Kv
  import KvClient
  import opened SessionStore
  import opened SessionStoreObject
  import opened SessionRefinement
  import opened DisciplinedRuns

  method Perform(store: TokenStore, op: Op) returns (out: Out)
    requires store.c.defaultTTL > 0
    modifies store.kv
    ensures (store.kv.Snapshot(), out) == Step(store.c, old(store.kv.Snapshot()), op)
  {
    out := Done;
    match op
    case Create(kind, key, request, signature) => store.CreateSession(kind, key, request, signature);
    case Read(kind, key, session, clients) => out := store.GetSession(kind, key, session, clients);
    case Remove(kind, key) => store.DeleteSession(kind, key);
    case InvalidateCode(key) => out := store.InvalidateAuthorizeCode(key);
    case RevokeAll(kind, id) => if Indexed(kind) { store.RevokeByRequestId(kind, id); }
    case Tick(d) => store.kv.Tick(d);
  }

  /** Calls on the object, one after the other, are a run of the step function. */
  method Serve(store: TokenStore, ops: seq<Op>) returns (outs: seq<Out>)
    requires store.c.defaultTTL > 0
    modifies store.kv
    ensures outs == Outs(store.c, old(store.kv.Snapshot()), ops)
    ensures store.kv.Snapshot() == After(store.c, old(store.kv.Snapshot()), ops)
  {
    outs := [];
    ghost var start := store.kv.Snapshot();
    for i := 0 to |ops|
      invariant outs + Outs(store.c, store.kv.Snapshot(), ops[i..]) == Outs(store.c, start, ops)
      invariant After(store.c, store.kv.Snapshot(), ops[i..]) == After(store.c, start, ops)
    {
      assert ops[i..][0] == ops[i] && ops[i..][1..] == ops[i + 1..];
      var out := Perform(store, ops[i]);
      outs := outs + [out];
    }
  }

  /** A new store, called with discipline, answers like the one map, up to sessions in their last second. */
  method ServeDisciplined(sha: string -> string, defaultTTL: Kv.Time, start: Kv.Time, ops: seq<Op>)
      returns (outs: seq<Out>)
    requires Injective(sha) && Disciplined(MadeIn(HashedConfig(defaultTTL, sha), Kv.State(start, map[]), ops))
    ensures var c := HashedConfig(defaultTTL, sha);
      Allows(c, Spec(start, map[]), ops, outs, SlackOf(MadeIn(c, Kv.State(start, map[]), ops)))
  {
    var kv := new KvClient.Client<string, Persisted>(start);
    var store := new TokenStore(kv, sha, defaultTTL);
    outs := Serve(store, ops);
    DisciplinedRefinement(sha, defaultTTL, start, ops);
  }
}
