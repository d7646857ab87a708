/**
 The hashed flat store with its reverse index behaves like one map from (kind, key) to sessions.
 Revocation by request id is exact for ever precisely when the index covers every live record and
 names no other; a create keeps that precisely when it is admissible. Record and index round the same
 lifetime differently, so the invariant carries a slack: none for exactness, under a second in general.
 */
module SessionRefinement {
  import opened Text
  import Kv
  import opened SessionStore

  // ---- live records and live index sets ----

  datatype Record = Record(p: Persisted, expiry: Kv.Time)
  datatype Index = Index(ids: set<string>, expiry: Kv.Time)

  function RecordAt(s: Store, k: string): Option<Record>
  {
    if k in s.entries then
      match s.entries[k]
      case Entry(Blob(p), Some(e)) => if s.now < e then Some(Record(p, e)) else None
      case _ => None
    else None
  }

  function IndexAt(s: Store, k: string): Option<Index>
  {
    if k in s.entries then
      match s.entries[k]
      case Entry(Members(ids), Some(e)) => if s.now < e then Some(Index(ids, e)) else None
      case _ => None
    else None
  }

  function Rec(c: Config, s: Store, kind: Kind, key: string): Option<Record> { RecordAt(s, c.storeId(kind, key)) }

  function Idx(c: Config, s: Store, kind: Kind, id: string): Option<Index> { IndexAt(s, c.indexKey(kind, id)) }

  /** Index `id` of `kind` is live and lists the key of session (`kind`, `key`). */
  predicate Lists(c: Config, s: Store, kind: Kind, id: string, key: string)
  {
    Idx(c, s, kind, id).Some? && c.storeId(kind, key) in Idx(c, s, kind, id).value.ids
  }

  // ---- the invariant ----

  /** Every member is the store key of some session of `kind`. */
  ghost predicate OwnKeys(c: Config, kind: Kind, ids: set<string>)
  {
    forall m :: m in ids ==> exists key :: m == c.storeId(kind, key)
  }

  ghost predicate TypedIndex(c: Config, kind: Kind, e: Kv.Entry<string, Persisted>)
  {
    e.value.Members? && e.expiry.Some? && OwnKeys(c, kind, e.value.ids)
  }

  /** Store keys hold records, index keys hold sets of store keys of their own kind, all with an expiry. */
  ghost predicate Typed(c: Config, s: Store)
  {
    && (forall kind, key :: c.storeId(kind, key) in s.entries ==>
          s.entries[c.storeId(kind, key)].value.Blob? && s.entries[c.storeId(kind, key)].expiry.Some?)
    && (forall kind, id :: c.indexKey(kind, id) in s.entries ==>
          TypedIndex(c, kind, s.entries[c.indexKey(kind, id)]))
    && (forall kind :: c.indexKey(kind, "") !in s.entries)
  }

  /**
   Every live access or refresh record is listed by the index of its request id, which expires at most
   `slack` before it, unless the record has no more than `slack` left itself. With no slack the index
   outlives the record.
   */
  ghost predicate Covered(c: Config, s: Store, slack: nat)
  {
    forall kind, key :: Indexed(kind) && Rec(c, s, kind, key).Some? ==>
        CoveredRecord(c, s, slack, kind, key, Rec(c, s, kind, key).value)
  }

  predicate CoveredRecord(c: Config, s: Store, slack: nat, kind: Kind, key: string, r: Record)
  {
    || (Lists(c, s, kind, r.p.id, key) && r.expiry <= Idx(c, s, kind, r.p.id).value.expiry + slack)
    || r.expiry <= s.now + slack
  }

  /** An index lists no live record of another request id. */
  ghost predicate Sound(c: Config, s: Store)
  {
    forall kind, id, key :: Indexed(kind) && Lists(c, s, kind, id, key) && Rec(c, s, kind, key).Some? ==>
      Rec(c, s, kind, key).value.p.id == id
  }

  ghost predicate Good(c: Config, s: Store, slack: nat)
  {
    Typed(c, s) && Covered(c, s, slack) && Sound(c, s)
  }

  // ---- effect of each operation on records and indexes ----

  /** The record is written with SET and its index entry with EXPIRE, which round the same lifetime differently. */
  function RecordDeadline(c: Config, s: Store, p: Persisted): Kv.Time
    requires c.defaultTTL > 0
  {
    s.now + Kv.SetTtl(TtlFor(c, s.now, p.expiresAt))
  }

  function IndexDeadline(c: Config, s: Store, p: Persisted): Kv.Time
    requires c.defaultTTL > 0
  {
    s.now + Kv.ExpireTtl(TtlFor(c, s.now, p.expiresAt))
  }

  lemma SetEffect(c: Config, s: Store, kind: Kind, key: string, p: Persisted)
    requires ValidConfig(c) && Typed(c, s)
    ensures var s' := PutPersisted(c, s, kind, key, p);
      && s'.now == s.now && Typed(c, s')
      && (forall k2, key2 :: Rec(c, s', k2, key2) ==
            if k2 == kind && key2 == key then Some(Record(p, RecordDeadline(c, s, p))) else Rec(c, s, k2, key2))
      && (forall k2, id2 :: Idx(c, s', k2, id2) == Idx(c, s, k2, id2))
  {
  }

  lemma IndexEffect(c: Config, s: Store, kind: Kind, id: string, key: string, ttl: Kv.Time)
    requires ValidConfig(c) && Typed(c, s) && id != "" && ttl > 0
    ensures var s' := Kv.SAdd(s, c.indexKey(kind, id), ttl, {c.storeId(kind, key)});
      && s'.now == s.now && Typed(c, s')
      && (forall k2, key2 :: Rec(c, s', k2, key2) == Rec(c, s, k2, key2))
      && (forall k2, id2 :: Idx(c, s', k2, id2) ==
            if k2 == kind && id2 == id
            then Some(Index((if Idx(c, s, kind, id).Some? then Idx(c, s, kind, id).value.ids else {})
                            + {c.storeId(kind, key)}, s.now + Kv.ExpireTtl(ttl)))
            else Idx(c, s, k2, id2))
  {
    var k := c.indexKey(kind, id);
    if k in s.entries { assert TypedIndex(c, kind, s.entries[k]); }
    assert {} + {c.storeId(kind, key)} == {c.storeId(kind, key)};
    assert TypedIndex(c, kind, Kv.SAdd(s, k, ttl, {c.storeId(kind, key)}).entries[k]);
  }

  lemma PutEffect(c: Config, s: Store, kind: Kind, key: string, r: Request, sig: string)
    requires ValidConfig(c) && Typed(c, s)
    ensures var p := Row(kind, r, sig); var s' := Put(c, s, kind, key, r, sig); var e := RecordDeadline(c, s, p);
      && s'.now == s.now && Typed(c, s')
      && (forall k2, key2 :: Rec(c, s', k2, key2) ==
            if k2 == kind && key2 == key then Some(Record(p, e)) else Rec(c, s, k2, key2))
      && (forall k2, id2 :: Idx(c, s', k2, id2) ==
            if Indexed(kind) && p.id != "" && k2 == kind && id2 == p.id
            then Some(Index((if Idx(c, s, kind, p.id).Some? then Idx(c, s, kind, p.id).value.ids else {})
                            + {c.storeId(kind, key)}, IndexDeadline(c, s, p)))
            else Idx(c, s, k2, id2))
  {
    var p := Row(kind, r, sig);
    SetEffect(c, s, kind, key, p);
    if Indexed(kind) && p.id != "" {
      IndexEffect(c, PutPersisted(c, s, kind, key, p), kind, p.id, key, TtlFor(c, s.now, p.expiresAt));
    }
  }

  lemma DeleteEffect(c: Config, s: Store, kind: Kind, key: string)
    requires ValidConfig(c) && Typed(c, s)
    ensures var s' := Delete(c, s, kind, key);
      && s'.now == s.now && Typed(c, s')
      && (forall k2, key2 :: Rec(c, s', k2, key2) == if k2 == kind && key2 == key then None else Rec(c, s, k2, key2))
      && (forall k2, id2 :: Idx(c, s', k2, id2) == Idx(c, s, k2, id2))
  {
  }

  lemma TickEffect(c: Config, s: Store, d: nat)
    requires Typed(c, s)
    ensures var s' := Kv.Tick(s, d);
      && Typed(c, s')
      && (forall k2, key2 :: Rec(c, s', k2, key2) ==
            var r := Rec(c, s, k2, key2); if r.Some? && s'.now < r.value.expiry then r else None)
      && (forall k2, id2 :: Idx(c, s', k2, id2) ==
            var i := Idx(c, s, k2, id2); if i.Some? && s'.now < i.value.expiry then i else None)
  {
  }

  lemma RevokeEffect(c: Config, s: Store, kind: Kind, id: string)
    requires ValidConfig(c) && Typed(c, s)
    ensures var s' := Revoke(c, s, kind, id);
      && s'.now == s.now && Typed(c, s')
      && (forall k2, key2 :: Rec(c, s', k2, key2) ==
            if k2 == kind && Lists(c, s, kind, id, key2) then None else Rec(c, s, k2, key2))
      && (forall k2, id2 :: Idx(c, s', k2, id2) == if k2 == kind && id2 == id then None else Idx(c, s, k2, id2))
  {
    var k := c.indexKey(kind, id);
    var i := Idx(c, s, kind, id);
    if k in s.entries { assert TypedIndex(c, kind, s.entries[k]); }
    if i.None? {
      assert Revoke(c, s, kind, id) == Kv.Del(s, {k});
    } else {
      assert Revoke(c, s, kind, id) == Kv.Del(s, i.value.ids + {k});
      assert OwnKeys(c, kind, i.value.ids);
    }
  }

  lemma InvalidateEffect(c: Config, s: Store, key: string)
    requires ValidConfig(c) && Typed(c, s)
    ensures var s' := Invalidate(c, s, key).0; var found := GetPersisted(c, s, AuthorizeCode, key).1;
      && s'.now == s.now && Typed(c, s')
      && (forall k2, key2 :: Rec(c, s', k2, key2) ==
            if k2 == AuthorizeCode && key2 == key then
              (if found.None? then None
               else Some(Record(found.value.(invalidated := true), RecordDeadline(c, s, found.value))))
            else Rec(c, s, k2, key2))
      && (forall k2, id2 :: Idx(c, s', k2, id2) == Idx(c, s, k2, id2))
  {
    DeleteEffect(c, s, AuthorizeCode, key);
    var found := GetPersisted(c, s, AuthorizeCode, key);
    if found.1.Some? { SetEffect(c, found.0, AuthorizeCode, key, found.1.value.(invalidated := true)); }
  }

  // ---- exactly which steps keep the invariant ----

  /**
   A create of an access or refresh session is admissible when its request id is not empty, no live
   index of another id still lists its key, and the refreshed index expires at most `slack` before the
   new record and before every live session of the same id.
   */
  ghost predicate Admissible(c: Config, s: Store, op: Op, slack: nat)
    requires c.defaultTTL > 0
  {
    op.Create? && Indexed(op.kind) ==>
      var p := Row(op.kind, op.request, op.accessSignature);
      && p.id != ""
      && (forall id :: id != p.id ==> !Lists(c, s, op.kind, id, op.key))
      && RecordDeadline(c, s, p) <= IndexDeadline(c, s, p) + slack
      && (forall key :: key != op.key && Rec(c, s, op.kind, key).Some? && Rec(c, s, op.kind, key).value.p.id == p.id ==>
            Rec(c, s, op.kind, key).value.expiry <= IndexDeadline(c, s, p) + slack)
  }

  lemma StepKeepsTyped(c: Config, s: Store, op: Op)
    requires ValidConfig(c) && Typed(c, s)
    ensures Typed(c, Step(c, s, op).0)
  {
    match op
    case Create(kind, key, r, sig) => PutEffect(c, s, kind, key, r, sig);
    case Read(kind, key, _, _) => DeleteEffect(c, s, kind, key);
    case Remove(kind, key) => DeleteEffect(c, s, kind, key);
    case InvalidateCode(key) => InvalidateEffect(c, s, key);
    case RevokeAll(kind, id) => RevokeEffect(c, s, kind, id);
    case Tick(d) => TickEffect(c, s, d);
  }

  lemma DroppingRecordsKeepsGood(c: Config, s: Store, s': Store, slack: nat)
    requires Good(c, s, slack) && Typed(c, s') && s'.now == s.now
    requires forall kind, key :: Indexed(kind) ==>
        Rec(c, s', kind, key) == Rec(c, s, kind, key) || Rec(c, s', kind, key).None?
    requires forall kind, id :: Idx(c, s', kind, id) == Idx(c, s, kind, id)
    ensures Good(c, s', slack)
  {
    assert forall kind, id, key :: Lists(c, s', kind, id, key) == Lists(c, s, kind, id, key);
    forall kind, key | Indexed(kind) && Rec(c, s', kind, key).Some?
      ensures CoveredRecord(c, s', slack, kind, key, Rec(c, s', kind, key).value)
    {
      assert CoveredRecord(c, s, slack, kind, key, Rec(c, s, kind, key).value);
    }
  }

  /** An admissible step keeps the invariant, whatever the slack. */
  lemma StepKeepsGood(c: Config, s: Store, op: Op, slack: nat)
    requires ValidConfig(c) && Good(c, s, slack) && Admissible(c, s, op, slack)
    ensures Good(c, Step(c, s, op).0, slack)
  {
    var s' := Step(c, s, op).0;
    StepKeepsTyped(c, s, op);
    match op
    case Create(kind, key, r, sig) =>
      if Indexed(kind) {
        CreateKeepsGood(c, s, kind, key, r, sig, slack);
      } else {
        PutEffect(c, s, kind, key, r, sig);
        DroppingRecordsKeepsGood(c, s, s', slack);
      }
    case Read(kind, key, _, _) => DeleteEffect(c, s, kind, key); DroppingRecordsKeepsGood(c, s, s', slack);
    case Remove(kind, key) => DeleteEffect(c, s, kind, key); DroppingRecordsKeepsGood(c, s, s', slack);
    case InvalidateCode(key) => InvalidateEffect(c, s, key); DroppingRecordsKeepsGood(c, s, s', slack);
    case RevokeAll(kind, id) => if Indexed(kind) { RevokeKeepsGood(c, s, kind, id, slack); }
    case Tick(d) => TickKeepsGood(c, s, d, slack);
  }

  /** Without slack, from a good state a step leads to a good state exactly when it is admissible. */
  lemma StepKeepsGoodIff(c: Config, s: Store, op: Op)
    requires ValidConfig(c) && Good(c, s, 0)
    ensures Good(c, Step(c, s, op).0, 0) <==> Admissible(c, s, op, 0)
  {
    if Admissible(c, s, op, 0) {
      StepKeepsGood(c, s, op, 0);
    } else {
      InadmissibleBreaksGood(c, s, op.kind, op.key, op.request, op.accessSignature);
    }
  }

  lemma RevokeKeepsGood(c: Config, s: Store, kind: Kind, id: string, slack: nat)
    requires ValidConfig(c) && Good(c, s, slack) && Indexed(kind)
    ensures Good(c, Revoke(c, s, kind, id), slack)
  {
    RevokeEffect(c, s, kind, id);
    var s' := Revoke(c, s, kind, id);
    forall k2, key | Indexed(k2) && Rec(c, s', k2, key).Some?
      ensures CoveredRecord(c, s', slack, k2, key, Rec(c, s', k2, key).value)
    {
      assert Rec(c, s, k2, key) == Rec(c, s', k2, key) && CoveredRecord(c, s, slack, k2, key, Rec(c, s, k2, key).value);
    }
    assert forall k2, id2, key :: Lists(c, s', k2, id2, key) ==> Lists(c, s, k2, id2, key);
  }

  lemma TickKeepsGood(c: Config, s: Store, d: nat, slack: nat)
    requires Good(c, s, slack)
    ensures Good(c, Kv.Tick(s, d), slack)
  {
    TickEffect(c, s, d);
    var s' := Kv.Tick(s, d);
    assert forall kind, id, key :: Lists(c, s', kind, id, key) ==> Lists(c, s, kind, id, key);
    forall kind, key | Indexed(kind) && Rec(c, s', kind, key).Some?
      ensures CoveredRecord(c, s', slack, kind, key, Rec(c, s', kind, key).value)
    {
      assert CoveredRecord(c, s, slack, kind, key, Rec(c, s, kind, key).value);
    }
  }

  lemma CreateKeepsGood(c: Config, s: Store, kind: Kind, key: string, r: Request, sig: string, slack: nat)
    requires ValidConfig(c) && Good(c, s, slack) && Indexed(kind)
    requires Admissible(c, s, Create(kind, key, r, sig), slack)
    ensures Good(c, Put(c, s, kind, key, r, sig), slack)
  {
    PutEffect(c, s, kind, key, r, sig);
    var s' := Put(c, s, kind, key, r, sig);
    var p := Row(kind, r, sig);
    forall k2, id, key2 | Indexed(k2) && Lists(c, s', k2, id, key2) && Rec(c, s', k2, key2).Some?
      ensures Rec(c, s', k2, key2).value.p.id == id
    {
      assert Lists(c, s, k2, id, key2) || (k2 == kind && id == p.id && key2 == key);
    }
    forall k2, key2 | Indexed(k2) && Rec(c, s', k2, key2).Some?
      ensures CoveredRecord(c, s', slack, k2, key2, Rec(c, s', k2, key2).value)
    {
      if (k2, key2) != (kind, key) { assert CoveredRecord(c, s, slack, k2, key2, Rec(c, s, k2, key2).value); }
    }
  }

  lemma InadmissibleBreaksGood(c: Config, s: Store, kind: Kind, key: string, r: Request, sig: string)
    requires ValidConfig(c) && Good(c, s, 0) && Indexed(kind)
    requires !Admissible(c, s, Create(kind, key, r, sig), 0)
    ensures !Good(c, Put(c, s, kind, key, r, sig), 0)
  {
    PutEffect(c, s, kind, key, r, sig);
    var s' := Put(c, s, kind, key, r, sig);
    var p := Row(kind, r, sig);
    assert Rec(c, s', kind, key) == Some(Record(p, RecordDeadline(c, s, p)));
    if p.id == "" {
      assert !Lists(c, s', kind, "", key);
      assert !CoveredRecord(c, s', 0, kind, key, Rec(c, s', kind, key).value);
    } else if id :| id != p.id && Lists(c, s, kind, id, key) {
      assert Lists(c, s', kind, id, key);
    } else if RecordDeadline(c, s, p) > IndexDeadline(c, s, p) {
      assert !CoveredRecord(c, s', 0, kind, key, Rec(c, s', kind, key).value);
    } else {
      var key2 :| key2 != key && Rec(c, s, kind, key2).Some? && Rec(c, s, kind, key2).value.p.id == p.id
        && Rec(c, s, kind, key2).value.expiry > IndexDeadline(c, s, p);
      assert Rec(c, s', kind, key2) == Rec(c, s, kind, key2);
      assert !CoveredRecord(c, s', 0, kind, key2, Rec(c, s', kind, key2).value);
    }
  }

  // ---- what the invariant is for: revocation, now and at every later time ----

  /**
   Revoking any request id removes every live record of that kind and id that has more than `slack`
   left, and no other.
   */
  ghost predicate Revokes(c: Config, s: Store, slack: nat)
  {
    forall kind, id, k2, key :: Indexed(kind) && Rec(c, s, k2, key).Some? ==>
      RevokesRecord(c, s, slack, kind, id, k2, key, Rec(c, s, k2, key).value)
  }

  ghost predicate RevokesRecord(c: Config, s: Store, slack: nat, kind: Kind, id: string, k2: Kind, key: string,
      r: Record)
  {
    var after := Rec(c, Revoke(c, s, kind, id), k2, key);
    if k2 == kind && r.p.id == id then after.None? || (after == Some(r) && r.expiry <= s.now + slack)
    else after == Some(r)
  }

  lemma GoodRevokes(c: Config, s: Store, slack: nat)
    requires ValidConfig(c) && Good(c, s, slack)
    ensures Revokes(c, s, slack)
  {
    forall kind, id, k2, key | Indexed(kind) && Rec(c, s, k2, key).Some?
      ensures RevokesRecord(c, s, slack, kind, id, k2, key, Rec(c, s, k2, key).value)
    {
      RevokeEffect(c, s, kind, id);
      assert Indexed(k2) ==> CoveredRecord(c, s, slack, k2, key, Rec(c, s, k2, key).value);
    }
  }

  /** Coverage and soundness hold exactly when revocation removes what it should, now and at every later time. */
  lemma CoverageIffRevokes(c: Config, s: Store, slack: nat)
    requires ValidConfig(c) && Typed(c, s)
    ensures Covered(c, s, slack) && Sound(c, s) <==> forall d: nat :: Revokes(c, Kv.Tick(s, d), slack)
  {
    if Covered(c, s, slack) && Sound(c, s) {
      forall d: nat ensures Revokes(c, Kv.Tick(s, d), slack) {
        TickKeepsGood(c, s, d, slack);
        GoodRevokes(c, Kv.Tick(s, d), slack);
      }
    }
    if forall d: nat :: Revokes(c, Kv.Tick(s, d), slack) {
      assert Kv.Tick(s, 0) == s;
      assert Revokes(c, s, slack);
      forall kind, key | Indexed(kind) && Rec(c, s, kind, key).Some?
        ensures CoveredRecord(c, s, slack, kind, key, Rec(c, s, kind, key).value)
      {
        RevokesImpliesCovered(c, s, kind, key, slack);
      }
      forall kind, id, key | Indexed(kind) && Lists(c, s, kind, id, key) && Rec(c, s, kind, key).Some?
        ensures Rec(c, s, kind, key).value.p.id == id
      {
        RevokeEffect(c, s, kind, id);
        assert RevokesRecord(c, s, slack, kind, id, kind, key, Rec(c, s, kind, key).value);
      }
    }
  }

  lemma RevokesImpliesCovered(c: Config, s: Store, kind: Kind, key: string, slack: nat)
    requires ValidConfig(c) && Typed(c, s) && Indexed(kind) && Rec(c, s, kind, key).Some?
    requires forall d: nat :: Revokes(c, Kv.Tick(s, d), slack)
    ensures CoveredRecord(c, s, slack, kind, key, Rec(c, s, kind, key).value)
  {
    var r := Rec(c, s, kind, key).value;
    if r.expiry > s.now + slack {
      assert Kv.Tick(s, 0) == s;
      assert Revokes(c, Kv.Tick(s, 0), slack);
      RevokeEffect(c, s, kind, r.p.id);
      assert RevokesRecord(c, s, slack, kind, r.p.id, kind, key, r);
      assert Lists(c, s, kind, r.p.id, key);
      var d: nat := Idx(c, s, kind, r.p.id).value.expiry - s.now;
      IndexGoneRecordSpared(c, s, kind, key, d);
      var s' := Kv.Tick(s, d);
      assert Revokes(c, s', slack);
      if s'.now < r.expiry { assert RevokesRecord(c, s', slack, kind, r.p.id, kind, key, r); }
    }
  }

  /** Once its index has expired, a record that is still live survives the revocation of its id. */
  lemma IndexGoneRecordSpared(c: Config, s: Store, kind: Kind, key: string, d: nat)
    requires ValidConfig(c) && Typed(c, s) && Rec(c, s, kind, key).Some?
    requires var r := Rec(c, s, kind, key).value;
      Idx(c, s, kind, r.p.id).Some? && d == Idx(c, s, kind, r.p.id).value.expiry - s.now
    ensures var s', r := Kv.Tick(s, d), Rec(c, s, kind, key).value;
      s'.now < r.expiry ==>
        Rec(c, s', kind, key) == Some(r) && Rec(c, Revoke(c, s', kind, r.p.id), kind, key) == Some(r)
  {
    TickEffect(c, s, d);
    RevokeEffect(c, Kv.Tick(s, d), kind, Rec(c, s, kind, key).value.p.id);
  }

  /** From a good state, a step keeps revocation exact for all time if and only if it is admissible. */
  lemma StepKeepsRevocationExactIff(c: Config, s: Store, op: Op)
    requires ValidConfig(c) && Good(c, s, 0)
    ensures (forall d: nat :: Revokes(c, Kv.Tick(Step(c, s, op).0, d), 0)) <==> Admissible(c, s, op, 0)
  {
    StepKeepsGoodIff(c, s, op);
    StepKeepsTyped(c, s, op);
    CoverageIffRevokes(c, Step(c, s, op).0, 0);
  }

  /**
   A create alone in its request id, with a fresh key: it keeps revocation exact if and only if its
   lifetime is under a second or less than a millisecond over whole seconds.
   */
  lemma LoneCreateKeepsExactIff(c: Config, s: Store, op: Op)
    requires ValidConfig(c) && Good(c, s, 0) && op.Create? && Indexed(op.kind) && op.request.id != ""
    requires forall id :: !Lists(c, s, op.kind, id, op.key)
    requires forall key :: Rec(c, s, op.kind, key).Some? ==> Rec(c, s, op.kind, key).value.p.id != op.request.id
    ensures var ttl := TtlFor(c, s.now, ExpiryFor(op.request.session, op.kind));
      (forall d: nat :: Revokes(c, Kv.Tick(Step(c, s, op).0, d), 0)) <==>
          ttl < Kv.SECOND || ttl % Kv.SECOND < Kv.MILLISECOND
  {
    StepKeepsRevocationExactIff(c, s, op);
    Kv.RoundingsCompared(TtlFor(c, s.now, ExpiryFor(op.request.session, op.kind)));
  }

  // ---- the abstract store ----

  datatype Visible = Visible(p: Persisted, until: Kv.Time)

  /** One map from (kind, key) to a session and the instant from which it is no longer readable. */
  datatype Spec = Spec(now: Kv.Time, sessions: map<(Kind, string), Visible>)

  /** A session is readable until its deadline in whole milliseconds, or for the default lifetime when it has none. */
  function Until(c: Config, now: Kv.Time, p: Persisted): Kv.Time
  {
    match p.expiresAt
    case None => now + Kv.SetTtl(c.defaultTTL)
    case Some(d) => if d > now && now + Kv.SetTtl(d - now) <= d then now + Kv.SetTtl(d - now) else d + 1
  }

  function SpecGet(a: Spec, kind: Kind, key: string): Option<Visible>
  {
    if (kind, key) in a.sessions && a.now < a.sessions[(kind, key)].until then Some(a.sessions[(kind, key)]) else None
  }

  function SpecPut(c: Config, a: Spec, kind: Kind, key: string, p: Persisted): Spec
  {
    a.(sessions := a.sessions[(kind, key) := Visible(p, Until(c, a.now, p))])
  }

  function SpecFound(a: Spec, kind: Kind, key: string): Option<Persisted>
  {
    var v := SpecGet(a, kind, key);
    if v.None? then None else Some(v.value.p)
  }

  /** Revocation removes every session of the id, save those in `spared`. */
  function SpecRevoke(a: Spec, kind: Kind, id: string, spared: set<(Kind, string)>): Spec
  {
    var kept := map k | k in a.sessions && !(k.0 == kind && a.sessions[k].p.id == id && k !in spared) :: a.sessions[k];
    a.(sessions := kept)
  }

  function SpecStep(c: Config, a: Spec, op: Op, spared: set<(Kind, string)>): (Spec, Out)
  {
    match op
    case Create(kind, key, r, sig) => (SpecPut(c, a, kind, key, Row(kind, r, sig)), Done)
    case Read(kind, key, session, clients) => (a, ReadOut(kind, SpecFound(a, kind, key), session, clients))
    case Remove(kind, key) => (a.(sessions := a.sessions - {(kind, key)}), Done)
    case InvalidateCode(key) =>
      var found := SpecFound(a, AuthorizeCode, key);
      if found.None? then (a, NotFound)
      else (SpecPut(c, a, AuthorizeCode, key, found.value.(invalidated := true)), Done)
    case RevokeAll(kind, id) => (if Indexed(kind) then SpecRevoke(a, kind, id, spared) else a, Done)
    case Tick(d) => (a.(now := a.now + d), Done)
  }

  /** Only sessions that have no more than `slack` left may be spared. */
  predicate MaySpare(a: Spec, slack: nat, spared: set<(Kind, string)>)
  {
    forall k :: k in spared ==> k in a.sessions && a.sessions[k].until <= a.now + slack
  }

  // ---- simulation ----

  /** When a stored record stops being readable: its key expires, or its embedded deadline passes. */
  function VisibleUntil(r: Record): Kv.Time
  {
    match r.p.expiresAt
    case None => r.expiry
    case Some(d) => if d + 1 < r.expiry then d + 1 else r.expiry
  }

  function View(c: Config, s: Store, kind: Kind, key: string): Option<Visible>
  {
    var r := Rec(c, s, kind, key);
    if r.Some? && s.now < VisibleUntil(r.value) then Some(Visible(r.value.p, VisibleUntil(r.value))) else None
  }

  ghost predicate Simulates(c: Config, s: Store, a: Spec)
  {
    && s.now == a.now
    && (forall kind, key :: View(c, s, kind, key) == SpecGet(a, kind, key))
  }

  lemma OneSessionChanged(c: Config, s: Store, a: Spec, s': Store, a': Spec, kind: Kind, key: string)
    requires Simulates(c, s, a) && s'.now == a'.now == s.now
    requires forall k2, key2 :: (k2, key2) != (kind, key) ==> Rec(c, s', k2, key2) == Rec(c, s, k2, key2)
    requires forall k2, key2 :: (k2, key2) != (kind, key) ==> SpecGet(a', k2, key2) == SpecGet(a, k2, key2)
    requires View(c, s', kind, key) == SpecGet(a', kind, key)
    ensures Simulates(c, s', a')
  {
    forall k2, key2 ensures View(c, s', k2, key2) == SpecGet(a', k2, key2) {
      assert View(c, s, k2, key2) == SpecGet(a, k2, key2);
    }
  }

  /** What a write makes readable is what the specification says. */
  lemma WrittenUntil(c: Config, s: Store, p: Persisted)
    requires c.defaultTTL > 0
    ensures var r := Record(p, RecordDeadline(c, s, p));
      s.now < Until(c, s.now, p) ==> VisibleUntil(r) == Until(c, s.now, p)
    ensures s.now >= Until(c, s.now, p) ==> s.now >= VisibleUntil(Record(p, RecordDeadline(c, s, p)))
  {
  }

  lemma CreateSimulates(c: Config, s: Store, a: Spec, kind: Kind, key: string, r: Request, sig: string)
    requires ValidConfig(c) && Typed(c, s) && Simulates(c, s, a)
    ensures Simulates(c, Put(c, s, kind, key, r, sig), SpecPut(c, a, kind, key, Row(kind, r, sig)))
  {
    PutEffect(c, s, kind, key, r, sig);
    WrittenUntil(c, s, Row(kind, r, sig));
    OneSessionChanged(c, s, a, Put(c, s, kind, key, r, sig), SpecPut(c, a, kind, key, Row(kind, r, sig)), kind, key);
  }

  lemma ReadSimulates(c: Config, s: Store, a: Spec, kind: Kind, key: string)
    requires ValidConfig(c) && Typed(c, s) && Simulates(c, s, a)
    ensures Simulates(c, GetPersisted(c, s, kind, key).0, a)
        && GetPersisted(c, s, kind, key).1 == SpecFound(a, kind, key)
  {
    DeleteEffect(c, s, kind, key);
    assert View(c, s, kind, key) == SpecGet(a, kind, key);
    OneSessionChanged(c, s, a, GetPersisted(c, s, kind, key).0, a, kind, key);
  }

  lemma RemoveSimulates(c: Config, s: Store, a: Spec, kind: Kind, key: string)
    requires ValidConfig(c) && Typed(c, s) && Simulates(c, s, a)
    ensures Simulates(c, Delete(c, s, kind, key), a.(sessions := a.sessions - {(kind, key)}))
  {
    DeleteEffect(c, s, kind, key);
    OneSessionChanged(c, s, a, Delete(c, s, kind, key), a.(sessions := a.sessions - {(kind, key)}), kind, key);
  }

  lemma InvalidateSimulates(c: Config, s: Store, a: Spec, key: string)
    requires ValidConfig(c) && Typed(c, s) && Simulates(c, s, a)
    ensures Simulates(c, Step(c, s, InvalidateCode(key)).0, SpecStep(c, a, InvalidateCode(key), {}).0)
    ensures Step(c, s, InvalidateCode(key)).1 == SpecStep(c, a, InvalidateCode(key), {}).1
  {
    var s', a' := Step(c, s, InvalidateCode(key)).0, SpecStep(c, a, InvalidateCode(key), {}).0;
    InvalidateEffect(c, s, key);
    ReadSimulates(c, s, a, AuthorizeCode, key);
    var found := SpecFound(a, AuthorizeCode, key);
    if found.Some? { WrittenUntil(c, s, found.value.(invalidated := true)); }
    OneSessionChanged(c, s, a, s', a', AuthorizeCode, key);
  }

  lemma TickSimulates(c: Config, s: Store, a: Spec, d: nat)
    requires Typed(c, s) && Simulates(c, s, a)
    ensures Simulates(c, Kv.Tick(s, d), a.(now := a.now + d))
  {
    TickEffect(c, s, d);
    var s', a' := Kv.Tick(s, d), a.(now := a.now + d);
    forall k2, key ensures View(c, s', k2, key) == SpecGet(a', k2, key) {
      assert View(c, s, k2, key) == SpecGet(a, k2, key);
    }
  }

  /** The sessions of the id that a revocation leaves readable. */
  function Spared(c: Config, a: Spec, s': Store, kind: Kind, id: string): set<(Kind, string)>
  {
    set k | k in a.sessions && k.0 == kind && a.sessions[k].p.id == id && View(c, s', k.0, k.1).Some?
  }

  lemma RevokeSimulates(c: Config, s: Store, a: Spec, kind: Kind, id: string, slack: nat)
    requires ValidConfig(c) && Good(c, s, slack) && Simulates(c, s, a) && Indexed(kind)
    ensures var s' := Revoke(c, s, kind, id); var spared := Spared(c, a, s', kind, id);
      MaySpare(a, slack, spared) && Simulates(c, s', SpecRevoke(a, kind, id, spared))
  {
    var s' := Revoke(c, s, kind, id);
    var spared := Spared(c, a, s', kind, id);
    var a' := SpecRevoke(a, kind, id, spared);
    GoodRevokes(c, s, slack);
    RevokeEffect(c, s, kind, id);
    forall k2, key ensures View(c, s', k2, key) == SpecGet(a', k2, key) {
      assert View(c, s, k2, key) == SpecGet(a, k2, key);
      if Rec(c, s, k2, key).Some? { assert RevokesRecord(c, s, slack, kind, id, k2, key, Rec(c, s, k2, key).value); }
    }
    forall k | k in spared ensures a.sessions[k].until <= a.now + slack {
      SparedIsShort(c, s, a, kind, id, k.1, slack);
    }
  }

  lemma SparedIsShort(c: Config, s: Store, a: Spec, kind: Kind, id: string, key: string, slack: nat)
    requires Revokes(c, s, slack) && Simulates(c, s, a) && Indexed(kind)
    requires (kind, key) in a.sessions && a.sessions[(kind, key)].p.id == id
        && View(c, Revoke(c, s, kind, id), kind, key).Some?
    requires Rec(c, Revoke(c, s, kind, id), kind, key) == Rec(c, s, kind, key) && Revoke(c, s, kind, id).now == s.now
    ensures a.sessions[(kind, key)].until <= a.now + slack
  {
    assert View(c, s, kind, key) == SpecGet(a, kind, key);
    assert RevokesRecord(c, s, slack, kind, id, kind, key, Rec(c, s, kind, key).value);
  }

  /** One step from a good state: the same answer, and the two stores still agree on every session. */
  lemma StepSimulates(c: Config, s: Store, a: Spec, op: Op, slack: nat) returns (spared: set<(Kind, string)>)
    requires ValidConfig(c) && Good(c, s, slack) && Simulates(c, s, a)
    ensures MaySpare(a, slack, spared) && Simulates(c, Step(c, s, op).0, SpecStep(c, a, op, spared).0)
    ensures Step(c, s, op).1 == SpecStep(c, a, op, spared).1
  {
    spared := {};
    match op
    case Create(kind, key, r, sig) => CreateSimulates(c, s, a, kind, key, r, sig);
    case Read(kind, key, _, _) => ReadSimulates(c, s, a, kind, key);
    case Remove(kind, key) => RemoveSimulates(c, s, a, kind, key);
    case InvalidateCode(key) => InvalidateSimulates(c, s, a, key);
    case RevokeAll(kind, id) =>
      if Indexed(kind) {
        RevokeSimulates(c, s, a, kind, id, slack);
        spared := Spared(c, a, Revoke(c, s, kind, id), kind, id);
      }
    case Tick(d) => TickSimulates(c, s, a, d);
  }

  // ---- whole runs ----

  function After(c: Config, s: Store, ops: seq<Op>): Store
    requires c.defaultTTL > 0
    decreases |ops|
  {
    if ops == [] then s else After(c, Step(c, s, ops[0]).0, ops[1..])
  }

  function Outs(c: Config, s: Store, ops: seq<Op>): seq<Out>
    requires c.defaultTTL > 0
    decreases |ops|
  {
    if ops == [] then [] else [Step(c, s, ops[0]).1] + Outs(c, Step(c, s, ops[0]).0, ops[1..])
  }

  /**
   The one map can give these answers to these calls, if each revocation may spare sessions with no
   more than `slack` left.
   */
  ghost predicate Allows(c: Config, a: Spec, ops: seq<Op>, outs: seq<Out>, slack: nat)
    decreases |ops|
  {
    if ops == [] then outs == []
    else
      && outs != []
      && exists spared :: MaySpare(a, slack, spared) && outs[0] == SpecStep(c, a, ops[0], spared).1
           && Allows(c, SpecStep(c, a, ops[0], spared).0, ops[1..], outs[1..], slack)
  }

  ghost predicate AdmissibleRun(c: Config, s: Store, ops: seq<Op>, slack: nat)
    requires c.defaultTTL > 0
    decreases |ops|
  {
    ops == [] || (Admissible(c, s, ops[0], slack) && AdmissibleRun(c, Step(c, s, ops[0]).0, ops[1..], slack))
  }

  /** Coverage over whole runs. */
  lemma {:induction false} RunStaysGood(c: Config, s: Store, ops: seq<Op>, slack: nat)
    requires ValidConfig(c) && Good(c, s, slack) && AdmissibleRun(c, s, ops, slack)
    ensures Good(c, After(c, s, ops), slack)
    decreases |ops|
  {
    if ops != [] {
      StepKeepsGood(c, s, ops[0], slack);
      RunStaysGood(c, Step(c, s, ops[0]).0, ops[1..], slack);
    }
  }

  /** Every state on the way, the last one included, is good. */
  ghost predicate GoodThroughout(c: Config, s: Store, ops: seq<Op>)
    requires c.defaultTTL > 0
  {
    forall n :: 0 <= n <= |ops| ==> Good(c, After(c, s, ops[..n]), 0)
  }

  /** Without slack, a run from a good state stays good throughout exactly when it is admissible. */
  lemma {:induction false} RunStaysGoodIff(c: Config, s: Store, ops: seq<Op>)
    requires ValidConfig(c) && Good(c, s, 0)
    ensures GoodThroughout(c, s, ops) <==> AdmissibleRun(c, s, ops, 0)
    decreases |ops|
  {
    if ops != [] {
      var s', rest := Step(c, s, ops[0]).0, ops[1..];
      forall n | 0 < n <= |ops| ensures After(c, s, ops[..n]) == After(c, s', rest[..n - 1]) {
        assert ops[..n][1..] == rest[..n - 1];
      }
      assert After(c, s, ops[..1]) == s';
      StepKeepsGoodIff(c, s, ops[0]);
      if Good(c, s', 0) {
        RunStaysGoodIff(c, s', rest);
        if GoodThroughout(c, s, ops) {
          forall n | 0 <= n <= |rest| ensures Good(c, After(c, s', rest[..n]), 0) {
            assert After(c, s, ops[..n + 1]) == After(c, s', rest[..n]);
          }
        }
      }
    }
  }

  lemma {:induction false} RunsAgree(c: Config, s: Store, a: Spec, ops: seq<Op>, slack: nat)
    requires ValidConfig(c) && Good(c, s, slack) && Simulates(c, s, a) && AdmissibleRun(c, s, ops, slack)
    ensures Allows(c, a, ops, Outs(c, s, ops), slack)
    decreases |ops|
  {
    if ops != [] {
      var spared := StepSimulates(c, s, a, ops[0], slack);
      StepKeepsGood(c, s, ops[0], slack);
      RunsAgree(c, Step(c, s, ops[0]).0, SpecStep(c, a, ops[0], spared).0, ops[1..], slack);
      assert Outs(c, s, ops)[1..] == Outs(c, Step(c, s, ops[0]).0, ops[1..]);
    }
  }

  // ---- without slack the one map is a function ----

  function SpecOuts(c: Config, a: Spec, ops: seq<Op>): seq<Out>
    decreases |ops|
  {
    if ops == [] then [] else [SpecStep(c, a, ops[0], {}).1] + SpecOuts(c, SpecStep(c, a, ops[0], {}).0, ops[1..])
  }

  /** The two maps agree on what is readable. */
  ghost predicate SameView(a: Spec, b: Spec)
  {
    a.now == b.now && forall kind, key :: SpecGet(a, kind, key) == SpecGet(b, kind, key)
  }

  lemma UnsparingStep(c: Config, a: Spec, b: Spec, op: Op, spared: set<(Kind, string)>)
    requires SameView(a, b) && MaySpare(a, 0, spared)
    ensures SpecStep(c, a, op, spared).1 == SpecStep(c, b, op, {}).1
    ensures SameView(SpecStep(c, a, op, spared).0, SpecStep(c, b, op, {}).0)
  {
    var a', b' := SpecStep(c, a, op, spared).0, SpecStep(c, b, op, {}).0;
    match op
    case Read(kind, key, _, _) => assert SpecGet(a, kind, key) == SpecGet(b, kind, key);
    case InvalidateCode(key) =>
      assert SpecGet(a, AuthorizeCode, key) == SpecGet(b, AuthorizeCode, key);
      forall k, x ensures SpecGet(a', k, x) == SpecGet(b', k, x) { assert SpecGet(a, k, x) == SpecGet(b, k, x); }
    case _ =>
      forall k, x ensures SpecGet(a', k, x) == SpecGet(b', k, x) { assert SpecGet(a, k, x) == SpecGet(b, k, x); }
  }

  lemma {:induction false} NoSlackIsExact(c: Config, a: Spec, b: Spec, ops: seq<Op>, outs: seq<Out>)
    requires SameView(a, b) && Allows(c, a, ops, outs, 0)
    ensures outs == SpecOuts(c, b, ops)
    decreases |ops|
  {
    if ops != [] {
      var spared :| MaySpare(a, 0, spared) && outs[0] == SpecStep(c, a, ops[0], spared).1
        && Allows(c, SpecStep(c, a, ops[0], spared).0, ops[1..], outs[1..], 0);
      UnsparingStep(c, a, b, ops[0], spared);
      NoSlackIsExact(c, SpecStep(c, a, ops[0], spared).0, SpecStep(c, b, ops[0], {}).0, ops[1..], outs[1..]);
      assert outs == [outs[0]] + outs[1..];
    }
  }

  /** Refinement: every admissible run from the empty store answers like the one-map specification. */
  lemma Refinement(c: Config, start: Kv.Time, ops: seq<Op>)
    requires ValidConfig(c) && AdmissibleRun(c, Kv.State(start, map[]), ops, 0)
    ensures Outs(c, Kv.State(start, map[]), ops) == SpecOuts(c, Spec(start, map[]), ops)
  {
    RunsAgree(c, Kv.State(start, map[]), Spec(start, map[]), ops, 0);
    NoSlackIsExact(c, Spec(start, map[]), Spec(start, map[]), ops, Outs(c, Kv.State(start, map[]), ops));
  }
}
