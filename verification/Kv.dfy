/**
 The key-value store of internal/kv: entries with an absolute expiry under a clock that never goes
 back. Lifetimes are rounded as the Redis client library sends them: SET keeps milliseconds, EXPIRE
 keeps seconds. An entry whose expiry has passed stays in the map and is simply no longer visible, which is
 how the store itself expires keys lazily. Keys are generic: a structured key type may stand for the
 rendered strings as long as its rendering is injective.
 */
module Kv {
  import opened Text

  type Time = int // nanoseconds

  const MILLISECOND: Time := 1_000_000
  const SECOND: Time := 1_000_000_000
  const MINUTE: Time := 60 * SECOND
  const HOUR: Time := 60 * MINUTE

  datatype Value<K, B> = Blob(body: B) | Members(ids: set<K>) | Count(n: int)

  datatype Entry<K, B> = Entry(value: Value<K, B>, expiry: Option<Time>)

  datatype State<K, B> = State(now: Time, entries: map<K, Entry<K, B>>)

  datatype Reply<+T> = Found(value: T) | Nil | WrongType

  predicate LiveAt<K, B>(e: Entry<K, B>, now: Time)
  {
    e.expiry.None? || now < e.expiry.value
  }

  function Lookup<K, B>(s: State<K, B>, k: K): Option<Value<K, B>>
  {
    if k in s.entries && LiveAt(s.entries[k], s.now) then Some(s.entries[k].value) else None
  }

  /** The lifetime SET works with: whole milliseconds, rounded down, and at least one. */
  function SetTtl(ttl: Time): (r: Time)
    ensures MILLISECOND <= r && ttl - MILLISECOND < r && (r <= ttl || r == MILLISECOND) && r % MILLISECOND == 0
  {
    if ttl < MILLISECOND then MILLISECOND else ttl - ttl % MILLISECOND
  }

  /** The lifetime EXPIRE works with: whole seconds, rounded down, and at least one. */
  function ExpireTtl(ttl: Time): (r: Time)
    ensures SECOND <= r && ttl - SECOND < r && (r <= ttl || r == SECOND) && r % SECOND == 0
  {
    if ttl < SECOND then SECOND else ttl - ttl % SECOND
  }

  /** SET never outlasts EXPIRE by a second, and outlasts it at all unless the lifetime is short or almost whole. */
  lemma RoundingsCompared(ttl: Time)
    requires ttl > 0
    ensures SetTtl(ttl) < ExpireTtl(ttl) + SECOND
    ensures SetTtl(ttl) <= ExpireTtl(ttl) <==> ttl < SECOND || ttl % SECOND < MILLISECOND
    ensures ExpireTtl(ttl) <= SetTtl(ttl) <==> ttl >= SECOND
  {
    if ttl >= SECOND {
      var q, r := ttl / SECOND, ttl % SECOND;
      assert ttl == q * SECOND + r && q * SECOND == q * 1000 * MILLISECOND;
      assert ttl % MILLISECOND == r % MILLISECOND;
    }
  }

  function Deadline(now: Time, ttl: Time): Option<Time>
  {
    if ttl > 0 then Some(now + SetTtl(ttl)) else None
  }

  function Get<K, B>(s: State<K, B>, k: K): Reply<B>
  {
    match Lookup(s, k)
    case None => Nil
    case Some(Blob(b)) => Found(b)
    case Some(_) => WrongType
  }

  function Set<K, B>(s: State<K, B>, k: K, body: B, ttl: Time): State<K, B>
  {
    s.(entries := s.entries[k := Entry(Blob(body), Deadline(s.now, ttl))])
  }

  function Del<K, B>(s: State<K, B>, ks: set<K>): State<K, B>
  {
    s.(entries := s.entries - ks)
  }

  function Exists<K, B>(s: State<K, B>, k: K): bool { Lookup(s, k).Some? }

  function Pttl<K, B>(s: State<K, B>, k: K): Time
  {
    if Lookup(s, k).None? then -2
    else if s.entries[k].expiry.None? then -1
    else s.entries[k].expiry.value - s.now
  }

  /** SADD then EXPIRE in one transaction: a live key of another type keeps its value, not its expiry. */
  function SAdd<K, B>(s: State<K, B>, k: K, ttl: Time, ids: set<K>): State<K, B>
  {
    var live := Lookup(s, k);
    var value := match live case None => Members(ids) case Some(Members(m)) => Members(m + ids) case Some(v) => v;
    var kept := if live.Some? then s.entries[k].expiry else None;
    s.(entries := s.entries[k := Entry(value, if ttl > 0 then Some(s.now + ExpireTtl(ttl)) else kept)])
  }

  function SMembers<K, B>(s: State<K, B>, k: K): Reply<set<K>>
  {
    match Lookup(s, k)
    case None => Found({})
    case Some(Members(m)) => Found(m)
    case Some(_) => WrongType
  }

  /** INCR, then EXPIRE when the counter has just been created. */
  function IncrTtl<K, B>(s: State<K, B>, k: K, window: Time): (State<K, B>, Reply<int>)
  {
    match Lookup(s, k)
    case None =>
      var expiry := if window > 0 then Some(s.now + ExpireTtl(window)) else None;
      (s.(entries := s.entries[k := Entry(Count(1), expiry)]), Found(1))
    case Some(Count(n)) =>
      var expiry := if n + 1 == 1 && window > 0 then Some(s.now + ExpireTtl(window)) else s.entries[k].expiry;
      (s.(entries := s.entries[k := Entry(Count(n + 1), expiry)]), Found(n + 1))
    case Some(_) => (s, WrongType)
  }

  function Tick<K, B>(s: State<K, B>, d: nat): State<K, B> { s.(now := s.now + d) }
}

/** What the commands mean to each other, as time passes. */
module KvLaws {
  import opened Text
  import opened Kv

  /** A value is read back until its lifetime is over, and for ever without one. */
  lemma SetThenGet<K, B>(s: State<K, B>, k: K, body: B, ttl: Time, d: nat)
    ensures Get(Tick(Set(s, k, body, ttl), d), k) == if ttl <= 0 || d < SetTtl(ttl) then Found(body) else Nil
    ensures SMembers(Set(s, k, body, ttl), k).WrongType?
        && IncrTtl(Set(s, k, body, ttl), k, ttl) == (Set(s, k, body, ttl), WrongType)
  {
  }

  /** Members accumulate while the set is live, and each addition gives the whole set a new lifetime. */
  lemma SAddThenMembers<K, B>(s: State<K, B>, k: K, ttl: Time, ids: set<K>, d: nat)
    requires ttl > 0 && SMembers(s, k).Found?
    ensures SMembers(Tick(SAdd(s, k, ttl, ids), d), k) ==
      Found(if d < ExpireTtl(ttl) then SMembers(s, k).value + ids else {})
    ensures Get(SAdd(s, k, ttl, ids), k).WrongType?
  {
    assert {} + ids == ids;
  }

  /** Adding to a live key of another type keeps its value, though not its deadline. */
  lemma SAddKeepsOtherTypes<K, B>(s: State<K, B>, k: K, ttl: Time, ids: set<K>, body: B)
    requires ttl > 0 && Get(s, k) == Found(body)
    ensures Get(SAdd(s, k, ttl, ids), k) == Found(body) && Pttl(SAdd(s, k, ttl, ids), k) == ExpireTtl(ttl)
  {
  }

  /**
   A new counter starts at one; counting again within its window goes on without extending it;
   afterwards it starts anew.
   */
  lemma IncrCounts<K, B>(s: State<K, B>, k: K, window: Time, d: nat)
    requires !Exists(s, k) && window > 0
    ensures var (s1, first) := IncrTtl(s, k, window); var (s2, second) := IncrTtl(Tick(s1, d), k, window);
      && first == Found(1) && second == Found(if d < ExpireTtl(window) then 2 else 1)
      && Pttl(s1, k) == ExpireTtl(window)
      && Pttl(s2, k) == if d < ExpireTtl(window) then ExpireTtl(window) - d else ExpireTtl(window)
  {
  }

  /** -2 without a live key, -1 without a deadline, else the time until the key is gone. */
  lemma PttlMeans<K, B>(s: State<K, B>, k: K, d: nat)
    ensures Pttl(s, k) == -2 <==> !Exists(s, k)
    ensures Pttl(s, k) == -1 ==> Exists(Tick(s, d), k)
    ensures Pttl(s, k) != -1 ==> (Exists(Tick(s, d), k) <==> d < Pttl(s, k))
  {
  }

  /** Every command leaves all keys alone that it does not name. */
  lemma OtherKeysKept<K, B>(s: State<K, B>, k: K, other: K, body: B, ttl: Time, ids: set<K>)
    requires other != k
    ensures Lookup(Set(s, k, body, ttl), other) == Lookup(s, other) && Lookup(Del(s, {k}), other) == Lookup(s, other)
    ensures Lookup(SAdd(s, k, ttl, ids), other) == Lookup(s, other)
        && Lookup(IncrTtl(s, k, ttl).0, other) == Lookup(s, other)
    ensures !Exists(Del(s, {k}), k)
  {
  }
}

/** The client of internal/kv/kv.go; each method is one command against the shared store. */
module KvClient {
  import opened Text
  import Kv

  class Client<K(==), B> {
    var now: Kv.Time
    var entries: map<K, Kv.Entry<K, B>>

    constructor (start: Kv.Time)
      ensures now == start && entries == map[]
    {
      now, entries := start, map[];
    }

    ghost function Snapshot(): Kv.State<K, B>
      reads this
    {
      Kv.State(now, entries)
    }

    method Live(k: K) returns (live: bool)
      ensures live == Kv.Lookup(Snapshot(), k).Some?
    {
      live := k in entries && (entries[k].expiry.None? || now < entries[k].expiry.value);
    }

    method Get(k: K) returns (r: Kv.Reply<B>)
      ensures r == Kv.Get(Snapshot(), k)
    {
      var live := Live(k);
      if !live { return Kv.Nil; }
      r := if entries[k].value.Blob? then Kv.Found(entries[k].value.body) else Kv.WrongType;
    }

    method Set(k: K, body: B, ttl: Kv.Time)
      modifies this`entries
      ensures Snapshot() == Kv.Set(old(Snapshot()), k, body, ttl)
    {
      entries := entries[k := Kv.Entry(Kv.Blob(body), if ttl > 0 then Some(now + Kv.SetTtl(ttl)) else None)];
    }

    method Expire(k: K, ttl: Kv.Time)
      requires k in entries
      modifies this`entries
      ensures entries == old(entries)[k := Kv.Entry(old(entries[k].value), Some(now + Kv.ExpireTtl(ttl)))]
    {
      entries := entries[k := entries[k].(expiry := Some(now + Kv.ExpireTtl(ttl)))];
    }

    method Del(ks: set<K>)
      modifies this`entries
      ensures Snapshot() == Kv.Del(old(Snapshot()), ks)
    {
      entries := entries - ks;
    }

    method Exists(k: K) returns (r: bool)
      ensures r == Kv.Exists(Snapshot(), k)
    {
      r := Live(k);
    }

    method Pttl(k: K) returns (d: Kv.Time)
      ensures d == Kv.Pttl(Snapshot(), k)
    {
      var live := Live(k);
      if !live { return -2; }
      d := if entries[k].expiry.None? then -1 else entries[k].expiry.value - now;
    }

    method SAdd(k: K, ttl: Kv.Time, ids: set<K>)
      modifies this`entries
      ensures Snapshot() == Kv.SAdd(old(Snapshot()), k, ttl, ids)
    {
      var live := Live(k);
      if !live {
        entries := entries[k := Kv.Entry(Kv.Members(ids), None)];
      } else if entries[k].value.Members? {
        entries := entries[k := entries[k].(value := Kv.Members(entries[k].value.ids + ids))];
      }
      if ttl > 0 { Expire(k, ttl); }
    }

    method SMembers(k: K) returns (r: Kv.Reply<set<K>>)
      ensures r == Kv.SMembers(Snapshot(), k)
    {
      var live := Live(k);
      if !live { return Kv.Found({}); }
      r := if entries[k].value.Members? then Kv.Found(entries[k].value.ids) else Kv.WrongType;
    }

    method IncrTtl(k: K, window: Kv.Time) returns (r: Kv.Reply<int>)
      modifies this`entries
      ensures Snapshot() == Kv.IncrTtl(old(Snapshot()), k, window).0
      ensures r == Kv.IncrTtl(old(Snapshot()), k, window).1
    {
      var live := Live(k);
      var n := 1;
      if !live {
        entries := entries[k := Kv.Entry(Kv.Count(1), None)];
      } else if entries[k].value.Count? {
        n := entries[k].value.n + 1;
        entries := entries[k := entries[k].(value := Kv.Count(n))];
      } else {
        return Kv.WrongType;
      }
      if n == 1 && window > 0 { Expire(k, window); }
      r := Kv.Found(n);
    }

    method Tick(d: nat)
      modifies this`now
      ensures Snapshot() == Kv.Tick(old(Snapshot()), d)
    {
      now := now + d;
    }
  }
}
