/**
 The brute-force lockout of internal/store/store.go and internal/idp/provider.go: how many failures
 a key can collect.
 */
module Lockout {
  import opened Text
  import opened Artifacts
  import Kv

  type Time = Kv.Time

  /** How far back from the first failure of a window one is certain to be a whole window earlier. */
  function Reach(lockAfter: int): nat { if lockAfter > 2 then lockAfter - 1 else 1 }

  /** The most failures of one key within one window: 2 * lockAfter - 2, or 1 when the first failure locks. */
  function Bound(lockAfter: int): nat
    requires lockAfter > 0
  {
    Reach(lockAfter) + lockAfter - 1
  }

  predicate Ordered(fs: seq<Time>) { forall i, j :: 0 <= i <= j < |fs| ==> fs[i] <= fs[j] }

  /** Any b + 1 consecutive failures span at least a window. */
  predicate Spaced(fs: seq<Time>, b: nat, window: Time)
  {
    forall i :: b <= i < |fs| ==> fs[i - b] + window <= fs[i]
  }

  /**
   The stored counter and lock explain the failures `fs` recorded since the last reset: the last m of
   them belong to the counter, whose window began with the first of those; a full counter has a lock
   that outlives it; and the window's first failure comes a whole window after the one Reach before it.
   The counter may exceed m, because one login can count twice under one key.
   */
  ghost predicate Explains(s: Store, who: string, lockAfter: int, window: Time, fs: seq<Time>)
    requires lockAfter > 0
  {
    && Ordered(fs) && Spaced(fs, Bound(lockAfter), window) && (fs != [] ==> fs[|fs| - 1] <= s.now)
    && (Fail(who) !in s.entries ==> fs == [])
    && (Fail(who) in s.entries ==> exists m: nat :: Counted(s, who, lockAfter, window, fs, m))
  }

  predicate Counted(s: Store, who: string, lockAfter: int, window: Time, fs: seq<Time>, m: nat)
    requires lockAfter > 0 && Fail(who) in s.entries
  {
    var e := s.entries[Fail(who)];
    && e.value.Count? && 1 <= m <= e.value.n && m <= lockAfter && m <= |fs|
    && var first := |fs| - m;
    && e.expiry == Some(fs[first] + window)
    && (first >= Reach(lockAfter) ==> fs[first - Reach(lockAfter)] + window <= fs[first])
    && (e.value.n >= lockAfter ==> LockedUntil(s, who, fs[|fs| - 1] + window))
  }

  predicate LockedUntil(s: Store, who: string, until: Time)
  {
    && Lock(who) in s.entries && s.entries[Lock(who)].expiry.Some? && until <= s.entries[Lock(who)].expiry.value
  }

  /** While a full counter is live the key is locked: the lock always outlives the counter that caused it. */
  lemma LockOutlivesCounter(s: Store, who: string, lockAfter: int, window: Time, fs: seq<Time>)
    requires lockAfter > 0 && window > 0 && Explains(s, who, lockAfter, window, fs)
    requires Fail(who) in s.entries && s.entries[Fail(who)].value.Count? && s.entries[Fail(who)].value.n >= lockAfter
    requires !LoginLocked(s, who)
    ensures fs != [] && fs[|fs| - 1] + window <= s.now && !Kv.LiveAt(s.entries[Fail(who)], s.now)
  {
    var m: nat :| Counted(s, who, lockAfter, window, fs, m);
    assert fs[|fs| - m] <= fs[|fs| - 1];
  }

  /**
   A failure is recorded under threshold `small`, while the history is explained under threshold
   `lockAfter`; the counter keeps EXPIRE's window of whole seconds, the lock SET's.
   */
  lemma NewWindowKeeps(s: Store, who: string, small: int, lockAfter: int, lockFor: Time, fs: seq<Time>)
    requires 0 < small <= lockAfter && lockFor >= Kv.SECOND && !LoginLocked(s, who)
    requires Explains(s, who, lockAfter, Kv.ExpireTtl(lockFor), fs) && Kv.Lookup(s, Fail(who)).None?
    ensures Explains(RecordLoginFailure(s, who, small, lockFor), who, lockAfter, Kv.ExpireTtl(lockFor), fs + [s.now])
  {
    var window := Kv.ExpireTtl(lockFor);
    Kv.RoundingsCompared(lockFor);
    if |fs| >= Reach(lockAfter) { OldEnough(s, who, lockAfter, window, fs); }
    SpacedSnoc(fs, Reach(lockAfter), Bound(lockAfter), window, s.now);
    assert Counted(RecordLoginFailure(s, who, small, lockFor), who, lockAfter, window, fs + [s.now], 1);
  }

  lemma SpacedSnoc(fs: seq<Time>, g: nat, b: nat, window: Time, now: Time)
    requires Ordered(fs) && Spaced(fs, b, window) && 1 <= g <= b && (fs != [] ==> fs[|fs| - 1] <= now)
    requires |fs| >= g ==> fs[|fs| - g] + window <= now
    ensures Ordered(fs + [now]) && Spaced(fs + [now], b, window)
  {
    assert |fs| >= b ==> fs[|fs| - b] <= fs[|fs| - g];
  }

  /** When no counter is live and the key is not locked, the failure Reach ago is a whole window old. */
  lemma OldEnough(s: Store, who: string, lockAfter: int, window: Time, fs: seq<Time>)
    requires lockAfter > 0 && window > 0 && Explains(s, who, lockAfter, window, fs) && !LoginLocked(s, who)
    requires Kv.Lookup(s, Fail(who)).None? && |fs| >= Reach(lockAfter)
    ensures fs[|fs| - Reach(lockAfter)] + window <= s.now
  {
    var m: nat :| Counted(s, who, lockAfter, window, fs, m);
    if s.entries[Fail(who)].value.n >= lockAfter {
      LockOutlivesCounter(s, who, lockAfter, window, fs);
      assert fs[|fs| - Reach(lockAfter)] <= fs[|fs| - 1];
    } else {
      assert fs[|fs| - Reach(lockAfter)] <= fs[|fs| - m];
    }
  }

  lemma SameWindowKeeps(s: Store, who: string, small: int, lockAfter: int, lockFor: Time, fs: seq<Time>)
    requires 0 < small <= lockAfter && lockFor >= Kv.SECOND && !LoginLocked(s, who)
    requires Explains(s, who, lockAfter, Kv.ExpireTtl(lockFor), fs) && Kv.Lookup(s, Fail(who)).Some?
    ensures Explains(RecordLoginFailure(s, who, small, lockFor), who, lockAfter, Kv.ExpireTtl(lockFor), fs + [s.now])
  {
    var b, window, fs' := Bound(lockAfter), Kv.ExpireTtl(lockFor), fs + [s.now];
    Kv.RoundingsCompared(lockFor);
    var m: nat :| Counted(s, who, lockAfter, window, fs, m);
    FullIsLocked(s, who, lockAfter, window, fs);
    SpacedInWindow(fs, Reach(lockAfter), b, window, s.now, |fs| - m);
    assert Counted(RecordLoginFailure(s, who, small, lockFor), who, lockAfter, window, fs', m + 1);
  }

  lemma SpacedInWindow(fs: seq<Time>, g: nat, b: nat, window: Time, now: Time, first: nat)
    requires Ordered(fs) && Spaced(fs, b, window) && first < |fs| && fs[|fs| - 1] <= now
    requires |fs| - b <= first - g && (first >= g ==> fs[first - g] + window <= fs[first])
    ensures Ordered(fs + [now]) && Spaced(fs + [now], b, window)
  {
    if |fs| >= b { assert fs[|fs| - b] <= fs[first - g] && fs[first] <= fs[|fs| - 1]; }
  }

  lemma FullIsLocked(s: Store, who: string, lockAfter: int, window: Time, fs: seq<Time>)
    requires lockAfter > 0 && window > 0 && Explains(s, who, lockAfter, window, fs) && !LoginLocked(s, who)
    requires Kv.Lookup(s, Fail(who)).Some?
    ensures s.entries[Fail(who)].value.Count? && s.entries[Fail(who)].value.n < lockAfter
  {
    var m: nat :| Counted(s, who, lockAfter, window, fs, m);
    if s.entries[Fail(who)].value.n >= lockAfter { LockOutlivesCounter(s, who, lockAfter, window, fs); }
  }

  /** Counting the latest failure a second time under the same key leaves the failures explained. */
  lemma AgainKeeps(s: Store, who: string, small: int, lockAfter: int, lockFor: Time, fs: seq<Time>)
    requires 0 < small <= lockAfter && lockFor >= Kv.SECOND && fs != [] && fs[|fs| - 1] == s.now
    requires Explains(s, who, lockAfter, Kv.ExpireTtl(lockFor), fs) && Kv.Lookup(s, Fail(who)).Some?
    ensures Explains(RecordLoginFailure(s, who, small, lockFor), who, lockAfter, Kv.ExpireTtl(lockFor), fs)
  {
    Kv.RoundingsCompared(lockFor);
    var m: nat :| Counted(s, who, lockAfter, Kv.ExpireTtl(lockFor), fs, m);
    assert Counted(RecordLoginFailure(s, who, small, lockFor), who, lockAfter, Kv.ExpireTtl(lockFor), fs, m);
  }

  /** Recording a failure on an unlocked key, under any threshold up to lockAfter, keeps the failures explained. */
  lemma RecordKeeps(s: Store, who: string, small: int, lockAfter: int, lockFor: Time, fs: seq<Time>)
    requires 0 < small <= lockAfter && lockFor >= Kv.SECOND && !LoginLocked(s, who)
    requires Explains(s, who, lockAfter, Kv.ExpireTtl(lockFor), fs)
    ensures Explains(RecordLoginFailure(s, who, small, lockFor), who, lockAfter, Kv.ExpireTtl(lockFor), fs + [s.now])
    ensures Kv.Lookup(RecordLoginFailure(s, who, small, lockFor), Fail(who)).Some?
  {
    if Kv.Lookup(s, Fail(who)).None? {
      NewWindowKeeps(s, who, small, lockAfter, lockFor, fs);
    } else {
      SameWindowKeeps(s, who, small, lockAfter, lockFor, fs);
    }
  }

  // ---- the bound is attained ----

  /** Attempts at the given times, each of which fails; a locked key records nothing. */
  function Attempts(s: Store, who: string, lockAfter: int, lockFor: Time, times: seq<Time>): (Store, seq<Time>)
    decreases |times|
  {
    if times == [] then (s, [])
    else
      var s1 := s.(now := times[0]);
      var open := !LoginLocked(s1, who);
      var s2 := if open then RecordLoginFailure(s1, who, lockAfter, lockFor) else s1;
      var rest := Attempts(s2, who, lockAfter, lockFor, times[1..]);
      (rest.0, (if open then [times[0]] else []) + rest.1)
  }

  /** k further failures in a live, unlocked window that they do not overfill are all recorded. */
  lemma {:induction false} BurstIsRecorded(s: Store, who: string, lockAfter: int, lockFor: Time, at: Time, c: nat,
      until: Time, k: nat)
    requires lockFor > 0 && c + k <= lockAfter && Lock(who) !in s.entries
    requires c == 0 ==> Fail(who) !in s.entries || (s.entries[Fail(who)].expiry == Some(until) && until <= at)
    requires c > 0 ==> Fail(who) in s.entries && s.entries[Fail(who)] == Kv.Entry(Kv.Count(c), Some(until))
    requires c > 0 ==> at < until
    ensures Attempts(s, who, lockAfter, lockFor, seq(k, _ => at)).1 == seq(k, _ => at)
    ensures c + k < lockAfter && k > 0 ==>
      var s' := Attempts(s, who, lockAfter, lockFor, seq(k, _ => at)).0;
      && Lock(who) !in s'.entries && Fail(who) in s'.entries
      && s'.entries[Fail(who)] == Kv.Entry(Kv.Count(c + k), Some(if c == 0 then at + Kv.ExpireTtl(lockFor) else until))
    decreases k
  {
    var times := seq(k, _ => at);
    if k > 0 {
      var s1 := RecordLoginFailure(s.(now := at), who, lockAfter, lockFor);
      assert times[1..] == seq(k - 1, _ => at);
      if k > 1 {
        var next := if c == 0 then at + Kv.ExpireTtl(lockFor) else until;
        BurstIsRecorded(s1, who, lockAfter, lockFor, at, c + 1, next, k - 1);
      }
      assert [at] + seq(k - 1, _ => at) == times;
    }
  }

  lemma {:induction false} AttemptsConcat(s: Store, who: string, lockAfter: int, lockFor: Time, a: seq<Time>,
      b: seq<Time>)
    ensures var first := Attempts(s, who, lockAfter, lockFor, a);
        var second := Attempts(first.0, who, lockAfter, lockFor, b);
      Attempts(s, who, lockAfter, lockFor, a + b) == (second.0, first.1 + second.1)
    decreases |a|
  {
    if a == [] {
      var y := Attempts(s, who, lockAfter, lockFor, b);
      assert a + b == b && [] + y.1 == y.1;
    } else {
      var s1 := s.(now := a[0]);
      var s2 := if LoginLocked(s1, who) then s1 else RecordLoginFailure(s1, who, lockAfter, lockFor);
      assert (a + b)[1..] == a[1..] + b;
      AttemptsConcat(s2, who, lockAfter, lockFor, a[1..], b);
      var head := if LoginLocked(s1, who) then [] else [a[0]];
      var x := Attempts(s2, who, lockAfter, lockFor, a[1..]);
      var y := Attempts(x.0, who, lockAfter, lockFor, b);
      assert head + (x.1 + y.1) == (head + x.1) + y.1;
      assert Attempts(s, who, lockAfter, lockFor, a) == (x.0, head + x.1);
    }
  }

  /** One failure, lockAfter - 2 more at the very end of its window, and lockAfter in the next. */
  function Worst(lockAfter: nat, window: Time): seq<Time>
    requires lockAfter >= 2
  {
    [0] + (seq(lockAfter - 2, _ => window - 1) + seq(lockAfter, _ => window))
  }

  /** The bound is tight: for lockAfter >= 2 some run records Bound(lockAfter) failures in less than a window. */
  lemma BoundIsAttained(who: string, lockAfter: nat, lockFor: Time)
    requires lockAfter >= 2 && lockFor > 0
    ensures var window := Kv.ExpireTtl(lockFor);
      var fs := Attempts(Kv.State(0, map[]), who, lockAfter, lockFor, Worst(lockAfter, window)).1;
      fs == Worst(lockAfter, window) && Bound(lockAfter) == 2 * lockAfter - 2 == |fs| - 1
          && fs[|fs| - 1] - fs[1] < window
  {
    var s0: Store := Kv.State(0, map[]);
    var window := Kv.ExpireTtl(lockFor);
    var a, b, c: seq<Time> := seq(1, _ => 0), seq(lockAfter - 2, _ => window - 1), seq(lockAfter, _ => window);
    BurstIsRecorded(s0, who, lockAfter, lockFor, 0, 0, 0, 1);
    var s1 := Attempts(s0, who, lockAfter, lockFor, a).0;
    BurstIsRecorded(s1, who, lockAfter, lockFor, window - 1, 1, window, lockAfter - 2);
    var s2 := Attempts(s1, who, lockAfter, lockFor, b).0;
    BurstIsRecorded(s2, who, lockAfter, lockFor, window, 0, window, lockAfter);
    AttemptsConcat(s0, who, lockAfter, lockFor, a, b + c);
    AttemptsConcat(s1, who, lockAfter, lockFor, b, c);
    assert a + (b + c) == Worst(lockAfter, window);
  }
}

/** The lockout bound over whole runs of the provider. */
module LockoutRuns {
  import opened Text
  import opened Artifacts
  import opened Provider
  import opened Effects
  import opened Runs
  import opened Lockout
  import Kv

  predicate LoginTouches(cfg: Config, op: Op, who: string)
  {
    op.LoginOp? && (who == cfg.ipKey(ToLower(op.username), op.ip) || who == cfg.userKey(ToLower(op.username)))
  }

  function VerdictOn(cfg: Config, w: World, op: Op): Verdict
    requires op.LoginOp?
  {
    Judge(cfg, w, op.uid, ToLower(op.username), op.ip, op.auth)
  }

  /** The step records a failure under key `who`. */
  predicate Records(cfg: Config, w: World, op: Op, who: string)
  {
    LoginTouches(cfg, op, who) && VerdictOn(cfg, w, op).Failure?
  }

  /** The step resets key `who`. */
  predicate Resets(cfg: Config, w: World, op: Op, who: string)
  {
    LoginTouches(cfg, op, who) && VerdictOn(cfg, w, op).Accept?
  }

  /** Times of the failures recorded under `who` in the first n steps, since its last reset. */
  function Failures(cfg: Config, t: Trace, who: string, n: nat): seq<Time>
    requires Shape(t) && n <= |t.ops|
  {
    if n == 0 then []
    else if Records(cfg, t.ws[n - 1], t.ops[n - 1], who) then Failures(cfg, t, who, n - 1) + [t.ws[n - 1].kv.now]
    else if Resets(cfg, t.ws[n - 1], t.ops[n - 1], who) then []
    else Failures(cfg, t, who, n - 1)
  }

  /** How many of the steps a to b - 1 record a failure under `who`. */
  function Recorded(cfg: Config, t: Trace, who: string, a: nat, b: nat): nat
    requires Shape(t) && a <= b <= |t.ops|
    decreases b
  {
    if a == b then 0
    else Recorded(cfg, t, who, a, b - 1) + (if Records(cfg, t.ws[b - 1], t.ops[b - 1], who) then 1 else 0)
  }

  /** No login reaches key `who` under a threshold above lockAfter. */
  ghost predicate Within(cfg: Config, ops: seq<Op>, who: string, lockAfter: int)
  {
    forall i :: 0 <= i < |ops| && ops[i].LoginOp? ==>
        LoginWithin(cfg, ToLower(ops[i].username), ops[i].ip, who, lockAfter)
  }

  predicate LoginWithin(cfg: Config, uname: string, ip: string, who: string, lockAfter: int)
  {
    && (who == cfg.ipKey(uname, ip) ==> IP_LOCK_AFTER <= lockAfter)
    && (who == cfg.userKey(uname) ==> USER_LOCK_AFTER <= lockAfter)
  }

  lemma SameKeysStayExplained(s: Store, s': Store, who: string, lockAfter: int, fs: seq<Time>)
    requires lockAfter > 0 && Explains(s, who, lockAfter, LOCK_FOR, fs) && s.now <= s'.now
    requires SameEntry(s, s', Fail(who)) && SameEntry(s, s', Lock(who))
    ensures Explains(s', who, lockAfter, LOCK_FOR, fs)
  {
    if Fail(who) in s.entries {
      var m: nat :| Counted(s, who, lockAfter, LOCK_FOR, fs, m);
      assert Counted(s', who, lockAfter, LOCK_FOR, fs, m);
    }
  }

  /** Recording a login failure under two distinct keys treats each as if it were alone. */
  lemma RecordBothApart(cfg: Config, kv: Store, uname: string, ip: string, who: string, small: int)
    requires cfg.ipKey(uname, ip) != cfg.userKey(uname)
    requires (who == cfg.ipKey(uname, ip) && small == IP_LOCK_AFTER)
        || (who == cfg.userKey(uname) && small == USER_LOCK_AFTER)
    ensures var one := RecordLoginFailure(kv, who, small, LOCK_FOR); var both := RecordBoth(cfg, kv, uname, ip);
      SameEntry(one, both, Fail(who)) && SameEntry(one, both, Lock(who)) && both.now == one.now
  {
  }

  lemma RecordBothKeeps(cfg: Config, kv: Store, uname: string, ip: string, who: string, lockAfter: int, fs: seq<Time>)
    requires who == cfg.ipKey(uname, ip) || who == cfg.userKey(uname)
    requires lockAfter > 0 && LoginWithin(cfg, uname, ip, who, lockAfter)
    requires Explains(kv, who, lockAfter, LOCK_FOR, fs) && !LoginLocked(kv, who)
    ensures Explains(RecordBoth(cfg, kv, uname, ip), who, lockAfter, LOCK_FOR, fs + [kv.now])
  {
    var ipKey, userKey, fs' := cfg.ipKey(uname, ip), cfg.userKey(uname), fs + [kv.now];
    var small := if who == ipKey then IP_LOCK_AFTER else USER_LOCK_AFTER;
    var one, both := RecordLoginFailure(kv, who, small, LOCK_FOR), RecordBoth(cfg, kv, uname, ip);
    assert Kv.ExpireTtl(LOCK_FOR) == LOCK_FOR;
    RecordKeeps(kv, who, small, lockAfter, LOCK_FOR, fs);
    if ipKey == userKey {
      AgainKeeps(one, who, USER_LOCK_AFTER, lockAfter, LOCK_FOR, fs');
    } else {
      RecordBothApart(cfg, kv, uname, ip, who, small);
      SameKeysStayExplained(one, both, who, lockAfter, fs');
    }
  }

  lemma ConcludeKeepsExplained(cfg: Config, w: World, w': World, op: Op, uname: string, v: Verdict, who: string,
      lockAfter: int, fs: seq<Time>)
    requires op.LoginOp? && w' == Conclude(cfg, w, op.uid, uname, op.ip, v, op.auth.requireChange, op.rnd).0
    requires lockAfter > 0 && LoginWithin(cfg, uname, op.ip, who, lockAfter)
        && Explains(w.kv, who, lockAfter, LOCK_FOR, fs)
    requires v.Failure? ==> !LoginLocked(w.kv, cfg.ipKey(uname, op.ip)) && !LoginLocked(w.kv, cfg.userKey(uname))
    ensures var touched := who == cfg.ipKey(uname, op.ip) || who == cfg.userKey(uname);
      Explains(w'.kv, who, lockAfter, LOCK_FOR,
        if touched && v.Failure? then fs + [w.kv.now] else if touched && v.Accept? then [] else fs)
  {
    var ipKey, userKey := cfg.ipKey(uname, op.ip), cfg.userKey(uname);
    if v.Reject? {
    } else if who != ipKey && who != userKey {
      OthersUntouched(cfg, w, w', op, uname, v, who);
      SameKeysStayExplained(w.kv, w'.kv, who, lockAfter, fs);
    } else if v.Failure? {
      RecordBothKeeps(cfg, w.kv, uname, op.ip, who, lockAfter, fs);
    } else {
      ResetBothErases(cfg, w, w', op, uname, v, who);
    }
  }

  lemma OthersUntouched(cfg: Config, w: World, w': World, op: Op, uname: string, v: Verdict, who: string)
    requires op.LoginOp? && w' == Conclude(cfg, w, op.uid, uname, op.ip, v, op.auth.requireChange, op.rnd).0
    requires who != cfg.ipKey(uname, op.ip) && who != cfg.userKey(uname)
    ensures SameEntry(w.kv, w'.kv, Fail(who)) && SameEntry(w.kv, w'.kv, Lock(who)) && w'.kv.now == w.kv.now
  {
  }

  lemma ResetBothErases(cfg: Config, w: World, w': World, op: Op, uname: string, v: Verdict, who: string)
    requires op.LoginOp? && w' == Conclude(cfg, w, op.uid, uname, op.ip, v, op.auth.requireChange, op.rnd).0
        && v.Accept?
    requires who == cfg.ipKey(uname, op.ip) || who == cfg.userKey(uname)
    ensures Fail(who) !in w'.kv.entries
  {
  }

  /** In every reachable state the stored counter and lock explain the failures recorded so far. */
  lemma {:induction false} AlwaysExplained(cfg: Config, t: Trace, who: string, lockAfter: int, n: nat)
    requires IsRun(cfg, t) && n <= |t.ops| && lockAfter > 0 && Within(cfg, t.ops, who, lockAfter)
    ensures Explains(t.ws[n].kv, who, lockAfter, LOCK_FOR, Failures(cfg, t, who, n))
  {
    if n > 0 {
      AlwaysExplained(cfg, t, who, lockAfter, n - 1);
      assert StepAt(cfg, t, n - 1);
      StepKeepsExplained(cfg, t.ws[n - 1], t.ops[n - 1], t.ws[n], t.rs[n - 1], who, lockAfter,
          Failures(cfg, t, who, n - 1));
    }
  }

  lemma StepKeepsExplained(cfg: Config, w: World, op: Op, w': World, r: Reply, who: string, lockAfter: int,
      fs: seq<Time>)
    requires (w', r) == Step(cfg, w, op) && lockAfter > 0
    requires op.LoginOp? ==> LoginWithin(cfg, ToLower(op.username), op.ip, who, lockAfter)
    requires Explains(w.kv, who, lockAfter, LOCK_FOR, fs)
    ensures Explains(w'.kv, who, lockAfter, LOCK_FOR,
      if Records(cfg, w, op, who) then fs + [w.kv.now] else if Resets(cfg, w, op, who) then [] else fs)
  {
    if op.LoginOp? {
      LoginConcludes(cfg, w, op, w', r);
      ConcludeKeepsExplained(cfg, w, w', op, ToLower(op.username), VerdictOn(cfg, w, op), who, lockAfter, fs);
    } else {
      StepFrame(cfg, w, op, w', r);
      SameKeysStayExplained(w.kv, w'.kv, who, lockAfter, fs);
    }
  }

  lemma LoginConcludes(cfg: Config, w: World, op: Op, w': World, r: Reply)
    requires op.LoginOp? && (w', r) == Step(cfg, w, op)
    ensures var uname, v := ToLower(op.username), VerdictOn(cfg, w, op);
      w' == Conclude(cfg, w, op.uid, uname, op.ip, v, op.auth.requireChange, op.rnd).0
    ensures VerdictOn(cfg, w, op).Failure? ==>
      !LoginLocked(w.kv, cfg.ipKey(ToLower(op.username), op.ip))
          && !LoginLocked(w.kv, cfg.userKey(ToLower(op.username)))
  {
  }

  lemma {:induction false} FailuresGrow(cfg: Config, t: Trace, who: string, a: nat, b: nat)
    requires Shape(t) && a <= b <= |t.ops|
    requires forall i :: a <= i < b ==> !Resets(cfg, t.ws[i], t.ops[i], who)
    ensures |Failures(cfg, t, who, b)| == |Failures(cfg, t, who, a)| + Recorded(cfg, t, who, a, b)
    ensures forall k :: |Failures(cfg, t, who, a)| <= k < |Failures(cfg, t, who, b)| ==>
      exists i :: a <= i < b && Failures(cfg, t, who, b)[k] == t.ws[i].kv.now
    decreases b
  {
    if a < b {
      FailuresGrow(cfg, t, who, a, b - 1);
      var f, g := Failures(cfg, t, who, b - 1), Failures(cfg, t, who, b);
      forall k | |Failures(cfg, t, who, a)| <= k < |g| ensures exists i :: a <= i < b && g[k] == t.ws[i].kv.now {
        if k < |f| {
          assert g[k] == f[k];
          var i :| a <= i < b - 1 && f[k] == t.ws[i].kv.now;
        } else {
          assert g[k] == t.ws[b - 1].kv.now;
        }
      }
    }
  }

  /**
   The lockout bound: while a key is not reset, no stretch of steps that fits in a half-open interval
   of the lock's length records more than Bound(lockAfter) failures under it.
   */
  lemma LockoutBound(cfg: Config, t: Trace, who: string, lockAfter: int, a: nat, b: nat, start: Time)
    requires IsRun(cfg, t) && a <= b <= |t.ops| && lockAfter > 0 && Within(cfg, t.ops, who, lockAfter)
    requires forall i :: a <= i < b ==> start <= t.ws[i].kv.now < start + LOCK_FOR
    requires forall i :: a <= i < b ==> !Resets(cfg, t.ws[i], t.ops[i], who)
    ensures Recorded(cfg, t, who, a, b) <= Bound(lockAfter)
  {
    AlwaysExplained(cfg, t, who, lockAfter, b);
    FailuresGrow(cfg, t, who, a, b);
    var fs, k := Failures(cfg, t, who, b), Bound(lockAfter);
    if |fs| > k {
      assert fs[|fs| - 1 - k] + LOCK_FOR <= fs[|fs| - 1];
    }
  }

  // ---- the keys in use ----

  function IpKey(uname: string, ip: string): string { uname + "|" + ip }

  function UserKey(uname: string): string { "user|" + uname }

  /** Folding the user name of a user key folds the key. */
  lemma UserKeyFolds(v: string)
    ensures ToLower(UserKey(v)) == UserKey(ToLower(v))
  {
    var k := UserKey(v);
    assert ToLower(k)[..5] == "user|" && ToLower(k)[5..] == ToLower(v);
  }

  lemma FoldingTwice(s: string)
    ensures ToLower(ToLower(s)) == ToLower(s)
  {
  }

  /** Some login reaches this per-source key as a user key; user names are folded before they become one. */
  predicate Shared(uname: string, ip: string)
  {
    !OrdinaryName(uname) && ToLower(IpKey(uname, ip)) == IpKey(uname, ip)
  }

  /**
   A per-source key is also the key of some user who can log in exactly when the user name is "user" or
   starts with "user|" and the whole key is in lower case.
   */
  lemma FamiliesMeetIff(uname: string, ip: string)
    ensures (exists u :: UserKey(ToLower(u)) == IpKey(uname, ip)) <==> Shared(uname, ip)
  {
    var k := IpKey(uname, ip);
    if Shared(uname, ip) {
      var v := SharedWith(uname, ip);
      assert UserKey(ToLower(v)) == k;
    }
    forall u | UserKey(ToLower(u)) == k ensures Shared(uname, ip) {
      FamiliesMeetOnly(uname, ip, ToLower(u));
      UserKeyFolds(u);
      FoldingTwice(UserKey(u));
    }
  }

  /** The user whose key a shared per-source key is. */
  lemma SharedWith(uname: string, ip: string) returns (v: string)
    requires Shared(uname, ip)
    ensures UserKey(v) == IpKey(uname, ip) && ToLower(v) == v
  {
    var k := IpKey(uname, ip);
    v := k[5..];
    assert k[..5] == "user|" by {
      if uname != "user" { assert uname[..5] == "user|" && k[..5] == uname[..5]; }
    }
    assert k == UserKey(v);
    UserKeyFolds(v);
    assert UserKey(ToLower(v))[5..] == ToLower(v) && UserKey(v)[5..] == v;
  }

  lemma FamiliesMeetOnly(uname: string, ip: string, v: string)
    requires UserKey(v) == IpKey(uname, ip)
    ensures uname == "user" || "user|" <= uname
  {
    var k := UserKey(v);
    assert k[|uname|] == '|' && k[..5] == "user|" && k[..|uname|] == uname;
    assert |uname| >= 4 by { assert k[0] == 'u' && k[1] == 's' && k[2] == 'e' && k[3] == 'r'; }
    if |uname| == 4 { assert uname == k[..5][..4]; } else { assert uname[..5] == k[..5]; }
  }

  ghost predicate UsesRealKeys(cfg: Config)
  {
    (forall u, ip :: cfg.ipKey(u, ip) == IpKey(u, ip)) && (forall u :: cfg.userKey(u) == UserKey(u))
  }

  predicate OrdinaryName(uname: string) { uname != "user" && !("user|" <= uname) }

  /** The steps a to b - 1 fit in fifteen minutes from `start` and do not reset `who`. */
  ghost predicate Quarter(cfg: Config, t: Trace, who: string, a: nat, b: nat, start: Time)
    requires Shape(t) && a <= b <= |t.ops|
  {
    forall i :: a <= i < b ==> start <= t.ws[i].kv.now < start + 15 * Kv.MINUTE && !Resets(cfg, t.ws[i], t.ops[i], who)
  }

  /**
   With the keys in use, whatever names others log in with: within any 15 minutes without a successful
   login of its own, at most 8 failures are recorded for a user name at an address whose key is not shared.
   */
  lemma FailuresPerSource(cfg: Config, t: Trace, uname: string, ip: string, a: nat, b: nat, start: Time)
    requires IsRun(cfg, t) && a <= b <= |t.ops| && UsesRealKeys(cfg) && !Shared(uname, ip)
    requires Quarter(cfg, t, IpKey(uname, ip), a, b, start)
    ensures Recorded(cfg, t, IpKey(uname, ip), a, b) <= 8
  {
    FamiliesMeetIff(uname, ip);
    assert Within(cfg, t.ops, IpKey(uname, ip), IP_LOCK_AFTER);
    LockoutBound(cfg, t, IpKey(uname, ip), IP_LOCK_AFTER, a, b, start);
  }

  /**
   And whatever the key, of either family or of both at once, and whatever names and addresses occur in
   the run: at most 38 failed logins count under it within any 15 minutes without a reset.
   */
  lemma FailuresPerKey(cfg: Config, t: Trace, who: string, a: nat, b: nat, start: Time)
    requires IsRun(cfg, t) && a <= b <= |t.ops| && Quarter(cfg, t, who, a, b, start)
    ensures Recorded(cfg, t, who, a, b) <= 38
  {
    assert Within(cfg, t.ops, who, USER_LOCK_AFTER);
    LockoutBound(cfg, t, who, USER_LOCK_AFTER, a, b, start);
  }
}
