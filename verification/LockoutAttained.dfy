/** Runs of the provider that reach the lockout bounds, and with them the exact condition for the bound per source. */
module LockoutAttained {
  import opened Text
  import opened Artifacts
  import opened Provider
  import opened Effects
  import opened Runs
  import opened Lockout
  import opened LockoutRuns
  import Kv

  // ---- building runs step by step ----

  /** The id drawn at step n: any string no other step draws. */
  function Tag(n: nat): string { seq(n, _ => 'x') }

  ghost predicate Numbered(ops: seq<Op>)
  {
    forall i :: 0 <= i < |ops| && Rnd(ops[i]).Some? ==> Rnd(ops[i]) == Some(Tag(i))
  }

  lemma NumberedIsFresh(ops: seq<Op>)
    requires Numbered(ops)
    ensures Fresh(ops)
  {
    forall i, j | 0 <= i < j < |ops| && Rnd(ops[i]).Some? ensures Rnd(ops[i]) != Rnd(ops[j]) {
      assert |Tag(i)| == i && |Tag(j)| == j;
    }
  }

  function Last(t: Trace): World
    requires Shape(t)
  {
    t.ws[|t.ops|]
  }

  predicate Extends(t: Trace, t': Trace)
    requires Shape(t) && Shape(t')
  {
    |t.ops| <= |t'.ops| && t'.ws[..|t.ws|] == t.ws && t'.ops[..|t.ops|] == t.ops && t'.rs[..|t.rs|] == t.rs
  }

  /** One more step. */
  lemma Append(cfg: Config, t: Trace, op: Op) returns (t': Trace)
    requires IsRun(cfg, t) && Numbered(t.ops) && CleanOp(op) && Rnd(op) in [None, Some(Tag(|t.ops|))]
    ensures IsRun(cfg, t') && Numbered(t'.ops) && Extends(t, t') && t'.ops == t.ops + [op]
    ensures (Last(t'), t'.rs[|t.ops|]) == Step(cfg, Last(t), op)
  {
    var w', r := Step(cfg, Last(t), op).0, Step(cfg, Last(t), op).1;
    t' := Trace(t.ws + [w'], t.ops + [op], t.rs + [r]);
    NumberedIsFresh(t'.ops);
    forall i: nat | i < |t'.ops| ensures StepAt(cfg, t', i) {
      if i < |t.ops| { assert StepAt(cfg, t, i); }
    }
  }

  lemma {:induction false} RecordedInPrefix(cfg: Config, t: Trace, t': Trace, who: string, a: nat, b: nat)
    requires Shape(t) && Shape(t') && Extends(t, t') && a <= b <= |t.ops|
    ensures Recorded(cfg, t', who, a, b) == Recorded(cfg, t, who, a, b)
    decreases b
  {
    if a < b {
      RecordedInPrefix(cfg, t, t', who, a, b - 1);
      assert t'.ws[b - 1] == t'.ws[..|t.ws|][b - 1] && t'.ops[b - 1] == t'.ops[..|t.ops|][b - 1];
    }
  }

  // ---- the store under failed logins ----

  /** The key is not locked and has c failures in its current window, which ends at `until`. */
  predicate Open(kv: Store, who: string, c: nat, until: Time)
  {
    && Lock(who) !in kv.entries
    && (c == 0 ==> Fail(who) !in kv.entries || (kv.entries[Fail(who)].expiry == Some(until) && until <= kv.now))
    && (c > 0 ==> Fail(who) in kv.entries && kv.entries[Fail(who)] == Kv.Entry(Kv.Count(c), Some(until)))
    && (c > 0 ==> kv.now < until)
  }

  /** The key is not locked and its counter, if any, is at most m. */
  predicate Mild(kv: Store, who: string, m: nat)
  {
    && Lock(who) !in kv.entries
    && (Fail(who) in kv.entries ==> kv.entries[Fail(who)].value.Count? && 0 <= kv.entries[Fail(who)].value.n <= m)
  }

  lemma UnlockedIsOpen(kv: Store, who: string)
    requires Lock(who) !in kv.entries
    ensures !LoginLocked(kv, who)
  {
  }

  lemma OpenOneMore(kv: Store, who: string, lockAfter: int, c: nat, until: Time)
    requires Open(kv, who, c, until) && c + 1 < lockAfter
    ensures var next := if c == 0 then kv.now + LOCK_FOR else until;
      Open(RecordLoginFailure(kv, who, lockAfter, LOCK_FOR), who, c + 1, next)
  {
    assert Kv.ExpireTtl(LOCK_FOR) == LOCK_FOR;
  }

  lemma MildOneMore(kv: Store, who: string, lockAfter: int, m: nat)
    requires Mild(kv, who, m) && m + 1 < lockAfter
    ensures Mild(RecordLoginFailure(kv, who, lockAfter, LOCK_FOR), who, m + 1)
  {
  }

  /** Open and Mild depend on the key's own entries only. */
  lemma SameEntriesSameState(kv: Store, kv': Store, who: string)
    requires SameEntry(kv, kv', Fail(who)) && SameEntry(kv, kv', Lock(who)) && kv'.now == kv.now
    ensures forall c: nat, until :: Open(kv, who, c, until) ==> Open(kv', who, c, until)
    ensures forall m: nat :: Mild(kv, who, m) ==> Mild(kv', who, m)
  {
  }

  // ---- a failed login ----

  function FailedLogin(uid: string, v: string, ip: string, rnd: string): Op
  {
    LoginOp(uid, v, ip, AuthReply(false, "", false, None), rnd)
  }

  lemma FailedLoginRecords(cfg: Config, w: World, uid: string, v: string, ip: string, rnd: string)
    requires ToLower(v) == v && GetArtifact(w.kv, Interaction, uid).Some?
    requires Lock(cfg.ipKey(v, ip)) !in w.kv.entries && Lock(cfg.userKey(v)) !in w.kv.entries
    ensures var op := FailedLogin(uid, v, ip, rnd);
      && VerdictOn(cfg, w, op).Failure? && LoginTouches(cfg, op, cfg.ipKey(v, ip))
          && LoginTouches(cfg, op, cfg.userKey(v))
      && Step(cfg, w, op).0 == w.(kv := RecordBoth(cfg, w.kv, v, ip))
  {
    UnlockedIsOpen(w.kv, cfg.ipKey(v, ip));
    UnlockedIsOpen(w.kv, cfg.userKey(v));
  }

  /** One login's two keys are equal only for an address spelled "user". */
  lemma {:induction false} OneLoginTwoKeys(uname: string, ip: string)
    requires IpKey(uname, ip) == UserKey(uname)
    ensures ip == "user"
    decreases |uname|
  {
    FamiliesMeetOnly(uname, ip, uname);
    var k := IpKey(uname, ip);
    if uname == "user" {
      assert ip == k[5..] && UserKey(uname)[5..] == uname;
    } else {
      var rest := uname[5..];
      assert uname == "user|" + rest;
      assert k[5..] == rest + "|" + ip && UserKey(uname)[5..] == uname;
      OneLoginTwoKeys(rest, ip);
    }
  }

  // ---- the stage: a client, a live interaction, and counters that will not interfere ----

  /**
   Who is attacked: user v, from the listed addresses in turn. Aimed at the user key when the
   addresses are all different, at the one per-source key when they are all the same.
   */
  datatype Plan = Plan(v: string, ips: seq<string>, atUser: bool)

  ghost predicate ValidPlan(p: Plan)
  {
    && ToLower(p.v) == p.v && p.ips != []
    && (forall i :: 0 <= i < |p.ips| ==> IpKey(p.v, p.ips[i]) != UserKey(p.v))
    && (p.atUser ==> forall i, j :: 0 <= i < j < |p.ips| ==> p.ips[i] != p.ips[j])
    && (!p.atUser ==> |p.ips| <= 18 && forall i :: 0 <= i < |p.ips| ==> p.ips[i] == p.ips[0])
  }

  function Target(p: Plan): string
    requires p.ips != []
  {
    if p.atUser then UserKey(p.v) else IpKey(p.v, p.ips[0])
  }

  function Threshold(p: Plan): int { if p.atUser then USER_LOCK_AFTER else IP_LOCK_AFTER }

  /** The keys that count along with the target stay far from their thresholds; n logins have been made. */
  ghost predicate Calm(kv: Store, p: Plan, n: nat)
    requires p.ips != []
  {
    if p.atUser then forall i :: n <= i < |p.ips| ==> Mild(kv, IpKey(p.v, p.ips[i]), 0) else Mild(kv, UserKey(p.v), n)
  }

  const APP: Client := Client("app", ["https://app"], [], [], [])

  function Request(): Query { Query(Params("app", "https://app", "", "", "", "", "c", "S256"), "code", []) }

  ghost predicate Stage(cfg: Config, t: Trace, p: Plan, n: nat, c: nat, until: Time)
  {
    && UsesRealKeys(cfg) && ValidPlan(p) && n <= |p.ips|
    && IsRun(cfg, t) && Numbered(t.ops) && Last(t).clients == map["app" := APP]
    && Open(Last(t).kv, Target(p), c, until) && Calm(Last(t).kv, p, n)
  }

  ghost predicate Ready(t: Trace, uid: string)
  {
    Shape(t) && GetArtifact(Last(t).kv, Interaction, uid).Some?
  }

  lemma RequestIsValid()
    ensures Validate(map["app" := APP], Request()).Valid?
  {
  }

  lemma Curtain(cfg: Config, p: Plan) returns (t: Trace)
    requires UsesRealKeys(cfg) && ValidPlan(p)
    ensures Stage(cfg, t, p, 0, 0, 0) && t.ops == [] && Last(t).kv.now == 0
  {
    t := Trace([World(Kv.State(0, map[]), map["app" := APP], map[], map[], map[])], [], []);
  }

  // ---- the three things that happen on stage ----

  /** A new authorization request leaves a live interaction and no trace on counters and locks. */
  lemma Ask(cfg: Config, t: Trace, p: Plan, n: nat, c: nat, until: Time) returns (t': Trace, uid: string)
    requires Stage(cfg, t, p, n, c, until)
    ensures Stage(cfg, t', p, n, c, until) && Ready(t', uid) && Extends(t, t') && |t'.ops| == |t.ops| + 1
    ensures Last(t').kv.now == Last(t).kv.now && !t'.ops[|t.ops|].LoginOp?
  {
    uid := Tag(|t.ops|);
    var op := AuthorizeOp(Request(), None, uid);
    t' := Append(cfg, t, op);
    RequestIsValid();
    StepFrame(cfg, Last(t), op, Last(t'), t'.rs[|t.ops|]);
    AskedState(cfg, Last(t), uid, Last(t'));
    KeysKept(Last(t).kv, Last(t').kv, p, n, c, until);
  }

  lemma AskedState(cfg: Config, w: World, uid: string, w': World)
    requires Validate(w.clients, Request()).Valid? && w' == Step(cfg, w, AuthorizeOp(Request(), None, uid)).0
    ensures w'.clients == w.clients && w'.kv.now == w.kv.now && GetArtifact(w'.kv, Interaction, uid).Some?
  {
  }

  lemma KeysKept(kv: Store, kv': Store, p: Plan, n: nat, c: nat, until: Time)
    requires ValidPlan(p) && Open(kv, Target(p), c, until) && Calm(kv, p, n) && kv'.now == kv.now
    requires forall k: Key :: !k.Art? ==> SameEntry(kv, kv', k)
    ensures Open(kv', Target(p), c, until) && Calm(kv', p, n)
  {
    SameEntriesSameState(kv, kv', Target(p));
    if p.atUser {
      forall i | n <= i < |p.ips| ensures Mild(kv', IpKey(p.v, p.ips[i]), 0) {
        SameEntriesSameState(kv, kv', IpKey(p.v, p.ips[i]));
      }
    } else {
      SameEntriesSameState(kv, kv', UserKey(p.v));
    }
  }

  /** Time passes: up to the end of the window the counter stays, from then on it is spent. */
  lemma Wait(cfg: Config, t: Trace, p: Plan, n: nat, c: nat, until: Time, d: nat) returns (t': Trace)
    requires Stage(cfg, t, p, n, c, until) && c > 0
    ensures Stage(cfg, t', p, n, if Last(t).kv.now + d < until then c else 0, until)
    ensures Extends(t, t') && |t'.ops| == |t.ops| + 1 && Last(t').kv.now == Last(t).kv.now + d
        && !t'.ops[|t.ops|].LoginOp?
  {
    t' := Append(cfg, t, Tick(d));
  }

  /** The next address on the list makes one more failed attempt, and it counts. */
  lemma Attempt(cfg: Config, t: Trace, p: Plan, n: nat, c: nat, until: Time, uid: string) returns (t': Trace)
    requires Stage(cfg, t, p, n, c, until) && Ready(t, uid) && n < |p.ips| && c < Threshold(p)
    ensures IsRun(cfg, t') && Extends(t, t') && |t'.ops| == |t.ops| + 1 && Last(t').kv.now == Last(t).kv.now
    ensures Records(cfg, t'.ws[|t.ops|], t'.ops[|t.ops|], Target(p))
        && !Resets(cfg, t'.ws[|t.ops|], t'.ops[|t.ops|], Target(p))
    ensures c + 1 < Threshold(p) ==>
      Stage(cfg, t', p, n + 1, c + 1, if c == 0 then Last(t).kv.now + LOCK_FOR else until) && Ready(t', uid)
  {
    var w, op := Last(t), FailedLogin(uid, p.v, p.ips[n], Tag(|t.ops|));
    t' := Append(cfg, t, op);
    assert t'.ws[|t.ops|] == t'.ws[..|t.ws|][|t.ops|] == w;
    FailedLoginRecords(cfg, w, uid, p.v, p.ips[n], Tag(|t.ops|));
    if c + 1 < Threshold(p) {
      AttemptKeepsStage(cfg, w.kv, p, n, c, until);
      BothKeepArtifacts(cfg, w.kv, p.v, p.ips[n], Art(Interaction, uid));
    }
  }

  lemma AttemptKeepsStage(cfg: Config, kv: Store, p: Plan, n: nat, c: nat, until: Time)
    requires UsesRealKeys(cfg) && ValidPlan(p) && n < |p.ips| && c + 1 < Threshold(p)
    requires Open(kv, Target(p), c, until) && Calm(kv, p, n)
    ensures var kv' := RecordBoth(cfg, kv, p.v, p.ips[n]);
      Open(kv', Target(p), c + 1, if c == 0 then kv.now + LOCK_FOR else until) && Calm(kv', p, n + 1)
          && kv'.now == kv.now
  {
    var kv' := RecordBoth(cfg, kv, p.v, p.ips[n]);
    RecordBothApart(cfg, kv, p.v, p.ips[n], Target(p), Threshold(p));
    OpenOneMore(kv, Target(p), Threshold(p), c, until);
    SameEntriesSameState(RecordLoginFailure(kv, Target(p), Threshold(p), LOCK_FOR), kv', Target(p));
    if p.atUser {
      forall i | n + 1 <= i < |p.ips| ensures Mild(kv', IpKey(p.v, p.ips[i]), 0) {
        OtherSourceUntouched(cfg, kv, p, n, i);
        SameEntriesSameState(kv, kv', IpKey(p.v, p.ips[i]));
      }
    } else {
      RecordBothApart(cfg, kv, p.v, p.ips[n], UserKey(p.v), USER_LOCK_AFTER);
      MildOneMore(kv, UserKey(p.v), USER_LOCK_AFTER, n);
      SameEntriesSameState(RecordLoginFailure(kv, UserKey(p.v), USER_LOCK_AFTER, LOCK_FOR), kv', UserKey(p.v));
    }
  }

  lemma OtherSourceUntouched(cfg: Config, kv: Store, p: Plan, n: nat, i: nat)
    requires UsesRealKeys(cfg) && ValidPlan(p) && p.atUser && n < i < |p.ips|
    ensures var kv', who := RecordBoth(cfg, kv, p.v, p.ips[n]), IpKey(p.v, p.ips[i]);
      SameEntry(kv, kv', Fail(who)) && SameEntry(kv, kv', Lock(who)) && kv'.now == kv.now
  {
    var who, ipKey := IpKey(p.v, p.ips[i]), IpKey(p.v, p.ips[n]);
    assert who != ipKey by { assert who[|p.v| + 1..] == p.ips[i] && ipKey[|p.v| + 1..] == p.ips[n]; }
    var one := RecordLoginFailure(kv, ipKey, IP_LOCK_AFTER, LOCK_FOR);
    CountersKeepOthers(kv, ipKey, IP_LOCK_AFTER, Fail(who));
    CountersKeepOthers(kv, ipKey, IP_LOCK_AFTER, Lock(who));
    CountersKeepOthers(one, UserKey(p.v), USER_LOCK_AFTER, Fail(who));
    CountersKeepOthers(one, UserKey(p.v), USER_LOCK_AFTER, Lock(who));
  }

  // ---- bursts ----

  /** The steps from a on happen within [from, to] and do not reset the key. */
  ghost predicate Undisturbed(cfg: Config, t: Trace, who: string, a: nat, from: Time, to: Time)
    requires Shape(t) && a <= |t.ops|
  {
    forall i :: a <= i < |t.ops| ==> from <= t.ws[i].kv.now <= to && !Resets(cfg, t.ws[i], t.ops[i], who)
  }

  lemma UndisturbedGrows(cfg: Config, t: Trace, t': Trace, who: string, a: nat, from: Time, to: Time)
    requires Shape(t) && Shape(t') && Extends(t, t') && |t'.ops| == |t.ops| + 1 && a <= |t.ops|
    requires Undisturbed(cfg, t, who, a, from, to) && from <= Last(t).kv.now <= to
    requires !Resets(cfg, t'.ws[|t.ops|], t'.ops[|t.ops|], who)
    ensures Undisturbed(cfg, t', who, a, from, to)
  {
    forall i | a <= i < |t'.ops| ensures from <= t'.ws[i].kv.now <= to && !Resets(cfg, t'.ws[i], t'.ops[i], who) {
      assert t'.ws[i] == t'.ws[..|t.ws|][i];
      if i < |t.ops| { assert t'.ops[i] == t'.ops[..|t.ops|][i]; }
    }
  }

  /** What a stretch of the play from step a on has achieved. */
  ghost predicate Scored(cfg: Config, t: Trace, who: string, a: nat, score: nat, from: Time, to: Time)
  {
    Shape(t) && a <= |t.ops| && Recorded(cfg, t, who, a, |t.ops|) == score && Undisturbed(cfg, t, who, a, from, to)
  }

  /** A further step that is no login leaves the score as it is. */
  lemma IntervalScores(cfg: Config, t: Trace, t': Trace, who: string, a: nat, score: nat, from: Time, to: Time)
    requires Scored(cfg, t, who, a, score, from, to) && Shape(t') && Extends(t, t') && |t'.ops| == |t.ops| + 1
    requires from <= Last(t).kv.now <= to && !t'.ops[|t.ops|].LoginOp?
    ensures Scored(cfg, t', who, a, score, from, to)
  {
    RecordedInPrefix(cfg, t, t', who, a, |t.ops|);
    UndisturbedGrows(cfg, t, t', who, a, from, to);
  }

  /** An attempt that counts adds one to the score. */
  lemma AttemptScores(cfg: Config, t: Trace, t': Trace, who: string, a: nat, score: nat, from: Time, to: Time)
    requires Scored(cfg, t, who, a, score, from, to) && Shape(t') && Extends(t, t') && |t'.ops| == |t.ops| + 1
    requires from <= Last(t).kv.now <= to
    requires Records(cfg, t'.ws[|t.ops|], t'.ops[|t.ops|], who) && !Resets(cfg, t'.ws[|t.ops|], t'.ops[|t.ops|], who)
    ensures Scored(cfg, t', who, a, score + 1, from, to)
  {
    RecordedInPrefix(cfg, t, t', who, a, |t.ops|);
    UndisturbedGrows(cfg, t, t', who, a, from, to);
  }

  /** What a moment of the play is: the run so far, how it stands with the target, and the score since step a. */
  datatype Moment = Moment(t: Trace, n: nat, c: nat, until: Time, uid: string, score: nat)

  ghost predicate Playing(cfg: Config, p: Plan, m: Moment, a: nat, from: Time, to: Time)
  {
    && Stage(cfg, m.t, p, m.n, m.c, m.until) && Ready(m.t, m.uid)
    && Scored(cfg, m.t, Target(p), a, m.score, from, to) && from <= Last(m.t).kv.now <= to
  }

  /** The moment after one more attempt. */
  function Later(m: Moment, t: Trace): Moment
    requires Shape(m.t)
  {
    Moment(t, m.n + 1, m.c + 1, if m.c == 0 then Last(m.t).kv.now + LOCK_FOR else m.until, m.uid, m.score + 1)
  }

  lemma OneScores(cfg: Config, p: Plan, m: Moment, a: nat, from: Time, to: Time) returns (t: Trace)
    requires Playing(cfg, p, m, a, from, to) && m.n < |p.ips| && m.c < Threshold(p)
    ensures IsRun(cfg, t) && Scored(cfg, t, Target(p), a, m.score + 1, from, to) && Last(t).kv.now == Last(m.t).kv.now
    ensures m.c + 1 < Threshold(p) ==> Playing(cfg, p, Later(m, t), a, from, to)
  {
    t := Attempt(cfg, m.t, p, m.n, m.c, m.until, m.uid);
    AttemptScores(cfg, m.t, t, Target(p), a, m.score, from, to);
  }

  /** k further attempts at one moment all count, as long as they do not overfill the window. */
  lemma {:induction false} Burst(cfg: Config, p: Plan, m: Moment, k: nat, a: nat, from: Time, to: Time)
      returns (m': Moment)
    requires Playing(cfg, p, m, a, from, to) && k > 0 && m.n + k <= |p.ips| && m.c + k <= Threshold(p)
    ensures IsRun(cfg, m'.t) && Scored(cfg, m'.t, Target(p), a, m.score + k, from, to)
    ensures Last(m'.t).kv.now == Last(m.t).kv.now
    ensures m'.n == m.n + k && m'.c == m.c + k && m'.score == m.score + k
    ensures m'.until == if m.c == 0 then Last(m.t).kv.now + LOCK_FOR else m.until
    ensures m.c + k < Threshold(p) ==> Playing(cfg, p, m', a, from, to)
    decreases k
  {
    var t := OneScores(cfg, p, m, a, from, to);
    m' := Later(m, t);
    if k > 1 { m' := Burst(cfg, p, m', k - 1, a, from, to); }
  }

  /**
   The worst case on stage: one attempt opens a window, all but one of the rest come just before its
   end, and a full set just after it.
   */
  lemma Perform(cfg: Config, p: Plan) returns (t: Trace, a: nat)
    requires UsesRealKeys(cfg) && ValidPlan(p) && |p.ips| == 2 * Threshold(p) - 1
    ensures IsRun(cfg, t)
    ensures Scored(cfg, t, Target(p), a, 2 * Threshold(p) - 2, LOCK_FOR - 1, LOCK_FOR)
  {
    var t0 := Curtain(cfg, p);
    var t1, uid1 := Ask(cfg, t0, p, 0, 0, 0);
    var m := Burst(cfg, p, Moment(t1, 0, 0, 0, uid1, 0), 1, |t1.ops|, 0, 0);
    var t3 := Wait(cfg, m.t, p, 1, 1, LOCK_FOR, LOCK_FOR - 1);
    var t4, uid2 := Ask(cfg, t3, p, 1, 1, LOCK_FOR);
    a := |t4.ops|;
    t := SecondAct(cfg, p, Moment(t4, 1, 1, LOCK_FOR, uid2, 0));
  }

  lemma SecondAct(cfg: Config, p: Plan, m4: Moment) returns (t: Trace)
    requires |p.ips| == 2 * Threshold(p) - 1 && m4.n == 1 && m4.c == 1 && m4.until == LOCK_FOR && m4.score == 0
    requires Shape(m4.t) && Playing(cfg, p, m4, |m4.t.ops|, LOCK_FOR - 1, LOCK_FOR) && Last(m4.t).kv.now == LOCK_FOR - 1
    ensures IsRun(cfg, t) && Scored(cfg, t, Target(p), |m4.t.ops|, 2 * Threshold(p) - 2, LOCK_FOR - 1, LOCK_FOR)
  {
    var n, a, from, to := Threshold(p), |m4.t.ops|, LOCK_FOR - 1, LOCK_FOR;
    var m5 := Burst(cfg, p, m4, n - 2, a, from, to);
    var m7 := Interval(cfg, p, m5, a, from, to);
    var m8 := Burst(cfg, p, m7, n, a, from, to);
    t := m8.t;
  }

  /** The window ends, a new request is made, and the score stands. */
  lemma Interval(cfg: Config, p: Plan, m: Moment, a: nat, from: Time, to: Time) returns (m': Moment)
    requires Playing(cfg, p, m, a, from, to) && m.c > 0 && m.until == to == Last(m.t).kv.now + 1
    ensures Playing(cfg, p, m', a, from, to) && m' == m.(t := m'.t, c := 0, uid := m'.uid) && Last(m'.t).kv.now == to
  {
    var t6 := Wait(cfg, m.t, p, m.n, m.c, m.until, 1);
    IntervalScores(cfg, m.t, t6, Target(p), a, m.score, from, to);
    var t7, uid := Ask(cfg, t6, p, m.n, 0, m.until);
    IntervalScores(cfg, t6, t7, Target(p), a, m.score, from, to);
    m' := m.(t := t7, c := 0, uid := uid);
  }

  // ---- the bounds are attained, and when 8 holds ----

  /** The bound of a key over runs: no quarter of an hour without a reset counts more than `most` failures. */
  ghost predicate AtMost(cfg: Config, who: string, most: nat)
  {
    forall t, a: nat, b: nat, start {:trigger Quarter(cfg, t, who, a, b, start)} ::
      IsRun(cfg, t) && a <= b <= |t.ops| && Quarter(cfg, t, who, a, b, start) ==> Recorded(cfg, t, who, a, b) <= most
  }

  lemma ScoredExceeds(cfg: Config, t: Trace, who: string, a: nat, score: nat, most: nat)
    requires IsRun(cfg, t) && Scored(cfg, t, who, a, score, LOCK_FOR - 1, LOCK_FOR) && most < score
    ensures !AtMost(cfg, who, most)
  {
    assert Quarter(cfg, t, who, a, |t.ops|, LOCK_FOR - 1);
  }

  /** Pairwise different addresses. */
  function Addresses(n: nat): seq<string> { seq(n, i requires 0 <= i < n => "2001:db8::" + seq(i, _ => '1')) }

  lemma AddressesServe(v: string, n: nat)
    requires ToLower(v) == v && n > 0
    ensures ValidPlan(Plan(v, Addresses(n), true))
  {
    forall i | 0 <= i < n ensures IpKey(v, Addresses(n)[i]) != UserKey(v) {
      assert Addresses(n)[i][0] == '2';
      if IpKey(v, Addresses(n)[i]) == UserKey(v) { OneLoginTwoKeys(v, Addresses(n)[i]); }
    }
    forall i, j | 0 <= i < j < n ensures Addresses(n)[i] != Addresses(n)[j] {
      assert |Addresses(n)[i]| == 10 + i && |Addresses(n)[j]| == 10 + j;
    }
  }

  /** For every user, 38 failures under the user key within less than a quarter of an hour do occur. */
  lemma UserBoundIsAttained(cfg: Config, v: string)
    requires UsesRealKeys(cfg) && ToLower(v) == v
    ensures AtMost(cfg, UserKey(v), 38) && !AtMost(cfg, UserKey(v), 37)
  {
    forall t, a: nat, b: nat, start | IsRun(cfg, t) && a <= b <= |t.ops| && Quarter(cfg, t, UserKey(v), a, b, start)
      ensures Recorded(cfg, t, UserKey(v), a, b) <= 38
    {
      FailuresPerKey(cfg, t, UserKey(v), a, b, start);
    }
    AddressesServe(v, 39);
    var t, a := Perform(cfg, Plan(v, Addresses(39), true));
    ScoredExceeds(cfg, t, UserKey(v), a, 38, 37);
  }

  /**
   For every user and every address whose key is not shared, 8 failures from it within less than a
   quarter of an hour do occur.
   */
  lemma SourceBoundIsAttained(cfg: Config, v: string, ip: string)
    requires UsesRealKeys(cfg) && ToLower(v) == v && !Shared(v, ip)
    ensures AtMost(cfg, IpKey(v, ip), 8) && !AtMost(cfg, IpKey(v, ip), 7)
  {
    SourceBoundHolds(cfg, v, ip);
    var p := Plan(v, seq(9, _ => ip), false);
    FamiliesMeetIff(v, ip);
    assert IpKey(v, ip) != UserKey(ToLower(v));
    var t, a := Perform(cfg, p);
    ScoredExceeds(cfg, t, IpKey(v, ip), a, 8, 7);
  }

  lemma SourceBoundHolds(cfg: Config, uname: string, ip: string)
    requires UsesRealKeys(cfg) && !Shared(uname, ip)
    ensures AtMost(cfg, IpKey(uname, ip), 8)
  {
    forall t, a: nat, b: nat, start | IsRun(cfg, t) && a <= b <= |t.ops|
        && Quarter(cfg, t, IpKey(uname, ip), a, b, start)
      ensures Recorded(cfg, t, IpKey(uname, ip), a, b) <= 8
    {
      FailuresPerSource(cfg, t, uname, ip, a, b, start);
    }
  }

  /**
   Per source, exactly: in all runs at most 8 failures count under a user name and address within a
   quarter of an hour without a reset, if and only if their key is not shared with some user's key. A
   shared key takes as many as a user key, 38.
   */
  lemma SourceBoundIff(cfg: Config, uname: string, ip: string)
    requires UsesRealKeys(cfg)
    ensures AtMost(cfg, IpKey(uname, ip), 8) <==> !Shared(uname, ip)
    ensures Shared(uname, ip) ==> AtMost(cfg, IpKey(uname, ip), 38) && !AtMost(cfg, IpKey(uname, ip), 37)
  {
    if Shared(uname, ip) {
      var v := SharedWith(uname, ip);
      UserBoundIsAttained(cfg, v);
      AddressesServe(v, 39);
      var t, a := Perform(cfg, Plan(v, Addresses(39), true));
      ScoredExceeds(cfg, t, UserKey(v), a, 38, 8);
    } else {
      SourceBoundHolds(cfg, uname, ip);
    }
  }
}
