/**
 The lineage of refresh tokens in the explicit engine: from a code, one live token at a time, same
 grant throughout.
 */
module RefreshLineage {
  import opened Text
  import opened Artifacts
  import opened Provider
  import opened Effects
  import opened Runs
  import opened AuthorizationSafety
  import Scopes

  /** Codes and refresh tokens carry the grant of their authorization, letter for letter. */
  ghost predicate CarriesGrant(w: World)
  {
    && (forall c :: Stored(w.kv, Code, c).Some? ==>
        c in w.grants && GrantOf(Stored(w.kv, Code, c).value) == Some(w.grants[c]))
    && (forall x :: Stored(w.kv, Refresh, x).Some? ==>
          x in w.lineage && w.lineage[x] in w.grants
              && GrantOf(Stored(w.kv, Refresh, x).value) == Some(w.grants[w.lineage[x]]))
  }

  /** At most one of an authorization's code and its refresh tokens is stored. */
  ghost predicate OneBaton(w: World)
  {
    && (forall x :: Stored(w.kv, Refresh, x).Some? && x in w.lineage ==> Stored(w.kv, Code, w.lineage[x]).None?)
    && (forall x, y | Stored(w.kv, Refresh, x).Some? && Stored(w.kv, Refresh, y).Some? && x != y ::
          x in w.lineage && y in w.lineage ==> w.lineage[x] != w.lineage[y])
  }

  ghost predicate Used(ops: seq<Op>, n: nat, id: string)
    requires n <= |ops|
  {
    exists i: nat :: i < n && Rnd(ops[i]) == Some(id)
  }

  /** Grants are canonical and belong to drawn codes. */
  ghost predicate GrantsDrawn(grants: map<string, Grant>, ops: seq<Op>, n: nat)
    requires n <= |ops|
  {
    forall c :: c in grants ==> Scopes.Canonical(grants[c].scope) && Used(ops, n, c)
  }

  /** Refresh tokens are drawn and go back to recorded grants. */
  ghost predicate LineageDrawn(lineage: map<string, string>, grants: map<string, Grant>, ops: seq<Op>, n: nat)
    requires n <= |ops|
  {
    forall x :: x in lineage ==> lineage[x] in grants && Used(ops, n, x)
  }

  ghost predicate LineageInv(w: World, ops: seq<Op>, n: nat)
    requires n <= |ops|
  {
    CarriesGrant(w) && OneBaton(w) && GrantsDrawn(w.grants, ops, n) && LineageDrawn(w.lineage, w.grants, ops, n)
  }

  lemma FreshIsUnused(ops: seq<Op>, n: nat, id: string)
    requires n < |ops| && Fresh(ops) && Rnd(ops[n]) == Some(id)
    ensures !Used(ops, n, id)
  {
  }

  lemma UsedGrows(ops: seq<Op>, n: nat)
    requires n < |ops|
    ensures forall id :: Used(ops, n, id) ==> Used(ops, n + 1, id)
    ensures Rnd(ops[n]).Some? ==> Used(ops, n + 1, Rnd(ops[n]).value)
  {
  }

  /** Adding a new code with a grant of its own keeps the invariants. */
  lemma CodeAdded(w: World, w': World, code: string, g: Grant)
    requires CarriesGrant(w) && OneBaton(w) && code !in w.grants
    requires forall x :: x in w.lineage ==> w.lineage[x] in w.grants
    requires w'.grants == w.grants[code := g] && w'.lineage == w.lineage
    requires forall x :: Stored(w'.kv, Refresh, x).Some? ==> Stored(w'.kv, Refresh, x) == Stored(w.kv, Refresh, x)
    requires forall c :: Stored(w'.kv, Code, c).Some? ==>
      Stored(w'.kv, Code, c) == Stored(w.kv, Code, c) || (c == code && GrantOf(Stored(w'.kv, Code, c).value) == Some(g))
    ensures CarriesGrant(w') && OneBaton(w')
  {
  }

  lemma FinishKeepsLineage(cfg: Config, w: World, op: Op, w': World, r: Reply)
    requires ArtEffect(cfg, w, op, w', r) && HistoryEffect(cfg, w, op, w', r) && w'.lineage == w.lineage
    requires r.Finished? && CarriesGrant(w) && OneBaton(w) && r.code !in w.grants
    requires forall x :: x in w.lineage ==> w.lineage[x] in w.grants
    ensures CarriesGrant(w') && OneBaton(w')
  {
    CodeAdded(w, w', r.code, Grant(r.client.clientId, r.sub, r.q.params.scope));
  }

  /** A token response goes back to a grant, and repeats it letter for letter. */
  lemma TokensRepeatGrant(w: World, op: Op, w': World, r: Reply)
    requires TokenEffect(w, op, w', r) && r.Tokens? && CarriesGrant(w)
    requires forall c :: c in w.grants ==> Scopes.Canonical(w.grants[c].scope)
    ensures (op.CodeOp? || op.RefreshOp?) && op.clientId in w.clients && r.client == w.clients[op.clientId]
    ensures RootOf(w, op) in w.grants && w.grants[RootOf(w, op)] == Grant(r.client.clientId, r.sub, r.scope)
    ensures Scopes.Subset(Scopes.Parse(r.scope), r.client.scopes)
  {
    Scopes.AllowedKeepsCanonical(r.client.scopes, w.grants[RootOf(w, op)].scope);
  }

  /** Passing the baton of `root` on to at most one new refresh token keeps the invariants. */
  lemma BatonPassed(w: World, w': World, root: string, next: Option<string>)
    requires CarriesGrant(w) && OneBaton(w) && root in w.grants && w'.grants == w.grants
    requires w'.lineage == if next.Some? then w.lineage[next.value := root] else w.lineage
    requires next.Some? && Stored(w'.kv, Refresh, next.value).Some? ==>
      GrantOf(Stored(w'.kv, Refresh, next.value).value) == Some(w.grants[root])
    requires forall c :: Stored(w'.kv, Code, c).Some? ==> Stored(w'.kv, Code, c) == Stored(w.kv, Code, c)
    requires forall x :: Stored(w'.kv, Refresh, x).Some? && Some(x) != next ==>
      Stored(w'.kv, Refresh, x) == Stored(w.kv, Refresh, x) && x in w.lineage && w.lineage[x] != root
    requires Stored(w'.kv, Code, root).None?
    ensures CarriesGrant(w') && OneBaton(w')
  {
  }

  /** Tokens replace the baton by at most one refresh token of the same root. */
  lemma TokensKeepLineage(cfg: Config, w: World, op: Op, w': World, r: Reply, root: string)
    requires ArtEffect(cfg, w, op, w', r) && TokenEffect(w, op, w', r) && w'.grants == w.grants
    requires r.Tokens? && CarriesGrant(w) && OneBaton(w)
    requires (op.CodeOp? || op.RefreshOp?) && root == RootOf(w, op)
    requires root in w.grants && w.grants[root] == Grant(r.client.clientId, r.sub, r.scope)
    requires r.refresh.Some? ==> r.refresh.value !in w.grants && r.refresh.value !in w.lineage
    ensures CarriesGrant(w') && OneBaton(w')
  {
    assert Stored(w'.kv, BatonName(op), BatonId(op)).None?;
    forall x | Stored(w'.kv, Refresh, x).Some? && Some(x) != r.refresh
      ensures Stored(w'.kv, Refresh, x) == Stored(w.kv, Refresh, x) && x in w.lineage && w.lineage[x] != root
    {
    }
    BatonPassed(w, w', root, r.refresh);
  }

  /** Losing batons keeps the invariants. */
  lemma BatonsDropped(w: World, w': World)
    requires CarriesGrant(w) && OneBaton(w) && w'.grants == w.grants && w'.lineage == w.lineage
    requires forall c :: Stored(w'.kv, Code, c).Some? ==> Stored(w'.kv, Code, c) == Stored(w.kv, Code, c)
    requires forall x :: Stored(w'.kv, Refresh, x).Some? ==> Stored(w'.kv, Refresh, x) == Stored(w.kv, Refresh, x)
    ensures CarriesGrant(w') && OneBaton(w')
  {
  }

  lemma OthersKeepLineage(cfg: Config, w: World, op: Op, w': World, r: Reply)
    requires ArtEffect(cfg, w, op, w', r) && w'.grants == w.grants && w'.lineage == w.lineage
    requires !r.Tokens? && !r.Finished? && CarriesGrant(w) && OneBaton(w)
    ensures CarriesGrant(w') && OneBaton(w')
  {
    BatonsDropped(w, w');
  }

  lemma GrantsGrow(grants: map<string, Grant>, c: string, g: Grant, ops: seq<Op>, n: nat)
    requires n < |ops| && GrantsDrawn(grants, ops, n)
    ensures GrantsDrawn(grants, ops, n + 1)
    ensures Scopes.Canonical(g.scope) && Rnd(ops[n]) == Some(c) ==> GrantsDrawn(grants[c := g], ops, n + 1)
  {
    UsedGrows(ops, n);
  }

  lemma LineageGrows(lineage: map<string, string>, grants: map<string, Grant>, x: string, root: string, ops: seq<Op>,
      n: nat)
    requires n < |ops| && LineageDrawn(lineage, grants, ops, n)
    ensures LineageDrawn(lineage, grants, ops, n + 1)
    ensures root in grants && Rnd(ops[n]) == Some(x) ==> LineageDrawn(lineage[x := root], grants, ops, n + 1)
  {
    UsedGrows(ops, n);
  }

  lemma StepKeepsHistories(cfg: Config, w: World, op: Op, w': World, r: Reply, ops: seq<Op>, n: nat)
    requires n < |ops| && op == ops[n] && GrantsDrawn(w.grants, ops, n) && LineageDrawn(w.lineage, w.grants, ops, n)
    requires HistoryEffect(cfg, w, op, w', r) && TokenEffect(w, op, w', r)
    requires r.Finished? ==> Rnd(op) == Some(r.code) && Scopes.Canonical(r.q.params.scope)
    requires r.Tokens? ==> (op.CodeOp? || op.RefreshOp?) && RootOf(w, op) in w.grants
    ensures GrantsDrawn(w'.grants, ops, n + 1) && LineageDrawn(w'.lineage, w'.grants, ops, n + 1)
  {
    if r.Finished? {
      GrantsGrow(w.grants, r.code, Grant(r.client.clientId, r.sub, r.q.params.scope), ops, n);
      LineageGrows(w.lineage, w.grants, "", "", ops, n);
    } else if r.Tokens? && r.refresh.Some? {
      GrantsGrow(w.grants, "", Grant("", "", ""), ops, n);
      LineageGrows(w.lineage, w.grants, r.refresh.value, RootOf(w, op), ops, n);
    } else {
      GrantsGrow(w.grants, "", Grant("", "", ""), ops, n);
      LineageGrows(w.lineage, w.grants, "", "", ops, n);
    }
  }

  lemma StepKeepsLineage(cfg: Config, w: World, op: Op, w': World, r: Reply, ops: seq<Op>, n: nat)
    requires n < |ops| && op == ops[n] && Fresh(ops) && LineageInv(w, ops, n) && Effect(cfg, w, op, w', r)
    requires r.Finished? ==> Scopes.Canonical(r.q.params.scope)
    ensures LineageInv(w', ops, n + 1)
  {
    if Rnd(op).Some? { FreshIsUnused(ops, n, Rnd(op).value); }
    if r.Finished? {
      FinishKeepsLineage(cfg, w, op, w', r);
    } else if r.Tokens? {
      TokensRepeatGrant(w, op, w', r);
      TokensKeepLineage(cfg, w, op, w', r, RootOf(w, op));
    } else {
      OthersKeepLineage(cfg, w, op, w', r);
    }
    StepKeepsHistories(cfg, w, op, w', r, ops, n);
  }

  lemma {:induction false} LineageHolds(cfg: Config, t: Trace, n: nat)
    requires IsRun(cfg, t) && n <= |t.ops|
    ensures LineageInv(t.ws[n], t.ops, n)
  {
    if n > 0 {
      LineageHolds(cfg, t, n - 1);
      At(cfg, t, n - 1);
      if t.rs[n - 1].Finished? {
        FinishedIsValidated(cfg, t, n - 1);
        var j: nat :| j < n && ValidatedAt(t, j, t.rs[n - 1].q.params);
      }
      StepKeepsLineage(cfg, t.ws[n - 1], t.ops[n - 1], t.ws[n], t.rs[n - 1], t.ops, n - 1);
    }
  }

  /** In every reachable state, at most one refresh token of an authorization is stored, and then its code is not. */
  lemma OneLiveRefreshToken(cfg: Config, t: Trace, n: nat, x: string, y: string)
    requires IsRun(cfg, t) && n <= |t.ops|
    requires Stored(t.ws[n].kv, Refresh, x).Some? && Stored(t.ws[n].kv, Refresh, y).Some?
    ensures x in t.ws[n].lineage && y in t.ws[n].lineage
    ensures t.ws[n].lineage[x] == t.ws[n].lineage[y] ==> x == y
    ensures Stored(t.ws[n].kv, Code, t.ws[n].lineage[x]).None?
  {
    LineageHolds(cfg, t, n);
  }

  lemma NewCodeIsNoGrant(cfg: Config, t: Trace, n: nat)
    requires IsRun(cfg, t) && n < |t.ops| && t.rs[n].Finished?
    ensures t.rs[n].code !in t.ws[n].grants
  {
    LineageHolds(cfg, t, n);
    At(cfg, t, n);
    FreshIsUnused(t.ops, n, t.rs[n].code);
  }

  /** Recorded grants never change. */
  lemma {:induction false} GrantsPersist(cfg: Config, t: Trace, c: string, k: nat, l: nat)
    requires IsRun(cfg, t) && k <= l <= |t.ops| && c in t.ws[k].grants
    ensures c in t.ws[l].grants && t.ws[l].grants[c] == t.ws[k].grants[c]
    decreases l
  {
    if k < l {
      GrantsPersist(cfg, t, c, k, l - 1);
      At(cfg, t, l - 1);
      if t.rs[l - 1].Finished? { NewCodeIsNoGrant(cfg, t, l - 1); }
    }
  }

  /** Step i is a token response that goes back to authorization code `root`. */
  predicate IssuesFor(t: Trace, i: nat, root: string)
    requires Shape(t) && i < |t.ops|
  {
    (t.ops[i].CodeOp? || t.ops[i].RefreshOp?) && t.rs[i].Tokens? && RootOf(t.ws[i], t.ops[i]) == root
  }

  /**
   Lineage: any two token responses that go back to the same authorization code carry the same
   client, subject and scope string, and each scope list lies within the client's registration at that moment.
   */
  lemma LineageIsConstant(cfg: Config, t: Trace, i: nat, j: nat, root: string)
    requires IsRun(cfg, t) && i <= j < |t.ops| && IssuesFor(t, i, root) && IssuesFor(t, j, root)
    ensures t.rs[i].sub == t.rs[j].sub && t.rs[i].scope == t.rs[j].scope
    ensures t.ops[i].clientId == t.ops[j].clientId && t.ops[i].clientId in t.ws[i].clients
        && t.ops[j].clientId in t.ws[j].clients
    ensures Scopes.Subset(Scopes.Parse(t.rs[i].scope), t.ws[i].clients[t.ops[i].clientId].scopes)
    ensures Scopes.Subset(Scopes.Parse(t.rs[j].scope), t.ws[j].clients[t.ops[j].clientId].scopes)
  {
    IssuanceMatchesGrant(cfg, t, i);
    IssuanceMatchesGrant(cfg, t, j);
    GrantsPersist(cfg, t, root, i, j);
  }

  lemma IssuanceMatchesGrant(cfg: Config, t: Trace, i: nat)
    requires IsRun(cfg, t) && i < |t.ops| && t.rs[i].Tokens?
    ensures t.ops[i].CodeOp? || t.ops[i].RefreshOp?
    ensures RootOf(t.ws[i], t.ops[i]) in t.ws[i].grants
    ensures t.ws[i].grants[RootOf(t.ws[i], t.ops[i])] == Grant(t.ops[i].clientId, t.rs[i].sub, t.rs[i].scope)
    ensures t.ops[i].clientId in t.ws[i].clients
    ensures Scopes.Subset(Scopes.Parse(t.rs[i].scope), t.ws[i].clients[t.ops[i].clientId].scopes)
  {
    LineageHolds(cfg, t, i);
    AlwaysKeyed(cfg, t, i);
    At(cfg, t, i);
    TokensRepeatGrant(t.ws[i], t.ops[i], t.ws[i + 1], t.rs[i]);
  }
}
