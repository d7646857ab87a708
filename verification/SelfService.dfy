/** The self-service client API (internal/handlers/self.go) over the client table, with the claims decision point. */
module SelfService {
  import opened Text
  import opened Authz
  import Scopes

  datatype Row = Row(
    id: string, clientId: string, secret: string, name: string, redirectUris: seq<string>, grantTypes: seq<string>,
    scopes: seq<string>, postLogoutUris: seq<string>, owner: Option<string>)

  /** The table in listing order: newest row first. */
  type Table = seq<Row>

  datatype ClientRequest = ClientRequest(
    name: string, redirectUris: seq<string>, redirectUrisCamel: seq<string>, grantTypes: seq<string>,
    grantTypesCamel: seq<string>, scopes: seq<string>, postLogoutUris: seq<string>, postLogoutUrisCamel: seq<string>,
    rotateSecret: bool, customerId: Option<string>, customerIdCamel: Option<string>)

  function Deref(s: Option<string>): string { if s.None? then "" else s.value }

  function OwnCustomer(sub: Subject): Option<string> { if sub.customerId == "" then None else Some(sub.customerId) }

  /** The first of the two fields that is set decides; a blank value counts as absent. */
  function OptionalString(a: Option<string>, b: Option<string>): Option<string>
  {
    var v := if a.Some? then a else b;
    if v.None? || TrimSpace(v.value) == "" then None else Some(TrimSpace(v.value))
  }

  function Normalize(a: seq<string>, b: seq<string>): Option<seq<string>>
  {
    var v := if a == [] then b else a;
    if v == [] then None else Some(Scopes.NonBlank(v))
  }

  function OrElse(v: Option<seq<string>>, was: seq<string>): seq<string> { if v.Some? then v.value else was }

  // ---- table operations ----

  function Find(t: Table, id: string): (r: Option<Row>)
    ensures r.Some? ==> r.value in t && r.value.id == id
    ensures r.None? ==> forall x :: x in t ==> x.id != id
  {
    if t == [] then None else if t[0].id == id then Some(t[0]) else Find(t[1..], id)
  }

  /** select ... where "customerId" = c order by "createdAt" desc. */
  function OwnedBy(t: Table, c: string): (r: Table)
    ensures forall x :: x in r <==> x in t && x.owner == Some(c)
  {
    if t == [] then [] else (if t[0].owner == Some(c) then [t[0]] else []) + OwnedBy(t[1..], c)
  }

  /** The update statement sets the descriptive columns and the secret; id, client id and owner stay. */
  function UpdateRow(t: Table, c: Row): Table
  {
    if t == [] then []
    else [if t[0].id == c.id then c.(clientId := t[0].clientId, owner := t[0].owner) else t[0]] + UpdateRow(t[1..], c)
  }

  function DeleteRow(t: Table, id: string): Table
  {
    if t == [] then [] else (if t[0].id == id then [] else [t[0]]) + DeleteRow(t[1..], id)
  }

  // ---- handlers ----

  datatype Action =
    | List
    | Create(req: ClientRequest, newId: string, newClientId: string, newSecret: string)
    | Show(id: string)
    | Update(id: string, update: Option<ClientRequest>, newSecret: string)
    | Rotate(id: string, newSecret: string)
    | Delete(id: string)

  datatype Call = Call(sub: Subject, action: Action)

  datatype Reply = Rows(rows: Table) | One(row: Row) | Gone | Refused(status: int)

  function MayTouch(admin: seq<string>, sub: Subject, action: string, row: Row): bool
  {
    Decide(admin, Request(sub, action, Resource(CLIENTS, row.id, Deref(row.owner)))).allow
  }

  /** loadOwnedClient: the row, if it exists and the subject may act on it. */
  function Load(admin: seq<string>, t: Table, sub: Subject, action: string, id: string): (Option<Row>, int)
  {
    var row := Find(t, id);
    if row.None? then (None, 404) else if MayTouch(admin, sub, action, row.value) then (row, 200) else (None, 403)
  }

  function ListFor(admin: seq<string>, t: Table, sub: Subject): Table
  {
    var scope := ListScope(admin, sub);
    if scope.all then t else ListAll(t, scope.customerIds)
  }

  function ListAll(t: Table, customers: seq<string>): Table
  {
    if customers == [] then [] else ListAll(t, customers[..|customers| - 1]) + OwnedBy(t, customers[|customers| - 1])
  }

  function TargetOwner(sub: Subject, req: ClientRequest): Option<string>
  {
    var owner := OptionalString(req.customerId, req.customerIdCamel);
    if owner.None? then OwnCustomer(sub) else owner
  }

  function NewRow(sub: Subject, a: Action): Row
    requires a.Create?
  {
    var req := a.req;
    Row(a.newId, a.newClientId, a.newSecret, TrimSpace(req.name),
        OrElse(Normalize(req.redirectUris, req.redirectUrisCamel), []),
        OrElse(Normalize(req.grantTypes, req.grantTypesCamel), []),
        OrElse(Normalize(req.scopes, []), []),
        OrElse(Normalize(req.postLogoutUris, req.postLogoutUrisCamel), []), TargetOwner(sub, req))
  }

  predicate BadPayload(row: Row)
  {
    row.name == "" || row.grantTypes == [] || (row.grantTypes != ["client_credentials"] && row.redirectUris == [])
  }

  function Edited(row: Row, req: ClientRequest, newSecret: string): Row
  {
    row.(name := if req.name != "" then TrimSpace(req.name) else row.name,
         redirectUris := OrElse(Normalize(req.redirectUris, req.redirectUrisCamel), row.redirectUris),
         grantTypes := OrElse(Normalize(req.grantTypes, req.grantTypesCamel), row.grantTypes),
         scopes := OrElse(Normalize(req.scopes, []), row.scopes),
         postLogoutUris := OrElse(Normalize(req.postLogoutUris, req.postLogoutUrisCamel), row.postLogoutUris),
         secret := if req.rotateSecret then newSecret else row.secret)
  }

  function Step(admin: seq<string>, t: Table, call: Call): (Table, Reply)
  {
    var sub := call.sub;
    match call.action
    case List => (t, Rows(ListFor(admin, t, sub)))
    case Create(req, newId, _, _) =>
      var row := NewRow(sub, call.action);
      if !Decide(admin, Request(sub, CREATE, Resource(CLIENTS, "", Deref(row.owner)))).allow then (t, Refused(403))
      else if BadPayload(row) then (t, Refused(400))
      else if Find(t, newId).Some? then (t, Refused(500))
      else ([row] + t, One(row))
    case Show(id) =>
      var (row, status) := Load(admin, t, sub, READ, id);
      (t, if row.None? then Refused(status) else One(row.value))
    case Update(id, update, newSecret) =>
      var (row, status) := Load(admin, t, sub, UPDATE, id);
      if row.None? then (t, Refused(status))
      else if update.None? then (t, Refused(400))
      else var edited := Edited(row.value, update.value, newSecret); (UpdateRow(t, edited), One(edited))
    case Rotate(id, newSecret) =>
      var (row, status) := Load(admin, t, sub, ROTATE_SECRET, id);
      if row.None? then (t, Refused(status))
      else var edited := row.value.(secret := newSecret); (UpdateRow(t, edited), One(edited))
    case Delete(id) =>
      var (row, status) := Load(admin, t, sub, DELETE, id);
      if row.None? then (t, Refused(status)) else (DeleteRow(t, row.value.id), Gone)
  }

  // ---- the answers, exactly ----

  /** The row a call names, in whatever position. */
  ghost predicate HasId(t: Table, id: string) { exists x :: x in t && x.id == id }

  /** Showing a row: not found or forbidden in exactly their own cases, else the row itself; nothing changes. */
  lemma ShowRepliesIff(admin: seq<string>, t: Table, sub: Subject, id: string)
    requires UniqueIds(t)
    ensures var (t', r) := Step(admin, t, Call(sub, Show(id)));
      && (r == Refused(404) <==> !HasId(t, id)) && (r.Refused? ==> t' == t)
      && (forall row :: row in t && row.id == id ==> (r == Refused(403) <==> !MayTouch(admin, sub, READ, row)))
      && (forall row :: row in t && row.id == id ==> (r == One(row) <==> MayTouch(admin, sub, READ, row)))
      && t' == t
  {
    forall row | row in t && row.id == id ensures Find(t, id) == Some(row) { RowById(t, row, id); }
  }

  /** Updating a row: not found, forbidden or a bad request, each in exactly its own case, and then nothing changes. */
  lemma UpdateRepliesIff(admin: seq<string>, t: Table, sub: Subject, id: string, update: Option<ClientRequest>,
      secret: string)
    requires UniqueIds(t)
    ensures var (t', r) := Step(admin, t, Call(sub, Update(id, update, secret)));
      && (r == Refused(404) <==> !HasId(t, id)) && (r.Refused? ==> t' == t)
      && (forall row :: row in t && row.id == id ==> (r == Refused(403) <==> !MayTouch(admin, sub, UPDATE, row)))
      && (forall row :: row in t && row.id == id ==>
            (r == Refused(400) <==> MayTouch(admin, sub, UPDATE, row) && update.None?))
  {
    forall row | row in t && row.id == id ensures Find(t, id) == Some(row) { RowById(t, row, id); }
  }

  /** Rotating a secret: not found or forbidden in exactly their own cases, and then nothing changes. */
  lemma RotateRepliesIff(admin: seq<string>, t: Table, sub: Subject, id: string, secret: string)
    requires UniqueIds(t)
    ensures var (t', r) := Step(admin, t, Call(sub, Rotate(id, secret)));
      && (r == Refused(404) <==> !HasId(t, id)) && (r.Refused? ==> t' == t)
      && (forall row :: row in t && row.id == id ==> (r == Refused(403) <==> !MayTouch(admin, sub, ROTATE_SECRET, row)))
      && (forall row :: row in t && row.id == id ==> (r.One? <==> MayTouch(admin, sub, ROTATE_SECRET, row)))
  {
    forall row | row in t && row.id == id ensures Find(t, id) == Some(row) { RowById(t, row, id); }
  }

  /** Deleting a row: not found or forbidden in exactly their own cases, and then nothing changes. */
  lemma DeleteRepliesIff(admin: seq<string>, t: Table, sub: Subject, id: string)
    requires UniqueIds(t)
    ensures var (t', r) := Step(admin, t, Call(sub, Delete(id)));
      && (r == Refused(404) <==> !HasId(t, id)) && (r.Refused? ==> t' == t)
      && (forall row :: row in t && row.id == id ==> (r == Refused(403) <==> !MayTouch(admin, sub, DELETE, row)))
      && (forall row :: row in t && row.id == id ==> (r == Gone <==> MayTouch(admin, sub, DELETE, row)))
  {
    forall row | row in t && row.id == id ensures Find(t, id) == Some(row) { RowById(t, row, id); }
  }

  /** Who may act on a row: an administrator on any, anyone else on the rows of their own, non-empty customer. */
  lemma MayTouchIff(admin: seq<string>, sub: Subject, action: string, row: Row)
    requires row.id != ""
    ensures MayTouch(admin, sub, action, row) <==>
      HasAnyRole(sub.roles, admin) || (sub.customerId != "" && row.owner == Some(sub.customerId))
  {
  }

  /** The update request sets each field it names, trimmed and without blanks, and no other; a name cannot be erased. */
  lemma EditSetsNamedFields(row: Row, req: ClientRequest, secret: string)
    ensures var edited := Edited(row, req, secret);
      && edited.id == row.id && edited.clientId == row.clientId && edited.owner == row.owner
      && edited.name == (if req.name == "" then row.name else TrimSpace(req.name))
      && edited.secret == (if req.rotateSecret then secret else row.secret)
      && edited.redirectUris == Field(req.redirectUris, req.redirectUrisCamel, row.redirectUris)
      && edited.grantTypes == Field(req.grantTypes, req.grantTypesCamel, row.grantTypes)
      && edited.scopes == Field(req.scopes, [], row.scopes)
      && edited.postLogoutUris == Field(req.postLogoutUris, req.postLogoutUrisCamel, row.postLogoutUris)
  {
  }

  /** A list field under its two spellings: the first that is given counts, and none leaves the field as it was. */
  function Field(snake: seq<string>, camel: seq<string>, was: seq<string>): seq<string>
  {
    if snake != [] then Scopes.NonBlank(snake) else if camel != [] then Scopes.NonBlank(camel) else was
  }

  /**
   An allowed rotation stores the new secret in the row it names, changes nothing else of it, and
   shows it to the caller.
   */
  lemma RotationReplacesSecret(admin: seq<string>, t: Table, sub: Subject, id: string, secret: string, row: Row)
    requires UniqueIds(t) && row in t && row.id == id && MayTouch(admin, sub, ROTATE_SECRET, row)
    ensures var (t', reply) := Step(admin, t, Call(sub, Rotate(id, secret)));
      reply == One(row.(secret := secret)) && row.(secret := secret) in t'
  {
    RowById(t, row, id);
    UpdatedRowIsIn(t, row, row.(secret := secret));
  }

  /** An allowed update stores the edited row and shows it. */
  lemma UpdateStoresEdit(admin: seq<string>, t: Table, sub: Subject, id: string, req: ClientRequest, secret: string,
      row: Row)
    requires UniqueIds(t) && row in t && row.id == id && MayTouch(admin, sub, UPDATE, row)
    ensures var (t', reply) := Step(admin, t, Call(sub, Update(id, Some(req), secret)));
      reply == One(Edited(row, req, secret)) && Edited(row, req, secret) in t'
  {
    RowById(t, row, id);
    UpdatedRowIsIn(t, row, Edited(row, req, secret));
  }

  /** An allowed delete leaves no row of that id, and all others. */
  lemma {:induction false} DeletedIsGone(t: Table, id: string, x: Row)
    ensures x in DeleteRow(t, id) <==> x in t && x.id != id
  {
    if t != [] {
      DeletedIsGone(t[1..], id, x);
      assert t == [t[0]] + t[1..];
    }
  }

  lemma {:induction false} UpdatedRowIsIn(t: Table, row: Row, edited: Row)
    requires row in t && edited.id == row.id && edited.clientId == row.clientId && edited.owner == row.owner
    ensures edited in UpdateRow(t, edited)
  {
    if t[0] == row {
      assert UpdateRow(t, edited)[0] == edited;
    } else {
      assert t == [t[0]] + t[1..];
      UpdatedRowIsIn(t[1..], row, edited);
      assert UpdateRow(t, edited)[1..] == UpdateRow(t[1..], edited);
    }
  }

  /** Whose the new client is: the customer the request names, or else the caller's own, if any. */
  function NewOwner(sub: Subject, req: ClientRequest): string
  {
    var named := if req.customerId.Some? then req.customerId.value
                 else if req.customerIdCamel.Some? then req.customerIdCamel.value else "";
    if TrimSpace(named) != "" then TrimSpace(named) else sub.customerId
  }

  /** The new row is the request's, under the new ids and secret, owned by whom the request or else the caller names. */
  lemma NewRowMeans(sub: Subject, a: Action)
    requires a.Create?
    ensures var req, row := a.req, NewRow(sub, a);
      && row.id == a.newId && row.clientId == a.newClientId && row.secret == a.newSecret
          && row.name == TrimSpace(req.name)
      && row.redirectUris == Field(req.redirectUris, req.redirectUrisCamel, [])
      && row.grantTypes == Field(req.grantTypes, req.grantTypesCamel, []) && row.scopes == Field(req.scopes, [], [])
      && row.postLogoutUris == Field(req.postLogoutUris, req.postLogoutUrisCamel, [])
      && row.owner == if NewOwner(sub, req) == "" then None else Some(NewOwner(sub, req))
  {
  }

  /** Who may create the row: an administrator for anyone, others for their own customer. */
  predicate MayCreate(admin: seq<string>, sub: Subject, row: Row)
  {
    || HasAnyRole(sub.roles, admin)
    || (sub.customerId != "" && (row.owner == Some(sub.customerId) || row.owner == None || row.owner == Some("")))
  }

  /** The row has a name, a grant type, and redirect URIs unless it uses client credentials alone. */
  predicate Complete(row: Row)
  {
    row.name != "" && row.grantTypes != [] && (row.redirectUris != [] || row.grantTypes == ["client_credentials"])
  }

  /**
   When a client is created, refused or incomplete, in terms of the row it would become; a created
   row comes first.
   */
  lemma CreateRepliesIff(admin: seq<string>, t: Table, sub: Subject, a: Action, row: Row)
    requires a.Create? && row == NewRow(sub, a)
    ensures var (t', r) := Step(admin, t, Call(sub, a));
      && (r == Refused(403) <==> !MayCreate(admin, sub, row))
      && (r == Refused(400) <==> MayCreate(admin, sub, row) && !Complete(row))
      && (r.One? <==> MayCreate(admin, sub, row) && Complete(row) && !HasId(t, a.newId))
      && (r.Refused? ==> t' == t) && (r.One? ==> t' == [row] + t && r.row == row)
  {
    CreatedFrom(admin, t, sub, row, a);
  }

  lemma CreatedFrom(admin: seq<string>, t: Table, sub: Subject, row: Row, a: Action)
    requires a.Create? && row == NewRow(sub, a)
    ensures row.id == a.newId
    ensures Step(admin, t, Call(sub, a)) ==
      if !MayCreate(admin, sub, row) then (t, Refused(403))
      else if !Complete(row) then (t, Refused(400))
      else if HasId(t, row.id) then (t, Refused(500))
      else ([row] + t, One(row))
  {
  }

  /** A caller without an admin role creates rows of their own customer only. */
  lemma CreatesOwn(admin: seq<string>, sub: Subject, a: Action)
    requires a.Create? && !HasAnyRole(sub.roles, admin)
    ensures MayCreate(admin, sub, NewRow(sub, a)) <==> sub.customerId != "" && NewOwner(sub, a.req) == sub.customerId
  {
    NewRowMeans(sub, a);
  }

  // ---- list and check agree ----

  lemma ListForTenant(admin: seq<string>, t: Table, sub: Subject)
    requires !HasAnyRole(sub.roles, admin)
    ensures ListFor(admin, t, sub) == if sub.customerId == "" then [] else OwnedBy(t, sub.customerId)
  {
    if sub.customerId != "" {
      var cs := [sub.customerId];
      assert cs[..|cs| - 1] == [];
      assert ListAll(t, cs) == ListAll(t, []) + OwnedBy(t, sub.customerId);
    }
  }

  /** An administrator's list is the whole table, and a tenant's keeps the order of the table. */
  lemma {:induction false} ListKeepsOrder(admin: seq<string>, sub: Subject, a: Table, b: Table)
    ensures HasAnyRole(sub.roles, admin) ==> ListFor(admin, a, sub) == a
    ensures ListFor(admin, a + b, sub) == ListFor(admin, a, sub) + ListFor(admin, b, sub)
  {
    if !HasAnyRole(sub.roles, admin) {
      ListForTenant(admin, a, sub);
      ListForTenant(admin, b, sub);
      ListForTenant(admin, a + b, sub);
      OwnedInOrder(a, b, sub.customerId);
    }
  }

  lemma {:induction false} OwnedInOrder(a: Table, b: Table, c: string)
    ensures OwnedBy(a + b, c) == OwnedBy(a, c) + OwnedBy(b, c)
  {
    if a == [] {
      assert a + b == b;
    } else {
      assert (a + b)[1..] == a[1..] + b;
      OwnedInOrder(a[1..], b, c);
    }
  }

  /** One row, one subject: being listed and being readable differ exactly for an unowned row with an empty id. */
  lemma ListedIffReadable(admin: seq<string>, t: Table, sub: Subject, row: Row)
    requires row in t
    ensures (row in ListFor(admin, t, sub) <==> MayTouch(admin, sub, READ, row))
       <==> !(row.id == "" && Deref(row.owner) == "" && sub.customerId != "" && !HasAnyRole(sub.roles, admin))
  {
    if !HasAnyRole(sub.roles, admin) { ListForTenant(admin, t, sub); }
  }

  // ---- tenant isolation ----

  predicate IsForeign(row: Row, tenants: set<string>) { row.owner.None? || row.owner.value !in tenants }

  /** The rows owned by nobody or by a customer outside `tenants`, in listing order. */
  function Foreign(t: Table, tenants: set<string>): Table
  {
    if t == [] then [] else (if IsForeign(t[0], tenants) then [t[0]] else []) + Foreign(t[1..], tenants)
  }

  ghost predicate UniqueIds(t: Table)
  {
    t == [] || ((forall x :: x in t[1..] ==> x.id != t[0].id) && UniqueIds(t[1..]))
  }

  /** A call without an admin role by a customer, if any, of `tenants`; new row ids are not empty. */
  predicate TenantCall(admin: seq<string>, tenants: set<string>, call: Call)
  {
    && !HasAnyRole(call.sub.roles, admin)
    && (call.sub.customerId == "" || call.sub.customerId in tenants)
    && (call.action.Create? ==> call.action.newId != "")
  }

  lemma {:induction false} UpdateKeepsForeign(t: Table, c: Row, tenants: set<string>)
    requires UniqueIds(t)
    requires forall x :: x in t && x.id == c.id ==> !IsForeign(x, tenants)
    ensures Foreign(UpdateRow(t, c), tenants) == Foreign(t, tenants)
    ensures UniqueIds(UpdateRow(t, c))
    ensures forall x :: x in UpdateRow(t, c) ==> exists y :: y in t && y.id == x.id
  {
    if t != [] {
      assert t[0] in t;
      UpdateKeepsForeign(t[1..], c, tenants);
      assert UpdateRow(t, c)[1..] == UpdateRow(t[1..], c);
      assert UpdateRow(t, c)[0].id == t[0].id;
    }
  }

  lemma {:induction false} DeleteKeepsForeign(t: Table, id: string, tenants: set<string>)
    requires UniqueIds(t)
    requires forall x :: x in t && x.id == id ==> !IsForeign(x, tenants)
    ensures Foreign(DeleteRow(t, id), tenants) == Foreign(t, tenants)
    ensures forall x :: x in DeleteRow(t, id) ==> x in t
    ensures UniqueIds(DeleteRow(t, id))
  {
    if t != [] {
      assert t[0] in t;
      var rest := DeleteRow(t[1..], id);
      DeleteKeepsForeign(t[1..], id, tenants);
      if t[0].id == id {
        assert DeleteRow(t, id) == rest;
      } else {
        assert DeleteRow(t, id)[1..] == rest && DeleteRow(t, id)[0] == t[0];
      }
    }
  }

  lemma {:induction false} RowById(t: Table, x: Row, id: string)
    requires UniqueIds(t) && x in t && x.id == id
    ensures Find(t, id) == Some(x)
  {
    if t[0] != x {
      assert t == [t[0]] + t[1..];
      RowById(t[1..], x, id);
    }
  }

  /** A tenant's call leaves every foreign row where and as it was, and keeps ids unique. */
  lemma TenantStepKeepsForeign(admin: seq<string>, t: Table, tenants: set<string>, call: Call)
    requires UniqueIds(t) && "" !in tenants
    requires forall x :: x in t ==> x.id != ""
    requires TenantCall(admin, tenants, call)
    ensures var t' := Step(admin, t, call).0;
      && Foreign(t', tenants) == Foreign(t, tenants)
      && UniqueIds(t') && (forall x :: x in t' ==> x.id != "")
  {
    var t' := Step(admin, t, call).0;
    if t' != t {
      match call.action
      case Create(_, newId, _, _) =>
        assert t' == [NewRow(call.sub, call.action)] + t && t'[1..] == t;
      case Update(id, _, _) => WriteKeepsForeign(admin, t, tenants, call, id);
      case Rotate(id, _) => WriteKeepsForeign(admin, t, tenants, call, id);
      case Delete(id) => WriteKeepsForeign(admin, t, tenants, call, id);
    }
  }

  lemma WriteKeepsForeign(admin: seq<string>, t: Table, tenants: set<string>, call: Call, id: string)
    requires UniqueIds(t) && "" !in tenants
    requires forall x :: x in t ==> x.id != ""
    requires TenantCall(admin, tenants, call)
    requires (call.action.Update? || call.action.Rotate? || call.action.Delete?) && call.action.id == id
    ensures var t' := Step(admin, t, call).0;
      && Foreign(t', tenants) == Foreign(t, tenants)
      && UniqueIds(t') && (forall x :: x in t' ==> x.id != "")
  {
    var t' := Step(admin, t, call).0;
    if t' != t {
      var row := Find(t, id).value;
      forall x | x in t && x.id == id ensures !IsForeign(x, tenants) { RowById(t, x, id); }
      if call.action.Delete? {
        DeleteKeepsForeign(t, id, tenants);
      } else {
        var edited := if call.action.Rotate? then row.(secret := call.action.newSecret)
                      else Edited(row, call.action.update.value, call.action.newSecret);
        UpdateKeepsForeign(t, edited, tenants);
        assert t' == UpdateRow(t, edited);
      }
    }
  }

  function Run(admin: seq<string>, t: Table, calls: seq<Call>): Table
    decreases |calls|
  {
    if calls == [] then t else Run(admin, Step(admin, t, calls[0]).0, calls[1..])
  }

  lemma {:induction false} OwnedIsForeign(t: Table, c: string, tenants: set<string>)
    requires c !in tenants
    ensures OwnedBy(Foreign(t, tenants), c) == OwnedBy(t, c)
  {
    if t != [] {
      OwnedIsForeign(t[1..], c, tenants);
      if IsForeign(t[0], tenants) {
        assert Foreign(t, tenants)[1..] == Foreign(t[1..], tenants);
      } else {
        assert Foreign(t, tenants) == Foreign(t[1..], tenants);
        assert OwnedBy(t, c) == OwnedBy(t[1..], c);
      }
    }
  }

  lemma {:induction false} RunKeepsForeign(admin: seq<string>, t: Table, tenants: set<string>, calls: seq<Call>)
    requires UniqueIds(t) && "" !in tenants
    requires forall x :: x in t ==> x.id != ""
    requires forall i :: 0 <= i < |calls| ==> TenantCall(admin, tenants, calls[i])
    ensures Foreign(Run(admin, t, calls), tenants) == Foreign(t, tenants)
    decreases |calls|
  {
    if calls != [] {
      TenantStepKeepsForeign(admin, t, tenants, calls[0]);
      RunKeepsForeign(admin, Step(admin, t, calls[0]).0, tenants, calls[1..]);
    }
  }

  /**
   Non-interference: whatever the tenants in `tenants` do, over any run of calls, every row owned by
   nobody or by somebody else is unchanged and in place, and every other tenant lists the same rows.
   */
  lemma TenantIsolation(admin: seq<string>, t: Table, tenants: set<string>, calls: seq<Call>, other: Subject)
    requires UniqueIds(t) && "" !in tenants
    requires forall x :: x in t ==> x.id != ""
    requires forall i :: 0 <= i < |calls| ==> TenantCall(admin, tenants, calls[i])
    requires !HasAnyRole(other.roles, admin) && other.customerId !in tenants
    ensures Foreign(Run(admin, t, calls), tenants) == Foreign(t, tenants)
    ensures ListFor(admin, Run(admin, t, calls), other) == ListFor(admin, t, other)
  {
    RunKeepsForeign(admin, t, tenants, calls);
    ListForTenant(admin, t, other);
    ListForTenant(admin, Run(admin, t, calls), other);
    OwnedIsForeign(t, other.customerId, tenants);
    OwnedIsForeign(Run(admin, t, calls), other.customerId, tenants);
  }

  /**
   No call, by anyone, changes the owner or client id of a row; a row that appears belongs to the
   caller's tenant unless an admin made it.
   */
  lemma OwnersNeverChange(admin: seq<string>, t: Table, call: Call, r: Row, r': Row)
    requires UniqueIds(t) && r' in Step(admin, t, call).0
    ensures r in t && r.id == r'.id ==> r'.owner == r.owner && r'.clientId == r.clientId
    ensures (forall x :: x in t ==> x.id != r'.id) && !HasAnyRole(call.sub.roles, admin) ==>
      call.sub.customerId != "" && r'.owner == Some(call.sub.customerId)
  {
    var t' := Step(admin, t, call).0;
    if call.action.Update? || call.action.Rotate? || call.action.Delete? {
      if t' != t {
        var row := Find(t, call.action.id).value;
        if call.action.Delete? {
          DeletedRowsOld(t, row.id, r');
          if r in t && r.id == r'.id { RowById(t, r, r.id); RowById(t, r', r.id); }
        } else {
          var edited := if call.action.Rotate? then row.(secret := call.action.newSecret)
                        else Edited(row, call.action.update.value, call.action.newSecret);
          var was := UpdatedFrom(t, edited, r');
          if r in t && r.id == r'.id { RowById(t, r, r.id); RowById(t, was, r.id); }
        }
      } else {
        if r in t && r.id == r'.id { RowById(t, r, r.id); RowById(t, r', r.id); }
      }
    } else if r in t && r.id == r'.id {
      RowById(t, r, r.id);
      if r' in t { RowById(t, r', r.id); }
    }
  }

  /** `r'` continues a row of t, with its id, client id and owner. */
  ghost predicate Continues(t: Table, r': Row)
  {
    exists r :: r in t && r.id == r'.id && r.clientId == r'.clientId && r.owner == r'.owner
  }

  /** After any run of tenants' calls, every row continues an original one or is owned by one of those tenants. */
  lemma {:induction false} RowsKeepOwnersOrAreTenants(admin: seq<string>, t: Table, tenants: set<string>,
      calls: seq<Call>, r': Row)
    requires UniqueIds(t) && "" !in tenants
    requires forall x :: x in t ==> x.id != ""
    requires forall i :: 0 <= i < |calls| ==> TenantCall(admin, tenants, calls[i])
    requires r' in Run(admin, t, calls)
    ensures Continues(t, r') || (r'.owner.Some? && r'.owner.value in tenants)
    decreases |calls|
  {
    if calls != [] {
      var t1 := Step(admin, t, calls[0]).0;
      TenantStepKeepsForeign(admin, t, tenants, calls[0]);
      RowsKeepOwnersOrAreTenants(admin, t1, tenants, calls[1..], r');
      if Continues(t1, r') {
        var r1 :| r1 in t1 && r1.id == r'.id && r1.clientId == r'.clientId && r1.owner == r'.owner;
        if r :| r in t && r.id == r1.id {
          OwnersNeverChange(admin, t, calls[0], r, r1);
        } else {
          OwnersNeverChange(admin, t, calls[0], r1, r1);
        }
      }
    }
  }

  lemma {:induction false} DeletedRowsOld(t: Table, id: string, x: Row)
    ensures x in DeleteRow(t, id) ==> x in t
  {
    if t != [] {
      DeletedRowsOld(t[1..], id, x);
      assert t == [t[0]] + t[1..];
    }
  }

  lemma {:induction false} UpdatedFrom(t: Table, c: Row, x: Row) returns (was: Row)
    requires x in UpdateRow(t, c)
    ensures was in t && was.id == x.id && was.owner == x.owner && was.clientId == x.clientId
  {
    var u := UpdateRow(t, c);
    if u[0] == x {
      was := t[0];
    } else {
      assert u == [u[0]] + UpdateRow(t[1..], c);
      was := UpdatedFrom(t[1..], c, x);
      assert t == [t[0]] + t[1..];
    }
  }
}

/** The handlers as methods on the table they change. */
module SelfServiceHandlers {
  import opened Text
  import opened Authz
  import opened SelfService

  class Handlers {
    const admin: seq<string>
    var table: Table

    constructor (adminRoles: seq<string>)
      ensures table == []
      ensures admin == if adminRoles == [] then ["idp_admin", "admin", "superadmin"] else adminRoles
    {
      admin := if adminRoles == [] then ["idp_admin", "admin", "superadmin"] else adminRoles;
      table := [];
    }

    method ListClients(sub: Subject) returns (clients: Table)
      ensures Rows(clients) == Step(admin, table, Call(sub, List)).1
    {
      var scope := ListScope(admin, sub);
      if scope.all { return table; }
      clients := [];
      for i := 0 to |scope.customerIds|
        invariant clients == ListAll(table, scope.customerIds[..i])
      {
        clients := clients + OwnedBy(table, scope.customerIds[i]);
        assert scope.customerIds[..i + 1][..i] == scope.customerIds[..i];
      }
      assert scope.customerIds[..|scope.customerIds|] == scope.customerIds;
    }

    method LoadOwned(sub: Subject, action: string, id: string) returns (row: Option<Row>, status: int)
      ensures (row, status) == Load(admin, table, sub, action, id)
    {
      var found := Find(table, id);
      if found.None? { return None, 404; }
      var dec := Decide(admin, Request(sub, action, Resource(CLIENTS, found.value.id, Deref(found.value.owner))));
      if !dec.allow { return None, 403; }
      return found, 200;
    }

    method CreateClient(sub: Subject, req: ClientRequest, newId: string, newClientId: string, newSecret: string)
        returns (reply: Reply)
      modifies this`table
      ensures (table, reply) == Step(admin, old(table), Call(sub, Create(req, newId, newClientId, newSecret)))
    {
      var owner := OptionalString(req.customerId, req.customerIdCamel);
      if owner.None? { owner := OwnCustomer(sub); }
      var dec := Decide(admin, Request(sub, CREATE, Resource(CLIENTS, "", Deref(owner))));
      if !dec.allow { return Refused(403); }
      var row := NewRow(sub, Create(req, newId, newClientId, newSecret));
      if BadPayload(row) { return Refused(400); }
      if Find(table, newId).Some? { return Refused(500); }
      table := [row] + table;
      reply := One(row);
    }

    method UpdateClient(sub: Subject, id: string, update: Option<ClientRequest>, newSecret: string)
        returns (reply: Reply)
      modifies this`table
      ensures (table, reply) == Step(admin, old(table), Call(sub, Update(id, update, newSecret)))
    {
      var row, status := LoadOwned(sub, UPDATE, id);
      if row.None? { return Refused(status); }
      if update.None? { return Refused(400); }
      var client, req := row.value, update.value;
      if req.name != "" { client := client.(name := TrimSpace(req.name)); }
      var values := Normalize(req.redirectUris, req.redirectUrisCamel);
      if values.Some? { client := client.(redirectUris := values.value); }
      values := Normalize(req.grantTypes, req.grantTypesCamel);
      if values.Some? { client := client.(grantTypes := values.value); }
      values := Normalize(req.scopes, []);
      if values.Some? { client := client.(scopes := values.value); }
      values := Normalize(req.postLogoutUris, req.postLogoutUrisCamel);
      if values.Some? { client := client.(postLogoutUris := values.value); }
      if req.rotateSecret { client := client.(secret := newSecret); }
      table := UpdateRow(table, client);
      reply := One(client);
    }

    method RotateSecret(sub: Subject, id: string, newSecret: string) returns (reply: Reply)
      modifies this`table
      ensures (table, reply) == Step(admin, old(table), Call(sub, Rotate(id, newSecret)))
    {
      var row, status := LoadOwned(sub, ROTATE_SECRET, id);
      if row.None? { return Refused(status); }
      var client := row.value.(secret := newSecret);
      table := UpdateRow(table, client);
      reply := One(client);
    }

    method DeleteClient(sub: Subject, id: string) returns (reply: Reply)
      modifies this`table
      ensures (table, reply) == Step(admin, old(table), Call(sub, Delete(id)))
    {
      var row, status := LoadOwned(sub, DELETE, id);
      if row.None? { return Refused(status); }
      table := DeleteRow(table, row.value.id);
      reply := Gone;
    }

    method ShowClient(sub: Subject, id: string) returns (reply: Reply)
      ensures (table, reply) == Step(admin, table, Call(sub, Show(id)))
    {
      var row, status := LoadOwned(sub, READ, id);
      reply := if row.None? then Refused(status) else One(row.value);
    }

    method Perform(call: Call) returns (reply: Reply)
      modifies this`table
      ensures (table, reply) == Step(admin, old(table), call)
    {
      match call.action
      case List => var rows := ListClients(call.sub); reply := Rows(rows);
      case Create(req, newId, newClientId, newSecret) =>
          reply := CreateClient(call.sub, req, newId, newClientId, newSecret);
      case Show(id) => reply := ShowClient(call.sub, id);
      case Update(id, update, newSecret) => reply := UpdateClient(call.sub, id, update, newSecret);
      case Rotate(id, newSecret) => reply := RotateSecret(call.sub, id, newSecret);
      case Delete(id) => reply := DeleteClient(call.sub, id);
    }

    /** Calls on the object, one after the other, are a run of the step function. */
    method Serve(calls: seq<Call>)
      modifies this`table
      ensures table == Run(admin, old(table), calls)
    {
      ghost var start := table;
      for i := 0 to |calls|
        invariant Run(admin, table, calls[i..]) == Run(admin, start, calls)
      {
        assert calls[i..][0] == calls[i] && calls[i..][1..] == calls[i + 1..];
        var _ := Perform(calls[i]);
      }
    }

    /** Hence tenants served by the object leave all foreign rows, and every other tenant's list, as they were. */
    method ServeTenants(tenants: set<string>, calls: seq<Call>, other: Subject) returns (before: Table, after: Table)
      requires UniqueIds(table) && "" !in tenants && (forall x :: x in table ==> x.id != "")
      requires forall i :: 0 <= i < |calls| ==> TenantCall(admin, tenants, calls[i])
      requires !HasAnyRole(other.roles, admin) && other.customerId !in tenants
      modifies this`table
      ensures Foreign(table, tenants) == Foreign(old(table), tenants) && after == before
      ensures Rows(before) == Step(admin, old(table), Call(other, List)).1
          && Rows(after) == Step(admin, table, Call(other, List)).1
    {
      before := ListClients(other);
      TenantIsolation(admin, table, tenants, calls, other);
      Serve(calls);
      after := ListClients(other);
    }
  }
}
