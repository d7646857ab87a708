/** Token claims as decoded JSON. */
module Claims {
  datatype Json = Str(s: string) | Num(n: int) | Bool(b: bool) | List(items: seq<Json>) | Obj(fields: map<string, Json>)

  type Claims = map<string, Json>

  /** A claim's string value, or the empty string when it is absent or of another type. */
  function ClaimString(c: Claims, name: string): string
  {
    if name in c && c[name].Str? then c[name].s else ""
  }
}

/** Subjects, requests and the in-process decision point (internal/authz/authz.go and claims.go). */
module Authz {
  import opened Text
  import TextLaws
  import opened Claims

  datatype Subject = Subject(id: string, customerId: string, roles: seq<string>)
  datatype Resource = Resource(kind: string, id: string, owner: string)
  datatype Request = Request(subject: Subject, action: string, resource: Resource)
  datatype Decision = Decision(allow: bool, reason: string)
  datatype Scope = Scope(all: bool, customerIds: seq<string>)

  const CLIENTS: string := "idp:clients"
  const CREATE: string := "create"
  const READ: string := "read"
  const UPDATE: string := "update"
  const DELETE: string := "delete"
  const ROTATE_SECRET: string := "rotate_secret"

  /** The non-empty strings of a list claim, in order. */
  function StringItems(items: seq<Json>): seq<string>
  {
    if items == [] then []
    else
      var last := items[|items| - 1];
      StringItems(items[..|items| - 1]) + (if last.Str? && last.s != "" then [last.s] else [])
  }

  function StringSlice(v: Option<Json>): seq<string>
  {
    match v
    case Some(Str(s)) => if s == "" then [] else [s]
    case Some(List(items)) => StringItems(items)
    case _ => []
  }

  function SubjectFromClaims(c: Claims): Subject
  {
    Subject(ClaimString(c, "sub"), ClaimString(c, "customer_id"),
            StringSlice(if "roles" in c then Some(c["roles"]) else None))
  }

  method CollectStrings(items: seq<Json>) returns (out: seq<string>)
    ensures out == StringItems(items)
  {
    out := [];
    for i := 0 to |items|
      invariant out == StringItems(items[..i])
    {
      assert items[..i + 1][..i] == items[..i];
      if items[i].Str? && items[i].s != "" {
        out := out + [items[i].s];
      }
    }
    assert items[..|items|] == items;
  }

  /** A claim as a list of strings: a single string counts as a list of one. */
  method CoerceStrings(v: Option<Json>) returns (out: seq<string>)
    ensures out == StringSlice(v)
    ensures forall s :: s in out ==>
        s != "" && v.Some? && (v.value == Str(s) || (v.value.List? && Str(s) in v.value.items))
  {
    if v.None? { return []; }
    match v.value
    case Str(s) => out := if s == "" then [] else [s];
    case List(items) => out := CollectStrings(items); StringItemsCome(items);
    case _ => out := [];
  }

  lemma {:induction false} StringItemsCome(items: seq<Json>)
    ensures forall s :: s in StringItems(items) ==> s != "" && Str(s) in items
  {
    if items != [] {
      var rest, last := items[..|items| - 1], items[|items| - 1];
      StringItemsCome(rest);
      assert items == rest + [last];
    }
  }

  predicate HasAnyRole(roles: seq<string>, want: seq<string>)
  {
    exists i, j :: 0 <= i < |roles| && 0 <= j < |want| && EqualFold(roles[i], want[j])
  }

  method SearchRoles(roles: seq<string>, want: seq<string>) returns (found: bool)
    ensures found == HasAnyRole(roles, want)
  {
    for i := 0 to |roles|
      invariant forall x, y :: 0 <= x < i && 0 <= y < |want| ==> !EqualFold(roles[x], want[y])
    {
      for j := 0 to |want|
        invariant forall y :: 0 <= y < j ==> !EqualFold(roles[i], want[y])
      {
        if EqualFold(roles[i], want[j]) { return true; }
      }
    }
    found := false;
  }

  // ---- the claims decision point ----

  function Decide(adminRoles: seq<string>, req: Request): Decision
  {
    var sub, res := req.subject, req.resource;
    if HasAnyRole(sub.roles, adminRoles) then Decision(true, "admin_role")
    else if sub.customerId == "" then Decision(false, "no_customer_id")
    else if res.id == "" then
      if res.owner == "" || res.owner == sub.customerId then Decision(true, "own_tenant")
      else Decision(false, "not_owner")
    else if res.owner != "" && res.owner == sub.customerId then Decision(true, "owner")
    else Decision(false, "not_owner")
  }

  function ListScope(adminRoles: seq<string>, sub: Subject): Scope
  {
    if HasAnyRole(sub.roles, adminRoles) then Scope(true, [])
    else if sub.customerId == "" then Scope(false, [])
    else Scope(false, [sub.customerId])
  }

  /** Allowed exactly for an administrator, for the owner's own customer, or to create for oneself or for nobody. */
  lemma DecideIff(adminRoles: seq<string>, req: Request)
    ensures Decide(adminRoles, req).allow <==>
      || HasAnyRole(req.subject.roles, adminRoles)
      || (&& req.subject.customerId != ""
          && (req.resource.owner == req.subject.customerId || (req.resource.id == "" && req.resource.owner == "")))
    ensures Decide(adminRoles, req).reason == "admin_role" <==> HasAnyRole(req.subject.roles, adminRoles)
    ensures Decide(adminRoles, req).reason == "no_customer_id" <==>
      !HasAnyRole(req.subject.roles, adminRoles) && req.subject.customerId == ""
  {
  }

  /** Every role counts and case does not; no role is no administrator. */
  lemma RolesIgnoreCase(roles: seq<string>, want: seq<string>, i: nat, w: string)
    requires i < |roles| && w in want && ToLower(roles[i]) == ToLower(w)
    ensures HasAnyRole(roles, want)
  {
    var j :| 0 <= j < |want| && want[j] == w;
    FoldedEqual(roles[i], w);
  }

  lemma {:induction false} FoldedEqual(a: string, b: string)
    requires ToLower(a) == ToLower(b)
    ensures EqualFold(a, b)
  {
    assert |a| == |b|;
    forall i | 0 <= i < |a| ensures FoldChar(a[i]) == FoldChar(b[i]) {
      assert ToLower(a)[i] == ToLower(b)[i];
    }
  }

  /**
   On ASCII names a subject is an administrator exactly when, in lower case, one of its roles is one
   of the wanted.
   */
  lemma RolesIff(roles: seq<string>, want: seq<string>)
    requires forall r, i :: (r in roles || r in want) && 0 <= i < |r| ==> r[i] as int < 128
    ensures HasAnyRole(roles, want) <==>
        exists i, j :: 0 <= i < |roles| && 0 <= j < |want| && ToLower(roles[i]) == ToLower(want[j])
  {
    forall i, j | 0 <= i < |roles| && 0 <= j < |want|
      ensures EqualFold(roles[i], want[j]) <==> ToLower(roles[i]) == ToLower(want[j])
    {
      assert roles[i] in roles && want[j] in want;
      TextLaws.FoldIsLower(roles[i], want[j]);
    }
  }

  /** The subject is read from the three claims that name it, each only if it has the right type. */
  lemma SubjectIsRead(c: Claims)
    ensures var s := SubjectFromClaims(c);
      && (s.id != "" ==> "sub" in c && c["sub"] == Str(s.id))
          && (forall x :: "sub" in c && c["sub"] == Str(x) ==> s.id == x)
      && (s.customerId != "" ==> "customer_id" in c && c["customer_id"] == Str(s.customerId))
      && (forall x :: "customer_id" in c && c["customer_id"] == Str(x) ==> s.customerId == x)
      && (forall r :: r in s.roles <==>
            r != "" && "roles" in c && (c["roles"] == Str(r) || (c["roles"].List? && Str(r) in c["roles"].items)))
  {
    if "roles" in c && c["roles"].List? { StringItemsAll(c["roles"].items); }
  }

  lemma {:induction false} StringItemsAll(items: seq<Json>)
    ensures forall s :: s in StringItems(items) <==> s != "" && Str(s) in items
  {
    if items != [] {
      StringItemsAll(items[..|items| - 1]);
      assert items == items[..|items| - 1] + [items[|items| - 1]];
    }
  }
}
