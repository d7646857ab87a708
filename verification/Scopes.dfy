/** Scope lists as they travel through strings: parsing, joining, subset tests (internal/idp/provider.go). */
module Scopes {
  import opened Text

  /** The scopes a string denotes: its fields without repetition, in order of first occurrence. */
  function Parse(value: string): seq<string> { Dedup(Fields(value)) }

  function Format(scopes: seq<string>): string { Join(scopes, ' ') }

  /** A scope string in the form the provider writes. */
  predicate Canonical(value: string) { value == Format(Parse(value)) }

  predicate Subset(requested: seq<string>, available: seq<string>)
  {
    forall s :: s in requested ==> s in available
  }

  function Allowed(clientScopes: seq<string>, requested: string, defaultAll: bool): Result<string>
  {
    if Parse(requested) == [] then Ok(if defaultAll then Format(clientScopes) else "")
    else if Subset(Parse(requested), clientScopes) then Ok(Format(Parse(requested)))
    else Err("scope not allowed")
  }

  predicate HasScope(value: string, scope: string) { scope in Parse(value) }

  function UniqueStrings(values: seq<string>): seq<string> { Dedup(NonBlank(values)) }

  /** The values that are not blank, trimmed, in order. */
  function NonBlank(values: seq<string>): seq<string>
  {
    if values == [] then []
    else
      var last := TrimSpace(values[|values| - 1]);
      NonBlank(values[..|values| - 1]) + (if last == "" then [] else [last])
  }

  /** Exactly the trimmed forms of the values that are not blank. */
  lemma {:induction false} NonBlankMeans(values: seq<string>, v: string)
    ensures v in NonBlank(values) <==> v != "" && exists x :: x in values && TrimSpace(x) == v
  {
    if values != [] {
      var rest, last := values[..|values| - 1], values[|values| - 1];
      NonBlankMeans(rest, v);
      assert values == rest + [last];
    }
  }

  // ---- the loops of the source ----

  method ParseScopes(value: string) returns (scopes: seq<string>)
    ensures scopes == Parse(value)
  {
    var fields := Fields(value);
    var seen: set<string> := {};
    scopes := [];
    for i := 0 to |fields|
      invariant scopes == Dedup(fields[..i])
      invariant seen == set s | s in scopes
    {
      var field := TrimSpace(fields[i]);
      TrimSpaceFree(fields[i]);
      assert fields[..i + 1][..i] == fields[..i];
      if field == "" { continue; }
      if field in seen { continue; }
      seen := seen + {field};
      scopes := scopes + [field];
    }
    assert fields[..|fields|] == fields;
  }

  method ScopeSubset(requested: seq<string>, available: seq<string>) returns (ok: bool)
    ensures ok == Subset(requested, available)
  {
    if |requested| == 0 { return true; }
    var known: set<string> := {};
    for i := 0 to |available|
      invariant known == set s | s in available[..i]
    {
      known := known + {available[i]};
    }
    assert available[..|available|] == available;
    for i := 0 to |requested|
      invariant forall j :: 0 <= j < i ==> requested[j] in available
    {
      if requested[i] !in known { return false; }
    }
    ok := true;
  }

  method Unique(values: seq<string>) returns (out: seq<string>)
    ensures out == UniqueStrings(values)
  {
    out := [];
    var seen: set<string> := {};
    for i := 0 to |values|
      invariant out == UniqueStrings(values[..i])
      invariant forall s :: s in seen <==> s in out
    {
      var value := TrimSpace(values[i]);
      assert values[..i + 1] == values[..i] + [values[i]];
      UniqueSnoc(values[..i], values[i]);
      if value == "" { continue; }
      if value in seen { continue; }
      seen := seen + {value};
      out := out + [value];
    }
    assert values[..|values|] == values;
  }

  lemma UniqueSnoc(values: seq<string>, v: string)
    ensures var u, t := UniqueStrings(values), TrimSpace(v);
      UniqueStrings(values + [v]) == if t == "" || t in u then u else u + [t]
  {
    var all := values + [v];
    assert all[..|all| - 1] == values;
    var n := NonBlank(values);
    if TrimSpace(v) != "" {
      assert (n + [TrimSpace(v)])[..|n|] == n;
    } else {
      assert n + [] == n;
    }
  }

  // ---- the codec ----

  /** Parsing what was formatted gives the same list, with no repetition and no blank in any scope. */
  lemma ParseFormatParse(value: string)
    ensures Parse(Format(Parse(value))) == Parse(value)
    ensures Distinct(Parse(value))
    ensures forall s :: s in Parse(value) ==> s != "" && SpaceFree(s)
  {
    FieldsJoin(Parse(value));
    DedupDistinct(Parse(value));
  }

  /**
   What Allowed grants is canonical, denotes what was asked, lies within the client's scopes and is
   granted again as is.
   */
  lemma AllowedIdempotent(clientScopes: seq<string>, requested: string)
    ensures var r := Allowed(clientScopes, requested, false);
      && (r.Ok? <==> Subset(Parse(requested), clientScopes))
      && (r.Ok? ==>
        && Canonical(r.value)
        && Parse(r.value) == Parse(requested)
        && Allowed(clientScopes, r.value, false) == r)
  {
    ParseFormatParse(requested);
  }

  /** Once canonical, a scope string is either granted letter for letter or refused. */
  lemma AllowedKeepsCanonical(clientScopes: seq<string>, scope: string)
    requires Canonical(scope)
    ensures var r := Allowed(clientScopes, scope, false);
      (r == Ok(scope) && Subset(Parse(scope), clientScopes)) || (r.Err? && !Subset(Parse(scope), clientScopes))
  {
  }

  /**
   Asking for no scope grants none, or with the default all registered ones; asking for some is not
   affected by the default.
   */
  lemma DefaultMatters(clientScopes: seq<string>, requested: string)
    ensures Parse(requested) == [] ==>
      Allowed(clientScopes, requested, true) == Ok(Format(clientScopes))
          && Allowed(clientScopes, requested, false) == Ok("")
    ensures Parse(requested) != [] ==> Allowed(clientScopes, requested, true) == Allowed(clientScopes, requested, false)
  {
  }

  /**
   The client_credentials default grants the registered scopes joined; re-parsed they stay within the
   registration exactly when every blank-separated part of a registered scope is itself registered.
   */
  lemma DefaultScopesStayRegisteredIff(clientScopes: seq<string>)
    ensures Subset(Parse(Format(clientScopes)), clientScopes) <==>
      forall s, f :: s in clientScopes && f in Fields(s) ==> f in clientScopes
  {
    FieldsOfJoin(clientScopes);
  }

  lemma {:induction false} FieldsOfJoin(ws: seq<string>)
    ensures forall f :: f in Fields(Format(ws)) <==> exists w :: w in ws && f in Fields(w)
  {
    if |ws| == 1 {
      assert ws[0] in ws;
      assert forall w :: w in ws ==> w == ws[0];
    } else if |ws| > 1 {
      var rest := Format(ws[1..]);
      FieldsOfJoin(ws[1..]);
      FieldsAtSpace(ws[0], "", rest);
      assert Format(ws) == ws[0] + " " + rest;
      forall f ensures f in Fields(Format(ws)) <==> exists w :: w in ws && f in Fields(w) {
        if f in Fields(ws[0]) {
          assert ws[0] in ws;
        } else if f in Fields(rest) {
          var w :| w in ws[1..] && f in Fields(w);
          assert w in ws;
        }
        assert forall w :: w in ws ==> w == ws[0] || w in ws[1..];
      }
    }
  }

  lemma {:induction false} FieldsAtSpace(a: string, word: string, b: string)
    requires SpaceFree(word)
    ensures FieldsFrom(a + " " + b, word) == FieldsFrom(a, word) + Fields(b)
    decreases a
  {
    var s := a + " " + b;
    if a == "" {
      assert s[1..] == b;
    } else {
      assert s[1..] == a[1..] + " " + b;
      FieldsAtSpace(a[1..], if IsSpace(a[0]) then "" else word + [a[0]], b);
    }
  }
}
