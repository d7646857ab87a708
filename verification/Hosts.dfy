/** Which clients count as first party: a host-name suffix test that refines matching of domain labels. */
module Hosts {
  import opened Text

  function Labels(host: string): seq<string> { Split(host, '.') }

  predicate SuffixOf(tail: seq<string>, s: seq<string>)
  {
    |tail| <= |s| && s[|s| - |tail|..] == tail
  }

  /** The string test of the source. */
  predicate HostMatches(host: string, domain: string)
  {
    host == domain || HasSuffix(host, "." + domain)
  }

  function NormalHost(host: string): string { ToLower(TrimSuffixChar(host, '.')) }

  function NormalDomain(domain: string): string { ToLower(TrimSuffixChar(TrimSpace(domain), '.')) }

  /** Some configured, non-blank domain owns the host, label by label. */
  predicate TrustedLabels(host: string, domains: seq<string>)
  {
    exists d :: d in domains && NormalDomain(d) != "" && SuffixOf(Labels(NormalDomain(d)), Labels(NormalHost(host)))
  }

  method TrustedHost(host: string, domains: seq<string>) returns (trusted: bool)
    ensures trusted == TrustedLabels(host, domains)
  {
    var h := NormalHost(host);
    for i := 0 to |domains|
      invariant forall j :: 0 <= j < i ==>
        !(NormalDomain(domains[j]) != "" && SuffixOf(Labels(NormalDomain(domains[j])), Labels(h)))
    {
      var domain := NormalDomain(domains[i]);
      SuffixTestIsLabelMatch(h, domain);
      if domain == "" { continue; }
      if HostMatches(h, domain) {
        assert domains[i] in domains;
        return true;
      }
    }
    trusted := false;
  }

  /** Some redirect or post-logout URI of the client parses to a trusted host. */
  predicate TrustedClient(uris: seq<string>, logoutUris: seq<string>, hostOf: string -> Option<string>,
      domains: seq<string>)
  {
    exists u :: u in uris + logoutUris && hostOf(u).Some? && TrustedLabels(hostOf(u).value, domains)
  }

  method TrustedFirstParty(uris: seq<string>, logoutUris: seq<string>, hostOf: string -> Option<string>,
      domains: seq<string>)
    returns (trusted: bool)
    ensures trusted == TrustedClient(uris, logoutUris, hostOf, domains)
  {
    var all := uris + logoutUris;
    for i := 0 to |all|
      invariant forall j :: 0 <= j < i ==> !(hostOf(all[j]).Some? && TrustedLabels(hostOf(all[j]).value, domains))
    {
      var host := hostOf(all[i]);
      if host.None? { continue; }
      var t := TrustedHost(host.value, domains);
      if t {
        assert all[i] in all;
        return true;
      }
    }
    trusted := false;
  }

  /** The case of a host does not matter. */
  lemma TrustIgnoresCase(host: string, other: string, domains: seq<string>)
    requires ToLower(host) == ToLower(other)
    ensures TrustedLabels(host, domains) == TrustedLabels(other, domains)
  {
    SameNormalHost(host, other);
  }

  /** Nor does one dot at its end. */
  lemma TrustIgnoresDot(host: string, domains: seq<string>)
    requires !HasSuffix(host, ".")
    ensures TrustedLabels(host + ".", domains) == TrustedLabels(host, domains)
  {
    var dotted := host + ".";
    assert dotted[..|dotted| - 1] == host;
    assert NormalHost(dotted) == NormalHost(host);
  }

  /** Nor, in a configured domain, do case and one dot at its end. */
  lemma DomainIgnoresCaseAndDot(host: string, domain: string, other: string)
    requires SpaceFree(domain) && SpaceFree(other) && ToLower(domain) == ToLower(other)
    ensures TrustedLabels(host, [domain]) == TrustedLabels(host, [other])
    ensures !HasSuffix(domain, ".") ==> TrustedLabels(host, [domain + "."]) == TrustedLabels(host, [domain])
  {
    TrimSpaceFree(domain);
    TrimSpaceFree(other);
    SameNormalHost(domain, other);
    SameDomainSameTrust(host, domain, other);
    if !HasSuffix(domain, ".") {
      DottedDomain(domain);
      SameDomainSameTrust(host, domain + ".", domain);
    }
  }

  lemma DottedDomain(domain: string)
    requires SpaceFree(domain) && !HasSuffix(domain, ".")
    ensures NormalDomain(domain + ".") == NormalDomain(domain)
  {
    var dotted := domain + ".";
    assert SpaceFree(dotted) && dotted[..|dotted| - 1] == domain;
    TrimSpaceFree(dotted);
    TrimSpaceFree(domain);
    assert TrimSuffixChar(dotted, '.') == domain;
    if domain != "" { assert domain[|domain| - 1..] == [domain[|domain| - 1]]; }
  }

  lemma SameDomainSameTrust(host: string, domain: string, other: string)
    requires NormalDomain(domain) == NormalDomain(other)
    ensures TrustedLabels(host, [domain]) == TrustedLabels(host, [other])
  {
    var n, labels := NormalDomain(domain), Labels(NormalHost(host));
    assert TrustedLabels(host, [domain]) <==> n != "" && SuffixOf(Labels(n), labels) by { assert domain in [domain]; }
    assert TrustedLabels(host, [other]) <==> n != "" && SuffixOf(Labels(n), labels) by { assert other in [other]; }
  }

  /** A blank domain trusts nobody. */
  lemma BlankTrustsNobody(host: string)
    ensures !TrustedLabels(host, ["", ".", " "])
  {
    assert NormalDomain("") == "" && NormalDomain(".") == "" && NormalDomain(" ") == "";
  }

  lemma SameNormalHost(host: string, other: string)
    requires ToLower(host) == ToLower(other)
    ensures NormalHost(host) == NormalHost(other)
  {
    var h, o := TrimSuffixChar(host, '.'), TrimSuffixChar(other, '.');
    assert |host| == |other|;
    assert forall i :: 0 <= i < |host| ==>
        LowerChar(host[i]) == ToLower(host)[i] && LowerChar(other[i]) == ToLower(other)[i];
    if |host| > 0 {
      var n := |host| - 1;
      assert LowerChar(host[n]) == LowerChar(other[n]);
      assert host[n] == '.' <==> other[n] == '.';
    }
    assert |h| == |o| && forall i :: 0 <= i < |h| ==> LowerChar(h[i]) == LowerChar(o[i]);
    assert ToLower(h) == ToLower(o);
  }

  /** One trusted host among all URIs of either kind is enough, and needed. */
  lemma TrustedClientIff(uris: seq<string>, logoutUris: seq<string>, hostOf: string -> Option<string>,
      domains: seq<string>)
    ensures TrustedClient(uris, logoutUris, hostOf, domains) <==>
      || (exists i :: 0 <= i < |uris| && hostOf(uris[i]).Some? && TrustedLabels(hostOf(uris[i]).value, domains))
      || (exists i :: 0 <= i < |logoutUris| && hostOf(logoutUris[i]).Some?
                      && TrustedLabels(hostOf(logoutUris[i]).value, domains))
  {
    var all := uris + logoutUris;
    if TrustedClient(uris, logoutUris, hostOf, domains) {
      var u :| u in all && hostOf(u).Some? && TrustedLabels(hostOf(u).value, domains);
      var i :| 0 <= i < |all| && all[i] == u;
      if i < |uris| { assert uris[i] == u; } else { assert logoutUris[i - |uris|] == u; }
    }
    forall i | 0 <= i < |uris| ensures uris[i] in all { assert all[i] == uris[i]; }
    forall i | 0 <= i < |logoutUris| ensures logoutUris[i] in all { assert all[|uris| + i] == logoutUris[i]; }
  }

  lemma SuffixGivesLabels(host: string, domain: string)
    requires HasSuffix(host, "." + domain)
    ensures SuffixOf(Labels(domain), Labels(host))
  {
    var n := |host| - |domain| - 1;
    var front := host[..n];
    assert host[n..] == "." + domain;
    assert host == front + ['.'] + domain;
    SplitConcat(front, domain, '.');
  }

  lemma LabelsGiveSuffix(host: string, domain: string)
    requires SuffixOf(Labels(domain), Labels(host)) && host != domain
    ensures HasSuffix(host, "." + domain)
  {
    JoinSplit(host, '.');
    JoinSplit(domain, '.');
    var front := Labels(host)[..|Labels(host)| - |Labels(domain)|];
    assert Labels(host) == front + Labels(domain);
    if front != [] {
      JoinConcat(front, Labels(domain), '.');
      assert host == Join(front, '.') + ("." + domain);
    }
  }

  /** For every host and domain, the string test succeeds exactly when the domain's labels end the host's. */
  lemma SuffixTestIsLabelMatch(host: string, domain: string)
    ensures HostMatches(host, domain) <==> SuffixOf(Labels(domain), Labels(host))
  {
    if HasSuffix(host, "." + domain) {
      SuffixGivesLabels(host, domain);
    } else if SuffixOf(Labels(domain), Labels(host)) && host != domain {
      LabelsGiveSuffix(host, domain);
    }
  }
}
