/** Routing rules (internal/router/route.go): the match caches built from a rule's sources, and
    the match test, with label-by-label suffix matching for domain rules. */
module Routing {
  import opened HostName
  import opened RouteTable

  datatype Type = TypeDefault | TypeExact | TypeDomain | TypeCidr | TypeRegex | TypeUnknown

  // The foreign parsers and matchers a rule consults: netip.ParseAddr, netip.ParsePrefix,
  // Prefix.Contains, regexp.Compile and Regexp.MatchString.
  datatype Oracles = Oracles(
    isIp: string -> bool, isPrefix: string -> bool, contains: (string, string) -> bool,
    isRegex: string -> bool, matches: (string, string) -> bool)

  datatype MatchCache = MatchCache(exact: set<string>, domain: set<string>, regexes: seq<string>, cidrs: seq<string>)

  const NO_CACHE := MatchCache({}, {}, [], [])

  datatype Route = Route(sources: seq<string>, destination: Egress, matchType: Type, cache: MatchCache)

  // --- Building the caches ----------------------------------------------------------------

  function HostSet(sources: seq<string>): set<string> {
    set s | s in sources && NormalizeHost(s) != "" :: NormalizeHost(s)
  }

  // The sources a CIDR or regex rule compiles, blank ones skipped; only CIDRs are trimmed.
  function PrefixesTo(sources: seq<string>, n: nat): seq<string>
    requires n <= |sources|
  {
    if n == 0 then []
    else PrefixesTo(sources, n - 1) + if TrimSpace(sources[n - 1]) == "" then [] else [TrimSpace(sources[n - 1])]
  }

  function PatternsTo(sources: seq<string>, n: nat): seq<string>
    requires n <= |sources|
  {
    if n == 0 then []
    else PatternsTo(sources, n - 1) + if TrimSpace(sources[n - 1]) == "" then [] else [sources[n - 1]]
  }

  function Prefixes(sources: seq<string>): seq<string> { PrefixesTo(sources, |sources|) }

  function Patterns(sources: seq<string>): seq<string> { PatternsTo(sources, |sources|) }

  predicate Compiles(o: Oracles, r: Route) {
    match r.matchType
    case TypeUnknown => false
    case TypeCidr => forall c :: c in Prefixes(r.sources) ==> o.isPrefix(c)
    case TypeRegex => forall c :: c in Patterns(r.sources) ==> o.isRegex(c)
    case _ => true
  }

  function Built(r: Route): MatchCache {
    match r.matchType
    case TypeExact => NO_CACHE.(exact := HostSet(r.sources))
    case TypeDomain => NO_CACHE.(domain := HostSet(r.sources))
    case TypeCidr => NO_CACHE.(cidrs := Prefixes(r.sources))
    case TypeRegex => NO_CACHE.(regexes := Patterns(r.sources))
    case _ => NO_CACHE
  }

  function Generated(r: Route): Route { r.(cache := Built(r)) }

  // CloneRoute
  function Cloned(r: Route): Route { r.(cache := NO_CACHE) }

  // --- Matching ------------------------------------------------------------------------------

  // Position `i` of a host name starts a label (or lies past a final dot).
  predicate LabelStart(host: string, i: int) {
    0 <= i <= |host| && (i == 0 || host[i - 1] == '.')
  }

  ghost predicate SuffixIn(domains: set<string>, host: string) {
    exists i :: LabelStart(host, i) && host[i..] in domains
  }

  ghost predicate Matches(o: Oracles, r: Route, dst: string) {
    match r.matchType
    case TypeDefault => true
    case TypeExact => NormalizeHost(dst) in r.cache.exact
    case TypeRegex => exists p :: p in r.cache.regexes && o.matches(p, dst)
    case TypeDomain =>
      var host := NormalizeHost(dst);
      host != "" && !o.isIp(host) && SuffixIn(r.cache.domain, host)
    case TypeCidr => o.isIp(dst) && exists c :: c in r.cache.cidrs && o.contains(c, dst)
    case TypeUnknown => false
  }

  predicate EndsWith(s: string, suffix: string) {
    |suffix| <= |s| && s[|s| - |suffix|..] == suffix
  }

  // The host is the domain itself or a name below it.
  predicate Under(host: string, domain: string) {
    host == domain || EndsWith(host, "." + domain)
  }

  lemma UnderIff(host: string, n: string)
    ensures Under(host, n) <==> |n| <= |host| && LabelStart(host, |host| - |n|) && host[|host| - |n|..] == n
  {
    var i := |host| - |n|;
    if i >= 1 {
      assert host[i - 1..] == [host[i - 1]] + host[i..];
      assert ("." + n)[1..] == n;
    }
  }

  lemma SuffixInIff(domains: set<string>, host: string)
    ensures SuffixIn(domains, host) <==> exists n :: n in domains && Under(host, n)
  {
    if i :| LabelStart(host, i) && host[i..] in domains {
      UnderIff(host, host[i..]);
    }
    forall n | n in domains && Under(host, n) ensures SuffixIn(domains, host) {
      UnderIff(host, n);
    }
  }

  /** Domain matching: a domain rule matches a host exactly when its normal form is a name, not an
      IP literal, and equals, or ends with a dot followed by, some non-empty normalised source. */
  lemma DomainMatchIff(o: Oracles, r: Route, dst: string)
    requires r.matchType == TypeDomain
    ensures Matches(o, Generated(r), dst) <==>
            && NormalizeHost(dst) != "" && !o.isIp(NormalizeHost(dst))
            && exists s :: s in r.sources && NormalizeHost(s) != "" && Under(NormalizeHost(dst), NormalizeHost(s))
  {
    SuffixInIff(HostSet(r.sources), NormalizeHost(dst));
  }

  // What one source of a rule says about a host, by the type of the rule; blank sources say nothing.
  ghost predicate SourceMatches(o: Oracles, t: Type, source: string, dst: string) {
    match t
    case TypeExact => NormalizeHost(source) != "" && NormalizeHost(dst) == NormalizeHost(source)
    case TypeDomain =>
      var host := NormalizeHost(dst);
      host != "" && !o.isIp(host) && NormalizeHost(source) != "" && Under(host, NormalizeHost(source))
    case TypeCidr => TrimSpace(source) != "" && o.isIp(dst) && o.contains(TrimSpace(source), dst)
    case TypeRegex => TrimSpace(source) != "" && o.matches(source, dst)
    case _ => false
  }

  // And whether a source can be compiled at all.
  predicate SourceCompiles(o: Oracles, t: Type, source: string) {
    match t
    case TypeCidr => TrimSpace(source) == "" || o.isPrefix(TrimSpace(source))
    case TypeRegex => TrimSpace(source) == "" || o.isRegex(source)
    case _ => true
  }

  /** The caches change no meaning: a rule whose cache was built matches a host exactly when it is a default rule or
      one of its sources matches, and it compiles exactly when its type is known and all its sources do. */
  lemma MatchesIff(o: Oracles, r: Route, dst: string)
    ensures Matches(o, Generated(r), dst) <==>
            r.matchType == TypeDefault || exists s :: s in r.sources && SourceMatches(o, r.matchType, s, dst)
    ensures Compiles(o, r) <==>
            r.matchType != TypeUnknown && forall s :: s in r.sources ==> SourceCompiles(o, r.matchType, s)
  {
    match r.matchType
    case TypeDomain => DomainMatchIff(o, r, dst);
    case TypeCidr =>
      forall s | s in r.sources && TrimSpace(s) != "" ensures TrimSpace(s) in Prefixes(r.sources) {
        InLists(r.sources, s);
      }
      forall c | c in Prefixes(r.sources)
        ensures exists s :: s in r.sources && TrimSpace(s) != "" && TrimSpace(s) == c
      {
        PrefixFrom(r.sources, |r.sources|, c);
      }
    case TypeRegex =>
      forall s | s in r.sources && TrimSpace(s) != "" ensures s in Patterns(r.sources) { InLists(r.sources, s); }
      forall c | c in Patterns(r.sources) ensures c in r.sources && TrimSpace(c) != "" {
        PatternFrom(r.sources, |r.sources|, c);
      }
    case _ =>
  }

  lemma InLists(sources: seq<string>, s: string)
    requires s in sources && TrimSpace(s) != ""
    ensures TrimSpace(s) in Prefixes(sources) && s in Patterns(sources)
  {
    var i :| 0 <= i < |sources| && sources[i] == s;
    Listed(sources, i, |sources|);
  }

  lemma {:induction false} PrefixFrom(sources: seq<string>, n: nat, c: string)
    requires n <= |sources| && c in PrefixesTo(sources, n)
    ensures exists s :: s in sources && TrimSpace(s) != "" && TrimSpace(s) == c
  {
    if c in PrefixesTo(sources, n - 1) { PrefixFrom(sources, n - 1, c); } else { assert sources[n - 1] in sources; }
  }

  lemma {:induction false} PatternFrom(sources: seq<string>, n: nat, c: string)
    requires n <= |sources| && c in PatternsTo(sources, n)
    ensures c in sources && TrimSpace(c) != ""
  {
    if c in PatternsTo(sources, n - 1) { PatternFrom(sources, n - 1, c); }
  }

  // --- The mutable object -----------------------------------------------------------------------

  function IndexByte(s: string, c: char): (i: int)
    ensures -1 <= i < |s|
    ensures i >= 0 ==> s[i] == c && forall j :: 0 <= j < i ==> s[j] != c
    ensures i < 0 ==> c !in s
  {
    if s == "" then -1 else if s[0] == c then 0 else
      var i := IndexByte(s[1..], c);
      assert forall j :: 0 < j < |s| ==> s[j] == s[1..][j - 1];
      if i < 0 then -1 else i + 1
  }

  method BuildHostSet(sources: seq<string>) returns (hosts: set<string>)
    ensures hosts == HostSet(sources)
  {
    hosts := {};
    for i := 0 to |sources|
      invariant hosts == HostSet(sources[..i])
    {
      var host := NormalizeHost(sources[i]);
      assert sources[..i + 1] == sources[..i] + [sources[i]];
      if host == "" {
        assert HostSet(sources[..i + 1]) == HostSet(sources[..i]);
        continue;
      }
      assert HostSet(sources[..i + 1]) == HostSet(sources[..i]) + {host};
      hosts := hosts + {host};
    }
    assert sources[..|sources|] == sources;
  }

  // A source that is not blank is on both lists.
  lemma {:induction false} Listed(sources: seq<string>, i: nat, n: nat)
    requires i < n <= |sources| && TrimSpace(sources[i]) != ""
    ensures TrimSpace(sources[i]) in PrefixesTo(sources, n) && sources[i] in PatternsTo(sources, n)
  {
    if i < n - 1 {
      Listed(sources, i, n - 1);
    } else {
      assert PrefixesTo(sources, n)[|PrefixesTo(sources, n - 1)|] == TrimSpace(sources[i]);
      assert PatternsTo(sources, n)[|PatternsTo(sources, n - 1)|] == sources[i];
    }
  }

  ghost predicate AllPrefixes(o: Oracles, cidrs: seq<string>) { forall c :: c in cidrs ==> o.isPrefix(c) }
  ghost predicate AllPatterns(o: Oracles, regexes: seq<string>) { forall c :: c in regexes ==> o.isRegex(c) }

  lemma OneMore(o: Oracles, done: seq<string>, c: string)
    ensures AllPrefixes(o, done) && o.isPrefix(c) ==> AllPrefixes(o, done + [c])
    ensures AllPatterns(o, done) && o.isRegex(c) ==> AllPatterns(o, done + [c])
  {
  }

  method BuildPrefixes(o: Oracles, sources: seq<string>) returns (cidrs: seq<string>, ok: bool)
    ensures ok <==> AllPrefixes(o, Prefixes(sources))
    ensures ok ==> cidrs == Prefixes(sources)
  {
    cidrs := [];
    for i := 0 to |sources|
      invariant cidrs == PrefixesTo(sources, i) && AllPrefixes(o, cidrs)
    {
      var cidr := TrimSpace(sources[i]);
      if cidr == "" {
        continue;
      }
      if !o.isPrefix(cidr) {
        Listed(sources, i, |sources|);
        return cidrs, false;
      }
      OneMore(o, cidrs, cidr);
      cidrs := cidrs + [cidr];
    }
    return cidrs, true;
  }

  method BuildPatterns(o: Oracles, sources: seq<string>) returns (regexes: seq<string>, ok: bool)
    ensures ok <==> AllPatterns(o, Patterns(sources))
    ensures ok ==> regexes == Patterns(sources)
  {
    regexes := [];
    for i := 0 to |sources|
      invariant regexes == PatternsTo(sources, i) && AllPatterns(o, regexes)
    {
      var regex := sources[i];
      if TrimSpace(regex) == "" {
        continue;
      }
      if !o.isRegex(regex) {
        Listed(sources, i, |sources|);
        return regexes, false;
      }
      OneMore(o, regexes, regex);
      regexes := regexes + [regex];
    }
    return regexes, true;
  }

  lemma NoMoreLabels(host: string, at: nat)
    requires at <= |host| && '.' !in host[at..]
    ensures forall i :: LabelStart(host, i) ==> i <= at
  {
    assert forall j | at <= j < |host| :: host[j] in host[at..];
  }

  lemma NextLabel(host: string, at: nat, dot: nat)
    requires at + dot < |host| && host[at + dot] == '.' && '.' !in host[at..at + dot]
    ensures LabelStart(host, at + dot + 1)
    ensures forall i :: LabelStart(host, i) && i < at + dot + 1 ==> i <= at
  {
    assert forall j | at <= j < at + dot :: host[j] in host[at..at + dot];
  }

  // The label-stripping loop: it visits exactly the suffixes that start a label.
  method MatchSuffixes(domains: set<string>, host: string) returns (found: bool)
    ensures found <==> SuffixIn(domains, host)
  {
    var candidate := host;
    ghost var at := 0;
    while true
      invariant LabelStart(host, at) && candidate == host[at..]
      invariant forall i :: LabelStart(host, i) && i < at ==> host[i..] !in domains
      decreases |candidate|
    {
      if candidate in domains {
        return true;
      }
      var dot := IndexByte(candidate, '.');
      if dot < 0 {
        NoMoreLabels(host, at);
        return false;
      }
      assert '.' !in host[at..at + dot] by { assert host[at..at + dot] == candidate[..dot]; }
      NextLabel(host, at, dot);
      candidate := candidate[dot + 1..];
      at := at + dot + 1;
    }
  }

  class RouteRule {
    const sources: seq<string>
    const destination: Egress
    const matchType: Type
    var cache: MatchCache

    constructor (sources: seq<string>, destination: Egress, matchType: Type)
      ensures Value() == Route(sources, destination, matchType, NO_CACHE)
    {
      this.sources, this.destination, this.matchType := sources, destination, matchType;
      this.cache := NO_CACHE;
    }

    ghost function Value(): Route
      reads this
    {
      Route(sources, destination, matchType, cache)
    }

    method GenerateCache(o: Oracles) returns (ok: bool)
      modifies this
      ensures ok == Compiles(o, old(Value()))
      ensures ok ==> Value() == Generated(old(Value()))
    {
      cache := NO_CACHE;
      match matchType {
        case TypeDefault =>
          return true;
        case TypeExact =>
          var hosts := BuildHostSet(sources);
          cache := NO_CACHE.(exact := hosts);
          return true;
        case TypeDomain =>
          var hosts := BuildHostSet(sources);
          cache := NO_CACHE.(domain := hosts);
          return true;
        case TypeCidr =>
          var cidrs, valid := BuildPrefixes(o, sources);
          cache := NO_CACHE.(cidrs := cidrs);
          return valid;
        case TypeRegex =>
          var regexes, valid := BuildPatterns(o, sources);
          cache := NO_CACHE.(regexes := regexes);
          return valid;
        case TypeUnknown =>
          return false;
      }
    }

    method Match(o: Oracles, dst: string) returns (found: bool)
      ensures found == Matches(o, Value(), dst)
    {
      match matchType {
        case TypeDefault =>
          return true;
        case TypeExact =>
          return NormalizeHost(dst) in cache.exact;
        case TypeRegex =>
          for i := 0 to |cache.regexes|
            invariant forall j :: 0 <= j < i ==> !o.matches(cache.regexes[j], dst)
          {
            if o.matches(cache.regexes[i], dst) {
              return true;
            }
          }
          return false;
        case TypeDomain =>
          var host := NormalizeHost(dst);
          if host == "" || o.isIp(host) {
            return false;
          }
          found := MatchSuffixes(cache.domain, host);
        case TypeCidr =>
          if o.isIp(dst) {
            for i := 0 to |cache.cidrs|
              invariant forall j :: 0 <= j < i ==> !o.contains(cache.cidrs[j], dst)
            {
              if o.contains(cache.cidrs[i], dst) {
                return true;
              }
            }
          }
          return false;
        case TypeUnknown =>
          return false;
      }
    }
  }
}
