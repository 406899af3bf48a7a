/**
 Which limit applies to a request and which limiter bucket it is counted in: the tier
 given by authentication, the two-pass rule lookup, and the bucket key.
 */
module Policy {
  import opened Prelude

  datatype Limit = Limit(algorithm: string, requests: int, window: int)

  datatype Rule = Rule(route: string, limit: Limit)

  type Config = map<string, seq<Rule>>

  // ---- Rule lookup -----------------------------------------------------------------------

  predicate Wildcard(route: string) {
    route == "/*" || route == "*"
  }

  function ExactRule(rules: seq<Rule>, route: string): Option<Limit> {
    if rules == [] then None
    else if rules[0].route == route then Some(rules[0].limit)
    else ExactRule(rules[1..], route)
  }

  function WildcardRule(rules: seq<Rule>): Option<Limit> {
    if rules == [] then None
    else if Wildcard(rules[0].route) then Some(rules[0].limit)
    else WildcardRule(rules[1..])
  }

  function GetLimit(cfg: Config, tier: string, route: string): Option<Limit> {
    if tier !in cfg then None
    else
      match ExactRule(cfg[tier], route)
      case Some(limit) => Some(limit)
      case None => WildcardRule(cfg[tier])
  }

  ghost predicate FirstExact(rules: seq<Rule>, route: string, i: int) {
    0 <= i < |rules| && rules[i].route == route && forall j :: 0 <= j < i ==> rules[j].route != route
  }

  ghost predicate FirstWildcard(rules: seq<Rule>, i: int) {
    && 0 <= i < |rules| && (rules[i].route == "/*" || rules[i].route == "*")
    && forall j :: 0 <= j < i ==> rules[j].route != "/*" && rules[j].route != "*"
  }

  /** The lookup is decided by the first exact rule, wherever wildcards stand, else by the first wildcard. */
  lemma GetLimitIsFirstMatch(cfg: Config, tier: string, route: string, limit: Limit)
    ensures GetLimit(cfg, tier, route) == Some(limit) <==>
              && tier in cfg
              && (|| (exists i :: FirstExact(cfg[tier], route, i) && cfg[tier][i].limit == limit)
                  || ((forall rule <- cfg[tier] :: rule.route != route)
                      && exists i :: FirstWildcard(cfg[tier], i) && cfg[tier][i].limit == limit))
    ensures GetLimit(cfg, tier, route) == None <==>
              tier !in cfg || forall rule <- cfg[tier] :: rule.route != route && rule.route != "/*" && rule.route != "*"
  {
    if tier in cfg {
      ExactIsFirst(cfg[tier], route);
      WildcardIsFirst(cfg[tier]);
      forall i
        ensures FirstOpen(cfg[tier], i) <==> FirstWildcard(cfg[tier], i)
      {
        FirstOpenMeans(cfg[tier], i);
      }
    }
  }

  lemma {:induction false} ExactIsFirst(rules: seq<Rule>, route: string)
    ensures ExactRule(rules, route).None? <==> forall rule <- rules :: rule.route != route
    ensures ExactRule(rules, route).Some? ==>
              exists i :: FirstExact(rules, route, i) && rules[i].limit == ExactRule(rules, route).value
    ensures forall i, j :: FirstExact(rules, route, i) && FirstExact(rules, route, j) ==> i == j
  {
    if rules != [] {
      ExactIsFirst(rules[1..], route);
      if rules[0].route == route {
        assert FirstExact(rules, route, 0);
      } else if ExactRule(rules, route).Some? {
        var i :| FirstExact(rules[1..], route, i) && rules[1..][i].limit == ExactRule(rules[1..], route).value;
        assert FirstExact(rules, route, i + 1);
      }
      assert forall rule <- rules :: rule == rules[0] || rule in rules[1..];
    }
  }

  ghost predicate FirstOpen(rules: seq<Rule>, i: int) {
    0 <= i < |rules| && Wildcard(rules[i].route) && forall j :: 0 <= j < i ==> !Wildcard(rules[j].route)
  }

  lemma FirstOpenMeans(rules: seq<Rule>, i: int)
    ensures FirstOpen(rules, i) <==> FirstWildcard(rules, i)
  {
  }

  lemma {:induction false} WildcardIsFirst(rules: seq<Rule>)
    ensures WildcardRule(rules).None? <==> forall rule <- rules :: !Wildcard(rule.route)
    ensures WildcardRule(rules).Some? ==>
              exists i :: FirstOpen(rules, i) && rules[i].limit == WildcardRule(rules).value
    ensures forall i, j :: FirstOpen(rules, i) && FirstOpen(rules, j) ==> i == j
  {
    if rules != [] {
      WildcardIsFirst(rules[1..]);
      if Wildcard(rules[0].route) {
        assert FirstOpen(rules, 0);
      } else if WildcardRule(rules).Some? {
        var i :| FirstOpen(rules[1..], i) && rules[1..][i].limit == WildcardRule(rules[1..]).value;
        assert FirstOpen(rules, i + 1);
      }
      assert forall rule <- rules :: rule == rules[0] || rule in rules[1..];
    }
  }

  // ---- Buckets ---------------------------------------------------------------------------

  datatype Request = Request(path: string, apiKey: string)

  function TierOf(apiKey: string): string {
    if apiKey == "ent-key" then "Enterprise" else if apiKey == "pro-key" then "Pro" else "Free"
  }

  /** The tier authentication leaves in the request; the metrics path passes without one. */
  function Tier(r: Request): string {
    if r.path == "/metrics" then "" else TierOf(r.apiKey)
  }

  /** The requests that authentication lets through. */
  predicate Authenticated(r: Request) {
    r.path == "/metrics" || r.apiKey != ""
  }

  /** Off the metrics path the tier goes by the API key; on it there is none. */
  lemma TierGoesByKey(r: Request)
    ensures r.path != "/metrics" ==>
              && (Tier(r) == "Enterprise" <==> r.apiKey == "ent-key")
              && (Tier(r) == "Pro" <==> r.apiKey == "pro-key")
              && (Tier(r) == "Free" <==> r.apiKey != "ent-key" && r.apiKey != "pro-key")
    ensures r.path == "/metrics" ==> Tier(r) == ""
  {
    assert "Free"[0] != "Pro"[0] && "Free"[0] != "Enterprise"[0] && "Pro"[0] != "Enterprise"[0];
  }

  /** The limit comes from the tier's rules: the first exact one, else the first wildcard. */
  ghost predicate DecidedBy(cfg: Config, tier: string, route: string, limit: Limit) {
    && tier in cfg
    && (|| (exists i :: FirstExact(cfg[tier], route, i) && cfg[tier][i].limit == limit)
        || ((forall rule <- cfg[tier] :: rule.route != route)
            && exists i :: FirstWildcard(cfg[tier], i) && cfg[tier][i].limit == limit))
  }

  /**
   The limit a request is held to, under every configuration: off the metrics path it is decided
   by the Enterprise rules for "ent-key", by the Pro rules for "pro-key" and by the Free rules for
   every other key; on it by the rules of the tier without a name.
   */
  lemma LimitGoesByKey(cfg: Config, r: Request, limit: Limit)
    ensures GetLimit(cfg, Tier(r), r.path) == Some(limit) <==>
              || (r.path == "/metrics" && DecidedBy(cfg, "", r.path, limit))
              || (r.path != "/metrics" && r.apiKey == "ent-key" && DecidedBy(cfg, "Enterprise", r.path, limit))
              || (r.path != "/metrics" && r.apiKey == "pro-key" && DecidedBy(cfg, "Pro", r.path, limit))
              || (r.path != "/metrics" && r.apiKey != "ent-key" && r.apiKey != "pro-key" && DecidedBy(cfg, "Free", r.path, limit))
  {
    TierGoesByKey(r);
    GetLimitIsFirstMatch(cfg, Tier(r), r.path, limit);
    assert "ent-key"[0] != "pro-key"[0];
  }

  function Tail(r: Request): string {
    r.path + ":" + r.apiKey
  }

  function Bucket(r: Request): string {
    "rate_limit:" + (Tier(r) + ":" + Tail(r))
  }

  /** The key of a bucket, in a concrete case. */
  lemma BucketOfARequest()
    ensures Bucket(Request("/api", "ent-key")) == "rate_limit:Enterprise:/api:ent-key"
  {
    assert |"/api"| == 4 && |"/metrics"| == 8;
  }

  /** Two strings split at their first colon are equal only part by part. */
  lemma {:induction false} FirstColonSplits(a: string, x: string, b: string, y: string)
    requires ':' !in a && ':' !in b
    requires a + ":" + x == b + ":" + y
    ensures a == b && x == y
  {
    var s := a + ":" + x;
    assert s[|a|] == ':' && s[|b|] == ':';
    assert forall i :: 0 <= i < |a| ==> s[i] == a[i];
    assert forall i :: 0 <= i < |b| ==> s[i] == b[i];
    assert a == s[..|a|] && b == s[..|b|];
    assert x == s[|a| + 1..] && y == s[|b| + 1..];
  }

  lemma TierHasNoColon(r: Request)
    ensures ':' !in Tier(r)
  {
  }

  lemma ColonKeyIsFree(apiKey: string)
    requires ':' in apiKey
    ensures TierOf(apiKey) == "Free"
  {
    assert ':' !in "ent-key" && ':' !in "pro-key";
  }

  lemma BucketParts(q: Request, r: Request)
    ensures Bucket(q) == Bucket(r) <==> Tier(q) == Tier(r) && Tail(q) == Tail(r)
  {
    var n := |"rate_limit:"|;
    assert Tier(q) + ":" + Tail(q) == Bucket(q)[n..];
    assert Tier(r) + ":" + Tail(r) == Bucket(r)[n..];
    if Bucket(q) == Bucket(r) {
      TierHasNoColon(q);
      TierHasNoColon(r);
      FirstColonSplits(Tier(q), Tail(q), Tier(r), Tail(r));
    }
  }

  /**
   For paths without a colon the bucket determines tier, path and key, so requests that
   share a bucket are held to the same limit.
   */
  lemma OneBucketOneLimit(cfg: Config, q: Request, r: Request)
    requires ':' !in q.path && ':' !in r.path && Bucket(q) == Bucket(r)
    ensures q == r
    ensures GetLimit(cfg, Tier(q), q.path) == GetLimit(cfg, Tier(r), r.path)
  {
    BucketParts(q, r);
    FirstColonSplits(q.path, q.apiKey, r.path, r.apiKey);
  }

  /** With a colon in a path two requests can share a bucket under different limits. */
  lemma ColonPathsCanCollide(low: Limit, high: Limit)
    ensures var cfg: Config := map["Free" := [Rule("/a", low), Rule("/a:b", high)]];
            var q, r := Request("/a", "b:c"), Request("/a:b", "c");
            && Bucket(q) == Bucket(r)
            && GetLimit(cfg, Tier(q), q.path) == Some(low)
            && GetLimit(cfg, Tier(r), r.path) == Some(high)
  {
    var q, r := Request("/a", "b:c"), Request("/a:b", "c");
    assert Tail(q) == "/a:b:c" == Tail(r);
    assert |"/a"| == 2 && |"/a:b"| == 4 && |"/metrics"| == 8;
    assert |"b:c"| == 3 && |"c"| == 1 && |"ent-key"| == 7 && |"pro-key"| == 7;
    assert Tier(q) == "Free" == Tier(r);
    var rules := [Rule("/a", low), Rule("/a:b", high)];
    assert rules[1..] == [Rule("/a:b", high)];
    assert ExactRule(rules, "/a") == Some(low);
    assert ExactRule(rules, "/a:b") == ExactRule(rules[1..], "/a:b") == Some(high);
  }

  /** A Free request whose path or key can be cut at a colon into another Free request. */
  ghost predicate Ambiguous(r: Request) {
    && Tier(r) == "Free"
    && (|| (exists i :: 0 <= i < |r.path| && r.path[i] == ':' && r.path[..i] != "/metrics")
        || (exists i :: 0 <= i < |r.apiKey| && r.apiKey[i] == ':' && r.apiKey[i + 1..] != "" && TierOf(r.apiKey[i + 1..]) == "Free"))
  }

  /** A request has its bucket to itself if and only if it is not ambiguous. */
  lemma BucketIsPrivateIff(r: Request)
    requires r.path == "/metrics" || r.apiKey != ""
    ensures (forall q: Request :: (q.path == "/metrics" || q.apiKey != "") && Bucket(q) == Bucket(r) ==> q == r) <==> !Ambiguous(r)
  {
    if Ambiguous(r) {
      AmbiguousIsShared(r);
    } else {
      forall q | Authenticated(q) && Bucket(q) == Bucket(r)
        ensures q == r
      {
        if q != r {
          SharedIsAmbiguous(q, r);
          assert false;
        }
      }
    }
  }

  /** The requests are held to the same limit under this configuration. */
  predicate SameLimit(cfg: Config, q: Request, r: Request) {
    GetLimit(cfg, Tier(q), q.path) == GetLimit(cfg, Tier(r), r.path)
  }

  /**
   All requests in a request's bucket are held to its limit, under every configuration, if and
   only if the request is not ambiguous.
   */
  lemma BucketHasOneLimitIff(r: Request)
    requires r.path == "/metrics" || r.apiKey != ""
    ensures (forall cfg, q: Request :: (q.path == "/metrics" || q.apiKey != "") && Bucket(q) == Bucket(r) ==> SameLimit(cfg, q, r)) <==> !Ambiguous(r)
  {
    if Ambiguous(r) {
      AmbiguousIsShared(r);
      var q :| Authenticated(q) && Bucket(q) == Bucket(r) && q != r;
      SharedCanDiffer(q, r);
    } else {
      BucketIsPrivateIff(r);
    }
  }

  lemma SharedCanDiffer(q: Request, r: Request)
    requires Bucket(q) == Bucket(r) && q != r
    ensures exists cfg :: !SameLimit(cfg, q, r)
  {
    BucketParts(q, r);
    if q.path == r.path {
      EqualLengthPaths(q, r);
      assert false;
    }
    var low, high := Limit("", 1, 1), Limit("", 2, 1);
    var rules := [Rule(q.path, low), Rule(r.path, high)];
    var cfg := map[Tier(r) := rules];
    assert rules[1..] == [Rule(r.path, high)];
    assert ExactRule(rules, q.path) == Some(low);
    assert ExactRule(rules, r.path) == ExactRule(rules[1..], r.path) == Some(high);
    assert !SameLimit(cfg, q, r);
  }

  lemma CutInPath(r: Request, i: nat)
    requires Tier(r) == "Free" && i < |r.path| && r.path[i] == ':' && r.path[..i] != "/metrics"
    ensures exists q :: Authenticated(q) && Bucket(q) == Bucket(r) && q != r
  {
    var q := Request(r.path[..i], r.path[i + 1..] + ":" + r.apiKey);
    assert q.apiKey[|r.path| - i - 1] == ':';
    ColonKeyIsFree(q.apiKey);
    assert Tail(q) == Tail(r);
    BucketParts(q, r);
    assert q.path != r.path;
  }

  lemma CutInKey(r: Request, i: nat)
    requires Tier(r) == "Free" && i < |r.apiKey| && r.apiKey[i] == ':'
    requires r.apiKey[i + 1..] != "" && TierOf(r.apiKey[i + 1..]) == "Free"
    ensures exists q :: Authenticated(q) && Bucket(q) == Bucket(r) && q != r
  {
    var q := Request(r.path + ":" + r.apiKey[..i], r.apiKey[i + 1..]);
    assert q.path[|r.path|] == ':';
    assert ':' !in "/metrics";
    assert Tail(q) == Tail(r);
    BucketParts(q, r);
    assert |q.path| != |r.path|;
  }

  lemma AmbiguousIsShared(r: Request)
    requires Ambiguous(r)
    ensures exists q :: Authenticated(q) && Bucket(q) == Bucket(r) && q != r
  {
    if i :| 0 <= i < |r.path| && r.path[i] == ':' && r.path[..i] != "/metrics" {
      CutInPath(r, i);
    } else {
      var i :| 0 <= i < |r.apiKey| && r.apiKey[i] == ':' && r.apiKey[i + 1..] != "" && TierOf(r.apiKey[i + 1..]) == "Free";
      CutInKey(r, i);
    }
  }

  lemma EqualLengthPaths(q: Request, r: Request)
    requires Tail(q) == Tail(r) && |q.path| == |r.path|
    ensures q == r
  {
    assert q.path == Tail(q)[..|q.path|] && r.path == Tail(r)[..|r.path|];
    assert q.apiKey == Tail(q)[|q.path| + 1..] && r.apiKey == Tail(r)[|r.path| + 1..];
  }

  /** Equal tails with paths of different length: the longer path continues with a colon. */
  lemma ShorterPathCuts(q: Request, r: Request)
    requires Tail(q) == Tail(r) && |q.path| < |r.path|
    ensures r.path[|q.path|] == ':' && r.path[..|q.path|] == q.path
    ensures var i := |r.path| - |q.path| - 1;
            i < |q.apiKey| && q.apiKey[i] == ':' && q.apiKey[i + 1..] == r.apiKey
  {
    var s := Tail(q);
    assert s[|q.path|] == ':' && s[|r.path|] == ':';
    assert r.path == s[..|r.path|] && q.path == s[..|q.path|];
    assert q.apiKey == s[|q.path| + 1..] && r.apiKey == s[|r.path| + 1..];
  }

  lemma SharedIsAmbiguous(q: Request, r: Request)
    requires Authenticated(q) && Authenticated(r) && Bucket(q) == Bucket(r) && q != r
    ensures Ambiguous(r)
  {
    BucketParts(q, r);
    TiersOtherThanFree(q, r);
    if |q.path| == |r.path| {
      EqualLengthPaths(q, r);
      assert false;
    } else if |q.path| < |r.path| {
      ShorterPathCuts(q, r);
    } else {
      ShorterPathCuts(r, q);
    }
  }

  /** Outside the Free tier the tier fixes the path or the key, and so the other. */
  lemma TiersOtherThanFree(q: Request, r: Request)
    requires Tier(q) == Tier(r) && Tail(q) == Tail(r) && q != r
    ensures Tier(r) == "Free"
  {
    if |q.path| == |r.path| {
      EqualLengthPaths(q, r);
      assert false;
    }
    assert |q.apiKey| + |q.path| == |r.apiKey| + |r.path|;
    assert "Free" != "Pro" && "Free" != "Enterprise" && "Pro" != "Enterprise";
  }
}
