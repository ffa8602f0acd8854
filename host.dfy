/** How `connect` turns the host typed into the login form into the host of an
    Atlassian cloud site (app/actions/jira.js:141-144). */
module Host {

  const HttpsScheme: string := "https://"
  const HttpScheme: string := "http://"
  const CloudSuffix: string := ".atlassian.net"

  /** JavaScript's `s.startsWith(prefix)`. */
  predicate StartsWith(s: string, prefix: string)
  {
    |prefix| <= |s| && s[..|prefix|] == prefix
  }

  /** The first step: drop a leading `https://` (eight characters). What is
      left is the end of the host, exactly eight characters shorter when the
      scheme was there and the whole host otherwise. */
  function StripHttps(host: string): (rest: string)
    ensures |rest| == if StartsWith(host, HttpsScheme) then |host| - |HttpsScheme| else |host|
    ensures rest == host[|host| - |rest|..]
  {
    if StartsWith(host, HttpsScheme) then host[8..] else host
  }

  /** The second step, on what the first left: drop a leading `http://`
      (seven characters). What is left is the end of the host, exactly seven
      characters shorter when the scheme was there and the whole host
      otherwise. */
  function StripHttp(host: string): (rest: string)
    ensures |rest| == if StartsWith(host, HttpScheme) then |host| - |HttpScheme| else |host|
    ensures rest == host[|host| - |rest|..]
  {
    if StartsWith(host, HttpScheme) then host[7..] else host
  }

  /** The part of a normalised host before the cloud suffix. */
  function SiteName(normalised: string): string
    requires |CloudSuffix| <= |normalised|
  {
    normalised[..|normalised| - |CloudSuffix|]
  }

  /** The host both the Jira client and the authenticate request use: it ends
      in `.atlassian.net`, and what comes before is an end of the typed host. */
  function FormatHost(host: string): (r: string)
    ensures |CloudSuffix| <= |r| && r[|r| - |CloudSuffix|..] == CloudSuffix
    ensures var site := r[..|r| - |CloudSuffix|];
      |site| <= |host| && site == host[|host| - |site|..]
  {
    var once := StripHttps(host);
    var site := StripHttp(once);
    EndOfEnd(host, once, site);
    var r := site + CloudSuffix;
    assert r[..|site|] == site && r[|site|..] == CloudSuffix;
    r
  }

  /** An end of an end of a string is an end of that string. */
  lemma EndOfEnd(s: string, t: string, u: string)
    requires |t| <= |s| && t == s[|s| - |t|..]
    requires |u| <= |t| && u == t[|t| - |u|..]
    ensures u == s[|s| - |u|..]
  {
    forall k | 0 <= k < |u|
      ensures u[k] == s[|s| - |u| + k]
    {
      assert u[k] == t[|t| - |u| + k];
    }
  }

  lemma StripHttpsShape(host: string)
    ensures StartsWith(host, HttpsScheme) ==> host == HttpsScheme + StripHttps(host)
    ensures !StartsWith(host, HttpsScheme) ==> StripHttps(host) == host
  {
    if StartsWith(host, HttpsScheme) {
      assert host == host[..8] + host[8..];
    }
  }

  lemma StripHttpShape(host: string)
    ensures StartsWith(host, HttpScheme) ==> host == HttpScheme + StripHttp(host)
    ensures !StartsWith(host, HttpScheme) ==> StripHttp(host) == host
  {
    if StartsWith(host, HttpScheme) {
      assert host == host[..7] + host[7..];
    }
  }

  /** A normalised host always ends in `.atlassian.net`, and the typed host
      is the site name with at most an `https://` and then an `http://` in
      front. */
  lemma FormatHostShape(host: string)
    ensures var r := FormatHost(host);
      |CloudSuffix| <= |r| && r[|r| - |CloudSuffix|..] == CloudSuffix
      && var site := SiteName(r);
         host == site || host == HttpsScheme + site || host == HttpScheme + site
         || host == HttpsScheme + HttpScheme + site
  {
    var once := StripHttps(host);
    var formatted := StripHttp(once);
    var r := formatted + CloudSuffix;
    assert r[..|formatted|] == formatted;
    assert r[|formatted|..] == CloudSuffix;
    assert SiteName(r) == formatted;
    StripHttpsShape(host);
    StripHttpShape(once);
    if StartsWith(host, HttpsScheme) && StartsWith(once, HttpScheme) {
      assert host == HttpsScheme + (HttpScheme + formatted);
      assert HttpsScheme + (HttpScheme + formatted) == HttpsScheme + HttpScheme + formatted;
    }
  }

  /** `http://...` never starts with `https://`: they differ at the fifth character. */
  lemma HttpIsNotHttps(rest: string)
    ensures !StartsWith(HttpScheme + rest, HttpsScheme)
  {
    if |HttpsScheme| <= |HttpScheme + rest| {
      assert (HttpScheme + rest)[4] == ':' != 's' == HttpsScheme[4];
      assert (HttpScheme + rest)[..|HttpsScheme|][4] != HttpsScheme[4];
    }
  }

  /** A site name with no scheme in front normalises to itself plus the suffix,
      and so does every host that puts `https://`, `http://` or both, in that
      order, in front of it. */
  lemma FormatHostIgnoresSchemes(site: string)
    requires !StartsWith(site, HttpsScheme) && !StartsWith(site, HttpScheme)
    ensures FormatHost(site) == site + CloudSuffix
    ensures FormatHost(HttpsScheme + site) == site + CloudSuffix
    ensures FormatHost(HttpScheme + site) == site + CloudSuffix
    ensures FormatHost(HttpsScheme + HttpScheme + site) == site + CloudSuffix
  {
    assert (HttpsScheme + site)[..8] == HttpsScheme;
    assert (HttpsScheme + site)[8..] == site;
    assert (HttpScheme + site)[..7] == HttpScheme;
    assert (HttpScheme + site)[7..] == site;
    HttpIsNotHttps(site);
    var both := HttpsScheme + HttpScheme + site;
    assert both == HttpsScheme + (HttpScheme + site);
    assert both[..8] == HttpsScheme;
    assert both[8..] == HttpScheme + site;
  }
}
