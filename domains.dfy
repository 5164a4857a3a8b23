/**
 * Domain normalisation and validation (`clean_domain` and `validate_domain` of
 * core/enrichment_manager.py). The host part of a URL is found the way Python's
 * `urllib.parse.urlsplit` finds it; the fuzzy similarity score is a parameter.
 */
module Domains {
  import opened Optional
  import opened Text

  /** A similarity score as `rapidfuzz.fuzz.partial_ratio` returns it. */
  type Ratio = r: real | 0.0 <= r <= 100.0

  /** Hosts that never identify a company: directories, social networks, review sites, the search engine. */
  const Blacklist: seq<string> := [
    "pagesjaunes.fr", "societe.com", "linkedin.com", "facebook.com",
    "verif.com", "meilleursyndic.com", "yelp.fr", "google.com"
  ]

  /** A candidate is accepted only with a score strictly above this. */
  const Threshold: real := 65.0

  const HostStops: set<char> := {'/', '?', '#'}
  const UnsafeChars: set<char> := {'\t', '\r', '\n'}

  predicate IsSchemeChar(c: char)
  {
    IsAsciiLetter(c) || IsDigit(c) || c == '+' || c == '-' || c == '.'
  }

  /** Leading C0 control characters and spaces removed, as `urlsplit` does first. */
  function StripControls(s: string): (r: string)
    ensures |r| <= |s| && r == s[|s| - |r|..]
  {
    if s != [] && s[0] <= ' ' then StripControls(s[1..]) else s
  }

  /** What follows the scheme: the text after the first ':' when all before it is a scheme name. */
  function AfterScheme(u: string): (r: string)
    ensures |r| <= |u| && r == u[|u| - |r|..]
  {
    var head := TakeUntil(u, {':'});
    if 0 < |head| < |u| && IsAsciiLetter(u[0]) && forall i :: 0 <= i < |head| ==> IsSchemeChar(head[i])
    then u[|head| + 1..]
    else u
  }

  /** No path, query or fragment delimiter, no tab or newline. */
  predicate HostChars(s: string)
  {
    forall i :: 0 <= i < |s| ==> s[i] !in HostStops && s[i] !in UnsafeChars
  }

  /** An opening bracket occurs exactly when a closing one does. */
  predicate Paired(s: string)
  {
    '[' in s <==> ']' in s
  }

  /** A host as the parser leaves it: no delimiter, no tab or newline, brackets paired. */
  predicate BareHost(s: string)
  {
    HostChars(s) && Paired(s)
  }

  /** The network location `urlsplit` reports: None where it raises ValueError (an unmatched bracket). */
  function Netloc(url: string): (r: Option<string>)
    ensures r.Some? ==> BareHost(r.value)
    // the parser raises only on a bracket of the URL
    ensures r.None? ==> '[' in url || ']' in url
  {
    var u := Remove(StripControls(url), UnsafeChars);
    var rest := AfterScheme(u);
    if "//" <= rest then
      var host := TakeUntil(rest[2..], HostStops);
      HostNoUnsafe(u, rest, host);
      HostBrackets(url, u, rest, host);
      if ('[' in host) != (']' in host) then None else Some(host)
    else Some("")
  }

  /** The network location has no tab or newline. */
  lemma {:induction false} HostNoUnsafe(u: string, rest: string, host: string)
    requires NoneOf(u, UnsafeChars)
    requires |rest| <= |u| && rest == u[|u| - |rest|..] && "//" <= rest
    requires host <= rest[2..]
    ensures NoneOf(host, UnsafeChars)
  {
    NoneOfSlice(u, |u| - |rest|, |u|);
    NoneOfSlice(rest, 2, |rest|);
    NoneOfSlice(rest[2..], 0, |host|);
  }

  /** The brackets of the network location come from the URL. */
  lemma {:induction false} HostBrackets(url: string, u: string, rest: string, host: string)
    requires u == Remove(StripControls(url), UnsafeChars)
    requires rest == AfterScheme(u) && "//" <= rest
    requires host == TakeUntil(rest[2..], HostStops)
    ensures '[' in host ==> '[' in url
    ensures ']' in host ==> ']' in url
  {
    if '[' in host {
      HostFromUrl(url, u, rest, host, '[');
    }
    if ']' in host {
      HostFromUrl(url, u, rest, host, ']');
    }
  }

  /** Every character of the network location comes from the URL. */
  lemma {:induction false} HostFromUrl(url: string, u: string, rest: string, host: string, x: char)
    requires u == Remove(StripControls(url), UnsafeChars)
    requires rest == AfterScheme(u) && "//" <= rest
    requires host == TakeUntil(rest[2..], HostStops)
    requires x in host
    ensures x in url
  {
    InPrefix(host, rest[2..], x);
    InSuffix(rest, 2, x);
    InSuffix(u, |u| - |rest|, x);
    var sc := StripControls(url);
    RemovedFrom(sc, UnsafeChars, x);
    InSuffix(url, |url| - |sc|, x);
  }

  lemma {:induction false} InPrefix(a: string, b: string, x: char)
    requires a <= b && x in a
    ensures x in b
  {
    var i :| 0 <= i < |a| && a[i] == x;
    assert b[i] == x;
  }

  lemma {:induction false} InSuffix(s: string, lo: nat, x: char)
    requires lo <= |s| && x in s[lo..]
    ensures x in s
  {
    var i :| 0 <= i < |s[lo..]| && s[lo..][i] == x;
    assert s[lo + i] == x;
  }

  lemma {:induction false} RemovedFrom(s: string, drop: set<char>, x: char)
    requires x in Remove(s, drop)
    ensures x in s
  {
    var r := Remove(s, drop);
    var i :| 0 <= i < |r| && r[i] == x;
    assert r[i] in s;
  }

  /** None of the characters of `s` is in `cs`. */
  predicate NoneOf(s: string, cs: set<char>)
  {
    forall i :: 0 <= i < |s| ==> s[i] !in cs
  }

  /** A piece of a text inherits the characters the text lacks. */
  lemma {:induction false} NoneOfSlice(s: string, lo: nat, hi: nat)
    requires lo <= hi <= |s|
    requires NoneOf(s, UnsafeChars)
    ensures NoneOf(s[lo..hi], UnsafeChars)
  {
    forall i | 0 <= i < hi - lo
      ensures s[lo..hi][i] !in UnsafeChars
    {
      assert s[lo..hi][i] == s[lo + i];
    }
  }

  /**
   * `clean_domain`: give the input a scheme unless it already starts with "http",
   * take the host, drop one leading lower-case "www.", lower-case the rest.
   * None where the parser raises.
   */
  function CleanDomain(url: string): (r: Option<string>)
    ensures r.Some? ==> NoUpper(r.value) && BareHost(r.value)
    // a URL without brackets always gives a domain
    ensures '[' !in url && ']' !in url ==> r.Some?
  {
    var u := if "http" <= url then url else "https://" + url;
    NoBracketAdded(url);
    DomainOf(u)
  }

  /** The scheme this function may add brings no bracket with it. */
  lemma {:induction false} NoBracketAdded(url: string)
    ensures '[' in "https://" + url ==> '[' in url
    ensures ']' in "https://" + url ==> ']' in url
  {
    var u := "https://" + url;
    if '[' in u {
      var i :| 0 <= i < |u| && u[i] == '[';
      assert u[i] == url[i - 8];
    }
    if ']' in u {
      var i :| 0 <= i < |u| && u[i] == ']';
      assert u[i] == url[i - 8];
    }
  }

  /** The host of a URL with one leading lower-case "www." dropped, lower-cased; None where the parser raises. */
  function DomainOf(u: string): (r: Option<string>)
    ensures r.Some? ==> NoUpper(r.value) && BareHost(r.value)
    ensures r.None? ==> '[' in u || ']' in u
  {
    match Netloc(u)
    case None => None
    case Some(host) =>
      var d := if "www." <= host then host[4..] else host;
      SuffixBareHost(host, d);
      LowerBareHost(d);
      Some(Lower(d))
  }

  lemma {:induction false} SuffixBareHost(host: string, d: string)
    requires BareHost(host)
    requires d == host || ("www." <= host && d == host[4..])
    ensures BareHost(d)
  {
    if d != host {
      assert forall i :: 0 <= i < |d| ==> d[i] == host[i + 4];
      assert '[' in d <==> '[' in host;
      assert ']' in d <==> ']' in host;
    }
  }

  lemma {:induction false} LowerBareHost(d: string)
    requires BareHost(d)
    ensures BareHost(Lower(d))
  {
    LowerKeepsSymbol(d, '[');
    LowerKeepsSymbol(d, ']');
    forall i | 0 <= i < |d|
      ensures Lower(d)[i] !in HostStops && Lower(d)[i] !in UnsafeChars
    {
      assert Lower(d)[i] == LowerChar(d[i]);
    }
  }

  /** Lower-casing neither adds nor removes a character that is not a letter. */
  lemma {:induction false} LowerKeepsSymbol(s: string, x: char)
    requires !IsAsciiLetter(x)
    ensures x in Lower(s) <==> x in s
  {
    if x in s {
      var i :| 0 <= i < |s| && s[i] == x;
      assert Lower(s)[i] == x;
    }
    if x in Lower(s) {
      var i :| 0 <= i < |s| && Lower(s)[i] == x;
      assert s[i] == x;
    }
  }

  /** Lower-casing is the identity on text without capitals. */
  lemma {:induction false} LowerOfLower(s: string)
    requires NoUpper(s)
    ensures Lower(s) == s
  {
  }

  /** An input without a scheme is read exactly as if "https://" had been written before it. */
  lemma {:induction false} CleanDomainAddsScheme(url: string)
    requires !("http" <= url)
    ensures CleanDomain(url) == CleanDomain("https://" + url)
  {
    assert "http" <= "https://" + url;
  }

  /** `s` drops one leading "www.". */
  function DropWww(s: string): string
  {
    if "www." <= s then s[4..] else s
  }

  /** The two schemes of the web. */
  predicate WebScheme(scheme: string)
  {
    scheme == "http" || scheme == "https"
  }

  /**
   * For a URL scheme + "://" + host + rest, with an http or https scheme and
   * rest empty or starting the path, query or fragment, the cleaned domain is
   * the host without a leading lower-case "www.", lower-cased; None when the
   * host has an unmatched bracket.
   */
  lemma {:induction false} CleanDomainOfUrl(scheme: string, host: string, rest: string)
    requires WebScheme(scheme) && HostChars(host)
    requires rest == [] || rest[0] in HostStops
    requires forall i :: 0 <= i < |rest| ==> rest[i] !in UnsafeChars
    ensures CleanDomain(scheme + "://" + host + rest) == if Paired(host) then Some(Lower(DropWww(host))) else None
  {
    var u := scheme + "://" + host + rest;
    assert "http" <= u by {
      assert u[..4] == scheme[..4] == "http";
    }
    assert Netloc(u) == (if Paired(host) then Some(host) else None) by {
      NetlocOfUrl(scheme, host, rest);
    }
  }

  /**
   * For scheme + "://" + host + rest, with an http or https scheme and rest
   * empty or starting the path, query or fragment, the network location is
   * exactly the host, and the parser raises when the host's brackets are unpaired.
   */
  lemma {:induction false} NetlocOfUrl(scheme: string, host: string, rest: string)
    requires WebScheme(scheme) && HostChars(host)
    requires rest == [] || rest[0] in HostStops
    requires forall i :: 0 <= i < |rest| ==> rest[i] !in UnsafeChars
    ensures Netloc(scheme + "://" + host + rest) == if Paired(host) then Some(host) else None
  {
    var t := "//" + (host + rest);
    var u := scheme + ":" + t;
    assert u == scheme + "://" + host + rest;
    SchemeThenRest(scheme, host, rest);
    HostBeforeRest(host, rest);
  }

  /** The parser's first steps leave an http or https URL as it is and split off the scheme. */
  lemma {:induction false} SchemeThenRest(scheme: string, host: string, rest: string)
    requires WebScheme(scheme) && HostChars(host)
    requires forall i :: 0 <= i < |rest| ==> rest[i] !in UnsafeChars
    ensures AfterScheme(Remove(StripControls(scheme + ":" + ("//" + (host + rest))), UnsafeChars)) == "//" + (host + rest)
  {
    var t := "//" + (host + rest);
    var u := scheme + ":" + t;
    UrlHasNoUnsafe(scheme, host, rest);
    StripControlsAtLetter(u);
    RemoveNothing(u);
    AfterWebScheme(scheme, t);
  }

  /** After the two slashes, the network location runs up to the first delimiter. */
  lemma {:induction false} HostBeforeRest(host: string, rest: string)
    requires HostChars(host)
    requires rest == [] || rest[0] in HostStops
    ensures "//" <= "//" + (host + rest) && TakeUntil(("//" + (host + rest))[2..], HostStops) == host
  {
    SlashesThenHost(host + rest);
    if rest == [] {
      assert host + rest == host;
      TakeUntilNoStop(host, HostStops);
    } else {
      TakeUntilStops(host, rest, HostStops);
    }
  }

  lemma {:induction false} SlashesThenHost(h: string)
    ensures "//" <= "//" + h && ("//" + h)[2..] == h
  {
  }

  lemma {:induction false} UrlHasNoUnsafe(scheme: string, host: string, rest: string)
    requires WebScheme(scheme) && HostChars(host)
    requires forall i :: 0 <= i < |rest| ==> rest[i] !in UnsafeChars
    ensures forall i :: 0 <= i < |scheme + ":" + ("//" + (host + rest))| ==> (scheme + ":" + ("//" + (host + rest)))[i] !in UnsafeChars
  {
    var u := scheme + ":" + ("//" + (host + rest));
    var n := |scheme| + 3;
    forall i | 0 <= i < |u| ensures u[i] !in UnsafeChars {
      if i >= n + |host| {
        assert u[i] == rest[i - n - |host|];
      } else if i >= n {
        assert u[i] == host[i - n];
      } else if i >= |scheme| {
        assert u[i] == "://"[i - |scheme|];
      } else {
        assert u[i] == scheme[i];
      }
    }
  }

  lemma {:induction false} AfterWebScheme(scheme: string, t: string)
    requires WebScheme(scheme)
    ensures AfterScheme(scheme + ":" + t) == t
  {
    var u := scheme + ":" + t;
    assert u == scheme + ([':'] + t);
    TakeUntilStops(scheme, [':'] + t, {':'});
    assert u[0] == 'h' && IsAsciiLetter(u[0]);
    assert forall i :: 0 <= i < |scheme| ==> IsSchemeChar(scheme[i]);
    assert u[|scheme| + 1..] == t;
  }

  lemma {:induction false} StripControlsAtLetter(u: string)
    requires u != [] && u[0] == 'h'
    ensures StripControls(u) == u
  {
  }

  lemma {:induction false} RemoveNothing(u: string)
    requires forall i :: 0 <= i < |u| ==> u[i] !in UnsafeChars
    ensures Remove(u, UnsafeChars) == u
  {
  }

  /** An upper-case "WWW." is not dropped: it survives, lower-cased, at the head of the domain. */
  lemma {:induction false} UpperCaseWwwSurvives(scheme: string, host: string, rest: string)
    requires WebScheme(scheme) && BareHost(host) && "WWW." <= host
    requires rest == [] || rest[0] in HostStops
    requires forall i :: 0 <= i < |rest| ==> rest[i] !in UnsafeChars
    ensures CleanDomain(scheme + "://" + host + rest).Some?
    ensures "www." <= CleanDomain(scheme + "://" + host + rest).value
  {
    CleanDomainOfUrl(scheme, host, rest);
    assert DropWww(host) == host by {
      assert host[0] == 'W';
    }
    LowerOfCapitalWww(host);
  }

  lemma {:induction false} LowerOfCapitalWww(host: string)
    requires "WWW." <= host
    ensures "www." <= Lower(host)
  {
    var l := Lower(host);
    assert l[0] == LowerChar(host[0]) == 'w';
    assert l[1] == LowerChar(host[1]) == 'w';
    assert l[2] == LowerChar(host[2]) == 'w';
    assert l[3] == LowerChar(host[3]) == '.';
  }

  /**
   * A bare host that begins with "http" gets no scheme, so the parser sees no
   * network location in it and the cleaned domain is empty: "httpool.fr" gives "".
   */
  lemma {:induction false} HostStartingWithHttpIsLost(host: string)
    requires "http" <= host && ':' !in host
    ensures CleanDomain(host) == Some("")
  {
    assert StripControls(host) == host;
    var u := Remove(host, UnsafeChars);
    assert u == [host[0]] + Remove(host[1..], UnsafeChars);
    assert ':' !in u;
    TakeUntilNoStop(u, {':'});
    assert AfterScheme(u) == u;
  }

  /**
   * The cleaning with the scheme test evidently meant: "https://" is added
   * unless the input already starts with "http://" or "https://".
   */
  function CleanDomainSchemeAware(url: string): (r: Option<string>)
    ensures r.Some? ==> NoUpper(r.value) && BareHost(r.value)
    ensures '[' !in url && ']' !in url ==> r.Some?
  {
    var u := if "http://" <= url || "https://" <= url then url else "https://" + url;
    NoBracketAdded(url);
    DomainOf(u)
  }

  /**
   * With that test every bare host, "httpbin.org" among them, cleans to
   * itself without a leading "www.", lower-cased.
   */
  lemma {:induction false} SchemeAwareKeepsHost(host: string)
    requires BareHost(host)
    ensures CleanDomainSchemeAware(host) == Some(Lower(DropWww(host)))
  {
    assert |host| < 6 || host[5] !in HostStops;
    assert |host| < 7 || host[6] !in HostStops;
    assert !("http://" <= host) && !("https://" <= host);
    CleanDomainOfUrl("https", host, []);
    HttpsPrefix(host);
    assert "http" <= "https://" + host;
  }

  /**
   * Cleaning a cleaned domain changes nothing, unless that domain itself begins
   * with "http" or "www.".
   */
  lemma {:induction false} CleanDomainStable(url: string, d: string)
    requires CleanDomain(url) == Some(d)
    requires !("http" <= d) && !("www." <= d)
    ensures CleanDomain(d) == Some(d)
  {
    assert BareHost(d) && NoUpper(d);
    CleanDomainOfUrl("https", d, []);
    HttpsPrefix(d);
    CleanDomainAddsScheme(d);
    LowerOfLower(d);
  }

  lemma {:induction false} HttpsPrefix(d: string)
    ensures "https" + "://" + d + [] == "https://" + d
  {
    var a := "https" + "://" + d + [];
    var b := "https://" + d;
    assert |a| == |b|;
    forall i | 0 <= i < |a|
      ensures a[i] == b[i]
    {
      if i >= 8 {
        assert a[i] == d[i - 8] == b[i];
      } else if i >= 5 {
        assert a[i] == "://"[i - 5];
      } else {
        assert a[i] == "https"[i];
      }
    }
  }

  lemma {:induction false} TakeUntilStops(a: string, b: string, stops: set<char>)
    requires forall i :: 0 <= i < |a| ==> a[i] !in stops
    requires b != [] && b[0] in stops
    ensures TakeUntil(a + b, stops) == a
  {
    if a != [] {
      assert (a + b)[1..] == a[1..] + b;
      TakeUntilStops(a[1..], b, stops);
      assert [a[0]] + a[1..] == a;
    } else {
      assert a + b == b;
    }
  }

  lemma {:induction false} TakeUntilNoStop(s: string, stops: set<char>)
    requires forall i :: 0 <= i < |s| ==> s[i] !in stops
    ensures TakeUntil(s, stops) == s
  {
    if s != [] {
      TakeUntilNoStop(s[1..], stops);
      assert [s[0]] + s[1..] == s;
    }
  }

  /** The outcome of validating one candidate: the accepted domain, if any, and the score. */
  datatype Validation = Validation(domain: Option<string>, score: Ratio)

  /** `any(bl in domain for bl in blacklist)`. */
  predicate Blacklisted(d: string)
  {
    ContainsAny(d, Blacklist)
  }

  predicate ContainsAny(d: string, subs: seq<string>)
  {
    subs != [] && (Contains(d, subs[0]) || ContainsAny(d, subs[1..]))
  }

  /** The company name as compared: lower-cased, all but ASCII letters and digits removed. */
  function NameKey(name: string): string
  {
    Alphanumerics(Lower(name))
  }

  /** `domain.split('.')[0]`: the domain's first label. */
  function DomainLabel(d: string): string
  {
    Split(d, '.')[0]
  }

  /**
   * `validate_domain`: score the candidate's cleaned host against the company
   * name and accept it when the score passes the threshold.
   */
  function ValidateDomain(url: string, name: string, ratio: (string, string) -> Ratio): (v: Validation)
    // accepted exactly when the score is above the threshold
    ensures v.domain.Some? <==> v.score > Threshold
    // an accepted domain is the candidate's non-empty, non-blacklisted cleaned host
    ensures v.domain.Some? ==> CleanDomain(url) == v.domain && v.domain.value != "" && !Blacklisted(v.domain.value)
    // a host that is missing, empty or blacklisted is rejected with score 0
    ensures (CleanDomain(url).None? || CleanDomain(url) == Some("") || Blacklisted(CleanDomain(url).value))
            ==> v == Validation(None, 0.0)
    // otherwise the score is the similarity of the cleaned name and the domain's first label
    ensures CleanDomain(url).Some? && CleanDomain(url).value != "" && !Blacklisted(CleanDomain(url).value)
            ==> v.score == ratio(NameKey(name), DomainLabel(CleanDomain(url).value))
  {
    match CleanDomain(url)
    case None => Validation(None, 0.0)
    case Some(d) =>
      if d == "" || Blacklisted(d) then Validation(None, 0.0)
      else
        var r := ratio(NameKey(name), DomainLabel(d));
        if r > Threshold then Validation(Some(d), r) else Validation(None, r)
  }

  lemma {:induction false} LinkedInBlacklisted(d: string)
    requires Contains(d, "linkedin.com")
    ensures Blacklisted(d)
  {
    assert ContainsAny(d, Blacklist[2..]);
  }

  /** A host containing "linkedin.com" is rejected with score 0, whatever the name. */
  lemma {:induction false} LinkedInRejected(url: string, name: string, ratio: (string, string) -> Ratio)
    requires CleanDomain(url).Some? && Contains(CleanDomain(url).value, "linkedin.com")
    ensures ValidateDomain(url, name, ratio) == Validation(None, 0.0)
  {
    LinkedInBlacklisted(CleanDomain(url).value);
  }
}
