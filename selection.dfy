/**
 * Domain selection in `enrich_syndic` (core/enrichment_manager.py): the
 * candidate hosts taken from the legal-information record, and the running
 * best over a list of candidates, which only a strictly higher accepted score
 * replaces.
 */
module Selection {
  import opened Optional
  import opened Text
  import opened Domains
  import opened Pappers

  /** Mail providers whose domain says nothing about the company. */
  const GenericProviders: seq<string> :=
    ["gmail.com", "orange.fr", "wanadoo.fr", "yahoo.fr", "outlook.com", "hotmail.fr", "hotmail.com"]

  function Last<T>(xs: seq<T>): T
    requires xs != []
  {
    xs[|xs| - 1]
  }

  /** Every text of `xs`, stripped. */
  function StripEach(xs: seq<string>): seq<string>
  {
    if xs == [] then [] else [Strip(xs[0])] + StripEach(xs[1..])
  }

  /** Stripping a list and one more text is stripping the list, then the text. */
  lemma {:induction false} StripEachSnoc(xs: seq<string>, x: string)
    ensures StripEach(xs + [x]) == StripEach(xs) + [Strip(x)]
  {
    if xs == [] {
      assert xs + [x] == [x];
    } else {
      assert (xs + [x])[1..] == xs[1..] + [x];
      StripEachSnoc(xs[1..], x);
    }
  }

  /** The candidates from the `sites_internet` field: its comma-separated pieces, stripped, in order. */
  function SiteCandidates(sites: Option<string>): (r: seq<string>)
    ensures !Truthy(sites) ==> r == []
    ensures Truthy(sites) ==> r == StripEach(Split(sites.value, ','))
  {
    if Truthy(sites) then StripEach(Split(sites.value, ',')) else []
  }

  /** The candidate from the `email` field: what follows its last '@', stripped, unless a generic provider. */
  function EmailCandidate(email: Option<string>): (r: Option<string>)
    ensures r.Some? <==> Truthy(email) && '@' in email.value && Strip(Last(Split(email.value, '@'))) !in GenericProviders
    ensures r.Some? ==> r.value == Strip(Last(Split(email.value, '@'))) && r.value !in GenericProviders
  {
    if Truthy(email) && '@' in email.value then
      var domain := Strip(Last(Split(email.value, '@')));
      if domain in GenericProviders then None else Some(domain)
    else None
  }

  /** All candidates of a record: the sites first, then the e-mail domain. */
  function CandidatesOf(p: LegalRecord): seq<string>
  {
    SiteCandidates(p.sitesInternet) + (match EmailCandidate(p.email) case Some(d) => [d] case None => [])
  }

  /** The loop over the comma-separated pieces: each piece, stripped, appended in turn. */
  method StripPieces(pieces: seq<string>) returns (stripped: seq<string>)
    ensures stripped == StripEach(pieces)
  {
    stripped := [];
    var i := 0;
    while i < |pieces|
      invariant 0 <= i <= |pieces|
      invariant stripped == StripEach(pieces[..i])
    {
      stripped := stripped + [Strip(pieces[i])];
      assert pieces[..i + 1] == pieces[..i] + [pieces[i]];
      StripEachSnoc(pieces[..i], pieces[i]);
      i := i + 1;
    }
    assert pieces[..i] == pieces;
  }

  /** The candidate list of `enrich_syndic`: the site pieces, then the e-mail domain. */
  method BuildCandidates(p: LegalRecord) returns (candidates: seq<string>)
    ensures candidates == CandidatesOf(p)
  {
    candidates := [];
    var sites := p.sitesInternet;
    if Truthy(sites) {
      candidates := StripPieces(Split(sites.value, ','));
    }
    var email := p.email;
    if Truthy(email) && '@' in email.value {
      var emailDomain := Strip(Last(Split(email.value, '@')));
      if emailDomain !in GenericProviders {
        candidates := candidates + [emailDomain];
      }
    }
  }

  /** Splitting `a`, separator, `b` where `b` has no separator ends with `b`. */
  lemma {:induction false} SplitAppend(a: string, b: string, c: char)
    requires c !in b
    ensures Split(a + [c] + b, c) == Split(a, c) + [b]
  {
    if a == [] {
      assert a + [c] + b == [c] + b;
      assert ([c] + b)[1..] == b;
      SplitWhole(b, c);
    } else {
      assert (a + [c] + b)[1..] == a[1..] + [c] + b;
      SplitAppend(a[1..], b, c);
    }
  }

  /** What follows the last '@' of local@domain is the domain, when the domain has no '@'. */
  lemma {:induction false} AfterLastAt(local: string, domain: string)
    requires '@' !in domain
    ensures local + "@" + domain != "" && '@' in local + "@" + domain
    ensures Last(Split(local + "@" + domain, '@')) == domain
  {
    var e := local + "@" + domain;
    assert e == local + ['@'] + domain;
    assert e[|local|] == '@';
    SplitAppend(local, domain, '@');
  }

  /** An address at a company domain yields that domain. */
  lemma {:induction false} EmailCandidateOf(local: string, domain: string)
    requires '@' !in domain && Strip(domain) == domain
    requires domain !in GenericProviders
    ensures EmailCandidate(Some(local + "@" + domain)) == Some(domain)
  {
    AfterLastAt(local, domain);
  }

  /** An address at a generic provider yields nothing. */
  lemma {:induction false} GenericEmailIgnored(local: string, domain: string)
    requires '@' !in domain && Strip(domain) == domain
    requires domain in GenericProviders
    ensures EmailCandidate(Some(local + "@" + domain)) == None
  {
    AfterLastAt(local, domain);
  }

  /** Each text of `ys` behind one space. */
  function Spaced(ys: seq<string>): seq<string>
  {
    if ys == [] then [] else [" " + ys[0]] + Spaced(ys[1..])
  }

  /** Splitting a ", " join on ',' gives the first text, then the others behind a space. */
  lemma {:induction false} SplitJoin(xs: seq<string>)
    requires xs != []
    requires forall i :: 0 <= i < |xs| ==> ',' !in xs[i]
    ensures Split(Join(", ", xs), ',') == [xs[0]] + Spaced(xs[1..])
    decreases |xs|
  {
    if |xs| == 1 {
      SplitWhole(xs[0], ',');
    } else {
      var tail := Join(", ", xs[1..]);
      assert Join(", ", xs) == xs[0] + [','] + (" " + tail);
      SplitAt(xs[0], " " + tail, ',');
      SplitJoin(xs[1..]);
      var rest := Split(tail, ',');
      assert (" " + tail) != [] && (" " + tail)[0] == ' ' && (" " + tail)[1..] == tail;
      assert Split(" " + tail, ',') == [" " + rest[0]] + rest[1..];
      assert Spaced(xs[1..]) == [" " + xs[1]] + Spaced(xs[2..]);
    }
  }

  /**
   * The legal-information lookup joins a list of sites with ", "; the
   * candidate builder splits that text on ',' and strips each piece. For sites
   * with no comma and no surrounding white space this gives the list back.
   */
  lemma {:induction false} SitesRoundTrip(xs: seq<string>)
    requires forall i :: 0 <= i < |xs| ==> ',' !in xs[i] && Trimmed(xs[i])
    requires xs != [""]
    ensures SiteCandidates(Some(Join(", ", xs))) == xs
  {
    if xs != [] {
      JoinNotEmpty(xs);
      SitePieces(xs);
    }
  }

  /** The pieces of a ", " join, stripped, are the joined texts. */
  lemma {:induction false} SitePieces(xs: seq<string>)
    requires xs != []
    requires forall i :: 0 <= i < |xs| ==> ',' !in xs[i] && Trimmed(xs[i])
    ensures StripEach(Split(Join(", ", xs), ',')) == xs
  {
    var pieces := [xs[0]] + Spaced(xs[1..]);
    var split := Split(Join(", ", xs), ',');
    assert split == pieces by {
      SplitJoin(xs);
    }
    assert StripEach(pieces) == [xs[0]] + xs[1..] by {
      StripSpaced(xs[0], xs[1..]);
    }
    assert [xs[0]] + xs[1..] == xs;
    assert StripEach(split) == StripEach(pieces);
  }

  lemma {:induction false} JoinNotEmpty(xs: seq<string>)
    requires xs != [] && xs != [""]
    ensures Join(", ", xs) != ""
  {
    if |xs| > 1 {
      assert Join(", ", xs) == xs[0] + ", " + Join(", ", xs[1..]);
    }
  }

  /** A trimmed text behind one space strips back to itself. */
  lemma {:induction false} StripSpacedAt(x: string)
    requires Trimmed(x)
    ensures Strip(" " + x) == x
  {
    StripSpacePrefix(x);
    TrimmedStrip(x);
  }

  /** Stripping trimmed texts that each stand behind one space gives the texts back. */
  lemma {:induction false} StripEachSpaced(ys: seq<string>)
    requires forall i :: 0 <= i < |ys| ==> Trimmed(ys[i])
    ensures StripEach(Spaced(ys)) == ys
    decreases |ys|
  {
    if ys != [] {
      StripEachSpaced(ys[1..]);
      StripSpacedAt(ys[0]);
      assert ([" " + ys[0]] + Spaced(ys[1..]))[1..] == Spaced(ys[1..]);
      assert [ys[0]] + ys[1..] == ys;
    }
  }

  /** Stripping the first text and the space-prefixed others gives the texts back. */
  lemma {:induction false} StripSpaced(x: string, ys: seq<string>)
    requires Trimmed(x)
    requires forall i :: 0 <= i < |ys| ==> Trimmed(ys[i])
    ensures StripEach([x] + Spaced(ys)) == [x] + ys
  {
    StripEachSpaced(ys);
    TrimmedStrip(x);
    assert ([x] + Spaced(ys))[1..] == Spaced(ys);
  }

  /** Where the chosen domain came from, and its tag in the cache row. */
  datatype Source = PappersData | WebSearched | NameFallback
  {
    function Tag(): string
    {
      match this
      case PappersData => "pappers_data"
      case WebSearched => "web_search"
      case NameFallback => "name_fallback"
    }
  }

  /** The running best: `best_domain`, `best_score` and `source`. */
  datatype Best = Best(domain: Option<string>, score: real, source: Source)

  /** The running best before any candidate. */
  const Initial: Best := Best(None, 0.0, WebSearched)

  /** The running best keeps no domain with score 0, or a non-empty domain with an accepting score. */
  predicate Consistent(b: Best)
  {
    && (b.domain.None? ==> b.score == 0.0)
    && (b.domain.Some? ==> b.domain.value != "" && Threshold < b.score <= 100.0)
  }

  /**
   * A candidate's validation, `validate_domain(candidate, name)` for the
   * company's name, as a function of the candidate alone.
   */
  type Validator = string -> Validation

  /** A candidate the validation accepts. */
  predicate Accepted(check: Validator, url: string)
  {
    Truthy(check(url).domain)
  }

  /** A validation that accepts only non-empty domains, with a score above the threshold. */
  ghost predicate Sound(check: Validator)
  {
    forall url :: Truthy(check(url).domain) ==> Threshold < check(url).score
  }

  /** `validate_domain(candidate, name)` for the company's name. */
  function ValidatorFor(name: string, ratio: (string, string) -> Ratio): Validator
  {
    url => ValidateDomain(url, name, ratio)
  }

  /** `validate_domain` for a fixed name accepts only above the threshold. */
  lemma {:induction false} ValidatorForSound(name: string, ratio: (string, string) -> Ratio)
    ensures Sound(ValidatorFor(name, ratio))
  {
  }

  /** One step of the running best: an accepted candidate with a strictly higher score replaces it. */
  function Improve(b: Best, check: Validator, url: string, src: Source): Best
  {
    var v := check(url);
    if Truthy(v.domain) && v.score > b.score then Best(v.domain, v.score, src) else b
  }

  /** The running best after the candidates `urls`, in order. */
  function RunBest(b: Best, check: Validator, urls: seq<string>, src: Source): Best
    decreases |urls|
  {
    if urls == [] then b
    else Improve(RunBest(b, check, urls[..|urls| - 1], src), check, Last(urls), src)
  }

  /** The running best stays consistent, and changes only to a candidate of this phase. */
  lemma {:induction false} RunBestConsistent(b: Best, check: Validator, urls: seq<string>, src: Source)
    requires Consistent(b) && Sound(check)
    ensures Consistent(RunBest(b, check, urls, src))
    ensures RunBest(b, check, urls, src) == b || RunBest(b, check, urls, src).source == src
    ensures RunBest(b, check, urls, src).score >= b.score
    decreases |urls|
  {
    if urls != [] {
      RunBestConsistent(b, check, urls[..|urls| - 1], src);
    }
  }

  /**
   * Starting from nothing, the running best ends on the first candidate whose
   * accepted score is the highest: no accepted candidate scores more, and every
   * accepted candidate before it scores less. With no accepted candidate it
   * stays the initial one. The index `k` names the chosen candidate (-1 for none).
   */
  lemma {:induction false} RunBestFirstMax(check: Validator, urls: seq<string>, src: Source) returns (k: int)
    requires Sound(check)
    ensures var r := RunBest(Initial, check, urls, src);
      && (k == -1 <==> forall j :: 0 <= j < |urls| ==> !Accepted(check, urls[j]))
      && (k == -1 ==> r == Initial)
      && (k != -1 ==>
            && 0 <= k < |urls|
            && Accepted(check, urls[k])
            && r == Best(check(urls[k]).domain, check(urls[k]).score, src)
            && (forall j :: 0 <= j < |urls| && Accepted(check, urls[j]) ==> check(urls[j]).score <= r.score)
            && (forall j :: 0 <= j < k && Accepted(check, urls[j]) ==> check(urls[j]).score < r.score))
    decreases |urls|
  {
    if urls == [] {
      k := -1;
    } else {
      var n := |urls| - 1;
      var front := urls[..n];
      var k0 := RunBestFirstMax(check, front, src);
      assert forall j :: 0 <= j < n ==> front[j] == urls[j];
      var r0 := RunBest(Initial, check, front, src);
      var v := check(urls[n]);
      if Truthy(v.domain) && v.score > r0.score {
        k := n;
      } else {
        k := k0;
      }
    }
  }

  lemma {:induction false} RunBestStep(b: Best, check: Validator, urls: seq<string>, i: nat, src: Source)
    requires i < |urls|
    ensures RunBest(b, check, urls[..i + 1], src) == Improve(RunBest(b, check, urls[..i], src), check, urls[i], src)
  {
    assert urls[..i + 1][..i] == urls[..i];
  }

  /** The validation loop of `enrich_syndic`, run over one phase's candidates. */
  method SelectBest(b: Best, name: string, ratio: (string, string) -> Ratio, urls: seq<string>, src: Source)
    returns (r: Best)
    ensures r == RunBest(b, ValidatorFor(name, ratio), urls, src)
  {
    ghost var check := ValidatorFor(name, ratio);
    r := b;
    var i := 0;
    while i < |urls|
      invariant 0 <= i <= |urls|
      invariant r == RunBest(b, check, urls[..i], src)
    {
      var v := ValidateDomain(urls[i], name, ratio);
      assert v == check(urls[i]);
      RunBestStep(b, check, urls, i, src);
      if Truthy(v.domain) && v.score > r.score {
        r := Best(v.domain, v.score, src);
      }
      i := i + 1;
    }
    assert urls[..i] == urls;
  }
}
