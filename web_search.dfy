/**
 * The web search step of the enrichment (`web_search_syndic` in
 * core/enrichment_manager.py): one query "{name} {city}" to the search engine,
 * then the results whose link points at a non-authoritative source are dropped.
 * The search engine itself is a parameter.
 */
module WebSearch {
  import opened Text

  /** One search result: its title, its link and its snippet. */
  datatype SearchHit = SearchHit(title: string, href: string, body: string)

  /** The query sent: the text, the region and the number of results asked for. */
  datatype SearchRequest = SearchRequest(query: string, region: string, maxResults: nat)

  /** What the search engine gives back: its results, or an exception. */
  datatype SearchOutcome = SearchFailed | SearchResults(hits: seq<SearchHit>)

  /** Result sources that are never the company's own site. */
  const ExcludedSources: seq<string> := ["google.com", ".gouv.fr", "societe.com"]

  /** The request for a company: "{name} {city}", French results, at most five. */
  function RequestFor(name: string, city: string): SearchRequest
  {
    SearchRequest(name + " " + city, "fr-fr", 5)
  }

  /** A result whose link mentions one of the excluded sources. */
  predicate Excluded(h: SearchHit)
  {
    Contains(h.href, ExcludedSources[0]) || Contains(h.href, ExcludedSources[1]) || Contains(h.href, ExcludedSources[2])
  }

  /** The results that are not excluded, in their original order. */
  function Kept(hits: seq<SearchHit>): (r: seq<SearchHit>)
    ensures |r| <= |hits|
    ensures forall h :: h in r <==> h in hits && !Excluded(h)
  {
    if hits == [] then []
    else
      var last := hits[|hits| - 1];
      assert hits == hits[..|hits| - 1] + [last];
      Kept(hits[..|hits| - 1]) + (if Excluded(last) then [] else [last])
  }

  /** Keeping the results of a longer list keeps those of its prefix first. */
  lemma {:induction false} KeptPrefix(hits: seq<SearchHit>, more: seq<SearchHit>)
    ensures Kept(hits + more) == Kept(hits) + Kept(more)
    decreases |more|
  {
    if more == [] {
      assert hits + more == hits;
    } else {
      var last := more[|more| - 1];
      assert (hits + more)[..|hits + more| - 1] == hits + more[..|more| - 1];
      KeptPrefix(hits, more[..|more| - 1]);
    }
  }

  /** `web_search_syndic`: the filtered results, or none when the search raised. */
  method WebSearchSyndic(search: SearchRequest -> SearchOutcome, name: string, city: string)
    returns (clean: seq<SearchHit>)
    ensures search(RequestFor(name, city)).SearchFailed? ==> clean == []
    ensures search(RequestFor(name, city)).SearchResults? ==> clean == Kept(search(RequestFor(name, city)).hits)
  {
    var outcome := search(RequestFor(name, city));
    if outcome.SearchFailed? {
      return [];
    }
    var hits := outcome.hits;
    clean := [];
    var i := 0;
    while i < |hits|
      invariant 0 <= i <= |hits|
      invariant clean == Kept(hits[..i])
    {
      var r := hits[i];
      if !Contains(r.href, "google.com") && !Contains(r.href, ".gouv.fr") && !Contains(r.href, "societe.com") {
        clean := clean + [r];
      }
      assert hits[..i + 1][..i] == hits[..i];
      i := i + 1;
    }
    assert hits[..i] == hits;
  }
}
