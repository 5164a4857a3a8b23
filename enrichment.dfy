/**
 * The enrichment pipeline (`EnrichmentManager.enrich_syndic` in
 * core/enrichment_manager.py): answer from the enrichment cache when it holds
 * the SIRET; otherwise choose a domain from the legal-information record or,
 * failing that, from a web search; look up contacts by domain, then through
 * the organisation; and store the result in the cache.
 *
 * Every outside service is a parameter, gathered in a `World`. The adapters
 * the pipeline invokes are recorded, in order, as a list of calls.
 */
module Enrichment {
  import opened Optional
  import opened Domains
  import opened WebSearch
  import opened Apollo
  import opened Pappers
  import opened Selection

  /** One invocation of an adapter by the pipeline. */
  datatype Call =
    | WebSearchCall(name: string, city: string)
    | PeopleByDomainCall(domain: string)
    | OrgLookupCall(lookupDomain: Option<string>, orgName: string)
    | PeopleByOrgCall(orgId: string)

  /** The `contacts_json` column: a list of contacts, its JSON text, or null. */
  datatype ContactsField = Listed(contacts: seq<Contact>) | Encoded(text: string) | Null

  /** A row of the enrichment cache, which is also the dictionary the pipeline returns. */
  datatype Row = Row(
    siret: string, syndicName: string, domain: Option<string>, domainSource: string,
    apolloOrgId: string, contacts: ContactsField, confidence: real, lastEnriched: Option<string>)

  /** JSON encoding of a contact list, and decoding, which fails on malformed text. */
  datatype Codec = Codec(encode: seq<Contact> -> string, decode: string -> Option<seq<Contact>>)

  /** Decoding gives back what was encoded. */
  ghost predicate RoundTrips(codec: Codec)
  {
    forall cs :: codec.decode(codec.encode(cs)) == Some(cs)
  }

  /**
   * The outside world of one run: the name similarity, the search engine, the
   * contact service, the JSON codec, the clock, and whether the cache read or
   * the cache write raises.
   */
  datatype World = World(
    ratio: (string, string) -> Ratio, search: SearchRequest -> SearchOutcome, apollo: ApolloApi,
    codec: Codec, now: string, cacheReadFails: bool, cacheWriteFails: bool)

  /** The web search results `web_search_syndic` returns. */
  function WebHits(search: SearchRequest -> SearchOutcome, name: string, city: string): seq<SearchHit>
  {
    match search(RequestFor(name, city))
    case SearchFailed => []
    case SearchResults(hits) => Kept(hits)
  }

  /** The links of the results, in order. */
  function Hrefs(hits: seq<SearchHit>): (r: seq<string>)
    ensures |r| == |hits|
    ensures forall i :: 0 <= i < |hits| ==> r[i] == hits[i].href
  {
    seq(|hits|, i requires 0 <= i < |hits| => hits[i].href)
  }

  /** The running best after the legal-information candidates. */
  function FromPappers(pappers: Option<LegalRecord>, name: string, ratio: (string, string) -> Ratio): Best
  {
    if pappers.Some? then RunBest(Initial, ValidatorFor(name, ratio), CandidatesOf(pappers.value), PappersData)
    else Initial
  }

  /** The chosen domain, and whether the web was searched for it. */
  datatype DomainChoice = DomainChoice(best: Best, searched: bool)

  /**
   * Domain identification: the legal-information candidates first; the web
   * search only when none of them was accepted; "name_fallback" when neither
   * gave a domain.
   */
  function ChooseDomain(pappers: Option<LegalRecord>, name: string, city: string,
                        ratio: (string, string) -> Ratio, search: SearchRequest -> SearchOutcome): (c: DomainChoice)
    ensures Consistent(c.best)
    // the web is searched exactly when the legal-information candidates gave nothing
    ensures c.searched <==> !Truthy(FromPappers(pappers, name, ratio).domain)
    ensures !c.searched ==> c.best == FromPappers(pappers, name, ratio)
    // the web phase continues the running best over the links of the kept results
    ensures c.searched ==>
              var web := RunBest(FromPappers(pappers, name, ratio), ValidatorFor(name, ratio), Hrefs(WebHits(search, name, city)), WebSearched);
              c.best.domain == web.domain && c.best.score == web.score
    // the tag says where the domain came from
    ensures c.best.source == PappersData <==> !c.searched
    ensures c.best.source == WebSearched ==> c.searched && c.best.domain.Some?
    ensures c.best.source == NameFallback <==> c.best.domain.None?
  {
    var check := ValidatorFor(name, ratio);
    ValidatorForSound(name, ratio);
    var fromPappers := FromPappers(pappers, name, ratio);
    assert Consistent(fromPappers) && (fromPappers == Initial || fromPappers.source == PappersData) by {
      if pappers.Some? {
        RunBestConsistent(Initial, check, CandidatesOf(pappers.value), PappersData);
      }
    }
    if Truthy(fromPappers.domain) then DomainChoice(fromPappers, false)
    else
      var urls := Hrefs(WebHits(search, name, city));
      RunBestConsistent(fromPappers, check, urls, WebSearched);
      var fromWeb := RunBest(fromPappers, check, urls, WebSearched);
      if Truthy(fromWeb.domain) then DomainChoice(fromWeb, true)
      else DomainChoice(fromWeb.(source := NameFallback), true)
  }

  /** The contacts, the organisation id kept in the row, and the adapter calls of the contact phase. */
  datatype ContactOutcome = ContactOutcome(contacts: seq<Contact>, orgId: string, calls: seq<Call>)

  /** The contacts found by domain: none when there is no domain to search. */
  function ByDomain(key: Option<string>, api: ApolloApi, domain: Option<string>): seq<Contact>
  {
    if Truthy(domain) then PeopleFound(key, api, None, domain) else []
  }

  /** The organisation id the lookup returns for the domain and the company name. */
  function Lookup(key: Option<string>, api: ApolloApi, domain: Option<string>, name: string): Option<string>
  {
    SearchOrganization(key, api, domain, Some(name)).orgId
  }

  /**
   * Contact lookup: people by domain when a domain was found; when that gives
   * nobody, the organisation lookup, then people by organisation id when an id
   * came back.
   */
  function ContactPhase(key: Option<string>, api: ApolloApi, domain: Option<string>, name: string): (r: ContactOutcome)
    ensures 1 <= |r.calls| <= 3
    ensures forall i :: 0 <= i < |r.calls| ==> !r.calls[i].WebSearchCall?
    // people by domain comes first, and only for a found domain
    ensures Truthy(domain) ==> r.calls[0] == PeopleByDomainCall(domain.value)
    ensures !Truthy(domain) ==> r.calls[0] == OrgLookupCall(domain, name)
    // contacts found by domain end the phase, with no organisation id
    ensures ByDomain(key, api, domain) != [] ==>
              r == ContactOutcome(ByDomain(key, api, domain), "", [PeopleByDomainCall(domain.value)])
    // the organisation lookup runs exactly when the domain gave no contact
    ensures OrgLookupCall(domain, name) in r.calls <==> ByDomain(key, api, domain) == []
    // the row keeps an organisation id exactly when the lookup obtained one,
    // and then people are looked up by that id, last
    ensures r.orgId != "" <==> ByDomain(key, api, domain) == [] && Truthy(Lookup(key, api, domain, name))
    ensures r.orgId != "" ==>
              Some(r.orgId) == Lookup(key, api, domain, name) &&
              r.calls[|r.calls| - 1] == PeopleByOrgCall(r.orgId) &&
              r.contacts == PeopleFound(key, api, Some(r.orgId), None)
    ensures ByDomain(key, api, domain) == [] && !Truthy(Lookup(key, api, domain, name)) ==>
              r.contacts == [] && r.calls[|r.calls| - 1] == OrgLookupCall(domain, name)
    // no other call anywhere in the trace: people by domain only first and for
    // the found domain, people by organisation id only last and for the id
    // obtained, and the organisation lookup at most once, just before it
    ensures forall i :: 0 <= i < |r.calls| && r.calls[i].PeopleByDomainCall? ==>
              i == 0 && Truthy(domain) && r.calls[i] == PeopleByDomainCall(domain.value)
    ensures forall i :: 0 <= i < |r.calls| && r.calls[i].PeopleByOrgCall? ==>
              i == |r.calls| - 1 && r.orgId != "" && r.calls[i] == PeopleByOrgCall(r.orgId)
    ensures forall i :: 0 <= i < |r.calls| && r.calls[i].OrgLookupCall? ==>
              r.calls[i] == OrgLookupCall(domain, name) && i == |r.calls| - 1 - (if r.orgId != "" then 1 else 0)
  {
    var byDomain := ByDomain(key, api, domain);
    if byDomain != [] then ContactOutcome(byDomain, "", [PeopleByDomainCall(domain.value)])
    else
      var orgId := Lookup(key, api, domain, name);
      var lookup := OrgLookupCall(domain, name);
      if Truthy(orgId) then
        var byOrg := PeopleByOrgCall(orgId.value);
        ContactOutcome(PeopleFound(key, api, orgId, None), orgId.value,
                       if Truthy(domain) then [PeopleByDomainCall(domain.value), lookup, byOrg] else [lookup, byOrg])
      else ContactOutcome([], "", if Truthy(domain) then [PeopleByDomainCall(domain.value), lookup] else [lookup])
  }

  /** The result of an enrichment before it is saved, and the adapter calls made. */
  datatype Outcome = Outcome(row: Row, calls: seq<Call>)

  /** What `enrich_syndic` builds on a cache miss. */
  function Enriched(siret: string, name: string, city: string, pappers: Option<LegalRecord>,
                    key: Option<string>, w: World): (o: Outcome)
    ensures o.row.siret == siret && o.row.syndicName == name
    ensures o.row.contacts.Listed? && o.row.lastEnriched.None?
  {
    var choice := ChooseDomain(pappers, name, city, w.ratio, w.search);
    var contact := ContactPhase(key, w.apollo, choice.best.domain, name);
    var searchCalls := if choice.searched then [WebSearchCall(name, city)] else [];
    Outcome(
      Row(siret, name, choice.best.domain, choice.best.source.Tag(), contact.orgId,
          Listed(contact.contacts), choice.best.score, None),
      searchCalls + contact.calls)
  }

  /**
   * The domain columns of an enrichment: the confidence is 0 exactly when no
   * domain was chosen and is above the threshold otherwise; the source tag is
   * one of three and is "name_fallback" exactly when no domain was chosen.
   */
  lemma {:induction false} EnrichedDomain(siret: string, name: string, city: string, pappers: Option<LegalRecord>,
                       key: Option<string>, w: World)
    ensures var row := Enriched(siret, name, city, pappers, key, w).row;
      && (row.domain.None? <==> row.confidence == 0.0)
      && (row.domain.Some? ==> row.domain.value != "" && Threshold < row.confidence <= 100.0)
      && row.domainSource in {"pappers_data", "web_search", "name_fallback"}
      && (row.domainSource == "name_fallback" <==> row.domain.None?)
      && (row.domainSource == "pappers_data" ==> row.domain == FromPappers(pappers, name, w.ratio).domain)
  {
    var choice := ChooseDomain(pappers, name, city, w.ratio, w.search);
    assert Enriched(siret, name, city, pappers, key, w).row.domain == choice.best.domain;
    assert Enriched(siret, name, city, pappers, key, w).row.domainSource == choice.best.source.Tag();
  }

  /**
   * The order of the adapter calls of an enrichment: the web search first and
   * only when the legal information gave no domain; then people by the chosen
   * domain, or, with no domain, the organisation lookup by name.
   */
  lemma {:induction false} EnrichedCalls(siret: string, name: string, city: string, pappers: Option<LegalRecord>,
                      key: Option<string>, w: World)
    ensures var o := Enriched(siret, name, city, pappers, key, w);
      && o.calls != []
      && (o.calls[0] == WebSearchCall(name, city) <==> !Truthy(FromPappers(pappers, name, w.ratio).domain))
      && (forall i :: 1 <= i < |o.calls| ==> !o.calls[i].WebSearchCall?)
      && (o.row.domain.Some? ==> PeopleByDomainCall(o.row.domain.value) in o.calls)
      && (o.row.domain.None? ==> OrgLookupCall(None, name) in o.calls)
  {
    var choice := ChooseDomain(pappers, name, city, w.ratio, w.search);
    var contact := ContactPhase(key, w.apollo, choice.best.domain, name);
    var searchCalls := if choice.searched then [WebSearchCall(name, city)] else [];
    var o := Enriched(siret, name, city, pappers, key, w);
    assert o.calls == searchCalls + contact.calls;
    assert o.row.domain == choice.best.domain;
    assert forall i :: 0 <= i < |contact.calls| ==> !contact.calls[i].WebSearchCall?;
    if choice.best.domain.Some? {
      assert contact.calls[0] == PeopleByDomainCall(choice.best.domain.value);
      assert o.calls[|searchCalls|] == contact.calls[0];
    } else {
      assert contact.calls[0] == OrgLookupCall(None, name);
      assert o.calls[|searchCalls|] == contact.calls[0];
    }
  }

  /**
   * `save_to_cache`'s change to the dictionary it is given: the enrichment
   * time is set, and a contact list becomes its JSON text. Nothing else changes.
   */
  function Persisted(row: Row, now: string, codec: Codec): (r: Row)
    ensures r.lastEnriched == Some(now)
    ensures !r.contacts.Listed?
    ensures row.contacts.Listed? ==> r.contacts == Encoded(codec.encode(row.contacts.contacts))
    ensures !row.contacts.Listed? ==> r.contacts == row.contacts
    ensures r.(lastEnriched := row.lastEnriched, contacts := row.contacts) == row
  {
    var contacts := if row.contacts.Listed? then Encoded(codec.encode(row.contacts.contacts)) else row.contacts;
    row.(lastEnriched := Some(now), contacts := contacts)
  }

  /** The cache-hit change: JSON text is decoded to a list, or to the empty list when malformed. */
  function Decoded(row: Row, codec: Codec): (r: Row)
    ensures !r.contacts.Encoded?
    ensures row.contacts.Encoded? && codec.decode(row.contacts.text).Some? ==>
              r.contacts == Listed(codec.decode(row.contacts.text).value)
    ensures row.contacts.Encoded? && codec.decode(row.contacts.text).None? ==> r.contacts == Listed([])
    ensures r.(contacts := row.contacts) == row
  {
    if row.contacts.Encoded? then
      match codec.decode(row.contacts.text)
      case Some(cs) => row.(contacts := Listed(cs))
      case None => row.(contacts := Listed([]))
    else row
  }

  /**
   * Cache-aside: a row saved by a miss, read back by a later hit, is the row
   * the miss returned with its contacts as a list again.
   */
  lemma {:induction false} CacheRoundTrip(row: Row, now: string, codec: Codec)
    requires RoundTrips(codec)
    requires row.contacts.Listed?
    ensures Decoded(Persisted(row, now, codec), codec) == row.(lastEnriched := Some(now))
  {
    assert codec.decode(codec.encode(row.contacts.contacts)) == Some(row.contacts.contacts);
  }

  /**
   * Steps B and C of `enrich_syndic`: the running best over the
   * legal-information candidates, then over the web results when no candidate
   * was accepted, then the "name_fallback" tag when neither gave a domain.
   */
  method FindDomain(pappers: Option<LegalRecord>, name: string, city: string, w: World)
    returns (best: Best, searched: bool)
    ensures DomainChoice(best, searched) == ChooseDomain(pappers, name, city, w.ratio, w.search)
  {
    best := Initial;
    if pappers.Some? {
      var candidates := BuildCandidates(pappers.value);
      best := SelectBest(best, name, w.ratio, candidates, PappersData);
    }
    assert best == FromPappers(pappers, name, w.ratio);

    searched := false;
    if !Truthy(best.domain) {
      var searchResults := WebSearchSyndic(w.search, name, city);
      searched := true;
      best := SelectBest(best, name, w.ratio, Hrefs(searchResults), WebSearched);
    }
    if !Truthy(best.domain) {
      best := best.(source := NameFallback);
    }
  }

  /**
   * Step D of `enrich_syndic`: people by domain; when nobody is found, the
   * organisation lookup and then people by organisation id.
   */
  method FindContacts(key: Option<string>, api: ApolloApi, domain: Option<string>, name: string)
    returns (contacts: seq<Contact>, orgId: string, calls: seq<Call>)
    ensures ContactOutcome(contacts, orgId, calls) == ContactPhase(key, api, domain, name)
  {
    contacts, calls := [], [];
    if Truthy(domain) {
      contacts := SearchPeople(key, api, None, domain);
      calls := calls + [PeopleByDomainCall(domain.value)];
    }
    if contacts == [] {
      var found := SearchOrganization(key, api, domain, Some(name)).orgId;
      calls := calls + [OrgLookupCall(domain, name)];
      if Truthy(found) {
        contacts := SearchPeople(key, api, found, None);
        calls := calls + [PeopleByOrgCall(found.value)];
        orgId := found.value;
      } else {
        orgId := "";
      }
    } else {
      orgId := "";
    }
  }

  /** The pipeline, with the enrichment cache as a map from SIRET to row. */
  class EnrichmentManager {
    /** The contact service's API key, if configured. */
    const apolloKey: Option<string>
    /** The enrichment cache table. */
    var cache: map<string, Row>

    /** A manager over the cache table as it stands: the table outlives every manager. */
    constructor (apolloKey: Option<string>, table: map<string, Row>)
      ensures this.apolloKey == apolloKey && cache == table
    {
      this.apolloKey := apolloKey;
      cache := table;
    }

    /** `get_cached_data`: the row for the SIRET, or nothing when there is none or the read raises. */
    function GetCachedData(siret: string, readFails: bool): (r: Option<Row>)
      reads this
      ensures r.Some? <==> !readFails && siret in cache
      ensures r.Some? ==> r.value == cache[siret]
    {
      if !readFails && siret in cache then Some(cache[siret]) else None
    }

    /**
     * `save_to_cache`: stamp and encode the row in place, then store it unless
     * the write raises. The changed row is returned, as the caller's dictionary
     * is changed.
     */
    method SaveToCache(data: Row, now: string, codec: Codec, writeFails: bool) returns (saved: Row)
      modifies this
      ensures saved == Persisted(data, now, codec)
      ensures cache == if writeFails then old(cache) else old(cache)[data.siret := saved]
    {
      saved := data.(lastEnriched := Some(now));
      if saved.contacts.Listed? {
        saved := saved.(contacts := Encoded(codec.encode(saved.contacts.contacts)));
      }
      if !writeFails {
        cache := cache[data.siret := saved];
      }
    }

    /**
     * `enrich_syndic`: the cached row, decoded, when the cache holds the SIRET,
     * with no adapter call; otherwise the enrichment, saved and returned as saved.
     */
    method EnrichSyndic(siret: string, name: string, city: string, pappers: Option<LegalRecord>, w: World)
      returns (result: Row, calls: seq<Call>)
      modifies this
      ensures !w.cacheReadFails && siret in old(cache) ==>
                result == Decoded(old(cache)[siret], w.codec) && calls == [] && cache == old(cache)
      ensures !(!w.cacheReadFails && siret in old(cache)) ==>
                var o := Enriched(siret, name, city, pappers, apolloKey, w);
                && result == Persisted(o.row, w.now, w.codec)
                && calls == o.calls
                && cache == if w.cacheWriteFails then old(cache) else old(cache)[siret := result]
    {
      // A. the cache
      var cached := GetCachedData(siret, w.cacheReadFails);
      if cached.Some? {
        result := cached.value;
        if result.contacts.Encoded? {
          var decoded := w.codec.decode(result.contacts.text);
          result := result.(contacts := if decoded.Some? then Listed(decoded.value) else Listed([]));
        }
        return result, [];
      }

      // B, C. the domain
      var best, searched := FindDomain(pappers, name, city, w);
      // D. the contacts
      var contacts, orgId, contactCalls := FindContacts(apolloKey, w.apollo, best.domain, name);
      calls := (if searched then [WebSearchCall(name, city)] else []) + contactCalls;

      // E. the result, saved
      var row := Row(siret, name, best.domain, best.source.Tag(), orgId, Listed(contacts), best.score, None);
      result := SaveToCache(row, w.now, w.codec, w.cacheWriteFails);
    }
  }
}
