# Syndic prospecting: enrichment pipeline, legal lookup and warehouse filters

This project models the core of a prospecting tool for French condominium
managing agents ("syndics") in Dafny:

- **Contact enrichment** (`core/enrichment_manager.py`). Given an agent's
  SIRET, name and city, and possibly its legal-information record, the
  pipeline does three things:
  - finds the agent's web domain: candidates come from the record's websites
    and e-mail, then from a web search, and each is validated against the
    agent's name by a fuzzy score above 65;
  - looks up contacts at the contact-intelligence service (Apollo): by
    domain, then through an organisation lookup;
  - caches the result by SIRET.
- **Legal-information lookup** (`core/pappers_connector.py`, `get_syndic_info`).
  It cleans the SIRET, answers from a cache table when the cached row is
  fresh, and otherwise asks the company registry's API (Pappers). It maps
  the API's record to a row and offers that row to the cache.
- **Warehouse rules** (`core/data_manager.py`). These cover the climate zone
  of a department, the SQL WHERE clause and zone CASE built from the search
  form, and the quoting of an agent's name inside a query.

The modules are:

- `Optional`: absent values and Python truthiness.
- `Text`: Python string operations.
- `Domains`: `clean_domain` and `validate_domain`.
- `WebSearch`: the search-result filter.
- `Apollo`: the two service adapters.
- `Pappers`: `get_syndic_info`.
- `Selection`: candidates and the running best.
- `Enrichment`: `enrich_syndic` and the cache, as class `EnrichmentManager`
  with a `map` field.
- `Warehouse`: the data-manager rules.

The outside world consists of the search engine, the contact service, the
registry API, the API keys, the cache reads and writes, the fuzzy score, the
JSON codec and the clock. All of these are parameters, so the decision logic
around them is proved for every behaviour they may have. The enrichment also
returns the list of adapter calls it made, so that the fallback order can be
stated.

## Model

| member | source | states |
|---|---|---|
| Optional.OrEmpty | core/enrichment_manager.py:260-265 | `x or ""` is the value when it is a non-empty string, else "" |
| Domains.Netloc | core/enrichment_manager.py:66-67 | the network location has no path, query or fragment delimiter, no tab or newline, and paired brackets; the parser's error (None) happens only for a URL holding a bracket |
| Domains.NetlocOfUrl | core/enrichment_manager.py:66-67 | for "http://" or "https://" + host + (empty or a path/query/fragment), the network location is exactly the host, or the parser's error when the host's brackets are unpaired |
| Domains.CleanDomain | core/enrichment_manager.py:61-72 | a cleaned domain contains no capital letter and is a bare host; an input without a bracket always gives a domain, so None comes only from the parser's bracket error |
| Domains.CleanDomainAddsScheme | core/enrichment_manager.py:64-65 | an input that does not start with "http" is cleaned exactly as "https://" + input |
| Domains.CleanDomainOfUrl | core/enrichment_manager.py:61-72 | for an http or https URL scheme + "://" + host + path, the result is the host without a leading lower-case "www.", lower-cased; None when the host's brackets are unpaired |
| Domains.UpperCaseWwwSurvives | core/enrichment_manager.py:68-70 | for an http or https URL, a host starting with "WWW." keeps it, and it comes out as "www." |
| Domains.HostStartingWithHttpIsLost | core/enrichment_manager.py:64-67 | a bare host that starts with "http" and has no ':' gets no scheme and cleans to "" |
| Domains.SchemeAwareKeepsHost | core/enrichment_manager.py:64-72 | with the scheme test on "http://" and "https://", every bare host, "httpbin.org" included, cleans to itself without a leading "www.", lower-cased |
| Domains.CleanDomainStable | core/enrichment_manager.py:61-72 | cleaning a cleaned domain that starts with neither "http" nor "www." returns it unchanged |
| Domains.ValidateDomain | core/enrichment_manager.py:118-141 | (None, 0) for a missing, empty or blacklisted host; otherwise the score is the fuzzy ratio of the name (lower-cased, only [a-zA-Z0-9] kept) and the domain's first label; a domain is returned exactly when the score exceeds 65 |
| Domains.LinkedInRejected | core/enrichment_manager.py:124-127 | a host containing "linkedin.com" gives (None, 0) whatever the name and the score |
| WebSearch.Kept | core/enrichment_manager.py:107-111 | a result is kept exactly when it was returned and its link mentions none of google.com, .gouv.fr and societe.com |
| WebSearch.KeptPrefix | core/enrichment_manager.py:108-111 | the filter works result by result: filtering a concatenation is concatenating the filtered parts, so order is kept |
| WebSearch.WebSearchSyndic | core/enrichment_manager.py:95-116 | the loop returns the filtered results of the "{name} {city}" query, or [] when the search raises |
| Apollo.ToContact | core/enrichment_manager.py:258-266 | each contact field is the person's field when truthy, else ""; a missing title becomes "Unknown Title" |
| Apollo.PeopleRequestFor | core/enrichment_manager.py:222-249 | no request without a key, or with neither an id nor a domain; otherwise the five titles, page 1, ten per page, filtered by domain when a domain is given, else by organisation id |
| Apollo.ContactsFrom | core/enrichment_manager.py:251-266 | on status 200, one contact per returned person, in order; otherwise none |
| Apollo.SearchPeople | core/enrichment_manager.py:220-272 | the loop returns the contacts of the one request posted, or [] when no request is due |
| Apollo.FirstOrganization | core/enrichment_manager.py:170-177 | on status 200, the first of `organizations`, or of `accounts` when that is empty; nothing otherwise |
| Apollo.SearchOrganization | core/enrichment_manager.py:143-218 | no key: no request and no id; a domain request only for a truthy domain, and first; a domain hit ends the lookup with its id; when the domain search finds nothing or there is no domain, the name search (the name, or else the domain's first label) is posted last and the first organisation of its reply gives the id; with no name either, no id |
| Pappers.CleanSiret | core/pappers_connector.py:77-83 | refused exactly when the SIRET is falsy or has fewer than 9 digits; otherwise its digits, in order |
| Pappers.CleanSiretIdempotent | core/pappers_connector.py:80-83 | cleaning a cleaned SIRET changes nothing |
| Pappers.SeparatorsIgnored | core/pappers_connector.py:80-81 | non-digit separators anywhere in a SIRET do not change the cleaned value |
| Pappers.SitesText | core/pappers_connector.py:125 | the ", " join of a list-valued `sites_internet`; otherwise the registered office's site: "" for a missing block or key, None for a null site, the exception for a null block |
| Pappers.OrElse | core/pappers_connector.py:126-136 | Python's `a or b`: the first value when truthy, else the second, null included |
| Pappers.TopOrSiege | core/pappers_connector.py:126-127 | the top-level value (a missing key reads "", a null reads None) when truthy; otherwise the registered office's value, and only then is the office block read |
| Pappers.BuildRecord | core/pappers_connector.py:116-142 | the mapping raises exactly when the office block is null and a fallback needs it; otherwise the row holds the cleaned SIRET, each field as `get` gives it (null stays None) with its fallback, the first representative's names (surname falling back to full name, "" with no representative) and the first year's revenue (0.0 without) |
| Pappers.StaleRecord | core/pappers_connector.py:95-127 | a built row is not fresh exactly when phone and e-mail are both falsy at the top level and null in the office block, so every later lookup of that SIRET asks the API again |
| Pappers.GetSyndicInfo | core/pappers_connector.py:65-160 | refused SIRET gives None; a fresh cached row is returned as is; past the cache, no key gives the "Clé Manquante" record, 404 the "Non trouvé" record, 200 the built record (also the one inserted) unless the mapping raises on a null office block (None), anything else None; only a 200 writes; the inserted row is fresh unless its phone and e-mail are null at both levels |
| Selection.SiteCandidates | core/enrichment_manager.py:308-313 | the comma-separated pieces of a truthy `sites_internet`, stripped, in order; none otherwise |
| Selection.EmailCandidate | core/enrichment_manager.py:315-321 | a candidate exactly for a truthy e-mail containing '@' whose stripped text after the last '@' is not one of the 7 generic providers, and then it is that text |
| Selection.StripPieces | core/enrichment_manager.py:312-313 | the loop over the comma-separated pieces appends each piece stripped, in order |
| Selection.BuildCandidates | core/enrichment_manager.py:304-321 | the loop yields the site candidates, then at most the one e-mail candidate |
| Selection.EmailCandidateOf | core/enrichment_manager.py:316-321 | an address local@domain at a non-generic domain yields that domain |
| Selection.GenericEmailIgnored | core/enrichment_manager.py:319-321 | an address at a generic provider yields no candidate |
| Selection.SitesRoundTrip | core/enrichment_manager.py:309-313 | for sites without commas or surrounding white space, splitting the ", " join (pappers_connector.py:125) on ',' and stripping gives the list back |
| Selection.ValidatorForSound | core/enrichment_manager.py:137-139 | validation accepts a domain only with a score above 65 |
| Selection.RunBestConsistent | core/enrichment_manager.py:323-329 | the running best keeps score 0 with no domain, or a non-empty domain with a score in (65, 100]; its score never drops; it only changes to a candidate of the current phase |
| Selection.RunBestFirstMax | core/enrichment_manager.py:323-329 | from the start, the chosen domain is the first accepted candidate with the highest accepted score; with no accepted candidate nothing is chosen |
| Selection.SelectBest | core/enrichment_manager.py:323-329 | the validation loop computes the running best under the strict-improvement rule |
| Enrichment.Hrefs | core/enrichment_manager.py:336-337 | the links of the search results, one per result, in order |
| Enrichment.ChooseDomain | core/enrichment_manager.py:300-348 | the web is searched exactly when no legal-information candidate was accepted, and then the domain and score are the running best continued over the links of the kept search results; the source is "pappers_data" exactly when it was not searched, "web_search" only for a domain found by the search, and "name_fallback" exactly when no domain was found |
| Enrichment.ContactPhase | core/enrichment_manager.py:352-370 | people by domain first, and only for a found domain; the organisation lookup with (domain, name) exactly when no contact was found by domain; people by organisation id last, and only for an id obtained; the lookup at most once, just before that; no other call anywhere in the trace; the organisation id kept is "" unless obtained |
| Enrichment.Enriched | core/enrichment_manager.py:372-381 | the result row carries the SIRET and name, and its contacts as a list |
| Enrichment.EnrichedDomain | core/enrichment_manager.py:372-381 | confidence 0 exactly when no domain, else in (65, 100]; the source tag is one of three, "name_fallback" exactly when no domain |
| Enrichment.EnrichedCalls | core/enrichment_manager.py:331-363 | the web search is the first call, and made only when the legal information gave no domain; people by the chosen domain follow, or the organisation lookup by name when there is none |
| Enrichment.Persisted | core/enrichment_manager.py:84-93 | saving sets the enrichment time and encodes a contact list as JSON text, changing nothing else |
| Enrichment.Decoded | core/enrichment_manager.py:292-297 | a cached JSON text is decoded to a list, or to [] when malformed; nothing else changes |
| Enrichment.CacheRoundTrip | core/enrichment_manager.py:291-298 | a row saved by a miss and read back by a hit is the returned row with its contacts as a list again |
| Enrichment.FindDomain | core/enrichment_manager.py:300-348 | the imperative steps B and C compute the domain choice |
| Enrichment.FindContacts | core/enrichment_manager.py:352-370 | the imperative step D computes the contact phase |
| Enrichment.EnrichmentManager.constructor | core/enrichment_manager.py:56-59 | the manager holds its API key and sees the cache table as it stands, rows of earlier runs included |
| Enrichment.EnrichmentManager.GetCachedData | core/enrichment_manager.py:74-82 | the cached row exactly when the SIRET is cached and the read does not raise |
| Enrichment.EnrichmentManager.SaveToCache | core/enrichment_manager.py:84-93 | the row is stamped and encoded in place and stored under its SIRET unless the write raises |
| Enrichment.EnrichmentManager.EnrichSyndic | core/enrichment_manager.py:274-384 | a cache hit returns the decoded row with no adapter call and no cache change; a miss returns the enrichment as saved, makes exactly its calls, and stores it unless the write raises |
| Warehouse.ClimateZone | core/data_manager.py:15-24 | total: "H1" exactly for the 52 cold departments, "H3" exactly for the other Mediterranean ones, "H2" for all else |
| Warehouse.ZoneListsDisjoint | core/data_manager.py:11-24 | no Mediterranean department is on the cold list; each is classified "H3" |
| Warehouse.ZoneCaseAgrees | core/data_manager.py:82-92 | the SQL zone CASE classifies every department code as `get_climate_zone` does |
| Warehouse.DbPeriodsAppend | core/data_manager.py:59-61 | the database periods of two label lists are those of each, concatenated in order |
| Warehouse.DbPeriodsSplice | core/data_manager.py:59-61 | one label in a list contributes its mapped values at its place |
| Warehouse.UnknownPeriodIgnored | core/data_manager.py:61 | a label the mapping does not know contributes nothing |
| Warehouse.MidCenturyPeriod | core/data_manager.py:52 | "1949-1974" contributes DE_1949_A_1960 then DE_1961_A_1974 |
| Warehouse.ConditionsShape | core/data_manager.py:42-75 | the first condition is the lots range; the period condition is present exactly when some period maps; the exclusion condition exactly when asked for |
| Warehouse.ConditionsFilters | core/data_manager.py:77-96 | the priority-district condition is present exactly when asked for, and the zone condition exactly when zones are given |
| Warehouse.ConditionsAscending | core/data_manager.py:42-96 | the conditions come in the order lots, periods, exclusions, district, zones, none twice |
| Warehouse.ClauseNeverTrivial | core/data_manager.py:98 | the WHERE clause is never the match-all "1=1", whatever the zone CASE text |
| Warehouse.PeriodValues | core/data_manager.py:59-61 | the loop over the labels extends the list with each label's database values, giving `db_periods` |
| Warehouse.BuildFilterClause | core/data_manager.py:36-98 | the loop over labels and the flag tests build the condition list above, joined with " AND ", and the zone CASE |
| Warehouse.EscapeQuotesLength | core/data_manager.py:139 | escaping adds exactly one character per quote |
| Warehouse.EscapeQuotesReadsBack | core/data_manager.py:139 | for a name without a backslash, the escaped name in quotes reads back as the name |
| Warehouse.TrailingBackslashBreaksLiteral | core/data_manager.py:139 | the name `a\` escaped as written does not read back: its backslash escapes the closing quote |
| Warehouse.EscapeSqlReadsBack | core/data_manager.py:139 | with backslashes escaped too, every name in quotes reads back as itself |
| Warehouse.EscapeSqlAgrees | core/data_manager.py:139 | without a backslash in the name, the corrected escaping is the one written |
| Warehouse.NameConditionAsWritten | core/data_manager.py:139-152 | the per-agent condition with quotes escaped as written; for a name without a backslash it is the corrected condition |
| Warehouse.TrailingBackslashBreaksCondition | core/data_manager.py:139-152 | for the name `a\`, the condition as written does not read back as the name |
| Warehouse.NameCondition | core/data_manager.py:139-152 | the per-agent condition with backslashes escaped too: its literal reads back as exactly the agent's name |

## Left out

- Network, BigQuery and secrets are parameters. These are the search engine, the contact service, the registry API, the API keys, cache reads and writes, and the clock. A request or reply that raises is a reply of its own.
- The fuzzy score (`rapidfuzz.fuzz.partial_ratio`) is an arbitrary function into [0, 100]. Its internals are not modelled.
- The JSON codec is an abstract encode/decode pair. The cache round trip assumes decoding inverts encoding.
- Domains.Netloc models `urlsplit` as follows: leading controls and spaces are stripped, tabs and newlines removed, the scheme is taken up to the first ':', then the text after "//" up to '/', '?' or '#'. An unmatched bracket is the parser's error. IPv6 bracket validation, the NFKC check on the network location and ports are not modelled.
- Text.Lower and Text.Digits cover ASCII only: `str.lower` and `str.isdigit` also act on other Unicode letters and digits.
- Enrichment.EnrichmentManager: the cache table is a map from SIRET to row. The table appends rows and `LIMIT 1` returns one of them, while the map keeps the last row written.
- Enrichment.Row: a `contacts_json` holding a dictionary is not modelled. The column is a contact list, its JSON text, or null.
- Pappers.GetSyndicInfo: the SIRET is a string. `str(siret)` on other types, and SQL interpolation of the SIRET into the cache query, are not modelled.
- Pappers.Company: the elements of a `sites_internet` list are texts. A list holding null, which would make the join raise, is not modelled. Neither is a representative or a year of finances that is null rather than an object.
- Domains.ValidateDomain: uses the cleaning as written. The scheme-aware cleaning of the findings below is stated beside it and not used by the rest of the model.
- Pappers.Fresh: a null cell and a missing column are both None. Whether pandas reports a null cell as None or NaN is not modelled.
- Pappers.BuildRecord: the `float(...)` casts are real numbers, and the timestamp is the `now` parameter. Pappers.NotFoundRecord's integer 0 and the other revenues' 0.0 are the same value here.
- Exceptions raised part-way through a loop are not modelled. An example is a result that is not a dictionary, which would leave a partial list.
- Apollo.SearchOrganization and Apollo.SearchPeople: request headers, the endpoints and the timeout are not modelled. Status codes and bodies come from the parameter.
- WebSearch.WebSearchSyndic: the request asks for five results, but the model does not bound the number of results the search engine returns.
- Enrichment.EnrichmentManager.EnrichSyndic: a legal-information record with no usable field stands for both an empty dictionary and a missing record. Both give no candidate.
- Warehouse.BuildFilterClause: `periods` of None and [] are both the empty list. The lots bounds are integers, and zone names are inserted as given.
- Warehouse.ReadLiteral reads a literal with backslash escapes taken character for character. BigQuery's other escape sequences (`\n`, `\x..`) are not modelled.
- `init_cache_table`, `init_enrichment_cache`, the `fetch_*` query functions, the pandas clean-up, the debug prints and the Streamlit user interface are not part of this model.

## Findings

| source | as written | input that shows it | evidently intended | confidence | as-written member | corrected member |
|---|---|---|---|---|---|---|
| core/data_manager.py:139 | only quotes get a backslash, so a backslash in the name escapes the next character of the query | the agent name `a\`: the query reads `'a\'`, where the closing quote is escaped and the literal runs on into the rest of the query | backslashes escaped as well, so every name reads back as itself | not executed | Warehouse.TrailingBackslashBreaksCondition | Warehouse.NameCondition |
| core/enrichment_manager.py:64 | `startswith('http')` is taken as "has a scheme", so a bare host that begins with "http" gets no scheme and the parser finds no network location in it | the candidate `httpbin.org` cleans to "" and is then rejected | add "https://" unless the input starts with "http://" or "https://" | not executed | Domains.HostStartingWithHttpIsLost | Domains.SchemeAwareKeepsHost |
