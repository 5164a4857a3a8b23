/**
 * The adapters for the contact-intelligence service (`search_apollo_org` and
 * `search_apollo_people` in core/enrichment_manager.py). The service is a
 * parameter: a function from each request to its reply, where an exception
 * (timeout, connection error, unreadable body) is a reply of its own.
 */
module Apollo {
  import opened Optional
  import opened Domains

  /** The job titles the people search asks for. */
  const PersonTitles: seq<string> := ["Gestionnaire", "Principal", "Directeur copropriété", "Syndic", "Gérant"]

  /** The title given to a person the service returns without one. */
  const UnknownTitle: string := "Unknown Title"

  /** A person as the service returns it: every field may be missing or null. */
  datatype Person = Person(
    firstName: Option<string>, lastName: Option<string>, title: Option<string>,
    email: Option<string>, linkedinUrl: Option<string>, photoUrl: Option<string>)

  /** A contact as the pipeline keeps it: every field present. */
  datatype Contact = Contact(
    firstName: string, lastName: string, title: string,
    email: string, linkedinUrl: string, photoUrl: string)

  datatype PeopleFilter = ByDomain(domain: string) | ByOrganization(orgId: string)
  datatype PeopleRequest = PeopleRequest(titles: seq<string>, filter: PeopleFilter, page: nat, perPage: nat)
  datatype PeopleReply = PeopleRaised | PeopleResponse(status: int, people: seq<Person>)

  /** An organisation as the service returns it, with its two possible identifiers. */
  datatype OrgItem = OrgItem(organizationId: Option<string>, id: Option<string>)
  datatype OrgFilter = ByDomains(domains: seq<string>) | ByName(name: string)
  datatype OrgRequest = OrgRequest(filter: OrgFilter, page: nat, perPage: nat)
  datatype OrgReply = OrgRaised | OrgResponse(status: int, organizations: seq<OrgItem>, accounts: seq<OrgItem>)

  /** The two endpoints of the service. */
  datatype ApolloApi = ApolloApi(searchOrganizations: OrgRequest -> OrgReply, searchPeople: PeopleRequest -> PeopleReply)

  /** The contact for one returned person: missing fields become "", a missing title "Unknown Title". */
  function ToContact(p: Person): (c: Contact)
    ensures c.title != ""
    ensures Truthy(p.title) ==> c.title == p.title.value
    ensures !Truthy(p.title) ==> c.title == UnknownTitle
    ensures Truthy(p.firstName) ==> c.firstName == p.firstName.value
    ensures !Truthy(p.firstName) ==> c.firstName == ""
    ensures Truthy(p.lastName) ==> c.lastName == p.lastName.value
    ensures !Truthy(p.lastName) ==> c.lastName == ""
    ensures Truthy(p.email) ==> c.email == p.email.value
    ensures !Truthy(p.email) ==> c.email == ""
    ensures Truthy(p.linkedinUrl) ==> c.linkedinUrl == p.linkedinUrl.value
    ensures !Truthy(p.linkedinUrl) ==> c.linkedinUrl == ""
    ensures Truthy(p.photoUrl) ==> c.photoUrl == p.photoUrl.value
    ensures !Truthy(p.photoUrl) ==> c.photoUrl == ""
  {
    Contact(
      OrEmpty(p.firstName), OrEmpty(p.lastName),
      if Truthy(p.title) then p.title.value else UnknownTitle,
      OrEmpty(p.email), OrEmpty(p.linkedinUrl), OrEmpty(p.photoUrl))
  }

  /**
   * The request `search_apollo_people` posts, if any: none without an API key or
   * without an organisation id and a domain; filtered by domain when a domain is
   * given, else by organisation id.
   */
  function PeopleRequestFor(key: Option<string>, orgId: Option<string>, domain: Option<string>): (r: Option<PeopleRequest>)
    ensures r.None? <==> !Truthy(key) || (!Truthy(orgId) && !Truthy(domain))
    ensures r.Some? ==> r.value.titles == PersonTitles && r.value.page == 1 && r.value.perPage == 10
    ensures r.Some? && Truthy(domain) ==> r.value.filter == ByDomain(domain.value)
    ensures r.Some? && !Truthy(domain) ==> r.value.filter == ByOrganization(orgId.value)
  {
    if !Truthy(key) then None
    else if !Truthy(orgId) && !Truthy(domain) then None
    else
      var filter := if Truthy(domain) then ByDomain(domain.value) else ByOrganization(orgId.value);
      Some(PeopleRequest(PersonTitles, filter, 1, 10))
  }

  /** The contacts a reply yields: one per returned person on status 200, none otherwise. */
  function ContactsFrom(reply: PeopleReply): (cs: seq<Contact>)
    ensures reply.PeopleResponse? && reply.status == 200 ==>
              |cs| == |reply.people| && forall i :: 0 <= i < |cs| ==> cs[i] == ToContact(reply.people[i])
    ensures !(reply.PeopleResponse? && reply.status == 200) ==> cs == []
  {
    if reply.PeopleResponse? && reply.status == 200 then
      seq(|reply.people|, i requires 0 <= i < |reply.people| => ToContact(reply.people[i]))
    else []
  }

  /** What `search_apollo_people` returns, as a function of the service. */
  function PeopleFound(key: Option<string>, api: ApolloApi, orgId: Option<string>, domain: Option<string>): seq<Contact>
  {
    match PeopleRequestFor(key, orgId, domain)
    case None => []
    case Some(q) => ContactsFrom(api.searchPeople(q))
  }

  /** `search_apollo_people`: post the request, then turn each returned person into a contact. */
  method SearchPeople(key: Option<string>, api: ApolloApi, orgId: Option<string>, domain: Option<string>)
    returns (contacts: seq<Contact>)
    ensures contacts == PeopleFound(key, api, orgId, domain)
    ensures PeopleRequestFor(key, orgId, domain).None? ==> contacts == []
  {
    if !Truthy(key) {
      return [];
    }
    if !Truthy(orgId) && !Truthy(domain) {
      return [];
    }
    var filter := if Truthy(domain) then ByDomain(domain.value) else ByOrganization(orgId.value);
    var request := PeopleRequest(PersonTitles, filter, 1, 10);
    contacts := [];
    var reply := api.searchPeople(request);
    if reply.PeopleResponse? && reply.status == 200 {
      var people := reply.people;
      var i := 0;
      while i < |people|
        invariant 0 <= i <= |people|
        invariant |contacts| == i
        invariant forall j :: 0 <= j < i ==> contacts[j] == ToContact(people[j])
      {
        contacts := contacts + [ToContact(people[i])];
        i := i + 1;
      }
    }
  }

  /** The organisation a reply points at: the first of `organizations`, or of `accounts` when that is empty. */
  function FirstOrganization(reply: OrgReply): (r: Option<OrgItem>)
    ensures r.Some? ==> reply.OrgResponse? && reply.status == 200
    ensures r.Some? && reply.organizations != [] ==> r.value == reply.organizations[0]
    ensures r.Some? && reply.organizations == [] ==> reply.accounts != [] && r.value == reply.accounts[0]
    ensures r.None? && reply.OrgResponse? && reply.status == 200 ==> reply.organizations == [] && reply.accounts == []
  {
    if reply.OrgResponse? && reply.status == 200 then
      var items := if reply.organizations != [] then reply.organizations else reply.accounts;
      if items != [] then Some(items[0]) else None
    else None
  }

  /** `item.get('organization_id') or item.get('id')`. */
  function ItemId(item: OrgItem): Option<string>
  {
    if Truthy(item.organizationId) then item.organizationId else item.id
  }

  /** The outcome of the organisation search: the id found, if any, and the requests posted in order. */
  datatype OrgLookup = OrgLookup(orgId: Option<string>, sent: seq<OrgRequest>)

  function DomainRequest(domain: string): OrgRequest
  {
    OrgRequest(ByDomains([domain]), 1, 1)
  }

  function NameRequest(name: string): OrgRequest
  {
    OrgRequest(ByName(name), 1, 1)
  }

  /** The id a reply gives: that of its first organisation, if any. */
  function IdFound(reply: OrgReply): Option<string>
  {
    match FirstOrganization(reply)
    case Some(item) => ItemId(item)
    case None => None
  }

  /** The domain search finds nothing, or there is no domain to search. */
  predicate DomainMissed(api: ApolloApi, domain: Option<string>)
  {
    !Truthy(domain) || FirstOrganization(api.searchOrganizations(DomainRequest(domain.value))).None?
  }

  /** The name the fallback searches for: the given name, else the domain's first label. */
  function FallbackName(domain: Option<string>, name: Option<string>): Option<string>
  {
    if !Truthy(name) && Truthy(domain) then Some(DomainLabel(domain.value)) else name
  }

  /**
   * `search_apollo_org`: search by domain first; when that finds nothing, search
   * by name. The first organisation found decides the result, even when it has
   * no identifier.
   */
  function SearchOrganization(key: Option<string>, api: ApolloApi, domain: Option<string>, name: Option<string>): (r: OrgLookup)
    // no key: nothing is posted and nothing is found
    ensures !Truthy(key) ==> r == OrgLookup(None, [])
    ensures |r.sent| <= 2
    // with a key and a domain, the domain search goes first
    ensures Truthy(key) && Truthy(domain) ==> r.sent != [] && r.sent[0] == DomainRequest(domain.value)
    // the domain search finding an organisation ends the lookup with that organisation's id
    ensures Truthy(key) && Truthy(domain) && FirstOrganization(api.searchOrganizations(DomainRequest(domain.value))).Some?
            ==> r == OrgLookup(ItemId(FirstOrganization(api.searchOrganizations(DomainRequest(domain.value))).value), [DomainRequest(domain.value)])
    // a domain request is posted only for a truthy domain, and first
    ensures forall k :: 0 <= k < |r.sent| && r.sent[k].filter.ByDomains? ==>
              k == 0 && Truthy(domain) && r.sent[k] == DomainRequest(domain.value)
    // when the domain search finds nothing, the name search is posted last and its reply decides the id
    ensures Truthy(key) && DomainMissed(api, domain) && Truthy(FallbackName(domain, name)) ==>
              r.sent != [] && r.sent[|r.sent| - 1] == NameRequest(FallbackName(domain, name).value) &&
              r.orgId == IdFound(api.searchOrganizations(NameRequest(FallbackName(domain, name).value)))
    // with no name to fall back on, the lookup ends without an id
    ensures Truthy(key) && DomainMissed(api, domain) && !Truthy(FallbackName(domain, name)) ==> r.orgId == None
    // the name search is the last request, and only for a truthy name or, failing that, the domain's first label
    ensures forall k :: 0 <= k < |r.sent| && r.sent[k].filter.ByName? ==>
              k == |r.sent| - 1 && Truthy(FallbackName(domain, name)) && r.sent[k] == NameRequest(FallbackName(domain, name).value)
    // an id comes from the first organisation in the reply to the last request
    ensures r.orgId.Some? ==>
              (r.sent != [] &&
               FirstOrganization(api.searchOrganizations(r.sent[|r.sent| - 1])).Some? &&
               r.orgId == ItemId(FirstOrganization(api.searchOrganizations(r.sent[|r.sent| - 1])).value))
  {
    if !Truthy(key) then OrgLookup(None, [])
    else
      var byDomain := if Truthy(domain) then [DomainRequest(domain.value)] else [];
      var found := if Truthy(domain) then FirstOrganization(api.searchOrganizations(byDomain[0])) else None;
      if found.Some? then OrgLookup(ItemId(found.value), byDomain)
      else
        var searchName := FallbackName(domain, name);
        if Truthy(searchName) then
          var q := NameRequest(searchName.value);
          match FirstOrganization(api.searchOrganizations(q))
          case Some(item) => OrgLookup(ItemId(item), byDomain + [q])
          case None => OrgLookup(None, byDomain + [q])
        else OrgLookup(None, byDomain)
  }
}
