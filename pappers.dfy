/**
 * The legal-information lookup (`get_syndic_info` in core/pappers_connector.py):
 * clean the SIRET, read the cache table, fall back to the company registry's
 * API when the cached row is missing or predates the contact columns, map the
 * API's company record to a cache row, and offer that row to the cache.
 *
 * The cache read, the API key and the API are parameters; the cache insert is
 * returned as an out-parameter, since its failure changes nothing the caller sees.
 */
module Pappers {
  import opened Optional
  import opened Text

  /** A field of a JSON object: a missing key, `null`, or a value. */
  datatype Field<T> = Missing | Null | Given(value: T)

  /** `obj.get(key, default)`: the default for a missing key, None for `null`. */
  function Get(f: Field<string>, default: string): Option<string>
  {
    match f
    case Missing => Some(default)
    case Null => None
    case Given(v) => Some(v)
  }

  /** The registered office block of a company record. */
  datatype Siege = Siege(siteInternet: Field<string>, telephone: Field<string>, email: Field<string>)

  /** The three fields read from the registered office block. */
  datatype SiegeKey = SiteKey | PhoneKey | EmailKey

  /** A legal representative of the company. */
  datatype Representative = Representative(nom: Field<string>, nomComplet: Field<string>, prenom: Field<string>)

  /** One year of financial statements; a missing and a null revenue are read alike. */
  datatype Finance = Finance(chiffreAffaires: Option<real>)

  /**
   * The company record the API returns. `sitesInternet` is None when the field
   * is not a list (missing, null or another type). A missing or null list of
   * representatives or of finances reads as the empty list, which the source
   * treats alike (both are falsy).
   */
  datatype Company = Company(
    denomination: Field<string>, codeNaf: Field<string>,
    sitesInternet: Option<seq<string>>, siege: Field<Siege>,
    telephone: Field<string>, email: Field<string>,
    lienLinkedin: Field<string>, categorie: Field<string>,
    representants: seq<Representative>, finances: seq<Finance>)

  /** The request: the cleaned SIRET and the API token. */
  datatype PappersRequest = PappersRequest(siret: string, apiToken: string)

  /** The API's answer: an exception, or a status with (for 200) a company record. */
  datatype PappersReply = PappersRaised | PappersResponse(status: int, company: Company)

  /** A row of the cache table, which is also the dictionary the lookup returns. */
  datatype LegalRecord = LegalRecord(
    siret: Option<string>, denomination: Option<string>,
    nomDirigeant: Option<string>, prenomDirigeant: Option<string>,
    codeApe: Option<string>, caAnnuel: Option<real>, derniereMaj: Option<string>,
    sitesInternet: Option<string>, telephone: Option<string>, email: Option<string>,
    lienLinkedin: Option<string>, categorie: Option<string>)

  /** The outcome of the cache query: an exception, no row, or the first row. */
  datatype CacheRead = ReadFailed | NoRow | CachedRow(row: LegalRecord)

  /** The minimum number of digits a SIRET must keep to be looked up. */
  const MinSiretDigits: nat := 9

  /** The answer when no API key is configured. */
  const MissingKeyRecord: LegalRecord :=
    LegalRecord(None, None, Some("Clé Manquante"), None, None, None, None, None, None, None, None, None)

  /** The answer when the API does not know the SIRET. */
  const NotFoundRecord: LegalRecord :=
    LegalRecord(None, None, Some("Non trouvé"), None, None, Some(0.0), None, None, None, None, None, None)

  /** A cached row written since the contact columns exist: its phone or its e-mail is not null. */
  predicate Fresh(row: LegalRecord)
  {
    row.telephone.Some? || row.email.Some?
  }

  /** A text made of digits is left alone by `strip`. */
  lemma {:induction false} StripDigits(s: string)
    requires forall i :: 0 <= i < |s| ==> IsDigit(s[i])
    ensures Strip(s) == s
  {
    TrimmedStrip(s);
  }

  /**
   * The SIRET cleaning: a falsy SIRET, or one with fewer than nine digits, is
   * refused; otherwise its digits are kept, in order.
   */
  function CleanSiret(siret: Option<string>): (r: Option<string>)
    ensures r.Some? <==> Truthy(siret) && |Digits(siret.value)| >= MinSiretDigits
    ensures r.Some? ==> r.value == Digits(siret.value)
  {
    if !Truthy(siret) then None
    else
      var digits := Digits(siret.value);
      StripDigits(digits);
      var clean := Strip(digits);
      if clean == "" || |clean| < MinSiretDigits then None else Some(clean)
  }

  /** Digits are kept by the digit filter. */
  lemma {:induction false} DigitsOfDigits(s: string)
    requires forall i :: 0 <= i < |s| ==> IsDigit(s[i])
    ensures Digits(s) == s
  {
    if s != [] {
      DigitsOfDigits(s[1..]);
    }
  }

  /** Cleaning a cleaned SIRET changes nothing. */
  lemma {:induction false} CleanSiretIdempotent(siret: Option<string>)
    requires CleanSiret(siret).Some?
    ensures CleanSiret(CleanSiret(siret)) == CleanSiret(siret)
  {
    DigitsOfDigits(CleanSiret(siret).value);
  }

  /** Separators between the digits of a SIRET do not matter. */
  lemma {:induction false} SeparatorsIgnored(a: string, sep: string, b: string)
    requires forall i :: 0 <= i < |sep| ==> !IsDigit(sep[i])
    ensures CleanSiret(Some(a + sep + b)) == CleanSiret(Some(a + b))
  {
    DigitsSkipSeparator(a, sep, b);
    CleanSiretByDigits(a + sep + b, a + b);
  }

  /** The digit filter skips a separator without digits. */
  lemma {:induction false} DigitsSkipSeparator(a: string, sep: string, b: string)
    requires forall i :: 0 <= i < |sep| ==> !IsDigit(sep[i])
    ensures Digits(a + sep + b) == Digits(a + b)
  {
    DigitsConcat(a, sep);
    NoDigits(sep);
    assert Digits(a + sep) == Digits(a) by {
      assert Digits(a) + [] == Digits(a);
    }
    DigitsConcat(a + sep, b);
    DigitsConcat(a, b);
  }

  /** The cleaned SIRET depends only on the digits of the input. */
  lemma {:induction false} CleanSiretByDigits(x: string, y: string)
    requires Digits(x) == Digits(y)
    ensures CleanSiret(Some(x)) == CleanSiret(Some(y))
  {
  }

  lemma {:induction false} NoDigits(s: string)
    requires forall i :: 0 <= i < |s| ==> !IsDigit(s[i])
    ensures Digits(s) == []
  {
    if s != [] {
      NoDigits(s[1..]);
    }
  }

  /** A read of the registered office block: the value, or the exception a null block raises. */
  datatype Lookup = Raised | Found(value: Option<string>)

  function SiegeField(s: Siege, k: SiegeKey): Field<string>
  {
    match k
    case SiteKey => s.siteInternet
    case PhoneKey => s.telephone
    case EmailKey => s.email
  }

  /** `data.get("siege", {}).get(key, "")`: a missing block reads as empty; a null block raises. */
  function FromSiege(c: Company, k: SiegeKey): Lookup
  {
    match c.siege
    case Missing => Found(Some(""))
    case Null => Raised
    case Given(s) => Found(Get(SiegeField(s, k), ""))
  }

  /** Python's `a or b`: the first value when it is truthy, else the second. */
  function OrElse(a: Option<string>, b: Option<string>): (r: Option<string>)
    ensures Truthy(a) ==> r == a
    ensures !Truthy(a) ==> r == b
  {
    if Truthy(a) then a else b
  }

  /** `data.get(key, "") or data.get("siege", {}).get(key, "")`: the block is read only when the top value is falsy. */
  function TopOrSiege(top: Field<string>, c: Company, k: SiegeKey): (r: Lookup)
    ensures Truthy(Get(top, "")) ==> r == Found(Get(top, ""))
    ensures !Truthy(Get(top, "")) ==> r == FromSiege(c, k)
  {
    var first := Get(top, "");
    if Truthy(first) then Found(first) else FromSiege(c, k)
  }

  /** `sites_internet`: the ", " join of a list-valued field, else the registered office's site. */
  function SitesText(c: Company): (r: Lookup)
    ensures c.sitesInternet.Some? ==> r == Found(Some(Join(", ", c.sitesInternet.value)))
    ensures c.sitesInternet.None? ==> r == FromSiege(c, SiteKey)
  {
    if c.sitesInternet.Some? then Found(Some(Join(", ", c.sitesInternet.value))) else FromSiege(c, SiteKey)
  }

  /**
   * The record makes the mapping raise: its registered office block is null and
   * one of the three fields that fall back to it needs it.
   */
  predicate SiegeRaises(c: Company)
  {
    && c.siege.Null?
    && (c.sitesInternet.None? || !Truthy(Get(c.telephone, "")) || !Truthy(Get(c.email, "")))
  }

  /** The revenue of one year: `float(chiffre_affaires or 0)`. */
  function Revenue(f: Finance): real
  {
    if f.chiffreAffaires.Some? && f.chiffreAffaires.value != 0.0 then f.chiffreAffaires.value else 0.0
  }

  /**
   * `rec` is the row built from the company record `c` for the cleaned SIRET
   * `clean` at time `now`; the three office fallbacks did not raise.
   */
  predicate RecordOf(rec: LegalRecord, clean: string, c: Company, now: string)
  {
    && rec.siret == Some(clean)
    && rec.derniereMaj == Some(now)
    && rec.denomination == Get(c.denomination, "")
    && rec.codeApe == Get(c.codeNaf, "")
    && SitesText(c).Found? && rec.sitesInternet == SitesText(c).value
    && TopOrSiege(c.telephone, c, PhoneKey).Found? && rec.telephone == TopOrSiege(c.telephone, c, PhoneKey).value
    && TopOrSiege(c.email, c, EmailKey).Found? && rec.email == TopOrSiege(c.email, c, EmailKey).value
    && rec.lienLinkedin == Get(c.lienLinkedin, "")
    && rec.categorie == Get(c.categorie, "")
    // the leader is the first representative, the surname falling back to the full name
    && (c.representants == [] ==> rec.nomDirigeant == Some("") && rec.prenomDirigeant == Some(""))
    && (c.representants != [] ==>
          rec.prenomDirigeant == Get(c.representants[0].prenom, "") &&
          rec.nomDirigeant == OrElse(Get(c.representants[0].nom, ""), Get(c.representants[0].nomComplet, "")))
    // the revenue is that of the first year listed, or zero
    && (c.finances == [] ==> rec.caAnnuel == Some(0.0))
    && (c.finances != [] ==> rec.caAnnuel == Some(Revenue(c.finances[0])))
  }

  /**
   * The mapping of an API answer to a row: the fields with their fallbacks,
   * then the leader and the revenue written over their defaults. None where a
   * fallback reads a null registered office block and raises.
   */
  method BuildRecord(cleanSiret: string, data: Company, now: string) returns (result: Option<LegalRecord>)
    ensures result.None? <==> SiegeRaises(data)
    ensures result.Some? ==> RecordOf(result.value, cleanSiret, data, now)
  {
    var sites := SitesText(data);
    if sites.Raised? {
      return None;
    }
    var telephone := TopOrSiege(data.telephone, data, PhoneKey);
    if telephone.Raised? {
      return None;
    }
    var email := TopOrSiege(data.email, data, EmailKey);
    if email.Raised? {
      return None;
    }
    var rec := LegalRecord(
      Some(cleanSiret), Get(data.denomination, ""), Some(""), Some(""),
      Get(data.codeNaf, ""), Some(0.0), Some(now),
      sites.value, telephone.value, email.value,
      Get(data.lienLinkedin, ""), Get(data.categorie, ""));

    var representants := data.representants;
    if representants != [] {
      var firstRep := representants[0];
      rec := rec.(nomDirigeant := OrElse(Get(firstRep.nom, ""), Get(firstRep.nomComplet, "")),
                  prenomDirigeant := Get(firstRep.prenom, ""));
    }

    var finances := data.finances;
    if finances != [] {
      rec := rec.(caAnnuel := Some(Revenue(finances[0])));
    }
    result := Some(rec);
  }

  /** A contact field the API gives as falsy at the top level and as null in the registered office block. */
  predicate NullAtBothLevels(top: Field<string>, c: Company, k: SiegeKey)
  {
    !Truthy(Get(top, "")) && c.siege.Given? && SiegeField(c.siege.value, k).Null?
  }

  /**
   * A row built from an API answer is fresh unless the phone and the e-mail
   * are both null at both levels; such a row is stored with neither, so the
   * next lookup takes it for a row written before the contact columns.
   */
  lemma {:induction false} StaleRecord(rec: LegalRecord, clean: string, c: Company, now: string)
    requires RecordOf(rec, clean, c, now)
    ensures !Fresh(rec) <==> NullAtBothLevels(c.telephone, c, PhoneKey) && NullAtBothLevels(c.email, c, EmailKey)
  {
    NullOrFound(c.telephone, c, PhoneKey);
    NullOrFound(c.email, c, EmailKey);
  }

  /** A field with a fallback reads null exactly when it is null at both levels. */
  lemma {:induction false} NullOrFound(top: Field<string>, c: Company, k: SiegeKey)
    requires TopOrSiege(top, c, k).Found?
    ensures TopOrSiege(top, c, k).value.None? <==> NullAtBothLevels(top, c, k)
  {
    if !Truthy(Get(top, "")) && c.siege.Given? {
      assert TopOrSiege(top, c, k) == Found(Get(SiegeField(c.siege.value, k), ""));
    }
  }

  /**
   * `get_syndic_info`. The result is None for a refused SIRET, for an API error,
   * for a record whose null registered office block makes the mapping raise,
   * and for any status other than 200 and 404. A fresh cached row is returned
   * as it is. Otherwise the API is asked, and its record is built field by
   * field, with the leader and the revenue filled in afterwards, then offered
   * to the cache.
   */
  method GetSyndicInfo(siret: Option<string>, cacheRead: string -> CacheRead, apiKey: Option<string>,
                       api: PappersRequest -> PappersReply, now: string)
    returns (info: Option<LegalRecord>, inserted: Option<LegalRecord>)
    // refused SIRET: nothing is read, asked or written
    ensures CleanSiret(siret).None? ==> info == None && inserted == None
    // a fresh cached row is the answer
    ensures CleanSiret(siret).Some? && cacheRead(CleanSiret(siret).value).CachedRow? &&
            Fresh(cacheRead(CleanSiret(siret).value).row) ==>
              info == Some(cacheRead(CleanSiret(siret).value).row) && inserted == None
    // only the API path writes to the cache, and it writes what it returns
    ensures inserted.Some? ==> info == inserted
    ensures inserted.Some? ==>
              (Truthy(apiKey) && CleanSiret(siret).Some? &&
              api(PappersRequest(CleanSiret(siret).value, apiKey.value)).PappersResponse? &&
              api(PappersRequest(CleanSiret(siret).value, apiKey.value)).status == 200)
    // past the cache, a missing key, a 404 and every other failure
    ensures CleanSiret(siret).Some? && !(cacheRead(CleanSiret(siret).value).CachedRow? &&
            Fresh(cacheRead(CleanSiret(siret).value).row)) ==>
              (!Truthy(apiKey) ==> info == Some(MissingKeyRecord) && inserted == None) &&
              (Truthy(apiKey) ==>
                 var reply := api(PappersRequest(CleanSiret(siret).value, apiKey.value));
                 (reply.PappersResponse? && reply.status == 200 && !SiegeRaises(reply.company) <==> inserted.Some?) &&
                 (reply.PappersResponse? && reply.status == 200 && SiegeRaises(reply.company) ==> info == None) &&
                 (reply.PappersResponse? && reply.status == 404 ==> info == Some(NotFoundRecord)) &&
                 (!(reply.PappersResponse? && (reply.status == 200 || reply.status == 404)) ==> info == None))
    // the record built from an API answer
    ensures inserted.Some? ==>
              RecordOf(inserted.value, CleanSiret(siret).value, api(PappersRequest(CleanSiret(siret).value, apiKey.value)).company, now)
    // which the next lookup finds fresh unless its phone and e-mail are null at both levels
    ensures inserted.Some? ==>
              var c := api(PappersRequest(CleanSiret(siret).value, apiKey.value)).company;
              (Fresh(inserted.value) <==> !(NullAtBothLevels(c.telephone, c, PhoneKey) && NullAtBothLevels(c.email, c, EmailKey)))
  {
    info, inserted := None, None;
    var clean := CleanSiret(siret);
    if clean.None? {
      return;
    }
    var cleanSiret := clean.value;

    var cached := cacheRead(cleanSiret);
    if cached.CachedRow? {
      var res := cached.row;
      if res.telephone.Some? || res.email.Some? {
        info := Some(res);
        return;
      }
    }

    if !Truthy(apiKey) {
      info := Some(MissingKeyRecord);
      return;
    }

    var response := api(PappersRequest(cleanSiret, apiKey.value));
    if response.PappersRaised? {
      return;
    }
    if response.status == 200 {
      var result := BuildRecord(cleanSiret, response.company, now);
      if result.Some? {
        StaleRecord(result.value, cleanSiret, response.company, now);
        inserted := result;
        info := result;
      }
    } else if response.status == 404 {
      info := Some(NotFoundRecord);
    }
  }
}
