/**
 * The rules of the property data warehouse queries (core/data_manager.py):
 * the climate zone of a French department, the SQL filter built from the
 * search form, and the quoting of a managing agent's name in a query.
 */
module Warehouse {
  import opened Optional
  import opened Text

  /** Departments of the cold, continental zone, written in four runs of thirteen codes. */
  const H1Departments: seq<string> :=
      ["01", "02", "03", "05", "08", "10", "14", "15", "19", "21", "23", "25", "26"]
    + ["27", "28", "38", "39", "42", "43", "45", "51", "52", "54", "55", "57", "58"]
    + ["59", "60", "61", "62", "63", "67", "68", "69", "70", "71", "73", "74", "75"]
    + ["76", "77", "78", "80", "87", "88", "89", "90", "91", "92", "93", "94", "95"]

  /** Departments of the Mediterranean zone. */
  const H3Departments: seq<string> := ["11", "13", "30", "34", "66", "83", "2A", "2B", "06"]

  /** `get_climate_zone`: "H1" for the cold list, then "H3" for the Mediterranean list, else "H2". */
  function ClimateZone(code: string): (z: string)
    ensures z in {"H1", "H2", "H3"}
    ensures z == "H1" <==> code in H1Departments
    ensures z == "H3" <==> code !in H1Departments && code in H3Departments
    ensures z == "H2" <==> code !in H1Departments && code !in H3Departments
  {
    if code in H1Departments then "H1"
    else if code in H3Departments then "H3"
    else "H2"
  }

  /** No department is on both lists, so the order of the two tests does not matter. */
  lemma {:induction false} ZoneListsDisjoint(code: string)
    requires code in H3Departments
    ensures code !in H1Departments
    ensures ClimateZone(code) == "H3"
  {
    assert code !in ["01", "02", "03", "05", "08", "10", "14", "15", "19", "21", "23", "25", "26"];
    assert code !in ["27", "28", "38", "39", "42", "43", "45", "51", "52", "54", "55", "57", "58"];
    assert code !in ["59", "60", "61", "62", "63", "67", "68", "69", "70", "71", "73", "74", "75"];
    assert code !in ["76", "77", "78", "80", "87", "88", "89", "90", "91", "92", "93", "94", "95"];
  }

  /** One `WHEN column IN (codes) THEN 'zone'` arm of a SQL CASE on the department column. */
  datatype When = When(codes: seq<string>, zone: string)

  /** A SQL CASE on the department column: the arms in order, then the ELSE value. */
  datatype CaseExpr = CaseExpr(whens: seq<When>, otherwise: string)

  /** The zone CASE the filter builder emits. */
  const ZoneCase: CaseExpr := CaseExpr([When(H1Departments, "H1"), When(H3Departments, "H3")], "H2")

  /** SQL's reading of a CASE: the first arm whose list holds the code, else the ELSE value. */
  function EvalCase(whens: seq<When>, otherwise: string, code: string): string
  {
    if whens == [] then otherwise
    else if code in whens[0].codes then whens[0].zone
    else EvalCase(whens[1..], otherwise, code)
  }

  /** The database classifies every department code as `get_climate_zone` does. */
  lemma {:induction false} ZoneCaseAgrees(code: string)
    ensures EvalCase(ZoneCase.whens, ZoneCase.otherwise, code) == ClimateZone(code)
  {
    var rest := ZoneCase.whens[1..];
    assert rest == [When(H3Departments, "H3")];
    assert rest[1..] == [];
    assert EvalCase(rest[1..], "H2", code) == "H2";
    assert EvalCase(rest, "H2", code) == if code in H3Departments then "H3" else "H2";
  }

  /** The text of one arm. */
  function RenderWhen(w: When): string
  {
    "            WHEN code_officiel_departement IN ('" + Join("', '", w.codes) + "') THEN '" + w.zone + "'\n"
  }

  function RenderWhens(whens: seq<When>): string
  {
    if whens == [] then "" else RenderWhen(whens[0]) + RenderWhens(whens[1..])
  }

  /** The text of a CASE, laid out as the filter builder lays it out. */
  function RenderCase(c: CaseExpr): string
  {
    "\n        CASE \n" + RenderWhens(c.whens) + "            ELSE '" + c.otherwise + "'\n        END\n    "
  }

  /** The construction period labels of the form and the database values each stands for. */
  const PeriodMapping: map<string, seq<string>> := map[
    "Avant 1949" := ["AVANT_1949"],
    "1949-1974" := ["DE_1949_A_1960", "DE_1961_A_1974"],
    "1975-1993" := ["DE_1975_A_1993"],
    "1994-2000" := ["DE_1994_A_2000"],
    "2001-2010" := ["DE_2001_A_2010"],
    "Après 2011" := ["A_COMPTER_DE_2011"]]

  /** `period_mapping.get(period, [])`. */
  function PeriodCodes(period: string): seq<string>
  {
    if period in PeriodMapping then PeriodMapping[period] else []
  }

  /** `db_periods`: the database values of the labels, in the labels' order. */
  function DbPeriods(periodLabels: seq<string>): seq<string>
    decreases |periodLabels|
  {
    if periodLabels == [] then []
    else DbPeriods(periodLabels[..|periodLabels| - 1]) + PeriodCodes(periodLabels[|periodLabels| - 1])
  }

  /** The values of a list of labels are those of its two parts, one after the other. */
  lemma {:induction false} DbPeriodsAppend(a: seq<string>, b: seq<string>)
    ensures DbPeriods(a + b) == DbPeriods(a) + DbPeriods(b)
    decreases |b|
  {
    if b == [] {
      assert a + b == a;
    } else {
      assert (a + b)[..|a + b| - 1] == a + b[..|b| - 1];
      DbPeriodsAppend(a, b[..|b| - 1]);
    }
  }

  /** The values of a list with one label in the middle: those before, the label's, those after. */
  lemma {:induction false} DbPeriodsSplice(a: seq<string>, period: string, b: seq<string>)
    ensures DbPeriods(a + [period] + b) == DbPeriods(a) + PeriodCodes(period) + DbPeriods(b)
  {
    DbPeriodsAppend(a + [period], b);
    DbPeriodsAppend(a, [period]);
    assert DbPeriods([period]) == PeriodCodes(period) by {
      assert [period][..0] == [];
    }
  }

  /** A label the form does not know contributes nothing. */
  lemma {:induction false} UnknownPeriodIgnored(a: seq<string>, period: string, b: seq<string>)
    requires period !in PeriodMapping
    ensures DbPeriods(a + [period] + b) == DbPeriods(a + b)
  {
    DbPeriodsSplice(a, period, b);
    DbPeriodsAppend(a, b);
  }

  /** The 1949-1974 label stands for two database values, in chronological order. */
  lemma {:induction false} MidCenturyPeriod(a: seq<string>, b: seq<string>)
    ensures DbPeriods(a + ["1949-1974"] + b) == DbPeriods(a) + ["DE_1949_A_1960", "DE_1961_A_1974"] + DbPeriods(b)
  {
    DbPeriodsSplice(a, "1949-1974", b);
  }

  /** Managing agents the "exclude big agents" option leaves out, and the placeholders for unknown ones. */
  const Exclusions: seq<string> := [
    "FONCIA", "LAMY", "NEXITY", "CITYA",
    "IDENTITE NON PARTAGEE EN OPEN DATA", "IDENTITÉ NON PARTAGÉE EN OPEN DATA", "NON CONNU",
    "SYNDIC BENEVOLE", "EN COURS", "AUCUN"]

  /** One condition of the WHERE clause. */
  datatype Condition =
    | LotsBetween(minLots: int, maxLots: int)
    | PeriodIn(periods: seq<string>)
    | ExcludeNames(names: seq<string>)
    | QpvOnly
    | ZoneIn(zones: seq<string>)
  {
    /** The place of the condition in the clause. */
    function Rank(): nat
    {
      match this
      case LotsBetween(_, _) => 0
      case PeriodIn(_) => 1
      case ExcludeNames(_) => 2
      case QpvOnly => 3
      case ZoneIn(_) => 4
    }
  }

  function DigitChar(d: nat): char
    requires d < 10
  {
    "0123456789"[d]
  }

  function NatToString(n: nat): (s: string)
    ensures s != []
    decreases n
  {
    if n < 10 then [DigitChar(n)] else NatToString(n / 10) + [DigitChar(n % 10)]
  }

  /** `str(i)` for an integer. */
  function IntToString(i: int): string
  {
    if i < 0 then "-" + NatToString(-i) else NatToString(i)
  }

  /** The text of a condition, where `zoneCase` is the text of the zone CASE. */
  function Render(c: Condition, zoneCase: string): string
  {
    match c
    case LotsBetween(lo, hi) =>
      "CAST(nombre_de_lots_a_usage_d_habitation AS INT64) BETWEEN " + IntToString(lo) + " AND " + IntToString(hi)
    case PeriodIn(ps) => "periode_de_construction IN ('" + Join("', '", ps) + "')"
    case ExcludeNames(names) =>
      "NOT REGEXP_CONTAINS(UPPER(raison_sociale_du_representant_legal), r'" + Join("|", names) + "')"
    case QpvOnly => "(code_qp_2024 != '' OR nom_qp_2024 != '')"
    case ZoneIn(zones) => "(" + zoneCase + ") IN ('" + Join("', '", zones) + "')"
  }

  function Rendered(cs: seq<Condition>, zoneCase: string): (r: seq<string>)
    ensures |r| == |cs|
    ensures forall i :: 0 <= i < |cs| ==> r[i] == Render(cs[i], zoneCase)
  {
    seq(|cs|, i requires 0 <= i < |cs| => Render(cs[i], zoneCase))
  }

  /** The conditions `build_filter_clause` emits for the form's settings. */
  function Conditions(climateZones: seq<string>, minLots: int, maxLots: int, periods: seq<string>,
                      excludeBigSyndics: bool, qpvOnly: bool): seq<Condition>
  {
    [LotsBetween(minLots, maxLots)]
    + (if DbPeriods(periods) != [] then [PeriodIn(DbPeriods(periods))] else [])
    + (if excludeBigSyndics then [ExcludeNames(Exclusions)] else [])
    + (if qpvOnly then [QpvOnly] else [])
    + (if climateZones != [] then [ZoneIn(climateZones)] else [])
  }

  /** Each condition ranks above the one before it. */
  predicate Ascending(cs: seq<Condition>)
  {
    forall i :: 0 < i < |cs| ==> cs[i - 1].Rank() < cs[i].Rank()
  }

  /** Appending a condition that ranks above every one so far keeps the list ascending. */
  lemma {:induction false} AscendingAppend(cs: seq<Condition>, opt: seq<Condition>, c: Condition)
    requires Ascending(cs) && cs != [] && cs[|cs| - 1].Rank() < c.Rank()
    requires opt == [] || opt == [c]
    ensures Ascending(cs + opt)
    ensures cs + opt != [] && (cs + opt)[|cs + opt| - 1].Rank() <= c.Rank()
  {
  }

  /**
   * The clause always begins with the lots range, then holds the periods only
   * when some period is known, and the exclusions only when asked for.
   */
  lemma {:induction false} ConditionsShape(climateZones: seq<string>, minLots: int, maxLots: int, periods: seq<string>,
                        excludeBigSyndics: bool, qpvOnly: bool)
    ensures var cs := Conditions(climateZones, minLots, maxLots, periods, excludeBigSyndics, qpvOnly);
      && cs[0] == LotsBetween(minLots, maxLots)
      && (PeriodIn(DbPeriods(periods)) in cs <==> DbPeriods(periods) != [])
      && (ExcludeNames(Exclusions) in cs <==> excludeBigSyndics)
  {
    var db := DbPeriods(periods);
    var p := if db != [] then [PeriodIn(db)] else [];
    var e := if excludeBigSyndics then [ExcludeNames(Exclusions)] else [];
    var q := if qpvOnly then [QpvOnly] else [];
    var z := if climateZones != [] then [ZoneIn(climateZones)] else [];
    var cs := [LotsBetween(minLots, maxLots)] + p + e + q + z;
    assert Conditions(climateZones, minLots, maxLots, periods, excludeBigSyndics, qpvOnly) == cs;
    assert forall c :: c in cs <==> c == LotsBetween(minLots, maxLots) || c in p || c in e || c in q || c in z;
  }

  /** The priority-district filter and the zones are in the clause exactly when asked for. */
  lemma {:induction false} ConditionsFilters(climateZones: seq<string>, minLots: int, maxLots: int, periods: seq<string>,
                        excludeBigSyndics: bool, qpvOnly: bool)
    ensures var cs := Conditions(climateZones, minLots, maxLots, periods, excludeBigSyndics, qpvOnly);
      && (QpvOnly in cs <==> qpvOnly)
      && (ZoneIn(climateZones) in cs <==> climateZones != [])
  {
    var db := DbPeriods(periods);
    var p := if db != [] then [PeriodIn(db)] else [];
    var e := if excludeBigSyndics then [ExcludeNames(Exclusions)] else [];
    var q := if qpvOnly then [QpvOnly] else [];
    var z := if climateZones != [] then [ZoneIn(climateZones)] else [];
    var cs := [LotsBetween(minLots, maxLots)] + p + e + q + z;
    assert Conditions(climateZones, minLots, maxLots, periods, excludeBigSyndics, qpvOnly) == cs;
    assert forall c :: c in cs <==> c == LotsBetween(minLots, maxLots) || c in p || c in e || c in q || c in z;
  }

  /** No condition comes twice, and they come in the order of their ranks. */
  lemma {:induction false} ConditionsAscending(climateZones: seq<string>, minLots: int, maxLots: int, periods: seq<string>,
                            excludeBigSyndics: bool, qpvOnly: bool)
    ensures Ascending(Conditions(climateZones, minLots, maxLots, periods, excludeBigSyndics, qpvOnly))
  {
    var db := DbPeriods(periods);
    var lots := [LotsBetween(minLots, maxLots)];
    var p := if db != [] then [PeriodIn(db)] else [];
    var e := if excludeBigSyndics then [ExcludeNames(Exclusions)] else [];
    var q := if qpvOnly then [QpvOnly] else [];
    var z := if climateZones != [] then [ZoneIn(climateZones)] else [];
    AscendingAppend(lots, p, PeriodIn(db));
    AscendingAppend(lots + p, e, ExcludeNames(Exclusions));
    AscendingAppend(lots + p + e, q, QpvOnly);
    AscendingAppend(lots + p + e + q, z, ZoneIn(climateZones));
  }

  /** A ", "-style join begins with its first text. */
  lemma {:induction false} JoinStartsWithFirst(sep: string, xs: seq<string>)
    requires xs != []
    ensures xs[0] <= Join(sep, xs)
  {
  }

  /** The lots range condition is longer than "1=1". */
  lemma {:induction false} LotsConditionLength(minLots: int, maxLots: int, zoneCase: string)
    ensures |Render(LotsBetween(minLots, maxLots), zoneCase)| > 3
  {
    var lots := "CAST(nombre_de_lots_a_usage_d_habitation AS INT64) BETWEEN ";
    var bounds := IntToString(minLots) + " AND " + IntToString(maxLots);
    assert Render(LotsBetween(minLots, maxLots), zoneCase) == lots + bounds;
  }

  /** The clause is never the match-all "1=1": it always starts with the lots range. */
  lemma {:induction false} ClauseNeverTrivial(climateZones: seq<string>, minLots: int, maxLots: int, periods: seq<string>,
                           excludeBigSyndics: bool, qpvOnly: bool, zoneCase: string)
    ensures Join(" AND ", Rendered(Conditions(climateZones, minLots, maxLots, periods, excludeBigSyndics, qpvOnly), zoneCase)) != "1=1"
  {
    var cs := Conditions(climateZones, minLots, maxLots, periods, excludeBigSyndics, qpvOnly);
    assert cs[0] == LotsBetween(minLots, maxLots);
    var rs := Rendered(cs, zoneCase);
    LotsConditionLength(minLots, maxLots, zoneCase);
    JoinStartsWithFirst(" AND ", rs);
  }

  /**
   * The zone CASE text `build_filter_clause` returns beside the clause. This
   * only names the rendered text, so that larger proofs need not unfold the
   * literal; what the CASE means is stated by `ZoneCaseAgrees`.
   */
  method ZoneCaseSql() returns (zoneCase: string)
    ensures zoneCase == RenderCase(ZoneCase)
  {
    zoneCase := RenderCase(ZoneCase);
  }

  /** The loop that extends `db_periods` with the database values of each label in turn. */
  method PeriodValues(periods: seq<string>) returns (dbPeriods: seq<string>)
    ensures dbPeriods == DbPeriods(periods)
  {
    dbPeriods := [];
    var i := 0;
    while i < |periods|
      invariant 0 <= i <= |periods|
      invariant dbPeriods == DbPeriods(periods[..i])
    {
      dbPeriods := dbPeriods + PeriodCodes(periods[i]);
      assert periods[..i + 1][..i] == periods[..i];
      i := i + 1;
    }
    assert periods[..i] == periods;
  }

  /**
   * `build_filter_clause`: the WHERE clause, the conditions joined with " AND ",
   * and the zone CASE.
   */
  method BuildFilterClause(climateZones: seq<string>, minLots: int, maxLots: int, periods: seq<string>,
                           excludeBigSyndics: bool, qpvOnly: bool)
    returns (whereClause: string, zoneCase: string)
    ensures zoneCase == RenderCase(ZoneCase)
    ensures whereClause == Join(" AND ", Rendered(Conditions(climateZones, minLots, maxLots, periods, excludeBigSyndics, qpvOnly), zoneCase))
  {
    var conditions: seq<Condition> := [LotsBetween(minLots, maxLots)];
    ghost var lots := conditions;
    ghost var db := DbPeriods(periods);
    ghost var p := if db != [] then [PeriodIn(db)] else [];
    ghost var e := if excludeBigSyndics then [ExcludeNames(Exclusions)] else [];
    ghost var q := if qpvOnly then [QpvOnly] else [];
    ghost var z := if climateZones != [] then [ZoneIn(climateZones)] else [];

    if periods != [] {
      var dbPeriods := PeriodValues(periods);
      if dbPeriods != [] {
        conditions := conditions + [PeriodIn(dbPeriods)];
      }
    }
    assert conditions == lots + p;

    if excludeBigSyndics {
      conditions := conditions + [ExcludeNames(Exclusions)];
    }
    assert conditions == lots + p + e;

    if qpvOnly {
      conditions := conditions + [QpvOnly];
    }
    assert conditions == lots + p + e + q;

    zoneCase := ZoneCaseSql();
    if climateZones != [] {
      conditions := conditions + [ZoneIn(climateZones)];
    }
    assert conditions == lots + p + e + q + z;
    assert conditions == Conditions(climateZones, minLots, maxLots, periods, excludeBigSyndics, qpvOnly);

    whereClause := if conditions != [] then Join(" AND ", Rendered(conditions, zoneCase)) else "1=1";
  }

  /** `name.replace("'", "\\'")`: every quote gets a backslash in front. */
  function EscapeQuotes(name: string): string
  {
    ReplaceChar(name, '\'', "\\'")
  }

  /** The escaping adds one character per quote. */
  lemma {:induction false} EscapeQuotesLength(name: string)
    ensures |EscapeQuotes(name)| == |name| + Count(name, '\'')
  {
    ReplaceCharLength(name, '\'', "\\'");
  }

  /** A quoted SQL string literal read back: its value, and the text after the closing quote. */
  datatype Literal = Literal(value: string, rest: string)

  /**
   * How the database reads the text after an opening quote: a backslash takes
   * the next character literally, an unescaped quote closes the literal, and
   * text that ends first is not a literal.
   */
  function ReadLiteral(s: string): Option<Literal>
    decreases |s|
  {
    if s == [] then None
    else if s[0] == '\'' then Some(Literal([], s[1..]))
    else if s[0] == '\\' then
      if |s| < 2 then None
      else match ReadLiteral(s[2..])
        case None => None
        case Some(l) => Some(Literal([s[1]] + l.value, l.rest))
    else match ReadLiteral(s[1..])
      case None => None
      case Some(l) => Some(Literal([s[0]] + l.value, l.rest))
  }

  /** A quote closes the literal, and what follows it is the rest. */
  lemma {:induction false} ReadClose(tail: string)
    ensures ReadLiteral("'" + tail) == Some(Literal([], tail))
  {
    assert ("'" + tail)[1..] == tail;
  }

  /** A character other than a quote or a backslash is read as itself. */
  lemma {:induction false} ReadPlain(c: char, s: string, value: string, tail: string)
    requires c != '\'' && c != '\\'
    requires ReadLiteral(s) == Some(Literal(value, tail))
    ensures ReadLiteral([c] + s) == Some(Literal([c] + value, tail))
  {
    assert ([c] + s)[1..] == s;
  }

  /** A backslash makes the next character part of the value, whatever it is. */
  lemma {:induction false} ReadEscaped(c: char, s: string, value: string, tail: string)
    requires ReadLiteral(s) == Some(Literal(value, tail))
    ensures ReadLiteral(['\\', c] + s) == Some(Literal([c] + value, tail))
  {
    assert (['\\', c] + s)[2..] == s;
  }

  /** For a name with no backslash, the quoted escaped name reads back as the name. */
  lemma {:induction false} EscapeQuotesReadsBack(name: string, tail: string)
    requires '\\' !in name
    ensures ReadLiteral(EscapeQuotes(name) + "'" + tail) == Some(Literal(name, tail))
  {
    EscapeSqlAgrees(name);
    EscapeSqlReadsBack(name, tail);
  }

  /**
   * A name ending in a backslash breaks the literal: the added backslash is
   * not there, so the name's backslash escapes the closing quote.
   */
  lemma {:induction false} TrailingBackslashBreaksLiteral(tail: string)
    ensures ReadLiteral(EscapeQuotes("a\\") + "'" + tail) != Some(Literal("a\\", tail))
  {
    assert EscapeQuotes("a\\") == "a\\" by {
      assert "a\\"[1..] == "\\";
      assert "\\"[1..] == "";
    }
    var s := EscapeQuotes("a\\") + "'" + tail;
    assert s == ['a', '\\', '\''] + tail;
    assert s[1..][2..] == tail;
    // the name's backslash takes the closing quote as a character of the value
    var r := ReadLiteral(s[1..]);
    assert r.Some? ==> r.value.value[0] == '\'';
  }

  /** The escaping the query needs: a backslash in front of every backslash and every quote. */
  function EscapeSql(name: string): string
  {
    if name == [] then []
    else (if name[0] == '\\' || name[0] == '\'' then ['\\', name[0]] else [name[0]]) + EscapeSql(name[1..])
  }

  /** Every name, escaped and quoted, reads back as itself. */
  lemma {:induction false} EscapeSqlReadsBack(name: string, tail: string)
    ensures ReadLiteral(EscapeSql(name) + "'" + tail) == Some(Literal(name, tail))
  {
    if name == [] {
      assert EscapeSql(name) + "'" + tail == "'" + tail;
      ReadClose(tail);
    } else {
      EscapeSqlReadsBack(name[1..], tail);
      if name[0] == '\\' || name[0] == '\'' {
        EscapedStep(name, tail);
      } else {
        PlainStep(name, tail);
      }
    }
  }

  /** A backslash or a quote is read back from its escaped form. */
  lemma {:induction false} EscapedStep(name: string, tail: string)
    requires name != [] && (name[0] == '\\' || name[0] == '\'')
    requires ReadLiteral(EscapeSql(name[1..]) + "'" + tail) == Some(Literal(name[1..], tail))
    ensures ReadLiteral(EscapeSql(name) + "'" + tail) == Some(Literal(name, tail))
  {
    var c := name[0];
    var rest := EscapeSql(name[1..]) + "'" + tail;
    assert EscapeSql(name) == ['\\', c] + EscapeSql(name[1..]);
    assert EscapeSql(name) + "'" + tail == ['\\', c] + rest;
    ReadEscaped(c, rest, name[1..], tail);
    assert [c] + name[1..] == name;
  }

  /** Any other character is read back as it stands. */
  lemma {:induction false} PlainStep(name: string, tail: string)
    requires name != [] && name[0] != '\\' && name[0] != '\''
    requires ReadLiteral(EscapeSql(name[1..]) + "'" + tail) == Some(Literal(name[1..], tail))
    ensures ReadLiteral(EscapeSql(name) + "'" + tail) == Some(Literal(name, tail))
  {
    var c := name[0];
    var rest := EscapeSql(name[1..]) + "'" + tail;
    assert EscapeSql(name) == [c] + EscapeSql(name[1..]);
    assert EscapeSql(name) + "'" + tail == [c] + rest;
    ReadPlain(c, rest, name[1..], tail);
    assert [c] + name[1..] == name;
  }

  /** Without a backslash in the name, the corrected escaping is the one written. */
  lemma {:induction false} EscapeSqlAgrees(name: string)
    requires '\\' !in name
    ensures EscapeSql(name) == EscapeQuotes(name)
  {
    if name != [] {
      EscapeSqlAgrees(name[1..]);
    }
  }

  /** The start of the per-agent condition, up to the opening quote. */
  const NamePrefix: string := "raison_sociale_du_representant_legal = '"

  /**
   * The condition of the per-agent query, `raison_sociale_du_representant_legal = '<name>'`,
   * with the name escaped as the source escapes it: quotes only.
   */
  function NameConditionAsWritten(name: string): (r: string)
    ensures NamePrefix <= r
    // it is the corrected condition for every name without a backslash
    ensures '\\' !in name ==> r == NameCondition(name)
  {
    assert '\\' !in name ==> EscapeQuotes(name) == EscapeSql(name) by {
      if '\\' !in name {
        EscapeSqlAgrees(name);
      }
    }
    NamePrefix + EscapeQuotes(name) + "'"
  }

  /** For the name `a\`, the condition as written does not read back as the name. */
  lemma {:induction false} TrailingBackslashBreaksCondition()
    ensures ReadLiteral(NameConditionAsWritten("a\\")[|NamePrefix|..]) != Some(Literal("a\\", ""))
  {
    TrailingBackslashBreaksLiteral("");
    var quoted := EscapeQuotes("a\\") + "'";
    assert quoted + "" == quoted;
    assert (NamePrefix + quoted)[|NamePrefix|..] == quoted;
  }

  /** The per-agent condition with the corrected escaping: its literal reads back as exactly the name. */
  function NameCondition(name: string): (r: string)
    ensures NamePrefix <= r && ReadLiteral(r[|NamePrefix|..]) == Some(Literal(name, ""))
  {
    var quoted := EscapeSql(name) + "'";
    EscapeSqlReadsBack(name, "");
    assert quoted + "" == quoted;
    assert (NamePrefix + quoted)[|NamePrefix|..] == quoted;
    NamePrefix + quoted
  }
}
