/** The statistical agencies the connector can browse, and the SDMX 2.1 REST
    structure queries (section 7 of the SDMX 2.1 technical standards) that
    fetch their category schemes, categorisations and dataflows. */
module Constants {
  import opened Wrappers
  import opened Strings

  /** The message number raised when a connection argument is not a literal. */
  const MustUseLiteral: int := 9900062

  /** Each agency is a member name, a display label and the base URI of its
      dissemination API. */
  datatype Agency = ESTAT | COMP | EMPL | GROW {
    /** The enum member name, which is also the agency id in SDMX queries. */
    function Name(): string {
      match this
      case ESTAT => "ESTAT"
      case COMP => "COMP"
      case EMPL => "EMPL"
      case GROW => "GROW"
    }

    function Label(): string {
      match this
      case ESTAT => "Eurostat"
      case COMP => "DG COMP"
      case EMPL => "DG EMPL"
      case GROW => "DG GROW"
    }

    function BaseUri(): string {
      match this
      case ESTAT => "https://ec.europa.eu/eurostat/api/dissemination"
      case COMP => "https://webgate.ec.europa.eu/comp/redisstat/api/dissemination"
      case EMPL => "https://webgate.ec.europa.eu/empl/redisstat/api/dissemination"
      case GROW => "https://webgate.ec.europa.eu/grow/redisstat/api/dissemination"
    }

    /** The category-scheme query for every scheme of this agency. */
    function CategorySchemesUrl(): (url: string)
      ensures url == BaseUri() + QueryPath(CategorySchemeStructure, Name()) + Detail(CategorySchemeStructure)
    {
      assert "/sdmx/2.1/categoryscheme/" == "/sdmx/2.1/" + "categoryscheme" + "/";
      assert "/all" == "/all" + "";
      Regroup(BaseUri(), "/sdmx/2.1/", "categoryscheme", "/", Name(), "/all", "/sdmx/2.1/categoryscheme/", "/all", "");
      BaseUri() + "/sdmx/2.1/categoryscheme/" + Name() + "/all"
    }

    /** The categorisation query for every categorisation of this agency. */
    function CategorisationsUrl(): (url: string)
      ensures url == BaseUri() + QueryPath(CategorisationStructure, Name()) + Detail(CategorisationStructure)
    {
      assert "/sdmx/2.1/categorisation/" == "/sdmx/2.1/" + "categorisation" + "/";
      assert "/all" == "/all" + "";
      Regroup(BaseUri(), "/sdmx/2.1/", "categorisation", "/", Name(), "/all", "/sdmx/2.1/categorisation/", "/all", "");
      BaseUri() + "/sdmx/2.1/categorisation/" + Name() + "/all"
    }

    /** The dataflow query for every dataflow of this agency, as stubs only. */
    function DataflowsUrl(): (url: string)
      ensures url == BaseUri() + QueryPath(DataflowStructure, Name()) + Detail(DataflowStructure)
    {
      assert "/sdmx/2.1/dataflow/" == "/sdmx/2.1/" + "dataflow" + "/";
      assert "/all?detail=allstubs" == "/all" + "?detail=allstubs";
      Regroup(BaseUri(), "/sdmx/2.1/", "dataflow", "/", Name(), "/all", "/sdmx/2.1/dataflow/", "/all?detail=allstubs", "?detail=allstubs");
      BaseUri() + "/sdmx/2.1/dataflow/" + Name() + "/all?detail=allstubs"
    }
  }

  /** The agency whose member name is `name`, as `Agency[name]`. */
  function AgencyFromName(name: string): Option<Agency> {
    if name == "ESTAT" then Some(ESTAT)
    else if name == "COMP" then Some(COMP)
    else if name == "EMPL" then Some(EMPL)
    else if name == "GROW" then Some(GROW)
    else None
  }

  /** Looking an agency up by its member name finds that agency. */
  lemma AgencyFromNameRoundTrip(a: Agency)
    ensures AgencyFromName(a.Name()) == Some(a)
  {
    match a
    case ESTAT =>
    case COMP =>
    case EMPL => assert "EMPL"[0] != "COMP"[0];
    case GROW => assert "GROW"[0] != "COMP"[0] && "GROW"[0] != "EMPL"[0];
  }

  /** The enumeration is unique: no two agencies share a label and base URI. */
  lemma AgenciesUnique(a: Agency, b: Agency)
    requires a != b
    ensures (a.Label(), a.BaseUri()) != (b.Label(), b.BaseUri())
  {
  }

  // ---------------------------------------------------------------------------
  // structure queries

  /** The three SDMX structures the catalog is built from. */
  datatype Structure = CategorySchemeStructure | CategorisationStructure | DataflowStructure

  /** The resource segment of a structure query. */
  function Resource(s: Structure): string {
    match s
    case CategorySchemeStructure => "categoryscheme"
    case CategorisationStructure => "categorisation"
    case DataflowStructure => "dataflow"
  }

  /** The query string: dataflows are requested as stubs. */
  function Detail(s: Structure): string {
    if s == DataflowStructure then "?detail=allstubs" else ""
  }

  function StructureFromResource(resource: string): Option<Structure> {
    if resource == "categoryscheme" then Some(CategorySchemeStructure)
    else if resource == "categorisation" then Some(CategorisationStructure)
    else if resource == "dataflow" then Some(DataflowStructure)
    else None
  }

  /** The path of the query for every artefact of structure `s` maintained by `agencyId`. */
  function QueryPath(s: Structure, agencyId: string): string {
    "/sdmx/2.1/" + Resource(s) + "/" + agencyId + "/all"
  }

  /** Re-associates the pieces of a query URL. */
  lemma Regroup(base: string, root: string, resource: string, slash: string, agencyId: string,
                all: string, prefix: string, suffix: string, detail: string)
    requires prefix == root + resource + slash && suffix == all + detail
    ensures base + prefix + agencyId + suffix == base + (root + resource + slash + agencyId + all) + detail
  {
  }

  /** A query path is its six segments joined by '/'. */
  lemma QueryPathSegments(s: Structure, agencyId: string)
    ensures QueryPath(s, agencyId) == Join(["", "sdmx", "2.1", Resource(s), agencyId, "all"], '/')
  {
    var r := Resource(s);
    var parts := ["", "sdmx", "2.1", r, agencyId, "all"];
    var tail := r + "/" + (agencyId + "/" + "all");
    assert parts[1..][1..][1..][1..][1..] == ["all"];
    assert Join(parts[1..][1..][1..][1..], '/') == agencyId + "/" + "all";
    assert Join(parts[1..][1..][1..], '/') == tail;
    assert Join(parts[1..][1..], '/') == "2.1" + "/" + tail;
    assert Join(parts[1..], '/') == "sdmx" + "/" + ("2.1" + "/" + tail);
    assert Join(parts, '/') == "" + "/" + ("sdmx" + "/" + ("2.1" + "/" + tail));
    assert "/sdmx/2.1/" == "" + "/" + "sdmx" + "/" + "2.1" + "/";
    RegroupSegments("/sdmx/2.1/", "" + "/", "sdmx" + "/", "2.1" + "/", r, agencyId, tail);
  }

  lemma RegroupSegments(root: string, s0: string, s1: string, s2: string, r: string, agencyId: string, tail: string)
    requires root == s0 + s1 + s2 && tail == r + "/" + (agencyId + "/" + "all")
    ensures root + r + "/" + agencyId + "/all" == s0 + (s1 + (s2 + tail))
  {
    assert "/" + "all" == "/all";
  }

  /** Reads a structure query path back into its structure and agency id. */
  function ParseQueryPath(path: string): (r: Option<(Structure, string)>)
    ensures r.Some? ==> '/' !in r.value.1
  {
    var parts := Split(path, '/');
    if |parts| == 6 && parts[0] == "" && parts[1] == "sdmx" && parts[2] == "2.1" && parts[5] == "all" then
      match StructureFromResource(parts[3])
      case Some(s) => Some((s, parts[4]))
      case None => None
    else None
  }

  /** Parsing a query path gives back the structure and agency id it was built from. */
  lemma QueryPathRoundTrip(s: Structure, agencyId: string)
    requires '/' !in agencyId
    ensures ParseQueryPath(QueryPath(s, agencyId)) == Some((s, agencyId))
  {
    var parts := ["", "sdmx", "2.1", Resource(s), agencyId, "all"];
    forall k | 0 <= k < |parts| ensures '/' !in parts[k] {
      if k == 1 { assert forall i | 0 <= i < 4 :: "sdmx"[i] != '/'; }
      if k == 2 { assert forall i | 0 <= i < 3 :: "2.1"[i] != '/'; }
      if k == 3 {
        match s
        case CategorySchemeStructure => assert forall i | 0 <= i < 14 :: "categoryscheme"[i] != '/';
        case CategorisationStructure => assert forall i | 0 <= i < 14 :: "categorisation"[i] != '/';
        case DataflowStructure => assert forall i | 0 <= i < 8 :: "dataflow"[i] != '/';
      }
      if k == 5 { assert forall i | 0 <= i < 3 :: "all"[i] != '/'; }
    }
    QueryPathSegments(s, agencyId);
    SplitJoin(parts, '/');
    match s
    case CategorySchemeStructure =>
    case CategorisationStructure => assert "categorisation"[7] != "categoryscheme"[7];
    case DataflowStructure => assert |"dataflow"| != |"categoryscheme"|;
  }

  /** Every agency's three queries name that agency and their own structure. */
  lemma AgencyQueriesRoundTrip(a: Agency, s: Structure)
    ensures ParseQueryPath(QueryPath(s, a.Name())) == Some((s, a.Name()))
    ensures AgencyFromName(ParseQueryPath(QueryPath(s, a.Name())).value.1) == Some(a)
  {
    assert '/' !in a.Name() by {
      match a
      case ESTAT => assert forall i | 0 <= i < 5 :: "ESTAT"[i] != '/';
      case COMP => assert forall i | 0 <= i < 4 :: "COMP"[i] != '/';
      case EMPL => assert forall i | 0 <= i < 4 :: "EMPL"[i] != '/';
      case GROW => assert forall i | 0 <= i < 4 :: "GROW"[i] != '/';
    }
    QueryPathRoundTrip(s, a.Name());
    AgencyFromNameRoundTrip(a);
  }
}
