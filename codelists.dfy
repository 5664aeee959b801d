/** Codelist download: one query per requested codelist id, and the fold of the
    reader's output features into one codelist record per id (its header
    fields and its code-to-name values). */
module Codelists {
  import opened Wrappers
  import opened Strings
  import opened Constants

  /** A codelist as read: owner agency, id, header fields (absent until the
      codelist's own feature is read) and the names of its codes by code id. */
  datatype CodeList = CodeList(
    agencyId: string,
    id: string,
    isFinal: Option<string>,
    urn: Option<string>,
    version: Option<string>,
    name: Option<string>,
    values: map<Option<string>, Option<string>>)

  function Text(o: Option<string>): string {
    if o.Some? then o.value else "None"
  }

  /** `__str__`: the name, id, version and number of values. */
  function Describe(c: CodeList): (r: string)
    ensures var head := "CodeList(name=" + Text(c.name) + ", id=" + c.id;
            var tail := ", values: " + NatToString(|c.values|) + ")";
            StartsWith(r, head) && EndsWith(r, tail) && |head| + |tail| <= |r| &&
            r[|head|..|r| - |tail|] == ", version=" + Text(c.version)
  {
    var head := "CodeList(name=" + Text(c.name) + ", id=" + c.id;
    var tail := ", values: " + NatToString(|c.values|) + ")";
    var r := head + ", version=" + Text(c.version) + tail;
    assert r[..|head|] == head;
    assert r[|r| - |tail|..] == tail;
    assert r[|head|..|r| - |tail|] == ", version=" + Text(c.version);
    r
  }

  // ---------------------------------------------------------------------------
  // the queries

  const CodelistPath := "/sdmx/2.1/codelist/ESTAT/"
  const CodelistDetail := "?detail=referencestubs&completestub=true"

  /** The query for one codelist: under the agency's base URI, but always in
      the ESTAT maintenance agency's path. */
  function CodelistUrl(agency: Agency, id: string): string {
    agency.BaseUri() + CodelistPath + id + CodelistDetail
  }

  /** The id is what lies between the fixed prefix and suffix of its query,
      so distinct ids give distinct queries. */
  lemma CodelistUrlId(agency: Agency, id: string)
    ensures var url := CodelistUrl(agency, id);
            var front := |agency.BaseUri() + CodelistPath|;
            front + |CodelistDetail| <= |url| && url[front..|url| - |CodelistDetail|] == id
  {
    var front := agency.BaseUri() + CodelistPath;
    var url := CodelistUrl(agency, id);
    assert url == front + id + CodelistDetail;
    assert url[|front|..|url| - |CodelistDetail|] == id;
  }

  /** A feature sent into the reader pipeline: the dataset to read and the
      codelist it belongs to. */
  datatype Request = Request(dataset: string, codelistId: string)

  /** One request per requested id, in order, duplicates included. */
  function Requests(agency: Agency, ids: seq<string>): (r: seq<Request>)
    ensures |r| == |ids|
    ensures forall i :: 0 <= i < |ids| ==> r[i] == Request(CodelistUrl(agency, ids[i]), ids[i])
  {
    seq(|ids|, i requires 0 <= i < |ids| => Request(CodelistUrl(agency, ids[i]), ids[i]))
  }

  // ---------------------------------------------------------------------------
  // folding the output features

  /** An output feature: its feature type and its attributes. */
  datatype OutputFeature = OutputFeature(featureType: string, attrs: map<string, string>)

  /** The pipeline: reads the requested datasets and gives the output features. */
  type Pipeline = seq<Request> -> seq<OutputFeature>

  function Attr(f: OutputFeature, name: string): Option<string> {
    if name in f.attrs then Some(f.attrs[name]) else None
  }

  datatype CodelistError =
    | ReaderFailed(message: Option<string>)   // a reader error feature
    | UnknownCodelist(id: Option<string>)     // a feature of a codelist that was not requested

  const ReaderErrorType := "FeatureReader_ERROR"

  function CodelistOf(f: OutputFeature): Option<string> {
    Attr(f, "codelist_id")
  }

  /** Whether a feature carries a codelist's header rather than one code. */
  predicate IsHeader(f: OutputFeature) {
    Attr(f, "fme_feature_type") == Some("Codelist")
  }

  /** Whether a feature is folded in without error, given the requested ids. */
  predicate Accepted(f: OutputFeature, ids: set<string>) {
    f.featureType != ReaderErrorType && CodelistOf(f).Some? && CodelistOf(f).value in ids
  }

  /** The error a feature that is not accepted raises. */
  function Rejection(f: OutputFeature): CodelistError {
    if f.featureType == ReaderErrorType then ReaderFailed(Attr(f, "_reader_error")) else UnknownCodelist(CodelistOf(f))
  }

  /** The fresh record of a requested codelist. */
  function Fresh(agency: Agency, id: string): CodeList {
    CodeList(agency.Name(), id, None, None, None, None, map[])
  }

  /** The records before any feature is read, one per requested id. */
  function Initial(agency: Agency, ids: seq<string>): (m: map<string, CodeList>)
    ensures m.Keys == set id | id in ids
    ensures forall id :: id in m ==> m[id] == Fresh(agency, id)
  {
    map id | id in ids :: Fresh(agency, id)
  }

  /** A header feature sets the codelist's header fields; any other feature
      sets the name of one code. */
  function Ingest(lists: map<string, CodeList>, f: OutputFeature, lang: string): Result<map<string, CodeList>, CodelistError> {
    if !Accepted(f, lists.Keys) then Failure(Rejection(f))
    else
      var id := CodelistOf(f).value;
      var c := lists[id];
      if IsHeader(f) then
        Success(lists[id := c.(isFinal := Attr(f, "Codelist.isFinal"), urn := Attr(f, "Codelist.urn"),
                               version := Attr(f, "Codelist.version"), name := Attr(f, "Codelist.name." + lang))])
      else
        Success(lists[id := c.(values := c.values[Attr(f, "Code.id") := Attr(f, "Code.name." + lang)])])
  }

  /** The records after the features, in order, or the first error. */
  function Fold(lists: map<string, CodeList>, fs: seq<OutputFeature>, lang: string): (r: Result<map<string, CodeList>, CodelistError>)
    ensures r.Success? ==> r.value.Keys == lists.Keys
    ensures r.Success? ==> forall id :: id in lists ==> r.value[id].agencyId == lists[id].agencyId && r.value[id].id == lists[id].id
    decreases |fs|
  {
    if fs == [] then Success(lists)
    else
      match Fold(lists, fs[..|fs| - 1], lang)
      case Failure(e) => Failure(e)
      case Success(m) => Ingest(m, fs[|fs| - 1], lang)
  }

  /** The requested ids without repeats, in order of first request, as the
      keys of a dict built from them. */
  function Distinct(ids: seq<string>): (r: seq<string>)
    ensures forall x :: x in r <==> x in ids
    ensures forall i, j :: 0 <= i < j < |r| ==> r[i] != r[j]
    decreases |ids|
  {
    if ids == [] then []
    else
      var d := Distinct(ids[..|ids| - 1]);
      assert forall x :: x in ids <==> x in ids[..|ids| - 1] || x == ids[|ids| - 1];
      if ids[|ids| - 1] in d then d else d + [ids[|ids| - 1]]
  }

  /** The records of the given ids, in that order. */
  function Ordered(lists: map<string, CodeList>, ids: seq<string>): (r: seq<CodeList>)
    requires forall id :: id in ids ==> id in lists
    ensures |r| == |ids| && forall i :: 0 <= i < |ids| ==> r[i] == lists[ids[i]]
  {
    seq(|ids|, i requires 0 <= i < |ids| => lists[ids[i]])
  }

  /** `get`: the codelists of the requested ids, read from the features. */
  function Codelists(agency: Agency, ids: seq<string>, fs: seq<OutputFeature>, lang: string): Result<seq<CodeList>, CodelistError> {
    match Fold(Initial(agency, ids), fs, lang)
    case Failure(e) => Failure(e)
    case Success(m) =>
      Success(Ordered(m, Distinct(ids)))
  }

  /** The requests `get` sends, built one id at a time. */
  method BuildRequests(agency: Agency, ids: seq<string>) returns (requests: seq<Request>)
    ensures requests == Requests(agency, ids)
  {
    requests := [];
    for i := 0 to |ids|
      invariant |requests| == i
      invariant forall j :: 0 <= j < i ==> requests[j] == Request(CodelistUrl(agency, ids[j]), ids[j])
    {
      requests := requests + [Request(CodelistUrl(agency, ids[i]), ids[i])];
    }
  }

  /** Reads the output features into the records one at a time; the first
      rejected feature raises. */
  method FoldFeatures(lists0: map<string, CodeList>, fs: seq<OutputFeature>, lang: string) returns (r: Result<map<string, CodeList>, CodelistError>)
    ensures r == Fold(lists0, fs, lang)
  {
    var lists := lists0;
    for i := 0 to |fs|
      invariant Fold(lists0, fs[..i], lang) == Success(lists)
    {
      assert fs[..i + 1][..i] == fs[..i];
      var next := Ingest(lists, fs[i], lang);
      if next.Failure? {
        FoldStops(lists0, fs, i + 1, lang);
        return Failure(next.error);
      }
      lists := next.value;
    }
    assert fs[..|fs|] == fs;
    return Success(lists);
  }

  /** `get`: sends one request per id into the pipeline, then folds its output
      features into the records and returns them in order of first request. */
  method Get(agency: Agency, ids: seq<string>, lang: string, pipeline: Pipeline) returns (r: Result<seq<CodeList>, CodelistError>)
    ensures r == Codelists(agency, ids, pipeline(Requests(agency, ids)), lang)
  {
    var requests := BuildRequests(agency, ids);
    var folded := FoldFeatures(Initial(agency, ids), pipeline(requests), lang);
    if folded.Failure? {
      return Failure(folded.error);
    }
    return Success(Ordered(folded.value, Distinct(ids)));
  }

  // ---------------------------------------------------------------------------
  // what the fold guarantees

  /** A failure in a prefix of the features is the failure of them all. */
  lemma {:induction false} FoldStops(lists: map<string, CodeList>, fs: seq<OutputFeature>, n: nat, lang: string)
    requires n <= |fs| && Fold(lists, fs[..n], lang).Failure?
    ensures Fold(lists, fs, lang) == Fold(lists, fs[..n], lang)
    decreases |fs| - n
  {
    if n < |fs| {
      assert fs[..n + 1][..n] == fs[..n];
      FoldStops(lists, fs, n + 1, lang);
    } else {
      assert fs[..n] == fs;
    }
  }

  /** The fold succeeds exactly when every feature is accepted. */
  lemma {:induction false} FoldSucceeds(lists: map<string, CodeList>, fs: seq<OutputFeature>, lang: string)
    ensures Fold(lists, fs, lang).Success? <==> forall i :: 0 <= i < |fs| ==> Accepted(fs[i], lists.Keys)
    decreases |fs|
  {
    if fs != [] {
      var init := fs[..|fs| - 1];
      FoldSucceeds(lists, init, lang);
      assert forall i :: 0 <= i < |init| ==> init[i] == fs[i];
    }
  }

  /** A failing fold raises the error of its first rejected feature. */
  lemma {:induction false} FoldFirstError(lists: map<string, CodeList>, fs: seq<OutputFeature>, lang: string)
    requires Fold(lists, fs, lang).Failure?
    ensures exists i :: 0 <= i < |fs| && !Accepted(fs[i], lists.Keys) &&
              (forall j :: 0 <= j < i ==> Accepted(fs[j], lists.Keys)) &&
              Fold(lists, fs, lang).error == Rejection(fs[i])
    decreases |fs|
  {
    var init := fs[..|fs| - 1];
    assert forall i :: 0 <= i < |init| ==> init[i] == fs[i];
    if Fold(lists, init, lang).Failure? {
      FoldFirstError(lists, init, lang);
    } else {
      FoldSucceeds(lists, init, lang);
    }
  }

  /** Whether a feature names the given code of the given codelist. */
  predicate NamesCode(f: OutputFeature, id: string, key: Option<string>) {
    CodelistOf(f) == Some(id) && !IsHeader(f) && Attr(f, "Code.id") == key
  }

  function CodeName(f: OutputFeature, lang: string): Option<string> {
    Attr(f, "Code.name." + lang)
  }

  /** Whether feature i is the last of the features to name the code. */
  predicate LastNaming(fs: seq<OutputFeature>, i: int, id: string, key: Option<string>) {
    0 <= i < |fs| && NamesCode(fs[i], id, key) && forall j :: i < j < |fs| ==> !NamesCode(fs[j], id, key)
  }

  /** One feature sets the code it names, and no other code of any codelist. */
  lemma IngestCode(m: map<string, CodeList>, f: OutputFeature, lang: string, id: string, key: Option<string>)
    requires Ingest(m, f, lang).Success? && id in m
    ensures var c := Ingest(m, f, lang).value[id];
            if NamesCode(f, id, key) then key in c.values && c.values[key] == CodeName(f, lang)
            else (key in c.values <==> key in m[id].values) && (key in m[id].values ==> c.values[key] == m[id].values[key])
  {
  }

  /** A code has a name in a folded codelist exactly when it had one before or
      some feature names it; a code no feature names keeps its name. */
  lemma {:induction false} FoldCodeKeys(lists: map<string, CodeList>, fs: seq<OutputFeature>, lang: string, id: string, key: Option<string>)
    requires Fold(lists, fs, lang).Success? && id in lists
    ensures var c := Fold(lists, fs, lang).value[id];
            (key in c.values <==> key in lists[id].values || exists i :: 0 <= i < |fs| && NamesCode(fs[i], id, key)) &&
            ((forall i :: 0 <= i < |fs| ==> !NamesCode(fs[i], id, key)) && key in lists[id].values ==>
               c.values[key] == lists[id].values[key])
    decreases |fs|
  {
    if fs != [] {
      var init := fs[..|fs| - 1];
      assert forall i :: 0 <= i < |init| ==> init[i] == fs[i];
      FoldCodeKeys(lists, init, lang, id, key);
      IngestCode(Fold(lists, init, lang).value, fs[|fs| - 1], lang, id, key);
    }
  }

  /** A code's name in a folded codelist is the one the last feature naming it gives. */
  lemma {:induction false} FoldCodeLastWins(lists: map<string, CodeList>, fs: seq<OutputFeature>, lang: string, id: string, key: Option<string>, i: int)
    requires Fold(lists, fs, lang).Success? && id in lists && LastNaming(fs, i, id, key)
    ensures key in Fold(lists, fs, lang).value[id].values
    ensures Fold(lists, fs, lang).value[id].values[key] == CodeName(fs[i], lang)
    decreases |fs|
  {
    var init := fs[..|fs| - 1];
    IngestCode(Fold(lists, init, lang).value, fs[|fs| - 1], lang, id, key);
    if i < |fs| - 1 {
      assert forall j :: 0 <= j < |init| ==> init[j] == fs[j];
      FoldCodeLastWins(lists, init, lang, id, key, i);
    }
  }

  /** A codelist's header fields. */
  datatype Header = Header(isFinal: Option<string>, urn: Option<string>, version: Option<string>, name: Option<string>)

  function HeaderOfList(c: CodeList): Header {
    Header(c.isFinal, c.urn, c.version, c.name)
  }

  function HeaderOfFeature(f: OutputFeature, lang: string): Header {
    Header(Attr(f, "Codelist.isFinal"), Attr(f, "Codelist.urn"), Attr(f, "Codelist.version"), Attr(f, "Codelist.name." + lang))
  }

  predicate HeaderFor(f: OutputFeature, id: string) {
    IsHeader(f) && CodelistOf(f) == Some(id)
  }

  /** One feature sets the header of the codelist it is the header of, and no other. */
  lemma IngestHeader(m: map<string, CodeList>, f: OutputFeature, lang: string, id: string)
    requires Ingest(m, f, lang).Success? && id in m
    ensures HeaderOfList(Ingest(m, f, lang).value[id]) == if HeaderFor(f, id) then HeaderOfFeature(f, lang) else HeaderOfList(m[id])
  {
  }

  /** The header fields of a folded codelist are those of its last header
      feature, and stay as they were when it has none. */
  lemma FoldHeader(lists: map<string, CodeList>, fs: seq<OutputFeature>, lang: string, id: string)
    requires Fold(lists, fs, lang).Success? && id in lists
    ensures var h := HeaderOfList(Fold(lists, fs, lang).value[id]);
            ((forall i :: 0 <= i < |fs| ==> !HeaderFor(fs[i], id)) ==> h == HeaderOfList(lists[id])) &&
            (forall i :: 0 <= i < |fs| && HeaderFor(fs[i], id) && (forall j :: i < j < |fs| ==> !HeaderFor(fs[j], id)) ==>
               h == HeaderOfFeature(fs[i], lang))
  {
    FoldHeaderAfter(lists, fs, lang, id);
    HeaderAfterLastWins(HeaderOfList(lists[id]), fs, lang, id);
  }

  /** The header a sequence of features leaves on codelist `id`, starting from `h0`. */
  function HeaderAfter(h0: Header, fs: seq<OutputFeature>, lang: string, id: string): Header
    decreases |fs|
  {
    if fs == [] then h0
    else if HeaderFor(fs[|fs| - 1], id) then HeaderOfFeature(fs[|fs| - 1], lang)
    else HeaderAfter(h0, fs[..|fs| - 1], lang, id)
  }

  lemma {:induction false} FoldHeaderAfter(lists: map<string, CodeList>, fs: seq<OutputFeature>, lang: string, id: string)
    requires Fold(lists, fs, lang).Success? && id in lists
    ensures HeaderOfList(Fold(lists, fs, lang).value[id]) == HeaderAfter(HeaderOfList(lists[id]), fs, lang, id)
    decreases |fs|
  {
    if fs != [] {
      FoldHeaderStep(lists, fs, lang, id);
      FoldHeaderAfter(lists, fs[..|fs| - 1], lang, id);
    }
  }

  lemma {:induction false} HeaderAfterLastWins(h0: Header, fs: seq<OutputFeature>, lang: string, id: string)
    ensures var h := HeaderAfter(h0, fs, lang, id);
            ((forall i :: 0 <= i < |fs| ==> !HeaderFor(fs[i], id)) ==> h == h0) &&
            (forall i :: 0 <= i < |fs| && HeaderFor(fs[i], id) && (forall j :: i < j < |fs| ==> !HeaderFor(fs[j], id)) ==>
               h == HeaderOfFeature(fs[i], lang))
    decreases |fs|
  {
    if fs != [] {
      var init := fs[..|fs| - 1];
      var last := fs[|fs| - 1];
      assert forall i :: 0 <= i < |init| ==> init[i] == fs[i];
      HeaderAfterLastWins(h0, init, lang, id);
      var h := HeaderAfter(h0, fs, lang, id);
      forall i | 0 <= i < |fs| && HeaderFor(fs[i], id) && (forall j :: i < j < |fs| ==> !HeaderFor(fs[j], id))
        ensures h == HeaderOfFeature(fs[i], lang)
      {
        if i < |fs| - 1 {
          assert !HeaderFor(last, id);
          assert forall j :: i < j < |init| ==> !HeaderFor(init[j], id);
        }
      }
    }
  }

  /** The last feature of a fold sets the header or leaves it as the fold before it left it. */
  lemma FoldHeaderStep(lists: map<string, CodeList>, fs: seq<OutputFeature>, lang: string, id: string)
    requires fs != [] && Fold(lists, fs, lang).Success? && id in lists
    ensures Fold(lists, fs[..|fs| - 1], lang).Success?
    ensures HeaderOfList(Fold(lists, fs, lang).value[id]) ==
      if HeaderFor(fs[|fs| - 1], id) then HeaderOfFeature(fs[|fs| - 1], lang)
      else HeaderOfList(Fold(lists, fs[..|fs| - 1], lang).value[id])
  {
    IngestHeader(Fold(lists, fs[..|fs| - 1], lang).value, fs[|fs| - 1], lang, id);
  }

  /** `get` gives one record per distinct requested id, in order of first
      request, each owned by the agency it was requested for. */
  lemma CodelistsSpec(agency: Agency, ids: seq<string>, fs: seq<OutputFeature>, lang: string)
    requires Codelists(agency, ids, fs, lang).Success?
    ensures var r := Codelists(agency, ids, fs, lang).value;
            var d := Distinct(ids);
            |r| == |d| && forall i :: 0 <= i < |d| ==> r[i].id == d[i] && r[i].agencyId == agency.Name()
  {
  }
}
