/** The category scheme parser: a handler driven by the start, end and
    character events of an SDMX category scheme document, which reports every
    English-named category scheme and category with its path of ids, and the
    enumerator that answers scheme, sub-category and name queries from those
    reports. */
module Categorization {
  import opened Wrappers
  import opened Strings
  import opened Constants
  import WebFs

  /** The separator between namespace and local name in an element's name. */
  const NsSep: char := ' '

  /** The attribute name of `xml:lang`, qualified by the XML namespace. */
  const XmlLang := "http://www.w3.org/XML/1998/namespace lang"

  /** The annotation type whose title 'T' hides a category scheme. */
  const PerspectiveAnnotation := "DISSEMINATION_PERSPECTIVE_ID"

  /** What makes the handler or the enumerator raise. */
  datatype CategorizationError =
    | ReadFailed(message: string)     // the document could not be read
    | MalformedName(qname: string)    // an element name that is not "namespace local-name"
    | PopEmpty                        // a scheme or category end with no open scheme or category
    | MissingAnnotationType           // an annotation end before any annotation type

  /** The parser's events: element starts with their attributes, element ends
      and character data. */
  datatype Event =
    | StartElement(qname: string, attrs: map<string, string>)
    | EndElement(qname: string)
    | CharData(text: string)

  /** A reported scheme or category: its path of ids, its English name and the
      annotations (type to title) recorded for it. */
  datatype Entry = Entry(path: seq<string>, name: string, annotations: map<string, Option<string>>)

  /** The local part of a namespace-qualified element name: the name must
      split on the separator into exactly two parts. */
  function LocalName(qname: string): (r: Result<string, CategorizationError>)
    ensures r.Success? <==> CountChar(qname, NsSep) == 1
    ensures r.Success? ==> NsSep !in r.value && EndsWith(qname, r.value)
    ensures r.Success? ==> |r.value| < |qname| && qname[|qname| - |r.value| - 1] == NsSep
  {
    var parts := Split(qname, NsSep);
    if |parts| == 2 then
      JoinSplit(qname, NsSep);
      assert qname == parts[0] + [NsSep] + parts[1];
      Success(parts[1])
    else Failure(MalformedName(qname))
  }

  predicate IsCategoryElement(local: string) {
    local == "CategoryScheme" || local == "Category"
  }

  /** The id attribute of a scheme or category element; the empty id when it
      is absent. */
  function IdOf(attrs: map<string, string>): string {
    if "id" in attrs then attrs["id"] else ""
  }

  /** Python's `''.join(parts)`. */
  function Concat(parts: seq<string>): (r: string)
    ensures |r| == 0 <==> forall i :: 0 <= i < |parts| ==> parts[i] == ""
  {
    if parts == [] then "" else parts[0] + Concat(parts[1..])
  }

  // ---------------------------------------------------------------------------
  // the handler's state and its three transitions

  /** The handler's state. `aliased` records that the scheme annotations are
      the very dict the current annotations are kept in (after a scheme's
      name), so that annotations added later show in both. */
  datatype HandlerState = HandlerState(
    data: seq<string>,
    categoryPath: seq<string>,
    collectData: bool,
    annotationTitle: Option<string>,
    annotationType: Option<string>,
    annotations: map<string, Option<string>>,
    schemeAnnotations: map<string, Option<string>>,
    aliased: bool,
    emitted: seq<Entry>)

  const Initial := HandlerState([], [], false, None, None, map[], map[], false, [])

  /** The annotations of the enclosing category scheme, as the handler sees them. */
  function SchemeAnnotations(s: HandlerState): map<string, Option<string>> {
    if s.aliased then s.annotations else s.schemeAnnotations
  }

  /** Whether the enclosing scheme's dissemination perspective annotation is 'T'. */
  predicate SchemeHidden(s: HandlerState) {
    var a := SchemeAnnotations(s);
    PerspectiveAnnotation in a && a[PerspectiveAnnotation] == Some("T")
  }

  /** Whether a start element switches on text collection: an English name, an
      annotation title or an annotation type. */
  predicate StartsText(local: string, attrs: map<string, string>) {
    (local == "Name" && XmlLang in attrs && attrs[XmlLang] == "en") ||
    local == "AnnotationTitle" || local == "AnnotationType"
  }

  /** `start_element`. */
  function Start(s: HandlerState, qname: string, attrs: map<string, string>): Result<HandlerState, CategorizationError> {
    match LocalName(qname)
    case Failure(e) => Failure(e)
    case Success(local) =>
      var entered :=
        if IsCategoryElement(local) then
          s.(categoryPath := s.categoryPath + [IdOf(attrs)], schemeAnnotations := SchemeAnnotations(s),
             annotations := map[], aliased := false)
        else s;
      var scoped := if local == "CategoryScheme" then entered.(schemeAnnotations := map[]) else entered;
      Success(if StartsText(local, attrs) then scoped.(collectData := true) else scoped)
  }

  /** `end_element`. */
  function End(s: HandlerState, qname: string): Result<HandlerState, CategorizationError> {
    match LocalName(qname)
    case Failure(e) => Failure(e)
    case Success(local) =>
      if IsCategoryElement(local) && s.categoryPath == [] then Failure(PopEmpty)
      else
        var closed := if IsCategoryElement(local) then s.(categoryPath := s.categoryPath[..|s.categoryPath| - 1]) else s;
        var next: Result<HandlerState, CategorizationError> :=
          if local == "Name" && closed.data != [] then
            var named := if |closed.categoryPath| == 1 then closed.(aliased := true) else closed;
            if SchemeHidden(named) then Success(named)
            else Success(named.(emitted := named.emitted + [Entry(named.categoryPath, Concat(named.data), named.annotations)]))
          else if local == "AnnotationTitle" then Success(closed.(annotationTitle := Some(Concat(closed.data))))
          else if local == "AnnotationType" then Success(closed.(annotationType := Some(Concat(closed.data))))
          else if local == "Annotation" then
            if closed.annotationType.None? then Failure(MissingAnnotationType)
            else if EndsWith(closed.annotationType.value, "ICON") then Success(closed)
            else Success(closed.(annotations := closed.annotations[closed.annotationType.value := closed.annotationTitle]))
          else Success(closed);
        match next
        case Failure(e) => Failure(e)
        case Success(t) => Success(t.(collectData := false, data := []))
  }

  /** `char_data`: while collecting, a stripped non-empty chunk is buffered. */
  function Chars(s: HandlerState, text: string): HandlerState {
    if !s.collectData then s
    else
      var stripped := StripSpace(text);
      if |stripped| > 0 then s.(data := s.data + [stripped]) else s
  }

  function Apply(s: HandlerState, e: Event): Result<HandlerState, CategorizationError> {
    match e
    case StartElement(q, attrs) => Start(s, q, attrs)
    case EndElement(q) => End(s, q)
    case CharData(text) => Success(Chars(s, text))
  }

  /** The state after a stream of events, or the first error. */
  function RunFrom(s: HandlerState, events: seq<Event>): Result<HandlerState, CategorizationError>
    decreases |events|
  {
    if events == [] then Success(s)
    else
      match Apply(s, events[0])
      case Failure(e) => Failure(e)
      case Success(t) => RunFrom(t, events[1..])
  }

  /** `parse_string`: the entries a document's events report, in order. */
  function Parse(events: seq<Event>): Result<seq<Entry>, CategorizationError> {
    match RunFrom(Initial, events)
    case Failure(e) => Failure(e)
    case Success(s) => Success(s.emitted)
  }

  // ---------------------------------------------------------------------------
  // the handler object

  /** The SAX handler, its fields updated by each event. */
  class Handler {
    var data: seq<string>
    var categoryPath: seq<string>
    var collectData: bool
    var annotationTitle: Option<string>
    var annotationType: Option<string>
    var annotations: map<string, Option<string>>
    var schemeAnnotations: map<string, Option<string>>
    var aliased: bool
    var emitted: seq<Entry>

    function State(): HandlerState
      reads this
    {
      HandlerState(data, categoryPath, collectData, annotationTitle, annotationType,
                   annotations, schemeAnnotations, aliased, emitted)
    }

    constructor ()
      ensures State() == Initial
    {
      data := [];
      categoryPath := [];
      collectData := false;
      annotationTitle := None;
      annotationType := None;
      annotations := map[];
      schemeAnnotations := map[];
      aliased := false;
      emitted := [];
    }

    method StartElementEvent(qname: string, attrs: map<string, string>) returns (error: Option<CategorizationError>)
      modifies this
      ensures var r := Start(old(State()), qname, attrs);
              (r.Success? ==> error == None && State() == r.value) &&
              (r.Failure? ==> error == Some(r.error) && State() == old(State()))
    {
      var local := LocalName(qname);
      if local.Failure? {
        return Some(local.error);
      }
      if IsCategoryElement(local.value) {
        categoryPath := categoryPath + [IdOf(attrs)];
        schemeAnnotations := if aliased then annotations else schemeAnnotations;
        annotations := map[];
        aliased := false;
      }
      if local.value == "CategoryScheme" {
        schemeAnnotations := map[];
      }
      if StartsText(local.value, attrs) {
        collectData := true;
      }
      return None;
    }

    method EndElementEvent(qname: string) returns (error: Option<CategorizationError>)
      modifies this
      ensures var r := End(old(State()), qname);
              (r.Success? ==> error == None && State() == r.value) &&
              (r.Failure? ==> error == Some(r.error) && State() == old(State()))
    {
      var local := LocalName(qname);
      if local.Failure? {
        return Some(local.error);
      }
      var name := local.value;
      if IsCategoryElement(name) {
        if categoryPath == [] {
          return Some(PopEmpty);
        }
        categoryPath := categoryPath[..|categoryPath| - 1];
      }
      if name == "Name" && data != [] {
        if |categoryPath| == 1 {
          aliased := true;
        }
        if !SchemeHidden(State()) {
          emitted := emitted + [Entry(categoryPath, Concat(data), annotations)];
        }
      } else if name == "AnnotationTitle" {
        annotationTitle := Some(Concat(data));
      } else if name == "AnnotationType" {
        annotationType := Some(Concat(data));
      } else if name == "Annotation" {
        if annotationType.None? {
          return Some(MissingAnnotationType);
        }
        if !EndsWith(annotationType.value, "ICON") {
          annotations := annotations[annotationType.value := annotationTitle];
        }
      }
      collectData := false;
      data := [];
      return None;
    }

    method CharDataEvent(text: string)
      modifies this
      ensures State() == Chars(old(State()), text)
    {
      if !collectData {
        return;
      }
      var stripped := StripSpace(text);
      if |stripped| > 0 {
        data := data + [stripped];
      }
    }
  }

  /** The entries reported before the events ran out or one of them raised:
      the callback has appended them by then either way. */
  function Reported(s: HandlerState, events: seq<Event>): seq<Entry>
    decreases |events|
  {
    if events == [] then s.emitted
    else
      match Apply(s, events[0])
      case Failure(_) => s.emitted
      case Success(t) => Reported(t, events[1..])
  }

  /** `parse_string`: feeds the events to a fresh handler; gives the outcome
      and the entries the callback received, which on an error are those
      reported before it. */
  method ParseString(events: seq<Event>) returns (r: Result<seq<Entry>, CategorizationError>, reported: seq<Entry>)
    ensures r == Parse(events) && reported == Reported(Initial, events)
  {
    var handler := new Handler();
    var i := 0;
    while i < |events|
      invariant 0 <= i <= |events|
      invariant RunFrom(Initial, events) == RunFrom(handler.State(), events[i..])
      invariant Reported(Initial, events) == Reported(handler.State(), events[i..])
      decreases |events| - i
    {
      assert events[i..][0] == events[i] && events[i..][1..] == events[i + 1..];
      var error: Option<CategorizationError> := None;
      match events[i] {
        case StartElement(q, attrs) => error := handler.StartElementEvent(q, attrs);
        case EndElement(q) => error := handler.EndElementEvent(q);
        case CharData(text) => handler.CharDataEvent(text);
      }
      if error.Some? {
        return Failure(error.value), handler.emitted;
      }
      i := i + 1;
    }
    return Success(handler.emitted), handler.emitted;
  }

  /** A run that raises no error reports what the parse returns. */
  lemma {:induction false} ReportedOnSuccess(s: HandlerState, events: seq<Event>)
    requires RunFrom(s, events).Success?
    ensures Reported(s, events) == RunFrom(s, events).value.emitted
    decreases |events|
  {
    if events != [] {
      ReportedOnSuccess(Apply(s, events[0]).value, events[1..]);
    }
  }

  // ---------------------------------------------------------------------------
  // what the handler guarantees

  /** The change a single event makes to the number of open schemes and categories. */
  function Delta(e: Event): int {
    match e
    case StartElement(q, _) => if LocalName(q).Success? && IsCategoryElement(LocalName(q).value) then 1 else 0
    case EndElement(q) => if LocalName(q).Success? && IsCategoryElement(LocalName(q).value) then -1 else 0
    case CharData(_) => 0
  }

  function Net(events: seq<Event>): int {
    if events == [] then 0 else Delta(events[0]) + Net(events[1..])
  }

  /** Every scheme or category start pushes its id and the matching end pops
      it, so the path is as long as the schemes and categories still open. */
  lemma {:induction false} PathDepth(s: HandlerState, events: seq<Event>)
    requires RunFrom(s, events).Success?
    ensures |RunFrom(s, events).value.categoryPath| == |s.categoryPath| + Net(events)
    decreases |events|
  {
    if events != [] {
      StepDepth(s, events[0]);
      PathDepth(Apply(s, events[0]).value, events[1..]);
    }
  }

  lemma StepDepth(s: HandlerState, e: Event)
    requires Apply(s, e).Success?
    ensures |Apply(s, e).value.categoryPath| == |s.categoryPath| + Delta(e)
  {
    match e
    case StartElement(q, attrs) => StartSpec(s, q, attrs);
    case EndElement(q) => EndPops(s, q);
    case CharData(_) =>
  }

  /** An end element pops the id of a scheme or category and leaves the path
      alone otherwise; an end that has nothing to pop raises. */
  lemma EndPops(s: HandlerState, qname: string)
    requires LocalName(qname).Success?
    ensures IsCategoryElement(LocalName(qname).value) && s.categoryPath == [] ==> End(s, qname) == Failure(PopEmpty)
    ensures End(s, qname).Success? ==>
              End(s, qname).value.categoryPath ==
                if IsCategoryElement(LocalName(qname).value) then s.categoryPath[..|s.categoryPath| - 1] else s.categoryPath
  {
  }

  /** Every buffered chunk is stripped and not empty. */
  predicate CleanChunks(data: seq<string>) {
    forall i :: 0 <= i < |data| ==> data[i] != "" && !IsSpace(data[i][0]) && !IsSpace(data[i][|data[i]| - 1])
  }

  /** Character data is buffered only while collecting, as one stripped
      non-empty chunk, and is otherwise ignored. */
  lemma CharsSpec(s: HandlerState, text: string)
    requires CleanChunks(s.data)
    ensures var t := Chars(s, text);
            CleanChunks(t.data) && t.(data := s.data) == s &&
            (!s.collectData || StripSpace(text) == "" ==> t.data == s.data) &&
            (s.collectData && StripSpace(text) != "" ==> t.data == s.data + [StripSpace(text)])
  {
    var stripped := StripSpace(text);
    if s.collectData && stripped != "" {
      var data := s.data + [stripped];
      forall i | 0 <= i < |data| ensures data[i] != "" && !IsSpace(data[i][0]) && !IsSpace(data[i][|data[i]| - 1]) {
        if i < |s.data| {
          assert data[i] == s.data[i];
        }
      }
    }
  }

  /** A start element buffers nothing, switches collection on exactly for an
      English name, an annotation title or an annotation type (and never off),
      and pushes the id of a scheme or category. */
  lemma StartSpec(s: HandlerState, qname: string, attrs: map<string, string>)
    requires Start(s, qname, attrs).Success?
    ensures var t := Start(s, qname, attrs).value;
            var local := LocalName(qname).value;
            t.data == s.data && t.emitted == s.emitted &&
            t.collectData == (s.collectData || StartsText(local, attrs)) &&
            t.categoryPath == (if IsCategoryElement(local) then s.categoryPath + [IdOf(attrs)] else s.categoryPath) &&
            (IsCategoryElement(local) ==> t.annotations == map[]) &&
            (local == "CategoryScheme" ==> SchemeAnnotations(t) == map[])
  {
  }

  /** A category start keeps the enclosing scheme's annotations, so a scheme
      hidden by its perspective stays hidden for all its categories; only a
      new scheme starts afresh. */
  lemma StartKeepsSchemeAnnotations(s: HandlerState, qname: string, attrs: map<string, string>)
    requires Start(s, qname, attrs).Success? && LocalName(qname).value != "CategoryScheme"
    ensures SchemeAnnotations(Start(s, qname, attrs).value) == SchemeAnnotations(s)
    ensures SchemeHidden(s) ==> SchemeHidden(Start(s, qname, attrs).value)
  {
  }

  /** After any end element nothing is collected and the buffer is empty. */
  lemma EndResets(s: HandlerState, qname: string)
    requires End(s, qname).Success?
    ensures !End(s, qname).value.collectData && End(s, qname).value.data == []
  {
  }

  /** A name end with buffered text reports the current path with the joined
      text and the current annotations, unless the enclosing scheme's
      perspective annotation is 'T'; no other end reports anything. */
  lemma EndReports(s: HandlerState, qname: string)
    requires End(s, qname).Success?
    ensures var t := End(s, qname).value;
            var local := LocalName(qname).value;
            var named := if |s.categoryPath| == 1 then s.(aliased := true) else s;
            if local == "Name" && s.data != [] && !SchemeHidden(named) then
              t.emitted == s.emitted + [Entry(s.categoryPath, Concat(s.data), s.annotations)]
            else t.emitted == s.emitted
    ensures var t := End(s, qname).value;
            var rebinds := LocalName(qname).value == "Name" && s.data != [] && |s.categoryPath| == 1;
            (rebinds ==> t.aliased && SchemeAnnotations(t) == s.annotations) &&
            (!rebinds ==> t.aliased == s.aliased)
  {
  }

  /** An annotation whose type ends in "ICON" is not recorded; any other is
      recorded under its type with its title. */
  lemma AnnotationRecorded(s: HandlerState, qname: string)
    requires LocalName(qname) == Success("Annotation") && s.annotationType.Some?
    ensures End(s, qname).Success?
    ensures EndsWith(s.annotationType.value, "ICON") ==> End(s, qname).value.annotations == s.annotations
    ensures !EndsWith(s.annotationType.value, "ICON") ==>
              End(s, qname).value.annotations == s.annotations[s.annotationType.value := s.annotationTitle]
  {
  }

  /** A whole run keeps every buffered chunk clean. */
  lemma {:induction false} RunKeepsChunksClean(s: HandlerState, events: seq<Event>)
    requires CleanChunks(s.data) && RunFrom(s, events).Success?
    ensures CleanChunks(RunFrom(s, events).value.data)
    decreases |events|
  {
    if events != [] {
      var t := Apply(s, events[0]).value;
      match events[0] {
        case StartElement(q, attrs) => StartSpec(s, q, attrs);
        case EndElement(q) => EndResets(s, q);
        case CharData(text) => CharsSpec(s, text);
      }
      RunKeepsChunksClean(t, events[1..]);
    }
  }

  // ---------------------------------------------------------------------------
  // the enumerator's queries over the reported entries

  /** `list_category_schemes` over the entries: every entry with a one-id
      path, as a non-container named after the entry, in entry order. */
  function Schemes(items: seq<Entry>): (r: seq<WebFs.ContainerItem>)
    ensures forall x :: x in r ==> !x.isContainer
  {
    if items == [] then []
    else
      (if |items[0].path| == 1 then [WebFs.ContainerItem(false, items[0].path[0], Some(items[0].name), None)] else [])
      + Schemes(items[1..])
  }

  /** The schemes listed are exactly the entries with a one-id path. */
  lemma {:induction false} SchemesSpec(items: seq<Entry>, x: WebFs.ContainerItem)
    ensures x in Schemes(items) <==>
              exists e :: e in items && |e.path| == 1 && x == WebFs.ContainerItem(false, e.path[0], Some(e.name), None)
  {
    if items != [] {
      SchemesSpec(items[1..], x);
      assert forall e :: e in items <==> e == items[0] || e in items[1..];
    }
  }

  /** Whether an entry lies directly under the parent's path. */
  predicate ChildOf(e: Entry, parentPath: seq<string>) {
    |e.path| == |parentPath| + 1 && e.path[..|e.path| - 1] == parentPath
  }

  /** `list_categories`: the entries one level below the '/'-separated parent
      path, as containers whose id is their path joined with '/'. */
  function Categories(items: seq<Entry>, parent: string): (r: seq<WebFs.ContainerItem>)
    ensures forall x :: x in r ==> x.isContainer
  {
    if items == [] then []
    else
      (if ChildOf(items[0], Split(parent, '/')) then [WebFs.ContainerItem(true, Join(items[0].path, '/'), Some(items[0].name), None)] else [])
      + Categories(items[1..], parent)
  }

  /** The categories listed are exactly the entries directly under the parent. */
  lemma {:induction false} CategoriesSpec(items: seq<Entry>, parent: string, x: WebFs.ContainerItem)
    ensures x in Categories(items, parent) <==>
              exists e :: e in items && ChildOf(e, Split(parent, '/')) &&
                x == WebFs.ContainerItem(true, Join(e.path, '/'), Some(e.name), None)
  {
    if items != [] {
      CategoriesSpec(items[1..], parent, x);
      assert forall e :: e in items <==> e == items[0] || e in items[1..];
    }
  }

  /** A listed category's id is its parent's id, a slash and its own id. */
  lemma CategoryIdExtendsParent(parent: string, e: Entry)
    requires ChildOf(e, Split(parent, '/'))
    ensures Join(e.path, '/') == parent + "/" + e.path[|e.path| - 1]
  {
    var parts := Split(parent, '/');
    var last := e.path[|e.path| - 1];
    assert e.path == parts + [last];
    JoinSnoc(parts, last, '/');
    JoinSplit(parent, '/');
  }

  lemma {:induction false} JoinSnoc(parts: seq<string>, last: string, d: char)
    requires |parts| >= 1
    ensures Join(parts + [last], d) == Join(parts, d) + [d] + last
    decreases |parts|
  {
    if |parts| == 1 {
      assert (parts + [last])[1..] == [last];
    } else {
      assert (parts + [last])[1..] == parts[1..] + [last];
      JoinSnoc(parts[1..], last, d);
    }
  }

  /** The names by joined path; a later entry with the same path wins, as in a
      dict comprehension. */
  function NameIndex(items: seq<Entry>): map<string, string>
    decreases |items|
  {
    if items == [] then map[]
    else
      var last := items[|items| - 1];
      NameIndex(items[..|items| - 1])[Join(last.path, '/') := last.name]
  }

  /** `info`: a container with the name recorded for that path, or the id
      itself when none was. */
  function InfoItem(index: map<string, string>, containerId: string): WebFs.ContainerItem {
    WebFs.ContainerItem(true, containerId, Some(if containerId in index then index[containerId] else containerId), None)
  }

  /** The index names a path exactly when some entry has it, with the name of
      the last such entry. */
  lemma {:induction false} NameIndexSpec(items: seq<Entry>, id: string)
    ensures id in NameIndex(items) <==> exists i :: 0 <= i < |items| && Join(items[i].path, '/') == id
    ensures id in NameIndex(items) ==>
              exists i :: 0 <= i < |items| && Join(items[i].path, '/') == id && NameIndex(items)[id] == items[i].name &&
                forall j :: i < j < |items| ==> Join(items[j].path, '/') != id
    decreases |items|
  {
    if items != [] {
      var init := items[..|items| - 1];
      NameIndexSpec(init, id);
      assert forall i :: 0 <= i < |init| ==> init[i] == items[i];
    }
  }

  // ---------------------------------------------------------------------------
  // the enumerator

  /** Reads the category scheme document at a URL and tokenises it into
      events, or gives the reader's error message. */
  type Fetch = string -> Result<seq<Event>, string>

  /** What reading the agency's category schemes gives: the reader's error,
      or the parse of the document. */
  function ReadOutcome(fetch: Fetch, agency: Agency): Result<seq<Entry>, CategorizationError> {
    var doc := fetch(agency.CategorySchemesUrl());
    if doc.Failure? then Failure(ReadFailed(doc.error)) else Parse(doc.value)
  }

  /** The enumerator over an agency's category schemes; the reported entries
      and the name index are computed once and kept. */
  class ThemesEnumerator {
    const agency: Agency
    var items: Option<seq<Entry>>
    var tree: Option<map<string, string>>

    predicate Valid()
      reads this
    {
      tree.Some? ==> items.Some? && tree.value == NameIndex(items.value)
    }

    constructor (agency: Agency)
      ensures this.agency == agency && items == None && tree == None && Valid()
    {
      this.agency := agency;
      items := None;
      tree := None;
    }

    /** `init_items`: reads the agency's category schemes and parses them
        into a fresh list; a parse error leaves the entries reported before it
        in the list. */
    method InitItems(fetch: Fetch) returns (error: Option<CategorizationError>)
      modifies this
      requires Valid() && items.None?
      ensures Valid() && tree == old(tree)
      ensures var doc := fetch(agency.CategorySchemesUrl());
              if doc.Failure? then error == Some(ReadFailed(doc.error)) && items == None
              else
                items == Some(Reported(Initial, doc.value)) &&
                if Parse(doc.value).Failure? then error == Some(Parse(doc.value).error)
                else error == None && items == Some(Parse(doc.value).value)
    {
      var doc := fetch(agency.CategorySchemesUrl());
      if doc.Failure? {
        return Some(ReadFailed(doc.error));
      }
      var parsed, reported := ParseString(doc.value);
      items := Some(reported);
      if parsed.Failure? {
        return Some(parsed.error);
      }
      ReportedOnSuccess(Initial, doc.value);
      return None;
    }

    /** The entries, reading them first when there is no list yet. */
    method Entries(fetch: Fetch) returns (r: Result<seq<Entry>, CategorizationError>)
      modifies this
      requires Valid()
      ensures Valid()
      ensures old(items).Some? ==> r == Success(old(items).value) && items == old(items) && tree == old(tree)
      ensures r.Success? ==> items == Some(r.value)
      ensures old(items).None? ==>
                var doc := fetch(agency.CategorySchemesUrl());
                r == ReadOutcome(fetch, agency) &&
                items == (if doc.Failure? then None else Some(Reported(Initial, doc.value)))
    {
      if items.Some? {
        return Success(items.value);
      }
      var error := InitItems(fetch);
      if error.Some? {
        return Failure(error.value);
      }
      return Success(items.value);
    }

    /** `list_category_schemes`. */
    method ListCategorySchemes(fetch: Fetch) returns (r: Result<seq<WebFs.ContainerItem>, CategorizationError>)
      modifies this
      requires Valid()
      ensures Valid()
      ensures r.Success? ==> items.Some? && r.value == Schemes(items.value)
      ensures old(items).Some? ==> r.Success? && items == old(items)
      ensures old(items).None? ==> (r.Success? <==> ReadOutcome(fetch, agency).Success?)
      ensures old(items).None? && r.Success? ==> items == Some(ReadOutcome(fetch, agency).value)
      ensures r.Failure? ==> old(items).None? && r.error == ReadOutcome(fetch, agency).error
    {
      var entries := Entries(fetch);
      if entries.Failure? {
        return Failure(entries.error);
      }
      return Success(Schemes(entries.value));
    }

    /** `list_categories`. */
    method ListCategories(fetch: Fetch, parent: string) returns (r: Result<seq<WebFs.ContainerItem>, CategorizationError>)
      modifies this
      requires Valid()
      ensures Valid()
      ensures r.Success? ==> items.Some? && r.value == Categories(items.value, parent)
      ensures old(items).Some? ==> r.Success? && items == old(items)
      ensures old(items).None? ==> (r.Success? <==> ReadOutcome(fetch, agency).Success?)
      ensures old(items).None? && r.Success? ==> items == Some(ReadOutcome(fetch, agency).value)
      ensures r.Failure? ==> old(items).None? && r.error == ReadOutcome(fetch, agency).error
    {
      var entries := Entries(fetch);
      if entries.Failure? {
        return Failure(entries.error);
      }
      return Success(Categories(entries.value, parent));
    }

    /** `info`: builds the name index on first use and keeps it. */
    method Info(fetch: Fetch, containerId: string) returns (r: Result<WebFs.ContainerItem, CategorizationError>)
      modifies this
      requires Valid()
      ensures Valid()
      ensures r.Success? ==> items.Some? && tree.Some? && r.value == InfoItem(NameIndex(items.value), containerId)
      ensures old(items).Some? ==> r.Success? && items == old(items)
      ensures old(items).None? ==> (r.Success? <==> ReadOutcome(fetch, agency).Success?)
      ensures old(items).None? && r.Success? ==> items == Some(ReadOutcome(fetch, agency).value)
      ensures r.Failure? ==> old(items).None? && r.error == ReadOutcome(fetch, agency).error
    {
      var entries := Entries(fetch);
      if entries.Failure? {
        return Failure(entries.error);
      }
      if tree.None? {
        tree := Some(NameIndex(entries.value));
      }
      return Success(InfoItem(tree.value, containerId));
    }
  }
}
