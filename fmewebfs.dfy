/** The web-filesystem layer: the dict-shaped items and listing pages handed to
    FME Workbench, the validation in front of a container listing, the
    breadth-first `walk` over paginated listings, the download-encoding choice
    and the operation keyword dispatch of the connector transformer. */
module WebFs {
  import opened Wrappers
  import opened Strings
  import opened Values

  // ---------------------------------------------------------------------------
  // items and pages

  /** A file or container as listed by a driver; `icon` is absent unless a
      truthy icon was given. */
  datatype ContainerItem = ContainerItem(isContainer: bool, id: string, name: Option<string>, icon: Option<string>)

  /** `ContainerItem(is_container, item_id, name, icon)`: an empty icon is not stored. */
  function NewContainerItem(isContainer: bool, id: string, name: Option<string>, icon: Option<string>): (item: ContainerItem)
    ensures item.isContainer == isContainer && item.id == id && item.name == name
    ensures item.icon.Some? <==> icon.Some? && icon.value != ""
    ensures item.icon.Some? ==> item.icon == icon
  {
    ContainerItem(isContainer, id, name, if icon.Some? && icon.value != "" then icon else None)
  }

  /** The dict keys an item carries. */
  function ItemKeys(item: ContainerItem): set<string> {
    {"IS_CONTAINER", "ID", "NAME"} + (if item.icon.Some? then {"ICON"} else {})
  }

  /** An item holds IS_CONTAINER, ID and NAME, and ICON exactly when it was given a truthy icon. */
  lemma NewContainerItemKeys(isContainer: bool, id: string, name: Option<string>, icon: Option<string>)
    ensures {"IS_CONTAINER", "ID", "NAME"} <= ItemKeys(NewContainerItem(isContainer, id, name, icon))
    ensures "ICON" in ItemKeys(NewContainerItem(isContainer, id, name, icon)) <==> icon.Some? && icon.value != ""
    ensures |ItemKeys(NewContainerItem(isContainer, id, name, icon))| == if icon.Some? && icon.value != "" then 4 else 3
  {
  }

  /** The arguments a driver needs to request the next page of a listing. */
  datatype ContinuationInfo = ContinuationInfo(args: map<string, Value>)

  /** One page of a container listing; `continuation` is None when it is the last page. */
  datatype ContainerContentResponse = ContainerContentResponse(contents: seq<ContainerItem>, continuation: Option<ContinuationInfo>)

  /** The dict keys a page carries: CONTINUE only when there is a next page. */
  function ResponseKeys(resp: ContainerContentResponse): (keys: set<string>)
    ensures "CONTENTS" in keys
    ensures "CONTINUE" in keys <==> resp.continuation.Some?
  {
    {"CONTENTS"} + (if resp.continuation.Some? then {"CONTINUE"} else {})
  }

  /** The `continuation` property: the continuation arguments, or an empty dict on the last page. */
  function ContinuationArgs(resp: ContainerContentResponse): (args: map<string, Value>)
    ensures resp.continuation.None? ==> args == map[]
    ensures resp.continuation.Some? ==> args == resp.continuation.value.args
  {
    match resp.continuation
    case None => map[]
    case Some(c) => c.args
  }

  /** The containers of a listing, in listing order. */
  function Folders(contents: seq<ContainerItem>): (r: seq<ContainerItem>)
    ensures forall i :: 0 <= i < |r| ==> r[i].isContainer
  {
    if contents == [] then []
    else (if contents[0].isContainer then [contents[0]] else []) + Folders(contents[1..])
  }

  /** The non-containers of a listing, in listing order. */
  function Files(contents: seq<ContainerItem>): (r: seq<ContainerItem>)
    ensures forall i :: 0 <= i < |r| ==> !r[i].isContainer
  {
    if contents == [] then []
    else (if contents[0].isContainer then [] else [contents[0]]) + Files(contents[1..])
  }

  /** Folders and files split a listing: every item lands in exactly one of them. */
  lemma {:induction false} FoldersFilesPartition(contents: seq<ContainerItem>)
    ensures multiset(Folders(contents)) + multiset(Files(contents)) == multiset(contents)
    ensures |Folders(contents)| + |Files(contents)| == |contents|
  {
    if contents != [] {
      FoldersFilesPartition(contents[1..]);
      assert contents == [contents[0]] + contents[1..];
    }
  }

  /** A listing made of containers only is all folders and no files. */
  lemma {:induction false} FoldersOfContainers(contents: seq<ContainerItem>)
    requires forall i :: 0 <= i < |contents| ==> contents[i].isContainer
    ensures Folders(contents) == contents && Files(contents) == []
  {
    if contents != [] {
      FoldersOfContainers(contents[1..]);
      assert contents == [contents[0]] + contents[1..];
    }
  }

  // ---------------------------------------------------------------------------
  // the Workbench-facing container listing

  /** The errors raised in front of a listing. */
  datatype WebFsError =
    | MissingKey(key: string)
    | ItemNotFound(id: Value)
    | NotAContainer(name: Option<string>, itemId: string)
    | CannotWalkNonFolder

  /** The ids that stand for the root or for search results and are listed without a lookup. */
  predicate NeedsLookup(containerId: Value) {
    Truthy(containerId) && containerId != Str("/") && containerId != Str("Search Results")
  }

  /** `getContainerContents`: validates the requested container, then lists it
      through the driver, recording the container id in the continuation arguments. */
  function GetContainerContents(
    args: map<string, Value>,
    itemInfo: Value -> Option<ContainerItem>,
    list: (Value, map<string, Value>) -> ContainerContentResponse
  ): (r: Result<ContainerContentResponse, WebFsError>)
    ensures "CONTAINER_ID" !in args ==> r == Failure(MissingKey("CONTAINER_ID"))
    ensures "CONTAINER_ID" in args && NeedsLookup(args["CONTAINER_ID"]) && itemInfo(args["CONTAINER_ID"]).None?
            ==> r == Failure(ItemNotFound(args["CONTAINER_ID"]))
    ensures r.Success? <==>
              "CONTAINER_ID" in args &&
              (NeedsLookup(args["CONTAINER_ID"]) ==>
                 itemInfo(args["CONTAINER_ID"]).Some? && itemInfo(args["CONTAINER_ID"]).value.isContainer)
    ensures r.Success? ==>
              var listed := list(args["CONTAINER_ID"], args);
              r.value.contents == listed.contents &&
              (r.value.continuation.Some? <==> listed.continuation.Some?) &&
              (r.value.continuation.Some? ==>
                 var next := r.value.continuation.value.args;
                 "CONTAINER_ID" in next && next["CONTAINER_ID"] == args["CONTAINER_ID"] &&
                 forall k :: k in listed.continuation.value.args && k != "CONTAINER_ID" ==>
                   k in next && next[k] == listed.continuation.value.args[k])
  {
    if "CONTAINER_ID" !in args then Failure(MissingKey("CONTAINER_ID"))
    else
      var containerId := args["CONTAINER_ID"];
      var info := itemInfo(containerId);
      if NeedsLookup(containerId) && info.None? then Failure(ItemNotFound(containerId))
      else if NeedsLookup(containerId) && !info.value.isContainer then Failure(NotAContainer(info.value.name, info.value.id))
      else
        var results := list(containerId, args);
        match results.continuation
        case None => Success(results)
        case Some(c) => Success(results.(continuation := Some(ContinuationInfo(c.args["CONTAINER_ID" := containerId]))))
  }

  // ---------------------------------------------------------------------------
  // download encoding

  /** The fixed table of encoding names FME uses that Python spells differently;
      `fme-binary` means "keep the bytes" and maps to no encoding. */
  const EncodingFixes: map<string, Option<string>> := map[
    "fme-binary" := None,
    "x-mac-greek" := Some("mac_greek"),
    "x-mac-cyrillic" := Some("mac_cyrillic"),
    "x-mac-centraleurroman" := Some("maccentraleurope"),
    "ksc_5601" := Some("ksc5601"),
    "ibm-950_p110-1999" := Some("cp950"),
    "ibm-737_p100-1997" := Some("cp737"),
    "ibm-5471_p100-2006" := Some("big5hkscs"),
    "windows-874-2000" := Some("cp874")
  ]

  /** `fixes.get(encoding, encoding)`. */
  function FixEncoding(encoding: string): Option<string> {
    if encoding in EncodingFixes then EncodingFixes[encoding] else Some(encoding)
  }

  /** The encoding a download requests: the detected one for "auto-detect", the
      system locale's for "fme-system", otherwise the configured one; an empty
      choice falls back to utf-8, and the result goes through the fix table. */
  function ResolveEncoding(configEncoding: Option<string>, detected: Option<string>, systemLocale: Option<string>): (r: Option<string>)
    ensures var chosen := RequestedEncoding(configEncoding, detected, systemLocale);
            (r.None? <==> chosen == "fme-binary") &&
            (chosen in EncodingFixes ==> r == EncodingFixes[chosen]) &&
            (chosen !in EncodingFixes ==> r == Some(chosen))
    ensures (configEncoding.None? || configEncoding == Some("")) ==> r == Some("utf-8")
    ensures r != Some("")
  {
    FixEncoding(RequestedEncoding(configEncoding, detected, systemLocale))
  }

  /** The encoding name before the fix table: the detected one for
      "auto-detect", the system locale's for "fme-system", otherwise the
      configured one, each falling back to utf-8 when missing or empty. */
  function RequestedEncoding(configEncoding: Option<string>, detected: Option<string>, systemLocale: Option<string>): (e: string)
    ensures e != ""
    ensures configEncoding == Some("auto-detect") ==> e == OrUtf8(detected)
    ensures configEncoding == Some("fme-system") ==> e == OrUtf8(systemLocale)
    ensures configEncoding != Some("auto-detect") && configEncoding != Some("fme-system") ==> e == OrUtf8(configEncoding)
  {
    var e :=
      if configEncoding == Some("auto-detect") then detected
      else if configEncoding == Some("fme-system") then systemLocale
      else configEncoding;
    if e.None? || e.value == "" then "utf-8" else e.value
  }

  /** A present, non-empty encoding name, or utf-8. */
  function OrUtf8(o: Option<string>): (e: string)
    ensures o.Some? && o.value != "" ==> e == o.value
    ensures o.None? || o.value == "" ==> e == "utf-8"
  {
    if o.None? || o.value == "" then "utf-8" else o.value
  }

  /** The fix table is idempotent: no fixed name is itself an entry of the table. */
  lemma FixEncodingIdempotent(encoding: string)
    ensures FixEncoding(encoding).Some? ==> FixEncoding(FixEncoding(encoding).value) == FixEncoding(encoding)
  {
    forall k | k in EncodingFixes && EncodingFixes[k].Some? ensures EncodingFixes[k].value !in EncodingFixes {
      assert "ksc5601"[3] != "ksc_5601"[3];
    }
  }

  // ---------------------------------------------------------------------------
  // operation dispatch

  /** The operations the connector transformer forwards to a handler. */
  datatype Operation = Upload | Download | Delete | List

  function OperationKeyword(op: Operation): string {
    match op
    case Upload => "upload"
    case Download => "download"
    case Delete => "delete"
    case List => "list"
  }

  /** `handle_operation`: the handler a keyword is forwarded to, compared ignoring
      case; None is the `False` returned for an unknown keyword. */
  function HandleOperation(keyword: string): (r: Option<Operation>)
    ensures r.Some? ==> OperationKeyword(r.value) == Lower(keyword)
    ensures r.None? <==> Lower(keyword) !in {"upload", "download", "delete", "list"}
  {
    var k := Lower(keyword);
    if k == "upload" then Some(Upload)
    else if k == "download" then Some(Download)
    else if k == "delete" then Some(Delete)
    else if k == "list" then Some(List)
    else None
  }

  /** Every operation's keyword, in any case, is forwarded to that operation. */
  lemma HandleOperationKeyword(op: Operation, keyword: string)
    requires Lower(keyword) == OperationKeyword(op)
    ensures HandleOperation(keyword) == Some(op)
  {
    match op
    case Upload =>
    case Download =>
    case Delete => assert "delete"[1] != "download"[1];
    case List =>
  }

  /** Dispatch ignores case: a keyword and its lower-case spelling reach the same handler. */
  lemma HandleOperationIgnoresCase(keyword: string)
    ensures HandleOperation(Lower(keyword)) == HandleOperation(keyword)
  {
    LowerIdempotent(keyword);
  }

  // ---------------------------------------------------------------------------
  // walk

  /** A driver's `get_container_contents`: one page of the listing of a container,
      given the keyword arguments (continuation arguments included). */
  type Lister = (Value, map<string, Value>) -> ContainerContentResponse

  /** What the walk yields for one listing page: the ancestry of the listed
      container (top first), its subfolders and its files. */
  datatype Page = Page(dirpath: seq<ContainerItem>, folders: seq<ContainerItem>, files: seq<ContainerItem>)

  /** The caller's say in the walk: the folders left in the yielded list after
      the caller had the page (all of them, unless the caller prunes). */
  type Pruner = Page -> seq<ContainerItem>

  /** A container being listed, page after page, with its accumulated keyword arguments. */
  datatype Cursor = Cursor(ancestry: seq<ContainerItem>, extra: map<string, Value>)

  predicate NonEmptyAncestries(queue: seq<seq<ContainerItem>>, current: Option<Cursor>) {
    (forall k :: 0 <= k < |queue| ==> queue[k] != []) &&
    (current.Some? ==> current.value.ancestry != [])
  }

  function Last(ancestry: seq<ContainerItem>): ContainerItem
    requires ancestry != []
  {
    ancestry[|ancestry| - 1]
  }

  /** The page yielded for one listing response. */
  function PageOf(ancestry: seq<ContainerItem>, resp: ContainerContentResponse): Page {
    Page(ancestry, Folders(resp.contents), Files(resp.contents))
  }

  /** The ancestries enqueued for the folders the caller kept. */
  function Children(ancestry: seq<ContainerItem>, kept: seq<ContainerItem>): (r: seq<seq<ContainerItem>>)
    ensures |r| == |kept|
    ensures forall k :: 0 <= k < |kept| ==> r[k] == ancestry + [kept[k]]
  {
    seq(|kept|, k requires 0 <= k < |kept| => ancestry + [kept[k]])
  }

  /** The cursor after a page: the same container with the continuation
      arguments merged in, or none after the last page. */
  function NextCursor(c: Cursor, resp: ContainerContentResponse): Option<Cursor> {
    match resp.continuation
    case None => None
    case Some(info) => Some(Cursor(c.ancestry, c.extra + info.args))
  }

  /** The walk from a given state, as the pages it yields and whether it ran to
      the end: a state is the pages so far, the queue of ancestries still to
      visit and the container being paged through, if any. Each page spends one
      unit of `fuel`, which stands for the pages a caller consumes from the
      (possibly endless) generator. */
  function WalkFrom(
    done: seq<Page>, queue: seq<seq<ContainerItem>>, current: Option<Cursor>, fuel: nat,
    list: Lister, prune: Pruner, kwargs: map<string, Value>
  ): (seq<Page>, bool)
    requires NonEmptyAncestries(queue, current)
    decreases fuel, if current.None? then 1 else 0
  {
    match current
    case None =>
      if queue == [] then (done, true)
      else WalkFrom(done, queue[1..], Some(Cursor(queue[0], kwargs)), fuel, list, prune, kwargs)
    case Some(c) =>
      if fuel == 0 then (done, false)
      else
        var resp := list(Str(Last(c.ancestry).id), c.extra);
        var page := PageOf(c.ancestry, resp);
        WalkFrom(done + [page], queue + Children(c.ancestry, prune(page)), NextCursor(c, resp), fuel - 1, list, prune, kwargs)
  }

  /** `walk(top_container_id)`: the top must be a container; then its tree is
      listed breadth first, following every page of each listing and descending
      into the folders the caller leaves in each yielded list. */
  method Walk(
    topId: Value, itemInfo: Value -> Option<ContainerItem>, list: Lister, prune: Pruner,
    kwargs: map<string, Value>, fuel: nat
  ) returns (r: Result<(seq<Page>, bool), WebFsError>)
    ensures (itemInfo(topId).None? || !itemInfo(topId).value.isContainer) <==> r == Failure(CannotWalkNonFolder)
    ensures itemInfo(topId).Some? && itemInfo(topId).value.isContainer ==>
              r == Success(WalkFrom([], [[itemInfo(topId).value]], None, fuel, list, prune, kwargs))
  {
    var info := itemInfo(topId);
    if info.None? || !info.value.isContainer {
      return Failure(CannotWalkNonFolder);
    }
    ghost var goal := WalkFrom([], [[info.value]], None, fuel, list, prune, kwargs);
    var pages: seq<Page> := [];
    var queue: seq<seq<ContainerItem>> := [[info.value]];
    var left := fuel;
    var complete := true;
    while queue != [] && complete
      invariant NonEmptyAncestries(queue, None)
      invariant complete ==> WalkFrom(pages, queue, None, left, list, prune, kwargs) == goal
      invariant !complete ==> (pages, false) == goal
      decreases left, if complete then 1 else 0
    {
      var ancestry := queue[0];
      queue := queue[1..];
      var extra := kwargs;
      var more := true;
      ghost var left0 := left;
      while more
        invariant ancestry != [] && NonEmptyAncestries(queue, None)
        invariant left <= left0 && (left == left0 ==> more || !complete)
        invariant more ==> complete && WalkFrom(pages, queue, Some(Cursor(ancestry, extra)), left, list, prune, kwargs) == goal
        invariant !more && complete ==> WalkFrom(pages, queue, None, left, list, prune, kwargs) == goal
        invariant !complete ==> (pages, false) == goal
        decreases left, more
      {
        if left == 0 {
          complete := false;
          more := false;
        } else {
          var resp := list(Str(ancestry[|ancestry| - 1].id), extra);
          var page := Page(ancestry, Folders(resp.contents), Files(resp.contents));
          var kept := prune(page);
          pages := pages + [page];
          ghost var before := queue;
          var k := 0;
          while k < |kept|
            invariant 0 <= k <= |kept|
            invariant queue == before + Children(ancestry, kept[..k])
          {
            queue := queue + [ancestry + [kept[k]]];
            k := k + 1;
          }
          assert kept[..k] == kept;
          left := left - 1;
          if resp.continuation.None? {
            more := false;
          } else {
            extra := extra + resp.continuation.value.args;
          }
        }
      }
    }
    r := Success((pages, complete));
  }

  // ---------------------------------------------------------------------------
  // what the walk promises

  /** An ancestry is the top alone, or the ancestry of an earlier page (among the
      first `j`) extended by one of the folders the caller kept on that page. */
  ghost predicate ParentBefore(pages: seq<Page>, j: int, a: seq<ContainerItem>, prune: Pruner)
    requires 0 <= j <= |pages|
  {
    |a| == 1 ||
    (|a| > 1 && exists i :: 0 <= i < j && pages[i].dirpath == a[..|a| - 1] && a[|a| - 1] in prune(pages[i]))
  }

  /** The ancestry `a` is listed by some page after page `i`. */
  ghost predicate VisitedAfter(pages: seq<Page>, i: int, a: seq<ContainerItem>)
    requires 0 <= i
  {
    exists j :: i < j < |pages| && pages[j].dirpath == a
  }

  /** The depth at which the walk is: that of the container being paged
      through, or of the last page. */
  function Level(done: seq<Page>, current: Option<Cursor>): int {
    if current.Some? then |current.value.ancestry|
    else if done == [] then 1
    else |done[|done| - 1].dirpath|
  }

  /** A page is the split of one listing of its container, under some keyword arguments. */
  ghost predicate Listed(page: Page, list: Lister) {
    page.dirpath != [] &&
    exists extra :: page == PageOf(page.dirpath, list(Str(Last(page.dirpath).id), extra))
  }

  /** Facts about the pages yielded so far. */
  ghost predicate PagesInv(top: ContainerItem, pages: seq<Page>, list: Lister, prune: Pruner) {
    (forall j :: 0 <= j < |pages| ==> pages[j].dirpath != [] && pages[j].dirpath[0] == top) &&
    (forall j :: 0 <= j < |pages| ==> Listed(pages[j], list)) &&
    (forall j :: 0 <= j < |pages| ==> ParentBefore(pages, j, pages[j].dirpath, prune)) &&
    (forall i, j :: 0 <= i < j < |pages| ==> |pages[i].dirpath| <= |pages[j].dirpath|)
  }

  /** Every folder the caller kept on a yielded page is listed by a later page. */
  ghost predicate AllKeptVisited(pages: seq<Page>, prune: Pruner) {
    forall i, k :: 0 <= i < |pages| && 0 <= k < |prune(pages[i])| ==>
      VisitedAfter(pages, i, pages[i].dirpath + [prune(pages[i])[k]])
  }

  predicate Rooted(top: ContainerItem, a: seq<ContainerItem>) {
    a != [] && a[0] == top
  }

  /** Facts about the walk's pending work. */
  ghost predicate PendingInv(top: ContainerItem, done: seq<Page>, queue: seq<seq<ContainerItem>>, current: Option<Cursor>, prune: Pruner) {
    (forall k :: 0 <= k < |queue| ==> Rooted(top, queue[k]) && ParentBefore(done, |done|, queue[k], prune)) &&
    (current.Some? ==> Rooted(top, current.value.ancestry) && ParentBefore(done, |done|, current.value.ancestry, prune)) &&
    (forall j :: 0 <= j < |done| ==> |done[j].dirpath| <= Level(done, current)) &&
    (forall k :: 0 <= k < |queue| ==> Level(done, current) <= |queue[k]| <= Level(done, current) + 1) &&
    (forall k, l :: 0 <= k < l < |queue| ==> |queue[k]| <= |queue[l]|) &&
    (forall i, k :: 0 <= i < |done| && 0 <= k < |prune(done[i])| ==>
       var a := done[i].dirpath + [prune(done[i])[k]];
       VisitedAfter(done, i, a) || a in queue || (current.Some? && current.value.ancestry == a))
  }

  ghost predicate WalkInv(top: ContainerItem, done: seq<Page>, queue: seq<seq<ContainerItem>>, current: Option<Cursor>, list: Lister, prune: Pruner) {
    NonEmptyAncestries(queue, current) && PagesInv(top, done, list, prune) && PendingInv(top, done, queue, current, prune)
  }

  lemma ParentBeforeGrow(pages: seq<Page>, more: seq<Page>, j: int, j2: int, a: seq<ContainerItem>, prune: Pruner)
    requires 0 <= j <= |pages| && j <= j2 <= |pages + more|
    requires ParentBefore(pages, j, a, prune)
    ensures ParentBefore(pages + more, j2, a, prune)
  {
    if |a| != 1 {
      var i :| 0 <= i < j && pages[i].dirpath == a[..|a| - 1] && a[|a| - 1] in prune(pages[i]);
      assert (pages + more)[i] == pages[i];
    }
  }

  lemma VisitedAfterGrow(pages: seq<Page>, more: seq<Page>, i: int, a: seq<ContainerItem>)
    requires 0 <= i && VisitedAfter(pages, i, a)
    ensures VisitedAfter(pages + more, i, a)
  {
    var j :| i < j < |pages| && pages[j].dirpath == a;
    assert (pages + more)[j] == pages[j];
  }

  /** The walk starts from the top container alone. */
  lemma WalkInvInit(top: ContainerItem, list: Lister, prune: Pruner)
    ensures WalkInv(top, [], [[top]], None, list, prune)
  {
  }

  /** Taking the next ancestry off the queue keeps the invariant. */
  lemma WalkInvPop(top: ContainerItem, done: seq<Page>, queue: seq<seq<ContainerItem>>, list: Lister, prune: Pruner, kwargs: map<string, Value>)
    requires queue != [] && WalkInv(top, done, queue, None, list, prune)
    ensures WalkInv(top, done, queue[1..], Some(Cursor(queue[0], kwargs)), list, prune)
  {
    var current := Some(Cursor(queue[0], kwargs));
    var rest := queue[1..];
    LevelPop(done, queue, current);
    forall k | 0 <= k < |rest| ensures Rooted(top, rest[k]) && ParentBefore(done, |done|, rest[k], prune) {
      assert rest[k] == queue[k + 1];
    }
    VisitsPop(done, queue, current, prune);
  }

  lemma LevelPop(done: seq<Page>, queue: seq<seq<ContainerItem>>, current: Option<Cursor>)
    requires queue != [] && current.Some? && current.value.ancestry == queue[0]
    requires forall j :: 0 <= j < |done| ==> |done[j].dirpath| <= Level(done, None)
    requires forall k :: 0 <= k < |queue| ==> Level(done, None) <= |queue[k]| <= Level(done, None) + 1
    requires forall k, l :: 0 <= k < l < |queue| ==> |queue[k]| <= |queue[l]|
    ensures forall j :: 0 <= j < |done| ==> |done[j].dirpath| <= Level(done, current)
    ensures forall k :: 0 <= k < |queue[1..]| ==> Level(done, current) <= |queue[1..][k]| <= Level(done, current) + 1
    ensures forall k, l :: 0 <= k < l < |queue[1..]| ==> |queue[1..][k]| <= |queue[1..][l]|
  {
    assert Level(done, current) == |queue[0]|;
    forall k | 0 <= k < |queue[1..]|
      ensures Level(done, current) <= |queue[1..][k]| <= Level(done, current) + 1
    {
      assert queue[1..][k] == queue[k + 1];
    }
    forall k, l | 0 <= k < l < |queue[1..]| ensures |queue[1..][k]| <= |queue[1..][l]| {
      assert queue[1..][k] == queue[k + 1] && queue[1..][l] == queue[l + 1];
    }
  }

  lemma VisitsPop(done: seq<Page>, queue: seq<seq<ContainerItem>>, current: Option<Cursor>, prune: Pruner)
    requires queue != [] && current.Some? && current.value.ancestry == queue[0]
    requires forall i, k :: 0 <= i < |done| && 0 <= k < |prune(done[i])| ==>
               var a := done[i].dirpath + [prune(done[i])[k]];
               VisitedAfter(done, i, a) || a in queue
    ensures forall i, k :: 0 <= i < |done| && 0 <= k < |prune(done[i])| ==>
              var a := done[i].dirpath + [prune(done[i])[k]];
              VisitedAfter(done, i, a) || a in queue[1..] || (current.Some? && current.value.ancestry == a)
  {
    forall i, k | 0 <= i < |done| && 0 <= k < |prune(done[i])|
      ensures var a := done[i].dirpath + [prune(done[i])[k]];
              VisitedAfter(done, i, a) || a in queue[1..] || (current.Some? && current.value.ancestry == a)
    {
      var a := done[i].dirpath + [prune(done[i])[k]];
      if a in queue && a != queue[0] {
        var m :| 0 <= m < |queue| && queue[m] == a;
        assert queue[1..][m - 1] == a;
      }
    }
  }

  /** The yielded pages keep their facts when a page is added. */
  lemma PagesInvPage(top: ContainerItem, done: seq<Page>, c: Cursor, list: Lister, prune: Pruner)
    requires c.ancestry != [] && PagesInv(top, done, list, prune)
    requires Rooted(top, c.ancestry) && ParentBefore(done, |done|, c.ancestry, prune)
    requires forall j :: 0 <= j < |done| ==> |done[j].dirpath| <= |c.ancestry|
    ensures PagesInv(top, done + [PageOf(c.ancestry, list(Str(Last(c.ancestry).id), c.extra))], list, prune)
  {
    var page := PageOf(c.ancestry, list(Str(Last(c.ancestry).id), c.extra));
    assert Listed(page, list) by {
      assert page == PageOf(page.dirpath, list(Str(Last(page.dirpath).id), c.extra));
    }
    PagesParentsAppend(done, page, prune);
    PagesInvAppend(top, done, page, list, prune);
  }

  /** A page whose parent was listed earlier keeps every page's parent listed before it. */
  lemma PagesParentsAppend(done: seq<Page>, page: Page, prune: Pruner)
    requires forall j :: 0 <= j < |done| ==> ParentBefore(done, j, done[j].dirpath, prune)
    requires ParentBefore(done, |done|, page.dirpath, prune)
    ensures var pages := done + [page];
            forall j :: 0 <= j < |pages| ==> ParentBefore(pages, j, pages[j].dirpath, prune)
  {
    var pages := done + [page];
    forall j | 0 <= j < |pages| ensures ParentBefore(pages, j, pages[j].dirpath, prune) {
      if j < |done| {
        ParentBeforeGrow(done, [page], j, j, done[j].dirpath, prune);
      } else {
        ParentBeforeGrow(done, [page], |done|, j, page.dirpath, prune);
      }
    }
  }

  /** A rooted, listed page no shallower than the pages before it keeps their facts. */
  lemma PagesInvAppend(top: ContainerItem, done: seq<Page>, page: Page, list: Lister, prune: Pruner)
    requires PagesInv(top, done, list, prune)
    requires page.dirpath != [] && page.dirpath[0] == top && Listed(page, list)
    requires forall j :: 0 <= j < |done| ==> |done[j].dirpath| <= |page.dirpath|
    requires var pages := done + [page];
             forall j :: 0 <= j < |pages| ==> ParentBefore(pages, j, pages[j].dirpath, prune)
    ensures PagesInv(top, done + [page], list, prune)
  {
    var pages := done + [page];
    forall j | 0 <= j < |pages| ensures Listed(pages[j], list) && pages[j].dirpath != [] && pages[j].dirpath[0] == top {
      if j < |done| {
        assert pages[j] == done[j];
      }
    }
  }

  /** The queued ancestries and the cursor keep their parents when a page is listed. */
  lemma PendingParentsPage(top: ContainerItem, done: seq<Page>, queue: seq<seq<ContainerItem>>, c: Cursor, page: Page, next: Option<Cursor>, prune: Pruner)
    requires page.dirpath == c.ancestry && (next.Some? ==> next.value.ancestry == c.ancestry)
    requires forall k :: 0 <= k < |queue| ==> Rooted(top, queue[k]) && ParentBefore(done, |done|, queue[k], prune)
    requires Rooted(top, c.ancestry) && ParentBefore(done, |done|, c.ancestry, prune)
    ensures var pages := done + [page];
            var queue2 := queue + Children(c.ancestry, prune(page));
            (forall k :: 0 <= k < |queue2| ==> Rooted(top, queue2[k]) && ParentBefore(pages, |pages|, queue2[k], prune)) &&
            (next.Some? ==> Rooted(top, next.value.ancestry) && ParentBefore(pages, |pages|, next.value.ancestry, prune))
  {
    var pages := done + [page];
    var queue2 := queue + Children(c.ancestry, prune(page));
    forall k | 0 <= k < |queue2| ensures Rooted(top, queue2[k]) && ParentBefore(pages, |pages|, queue2[k], prune) {
      if k < |queue| {
        ParentBeforeGrow(done, [page], |done|, |pages|, queue[k], prune);
      } else {
        var a := queue2[k];
        assert a == c.ancestry + [prune(page)[k - |queue|]];
        assert pages[|done|].dirpath == a[..|a| - 1];
      }
    }
    if next.Some? {
      ParentBeforeGrow(done, [page], |done|, |pages|, c.ancestry, prune);
    }
  }

  /** The breadth-first levels are kept when a page is listed. */
  lemma PendingLevelsPage(done: seq<Page>, queue: seq<seq<ContainerItem>>, c: Cursor, page: Page, kept: seq<ContainerItem>, next: Option<Cursor>)
    requires page.dirpath == c.ancestry && (next.Some? ==> next.value.ancestry == c.ancestry)
    requires forall j :: 0 <= j < |done| ==> |done[j].dirpath| <= |c.ancestry|
    requires forall k :: 0 <= k < |queue| ==> |c.ancestry| <= |queue[k]| <= |c.ancestry| + 1
    requires forall k, l :: 0 <= k < l < |queue| ==> |queue[k]| <= |queue[l]|
    ensures var pages := done + [page];
            var queue2 := queue + Children(c.ancestry, kept);
            (forall j :: 0 <= j < |pages| ==> |pages[j].dirpath| <= Level(pages, next)) &&
            (forall k :: 0 <= k < |queue2| ==> Level(pages, next) <= |queue2[k]| <= Level(pages, next) + 1) &&
            (forall k, l :: 0 <= k < l < |queue2| ==> |queue2[k]| <= |queue2[l]|)
  {
    var pages := done + [page];
    var queue2 := queue + Children(c.ancestry, kept);
    assert Level(pages, next) == |c.ancestry|;
    forall j | 0 <= j < |pages| ensures |pages[j].dirpath| <= |c.ancestry| {
      if j < |done| {
        assert pages[j] == done[j];
      }
    }
    forall k | 0 <= k < |queue2| ensures |c.ancestry| <= |queue2[k]| <= |c.ancestry| + 1 {
      if k < |queue| {
        assert queue2[k] == queue[k];
      }
    }
    forall k, l | 0 <= k < l < |queue2| ensures |queue2[k]| <= |queue2[l]| {
      if l < |queue| {
        assert queue2[k] == queue[k] && queue2[l] == queue[l];
      } else if k < |queue| {
        assert queue2[k] == queue[k];
      }
    }
  }

  /** Every kept folder stays visited, queued or current when a page is listed. */
  lemma PendingVisitsPage(done: seq<Page>, queue: seq<seq<ContainerItem>>, c: Cursor, page: Page, next: Option<Cursor>, prune: Pruner)
    requires page.dirpath == c.ancestry && (next.Some? ==> next.value.ancestry == c.ancestry)
    requires forall i, k :: 0 <= i < |done| && 0 <= k < |prune(done[i])| ==>
               var a := done[i].dirpath + [prune(done[i])[k]];
               VisitedAfter(done, i, a) || a in queue || c.ancestry == a
    ensures var pages := done + [page];
            var queue2 := queue + Children(c.ancestry, prune(page));
            forall i, k :: 0 <= i < |pages| && 0 <= k < |prune(pages[i])| ==>
              var a := pages[i].dirpath + [prune(pages[i])[k]];
              VisitedAfter(pages, i, a) || a in queue2 || (next.Some? && next.value.ancestry == a)
  {
    var pages := done + [page];
    var queue2 := queue + Children(c.ancestry, prune(page));
    forall i, k | 0 <= i < |pages| && 0 <= k < |prune(pages[i])|
      ensures var a := pages[i].dirpath + [prune(pages[i])[k]];
              VisitedAfter(pages, i, a) || a in queue2 || (next.Some? && next.value.ancestry == a)
    {
      var a := pages[i].dirpath + [prune(pages[i])[k]];
      if i == |done| {
        assert queue2[|queue| + k] == a;
      } else {
        assert pages[i] == done[i];
        if VisitedAfter(done, i, a) {
          VisitedAfterGrow(done, [page], i, a);
        } else if a in queue {
          assert a in queue2;
        } else {
          assert pages[|done|].dirpath == a;
        }
      }
    }
  }

  /** The pending work keeps its facts when a page is listed. */
  lemma PendingInvPage(top: ContainerItem, done: seq<Page>, queue: seq<seq<ContainerItem>>, c: Cursor, list: Lister, prune: Pruner)
    requires c.ancestry != [] && WalkInv(top, done, queue, Some(c), list, prune)
    ensures var resp := list(Str(Last(c.ancestry).id), c.extra);
            var page := PageOf(c.ancestry, resp);
            PendingInv(top, done + [page], queue + Children(c.ancestry, prune(page)), NextCursor(c, resp), prune)
  {
    var resp := list(Str(Last(c.ancestry).id), c.extra);
    var page := PageOf(c.ancestry, resp);
    var next := NextCursor(c, resp);
    PendingParentsPage(top, done, queue, c, page, next, prune);
    PendingLevelsPage(done, queue, c, page, prune(page), next);
    PendingVisitsPage(done, queue, c, page, next, prune);
  }

  /** Listing one page keeps the invariant. */
  lemma WalkInvPage(top: ContainerItem, done: seq<Page>, queue: seq<seq<ContainerItem>>, c: Cursor, list: Lister, prune: Pruner)
    requires c.ancestry != [] && WalkInv(top, done, queue, Some(c), list, prune)
    ensures var resp := list(Str(Last(c.ancestry).id), c.extra);
            var page := PageOf(c.ancestry, resp);
            WalkInv(top, done + [page], queue + Children(c.ancestry, prune(page)), NextCursor(c, resp), list, prune)
  {
    PagesInvPage(top, done, c, list, prune);
    PendingInvPage(top, done, queue, c, list, prune);
  }

  /** At the end of the queue every kept folder has been listed. */
  lemma WalkInvDone(top: ContainerItem, done: seq<Page>, list: Lister, prune: Pruner)
    requires WalkInv(top, done, [], None, list, prune)
    ensures AllKeptVisited(done, prune)
  {
  }

  /** The walk keeps its invariant from any state to the end of its fuel or its queue. */
  lemma {:induction false} WalkFromKeeps(
    top: ContainerItem, done: seq<Page>, queue: seq<seq<ContainerItem>>, current: Option<Cursor>, fuel: nat,
    list: Lister, prune: Pruner, kwargs: map<string, Value>)
    requires WalkInv(top, done, queue, current, list, prune)
    ensures var r := WalkFrom(done, queue, current, fuel, list, prune, kwargs);
            PagesInv(top, r.0, list, prune) && (r.1 ==> AllKeptVisited(r.0, prune))
    decreases fuel, if current.None? then 1 else 0
  {
    match current
    case None =>
      if queue == [] {
        WalkInvDone(top, done, list, prune);
      } else {
        WalkInvPop(top, done, queue, list, prune, kwargs);
        WalkFromKeeps(top, done, queue[1..], Some(Cursor(queue[0], kwargs)), fuel, list, prune, kwargs);
      }
    case Some(c) =>
      if fuel != 0 {
        var resp := list(Str(Last(c.ancestry).id), c.extra);
        var page := PageOf(c.ancestry, resp);
        WalkInvPage(top, done, queue, c, list, prune);
        WalkFromKeeps(top, done + [page], queue + Children(c.ancestry, prune(page)), NextCursor(c, resp), fuel - 1, list, prune, kwargs);
      }
  }

  /** The parent clause of the walk's invariant, spelled out on the yielded pages. */
  lemma PagesFacts(top: ContainerItem, pages: seq<Page>, list: Lister, prune: Pruner)
    requires PagesInv(top, pages, list, prune)
    ensures forall j :: 0 <= j < |pages| && |pages[j].dirpath| > 1 ==>
              var a := pages[j].dirpath;
              exists i :: 0 <= i < j && pages[i].dirpath == a[..|a| - 1] && a[|a| - 1] in prune(pages[i])
  {
    forall j | 0 <= j < |pages| && |pages[j].dirpath| > 1
      ensures var a := pages[j].dirpath;
              exists i :: 0 <= i < j && pages[i].dirpath == a[..|a| - 1] && a[|a| - 1] in prune(pages[i])
    {
      assert ParentBefore(pages, j, pages[j].dirpath, prune);
    }
  }

  /** What `walk` yields from a top container: every page lists a container
      under the top, split into folders and files; each page deeper than the
      top lists a folder the caller kept on an earlier page of its parent;
      pages come in breadth-first order (never shallower than the page
      before); and a walk that runs to the end lists every kept folder. */
  lemma WalkProperties(top: ContainerItem, list: Lister, prune: Pruner, kwargs: map<string, Value>, fuel: nat)
    ensures var r := WalkFrom([], [[top]], None, fuel, list, prune, kwargs);
            var pages := r.0;
            (forall j :: 0 <= j < |pages| ==> pages[j].dirpath != [] && pages[j].dirpath[0] == top) &&
            (forall j :: 0 <= j < |pages| ==> Listed(pages[j], list)) &&
            (forall j :: 0 <= j < |pages| && |pages[j].dirpath| > 1 ==>
               var a := pages[j].dirpath;
               exists i :: 0 <= i < j && pages[i].dirpath == a[..|a| - 1] && a[|a| - 1] in prune(pages[i])) &&
            (forall i, j :: 0 <= i < j < |pages| ==> |pages[i].dirpath| <= |pages[j].dirpath|) &&
            (r.1 ==> AllKeptVisited(pages, prune))
  {
    WalkInvInit(top, list, prune);
    WalkFromKeeps(top, [], [[top]], None, fuel, list, prune, kwargs);
    var r := WalkFrom([], [[top]], None, fuel, list, prune, kwargs);
    PagesFacts(top, r.0, list, prune);
  }

  /** A folder the caller removes from every page of its parent is never listed. */
  lemma WalkSkipsPruned(
    top: ContainerItem, list: Lister, prune: Pruner, kwargs: map<string, Value>, fuel: nat,
    parent: seq<ContainerItem>, folder: ContainerItem)
    requires parent != []
    requires var pages := WalkFrom([], [[top]], None, fuel, list, prune, kwargs).0;
             forall i :: 0 <= i < |pages| && pages[i].dirpath == parent ==> folder !in prune(pages[i])
    ensures var pages := WalkFrom([], [[top]], None, fuel, list, prune, kwargs).0;
            forall j :: 0 <= j < |pages| ==> pages[j].dirpath != parent + [folder]
  {
    var pages := WalkFrom([], [[top]], None, fuel, list, prune, kwargs).0;
    WalkProperties(top, list, prune, kwargs, fuel);
    forall j | 0 <= j < |pages| ensures pages[j].dirpath != parent + [folder] {
      var a := pages[j].dirpath;
      if |a| == |parent| + 1 && a[..|a| - 1] == parent {
        var i :| 0 <= i < j && pages[i].dirpath == parent && a[|a| - 1] in prune(pages[i]);
        assert a[|a| - 1] != folder;
      }
    }
  }
}
