/** The part of the connector transformer factory that does not talk to FME:
    finding an item's id by name across the pages of a folder listing, the
    relative path reported for a listed item, and the dispatch of a feature on
    its operation type. */
module ConnectorFactory {
  import opened Wrappers
  import opened Strings
  import opened Values
  import WebFs

  /** Comparing names without regard to case lower-cases the listed name; a
      listed item without a name cannot be lower-cased. */
  datatype FactoryError = UnnamedItem(id: string)

  /** Whether a listed item's name is the name looked for: exact equality, or
      equality after lower-casing both when the search ignores case. */
  function ItemMatches(item: WebFs.ContainerItem, itemName: string, caseSensitive: bool): (r: Result<bool, FactoryError>)
    ensures r == Success(true) <==>
              item.name == Some(itemName) ||
              (!caseSensitive && item.name.Some? && Lower(item.name.value) == Lower(itemName))
    ensures r.Failure? <==> !caseSensitive && item.name.None?
    ensures caseSensitive ==> r == Success(item.name == Some(itemName))
  {
    if item.name == Some(itemName) then Success(true)
    else if caseSensitive then Success(false)
    else if item.name.None? then Failure(UnnamedItem(item.id))
    else Success(Lower(item.name.value) == Lower(itemName))
  }

  /** A name that differs from the one looked for only in case matches when case is ignored. */
  lemma CaseInsensitiveMatch(item: WebFs.ContainerItem, itemName: string)
    requires item.name.Some? && Lower(item.name.value) == Lower(itemName)
    ensures ItemMatches(item, itemName, false) == Success(true)
  {
  }

  /** The id of the first candidate whose name matches, None when none does;
      the search stops at the first unnamed candidate it has to lower-case. */
  function FirstMatch(candidates: seq<WebFs.ContainerItem>, itemName: string, caseSensitive: bool): Result<Option<string>, FactoryError>
  {
    if candidates == [] then Success(None)
    else
      match ItemMatches(candidates[0], itemName, caseSensitive)
      case Failure(e) => Failure(e)
      case Success(true) => Success(Some(candidates[0].id))
      case Success(false) => FirstMatch(candidates[1..], itemName, caseSensitive)
  }

  /** The candidates a search looks at: the folders of a page when a folder is
      looked for, its files otherwise. */
  function Candidates(resp: WebFs.ContainerContentResponse, isFolder: bool): seq<WebFs.ContainerItem> {
    if isFolder then WebFs.Folders(resp.contents) else WebFs.Files(resp.contents)
  }

  /** A found id belongs to a matching candidate that no earlier candidate
      matched before; no id is found exactly when no candidate matches. */
  lemma {:induction false} FirstMatchSpec(candidates: seq<WebFs.ContainerItem>, itemName: string, caseSensitive: bool)
    ensures var r := FirstMatch(candidates, itemName, caseSensitive);
            r.Success? && r.value.Some? ==>
              exists i :: 0 <= i < |candidates| && candidates[i].id == r.value.value &&
                ItemMatches(candidates[i], itemName, caseSensitive) == Success(true) &&
                forall j :: 0 <= j < i ==> ItemMatches(candidates[j], itemName, caseSensitive) == Success(false)
    ensures FirstMatch(candidates, itemName, caseSensitive) == Success(None) <==>
              forall i :: 0 <= i < |candidates| ==> ItemMatches(candidates[i], itemName, caseSensitive) == Success(false)
  {
    if candidates != [] {
      var tail := candidates[1..];
      FirstMatchSpec(tail, itemName, caseSensitive);
      var r := FirstMatch(candidates, itemName, caseSensitive);
      if ItemMatches(candidates[0], itemName, caseSensitive) == Success(false) {
        if r.Success? && r.value.Some? {
          var k :| 0 <= k < |tail| && tail[k].id == r.value.value &&
                   ItemMatches(tail[k], itemName, caseSensitive) == Success(true) &&
                   forall j :: 0 <= j < k ==> ItemMatches(tail[j], itemName, caseSensitive) == Success(false);
          assert candidates[k + 1] == tail[k];
          assert forall j :: 1 <= j < k + 1 ==> candidates[j] == tail[j - 1];
        }
        if forall i :: 0 <= i < |tail| ==> ItemMatches(tail[i], itemName, caseSensitive) == Success(false) {
          assert forall i :: 1 <= i < |candidates| ==> candidates[i] == tail[i - 1];
        }
      }
    }
  }

  /** A case-sensitive search never fails. */
  lemma {:induction false} FirstMatchCaseSensitive(candidates: seq<WebFs.ContainerItem>, itemName: string)
    ensures FirstMatch(candidates, itemName, true).Success?
  {
    if candidates != [] {
      FirstMatchCaseSensitive(candidates[1..], itemName);
    }
  }

  /** `_findId`: the id of the first item of the requested kind on one page
      whose name matches, in listing order. */
  method FindId(itemName: string, resp: WebFs.ContainerContentResponse, isFolder: bool, caseSensitive: bool)
    returns (r: Result<Option<string>, FactoryError>)
    ensures r == FirstMatch(Candidates(resp, isFolder), itemName, caseSensitive)
  {
    var items := if isFolder then WebFs.Folders(resp.contents) else WebFs.Files(resp.contents);
    var i := 0;
    while i < |items|
      invariant 0 <= i <= |items|
      invariant FirstMatch(items, itemName, caseSensitive) == FirstMatch(items[i..], itemName, caseSensitive)
    {
      assert items[i..][1..] == items[i + 1..];
      var m := ItemMatches(items[i], itemName, caseSensitive);
      if m.Failure? {
        return Failure(m.error);
      }
      if m.value {
        return Success(Some(items[i].id));
      }
      i := i + 1;
    }
    return Success(None);
  }

  /** An id found on a page is the id of an item of the requested kind on that
      page whose name matches. */
  lemma FindIdKind(resp: WebFs.ContainerContentResponse, itemName: string, isFolder: bool, caseSensitive: bool)
    requires FirstMatch(Candidates(resp, isFolder), itemName, caseSensitive).Success?
    requires FirstMatch(Candidates(resp, isFolder), itemName, caseSensitive).value.Some?
    ensures exists item :: item in resp.contents && item.isContainer == isFolder &&
              item.id == FirstMatch(Candidates(resp, isFolder), itemName, caseSensitive).value.value &&
              ItemMatches(item, itemName, caseSensitive) == Success(true)
  {
    var c := Candidates(resp, isFolder);
    FirstMatchSpec(c, itemName, caseSensitive);
    var i :| 0 <= i < |c| && c[i].id == FirstMatch(c, itemName, caseSensitive).value.value &&
             ItemMatches(c[i], itemName, caseSensitive) == Success(true);
    CandidatesIn(resp.contents, isFolder, i);
  }

  /** Every candidate is an item of the listing, of the requested kind. */
  lemma {:induction false} CandidatesIn(contents: seq<WebFs.ContainerItem>, isFolder: bool, i: nat)
    requires i < |Candidates(WebFs.ContainerContentResponse(contents, None), isFolder)|
    ensures var c := Candidates(WebFs.ContainerContentResponse(contents, None), isFolder);
            c[i] in contents && c[i].isContainer == isFolder
  {
    var c := Candidates(WebFs.ContainerContentResponse(contents, None), isFolder);
    var tail := Candidates(WebFs.ContainerContentResponse(contents[1..], None), isFolder);
    if contents[0].isContainer == isFolder {
      assert c == [contents[0]] + tail;
      if i > 0 {
        CandidatesIn(contents[1..], isFolder, i - 1);
      }
    } else {
      assert c == tail;
      CandidatesIn(contents[1..], isFolder, i);
    }
  }

  // ---------------------------------------------------------------------------
  // getItemId

  /** `pages` are the successive responses for a folder: the first for the
      initial request, each next one for the continuation arguments of the one
      before, and the last without a continuation. */
  predicate Paginated(fetch: map<string, Value> -> WebFs.ContainerContentResponse, first: map<string, Value>,
                      pages: seq<WebFs.ContainerContentResponse>)
  {
    |pages| > 0 && pages[0] == fetch(first) &&
    (forall i :: 0 <= i < |pages| - 1 ==>
       pages[i].continuation.Some? && pages[i + 1] == fetch(pages[i].continuation.value.args)) &&
    pages[|pages| - 1].continuation.None?
  }

  /** The first page's search result that is not "no match", or "no match" when
      every page gives that. */
  function SearchPages(pages: seq<WebFs.ContainerContentResponse>, itemName: string, isFolder: bool, caseSensitive: bool)
    : Result<Option<string>, FactoryError>
  {
    if pages == [] then Success(None)
    else
      var r := PageSearch(pages[0], itemName, isFolder, caseSensitive);
      if r != Success(None) then r else SearchPages(pages[1..], itemName, isFolder, caseSensitive)
  }

  /** The search result of one page. */
  function PageSearch(page: WebFs.ContainerContentResponse, itemName: string, isFolder: bool, caseSensitive: bool)
    : Result<Option<string>, FactoryError>
  {
    FirstMatch(Candidates(page, isFolder), itemName, caseSensitive)
  }

  /** `getItemId`: searches the folder's first page, then follows the
      continuation arguments page by page until a page settles the search. */
  method GetItemId(itemName: string, baseFolderId: Value, isFolder: bool, caseSensitive: bool,
                   fetch: map<string, Value> -> WebFs.ContainerContentResponse,
                   ghost pages: seq<WebFs.ContainerContentResponse>)
    returns (r: Result<Option<string>, FactoryError>)
    requires Paginated(fetch, map["CONTAINER_ID" := baseFolderId], pages)
    ensures r == SearchPages(pages, itemName, isFolder, caseSensitive)
  {
    var resp := fetch(map["CONTAINER_ID" := baseFolderId]);
    ghost var i := 0;
    r := FindId(itemName, resp, isFolder, caseSensitive);
    if r != Success(None) {
      return;
    }
    while resp.continuation.Some?
      invariant 0 <= i < |pages| && resp == pages[i]
      invariant r == Success(None) == FirstMatch(Candidates(resp, isFolder), itemName, caseSensitive)
      invariant SearchPages(pages, itemName, isFolder, caseSensitive) == SearchPages(pages[i..], itemName, isFolder, caseSensitive)
      decreases |pages| - i
    {
      assert pages[i..][1..] == pages[i + 1..];
      resp := fetch(resp.continuation.value.args);
      i := i + 1;
      r := FindId(itemName, resp, isFolder, caseSensitive);
      if r != Success(None) {
        return;
      }
    }
    assert pages[i..][1..] == [];
  }

  /** A found id comes from the first page with a match, and every earlier page
      has none; no id is found exactly when no page has a match. */
  lemma SearchPagesSpec(pages: seq<WebFs.ContainerContentResponse>, itemName: string, isFolder: bool, caseSensitive: bool)
    ensures var r := SearchPages(pages, itemName, isFolder, caseSensitive);
            r != Success(None) ==>
              exists p :: 0 <= p < |pages| && PageSearch(pages[p], itemName, isFolder, caseSensitive) == r &&
                forall q :: 0 <= q < p ==> PageSearch(pages[q], itemName, isFolder, caseSensitive) == Success(None)
    ensures SearchPages(pages, itemName, isFolder, caseSensitive) == Success(None) <==>
              forall p :: 0 <= p < |pages| ==> PageSearch(pages[p], itemName, isFolder, caseSensitive) == Success(None)
  {
    SearchPagesFound(pages, itemName, isFolder, caseSensitive);
    SearchPagesNone(pages, itemName, isFolder, caseSensitive);
  }

  lemma {:induction false} SearchPagesFound(pages: seq<WebFs.ContainerContentResponse>, itemName: string, isFolder: bool, caseSensitive: bool)
    ensures var r := SearchPages(pages, itemName, isFolder, caseSensitive);
            r != Success(None) ==>
              exists p :: 0 <= p < |pages| && PageSearch(pages[p], itemName, isFolder, caseSensitive) == r &&
                forall q :: 0 <= q < p ==> PageSearch(pages[q], itemName, isFolder, caseSensitive) == Success(None)
  {
    var r := SearchPages(pages, itemName, isFolder, caseSensitive);
    if pages != [] && r != Success(None) {
      if PageSearch(pages[0], itemName, isFolder, caseSensitive) != Success(None) {
        assert PageSearch(pages[0], itemName, isFolder, caseSensitive) == r;
      } else {
        var tail := pages[1..];
        SearchPagesFound(tail, itemName, isFolder, caseSensitive);
        assert SearchPages(tail, itemName, isFolder, caseSensitive) == r;
        var k :| 0 <= k < |tail| && PageSearch(tail[k], itemName, isFolder, caseSensitive) == r &&
                 forall q :: 0 <= q < k ==> PageSearch(tail[q], itemName, isFolder, caseSensitive) == Success(None);
        assert pages[k + 1] == tail[k];
        forall q | 0 <= q < k + 1 ensures PageSearch(pages[q], itemName, isFolder, caseSensitive) == Success(None) {
          if q > 0 {
            assert pages[q] == tail[q - 1];
          }
        }
      }
    }
  }

  lemma {:induction false} SearchPagesNone(pages: seq<WebFs.ContainerContentResponse>, itemName: string, isFolder: bool, caseSensitive: bool)
    ensures SearchPages(pages, itemName, isFolder, caseSensitive) == Success(None) <==>
              forall p :: 0 <= p < |pages| ==> PageSearch(pages[p], itemName, isFolder, caseSensitive) == Success(None)
  {
    if pages != [] {
      var tail := pages[1..];
      SearchPagesNone(tail, itemName, isFolder, caseSensitive);
      assert forall p :: 1 <= p < |pages| ==> pages[p] == tail[p - 1];
    }
  }

  // ---------------------------------------------------------------------------
  // relative path of a listed item

  /** The relative path reported for a listed item: the folder's path, a slash,
      and the item's name cut at its first " [". */
  function RelativePath(folderName: string, itemName: string): (r: string)
    ensures StartsWith(r, folderName + "/")
    ensures var shown := r[|folderName| + 1..];
            StartsWith(itemName, shown) &&
            (forall i :: 0 <= i < |shown| ==> !OccursAt(itemName, " [", i)) &&
            (|shown| == |itemName| || OccursAt(itemName, " [", |shown|))
  {
    var shown := BeforeFirst(itemName, " [");
    assert (folderName + "/" + shown)[|folderName| + 1..] == shown;
    folderName + "/" + shown
  }

  /** A name without " [" is reported whole. */
  lemma RelativePathPlain(folderName: string, itemName: string)
    requires !Contains(itemName, " [")
    ensures RelativePath(folderName, itemName) == folderName + "/" + itemName
  {
    var r := RelativePath(folderName, itemName);
    assert r == r[..|folderName| + 1] + r[|folderName| + 1..];
  }

  /** A name with a bracketed suffix, such as a dataset title followed by
      " [" and its code, is reported without the suffix. */
  lemma RelativePathBracketed(folderName: string, name: string, suffix: string)
    requires !Contains(name, " [")
    ensures RelativePath(folderName, name + " [" + suffix) == folderName + "/" + name
  {
    var s := name + " [" + suffix;
    var r := RelativePath(folderName, s);
    var shown := r[|folderName| + 1..];
    assert OccursAt(s, " [", |name|);
    forall i | 0 <= i < |name|
      ensures !OccursAt(s, " [", i)
    {
      NoEarlierSeparator(name, " [", suffix, i);
    }
    assert |shown| == |name|;
    assert shown == s[..|name|] == name;
    assert r == r[..|folderName| + 1] + shown;
  }

  /** A two-character separator with distinct characters that `name` lacks
      first occurs in `name + sep + suffix` right after `name`. */
  lemma NoEarlierSeparator(name: string, sep: string, suffix: string, i: int)
    requires |sep| == 2 && sep[0] != sep[1]
    requires !Contains(name, sep) && 0 <= i < |name|
    ensures !OccursAt(name + sep + suffix, sep, i)
  {
    var s := name + sep + suffix;
    if i + 2 <= |name| {
      assert s[i..i + 2] == name[i..i + 2];
      assert !OccursAt(name, sep, i);
    } else {
      assert s[i + 1] == sep[0];
    }
  }

  // ---------------------------------------------------------------------------
  // dispatch of a feature on its operation type

  /** The operations a connector feature can ask for. */
  datatype ConnectorOperation = DeleteItem | UploadItem | DownloadItem | ListItems | ConfigureNotifications | CreateItem | EditItem

  /** The operation type attribute value that selects each operation. */
  function OperationName(op: ConnectorOperation): string {
    match op
    case DeleteItem => "Delete"
    case UploadItem => "Upload"
    case DownloadItem => "Download"
    case ListItems => "List"
    case ConfigureNotifications => "Configure Push Notifications"
    case CreateItem => "Create"
    case EditItem => "Edit"
  }

  /** The message number of the rejection for an unknown operation type. */
  const InvalidInput := 932308

  /** `input`'s dispatch: the operation whose name equals the operation type
      exactly, or a rejection with the invalid-input message. */
  function Dispatch(operationType: string): (r: Result<ConnectorOperation, int>)
    ensures r.Success? ==> OperationName(r.value) == operationType
    ensures r.Failure? ==> r.error == InvalidInput && forall op :: OperationName(op) != operationType
  {
    if operationType == "Delete" then Success(DeleteItem)
    else if operationType == "Upload" then Success(UploadItem)
    else if operationType == "Download" then Success(DownloadItem)
    else if operationType == "List" then Success(ListItems)
    else if operationType == "Configure Push Notifications" then Success(ConfigureNotifications)
    else if operationType == "Create" then Success(CreateItem)
    else if operationType == "Edit" then Success(EditItem)
    else Failure(InvalidInput)
  }

  /** Every operation is selected by its own name, and only by it. */
  lemma DispatchName(op: ConnectorOperation)
    ensures Dispatch(OperationName(op)) == Success(op)
  {
  }

  /** Only the list operation holds the input feature back; every other one
      outputs it once it has done its work. */
  function OutputsInputFeature(op: ConnectorOperation): (r: bool)
    ensures r <==> op != ListItems
  {
    !op.ListItems?
  }
}
