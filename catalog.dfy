/** The Eurostat catalog: the category tree and the dataflow items built from
    the SDMX structural metadata records (category schemes, categories,
    categorisations and dataflows), and the filesystem driver that lists and
    describes its entries. */
module EurostatCatalog {
  import opened Wrappers
  import opened Strings
  import opened Constants
  import WebFs

  // ---------------------------------------------------------------------------
  // the records read from the structure queries

  /** One feature coming out of the XML reading pipeline. A reader error carries
      its message; the other kinds carry the attributes the catalog reads.
      `perspective` is the dissemination perspective id, None when absent. */
  datatype Record =
    | ReaderError(message: string)
    | CategoryRecord(perspective: Option<string>, schemeId: string, id: string, urn: string, name: Option<string>)
    | SchemeRecord(perspective: Option<string>, id: string, name: Option<string>)
    | CategorisationRecord(perspective: Option<string>, targetUrn: string, sourceId: string)
    | DataflowRecord(id: string, name: Option<string>)
    | OtherRecord(featureType: string)

  /** A record that the 'T' dissemination perspective hides. */
  predicate Hidden(rec: Record) {
    (rec.CategoryRecord? || rec.SchemeRecord? || rec.CategorisationRecord?) && rec.perspective == Some("T")
  }

  // ---------------------------------------------------------------------------
  // the catalog

  /** A child of a container: the tree entry or the dataflow item it refers to.
      Children are shared with the maps, so a later change to a name is seen
      through every container that lists the entry. */
  datatype ChildRef = ContainerRef(key: string) | ItemRef(id: string)

  /** A dataflow: its display name, its id and its key (both the dataflow id). */
  datatype Item = Item(name: Option<string>, id: string, key: string)

  /** A category scheme, a category, or a placeholder for one that some other
      record referred to first (no name and no id yet). */
  datatype Container = Container(name: Option<string>, id: Option<string>, key: string, children: seq<ChildRef>)

  /** The tree keyed by scheme id or category urn, with its keys in insertion
      order, and the dataflow items keyed by dataflow id. */
  datatype Catalog = Catalog(tree: map<string, Container>, order: seq<string>, items: map<string, Item>)

  const Empty := Catalog(map[], [], map[])

  predicate Resolves(cat: Catalog, child: ChildRef) {
    match child
    case ContainerRef(k) => k in cat.tree
    case ItemRef(i) => i in cat.items
  }

  /** Keys listed once each and exactly the tree's keys; every entry stored
      under its own key; every child resolves. */
  predicate WellFormed(cat: Catalog) {
    (forall i, j :: 0 <= i < j < |cat.order| ==> cat.order[i] != cat.order[j]) &&
    (forall k :: k in cat.tree ==> k in cat.order) && (forall k :: k in cat.order ==> k in cat.tree) &&
    (forall k :: k in cat.tree ==> cat.tree[k].key == k) &&
    (forall k, c :: k in cat.tree && c in cat.tree[k].children ==> Resolves(cat, c)) &&
    (forall i :: i in cat.items ==> cat.items[i].key == i && cat.items[i].id == i)
  }

  // ---------------------------------------------------------------------------
  // one record

  /** The key of a category's parent: the urn without its final "." and id, or
      the scheme id when what is left ends in the scheme's ")" version suffix.
      A urn shorter than the id leaves nothing, as Python's negative slice does. */
  function ParentKey(urn: string, id: string, schemeId: string): (r: string)
  {
    var cut := |urn| - (|id| + 1);
    var prefix := if cut >= 0 then urn[..cut] else "";
    if EndsWith(prefix, ")") then schemeId else prefix
  }

  /** The parent of a nested category is the category whose urn its own urn extends. */
  lemma ParentKeyNested(parentUrn: string, id: string, schemeId: string)
    requires !EndsWith(parentUrn, ")")
    ensures ParentKey(parentUrn + "." + id, id, schemeId) == parentUrn
  {
    assert (parentUrn + "." + id)[..|parentUrn|] == parentUrn;
  }

  /** The parent of a top-level category, whose urn follows the scheme's
      version suffix, is the scheme. */
  lemma ParentKeyTopLevel(schemeUrn: string, id: string, schemeId: string)
    requires EndsWith(schemeUrn, ")")
    ensures ParentKey(schemeUrn + "." + id, id, schemeId) == schemeId
  {
    assert (schemeUrn + "." + id)[..|schemeUrn|] == schemeUrn;
  }

  /** Appends a child to the container under `key`, creating a nameless
      placeholder holding just that child when there is none. */
  function AddChild(cat: Catalog, key: string, child: ChildRef): Catalog {
    if key in cat.tree then
      cat.(tree := cat.tree[key := cat.tree[key].(children := cat.tree[key].children + [child])])
    else
      cat.(tree := cat.tree[key := Container(None, None, key, [child])], order := cat.order + [key])
  }

  /** A category or scheme entry under `key` with its name and id: a new
      container at the end of the order, or the existing one (perhaps a
      placeholder) renamed, keeping its children. */
  function Define(cat: Catalog, key: string, name: Option<string>, id: Option<string>): Catalog {
    if key in cat.tree then cat.(tree := cat.tree[key := cat.tree[key].(name := name, id := id)])
    else cat.(tree := cat.tree[key := Container(name, id, key, [])], order := cat.order + [key])
  }

  /** The dataflow item under `id`, created named after its id when unseen. */
  function EnsureItem(cat: Catalog, id: string): Catalog {
    if id in cat.items then cat
    else cat.(items := cat.items[id := Item(Some(id), id, id)])
  }

  /** The catalog after one record that is not a reader error. */
  function Step(cat: Catalog, rec: Record): Catalog
    requires !rec.ReaderError?
  {
    if Hidden(rec) then cat
    else
      match rec
      case CategoryRecord(_, schemeId, id, urn, name) =>
        AddChild(Define(cat, urn, name, Some(id)), ParentKey(urn, id, schemeId), ContainerRef(urn))
      case SchemeRecord(_, id, name) =>
        if id in cat.tree then cat.(tree := cat.tree[id := cat.tree[id].(name := name)])
        else Define(cat, id, name, Some(id))
      case CategorisationRecord(_, targetUrn, sourceId) =>
        AddChild(EnsureItem(cat, sourceId), targetUrn, ItemRef(sourceId))
      case DataflowRecord(id, name) =>
        if id in cat.items then cat.(items := cat.items[id := cat.items[id].(name := name)])
        else cat.(items := cat.items[id := Item(name, id, id)])
      case OtherRecord(_) => cat
  }

  /** The catalog built from `cat` by the records in order, or the message of
      the first reader error among them. */
  function BuildFrom(cat: Catalog, records: seq<Record>): Result<Catalog, string>
    decreases |records|
  {
    if records == [] then Success(cat)
    else if records[0].ReaderError? then Failure(records[0].message)
    else BuildFrom(Step(cat, records[0]), records[1..])
  }

  /** `read_catalog`'s result: always built from an empty catalog. */
  function Build(records: seq<Record>): Result<Catalog, string> {
    BuildFrom(Empty, records)
  }

  /** `read_catalog`: folds the pipeline's features into the tree and the
      items, in the order they come out; a reader error aborts the build. */
  method ReadCatalog(records: seq<Record>) returns (r: Result<Catalog, string>)
    ensures r == Build(records)
  {
    var tree: map<string, Container> := map[];
    var order: seq<string> := [];
    var items: map<string, Item> := map[];
    var i := 0;
    while i < |records|
      invariant 0 <= i <= |records|
      invariant Build(records) == BuildFrom(Catalog(tree, order, items), records[i..])
    {
      var rec := records[i];
      assert records[i..][0] == rec && records[i..][1..] == records[i + 1..];
      ghost var before := Catalog(tree, order, items);
      if rec.ReaderError? {
        return Failure(rec.message);
      }
      if !Hidden(rec) {
        match rec
        case CategoryRecord(_, schemeId, id, urn, name) =>
          if urn in tree {
            tree := tree[urn := tree[urn].(name := name, id := Some(id))];
          } else {
            tree := tree[urn := Container(name, Some(id), urn, [])];
            order := order + [urn];
          }
          var parentKey := ParentKey(urn, id, schemeId);
          if parentKey in tree {
            tree := tree[parentKey := tree[parentKey].(children := tree[parentKey].children + [ContainerRef(urn)])];
          } else {
            tree := tree[parentKey := Container(None, None, parentKey, [ContainerRef(urn)])];
            order := order + [parentKey];
          }
        case SchemeRecord(_, id, name) =>
          if id in tree {
            tree := tree[id := tree[id].(name := name)];
          } else {
            tree := tree[id := Container(name, Some(id), id, [])];
            order := order + [id];
          }
        case CategorisationRecord(_, targetUrn, sourceId) =>
          if sourceId !in items {
            items := items[sourceId := Item(Some(sourceId), sourceId, sourceId)];
          }
          if targetUrn in tree {
            tree := tree[targetUrn := tree[targetUrn].(children := tree[targetUrn].children + [ItemRef(sourceId)])];
          } else {
            tree := tree[targetUrn := Container(None, None, targetUrn, [ItemRef(sourceId)])];
            order := order + [targetUrn];
          }
        case DataflowRecord(id, name) =>
          if id in items {
            items := items[id := items[id].(name := name)];
          } else {
            items := items[id := Item(name, id, id)];
          }
        case OtherRecord(_) =>
      }
      assert Catalog(tree, order, items) == Step(before, rec);
      i := i + 1;
    }
    return Success(Catalog(tree, order, items));
  }

  // ---------------------------------------------------------------------------
  // what one record does

  /** A record hidden by the 'T' dissemination perspective changes nothing. */
  lemma HiddenRecordIgnored(cat: Catalog, rec: Record)
    requires !rec.ReaderError? && Hidden(rec)
    ensures Step(cat, rec) == cat
  {
  }

  /** Appending a child touches that one container only, creating it as a
      placeholder at the end of the order when it is new; items are unchanged. */
  lemma AddChildEffect(cat: Catalog, key: string, child: ChildRef)
    ensures var r := AddChild(cat, key, child);
            r.items == cat.items && key in r.tree &&
            r.tree[key].children == (if key in cat.tree then cat.tree[key].children else []) + [child] &&
            (key in cat.tree ==> r.tree[key] == cat.tree[key].(children := r.tree[key].children) && r.order == cat.order) &&
            (key !in cat.tree ==> r.tree[key] == Container(None, None, key, [child]) && r.order == cat.order + [key]) &&
            (forall k :: k in cat.tree && k != key ==> k in r.tree && r.tree[k] == cat.tree[k]) &&
            r.tree.Keys == cat.tree.Keys + {key}
  {
  }

  /** A category is stored under its urn with its name and id, keeping the
      children it had as a placeholder, and is appended to its parent's
      children; no other container changes. */
  lemma CategoryStep(cat: Catalog, schemeId: string, id: string, urn: string, name: Option<string>, perspective: Option<string>)
    requires perspective != Some("T")
    ensures var r := Step(cat, CategoryRecord(perspective, schemeId, id, urn, name));
            var parent := ParentKey(urn, id, schemeId);
            var kept := if urn in cat.tree then cat.tree[urn].children else [];
            urn in r.tree && r.tree[urn].name == name && r.tree[urn].id == Some(id) &&
            r.tree[urn].children == (if parent == urn then kept + [ContainerRef(urn)] else kept) &&
            parent in r.tree &&
            (parent != urn ==>
               r.tree[parent].children == (if parent in cat.tree then cat.tree[parent].children else []) + [ContainerRef(urn)] &&
               (parent !in cat.tree ==> r.tree[parent].name == None && r.tree[parent].id == None)) &&
            (forall k :: k in cat.tree && k != urn && k != parent ==> k in r.tree && r.tree[k] == cat.tree[k]) &&
            r.items == cat.items
  {
    AddChildEffect(Define(cat, urn, name, Some(id)), ParentKey(urn, id, schemeId), ContainerRef(urn));
  }

  /** A categorisation adds the dataflow, named after its id when it is new,
      to the children of its target, creating the target as a placeholder if
      needed. */
  lemma CategorisationStep(cat: Catalog, targetUrn: string, sourceId: string, perspective: Option<string>)
    requires perspective != Some("T")
    ensures var r := Step(cat, CategorisationRecord(perspective, targetUrn, sourceId));
            sourceId in r.items &&
            r.items[sourceId] == (if sourceId in cat.items then cat.items[sourceId] else Item(Some(sourceId), sourceId, sourceId)) &&
            (forall i :: i in cat.items ==> i in r.items && r.items[i] == cat.items[i]) &&
            targetUrn in r.tree &&
            r.tree[targetUrn].children == (if targetUrn in cat.tree then cat.tree[targetUrn].children else []) + [ItemRef(sourceId)] &&
            (targetUrn !in cat.tree ==> r.tree[targetUrn].name == None) &&
            (forall k :: k in cat.tree && k != targetUrn ==> k in r.tree && r.tree[k] == cat.tree[k])
  {
    AddChildEffect(EnsureItem(cat, sourceId), targetUrn, ItemRef(sourceId));
  }

  /** A dataflow seen again only gets its new name: the items keep their keys
      and the tree does not change. */
  lemma DataflowStep(cat: Catalog, id: string, name: Option<string>)
    requires WellFormed(cat)
    ensures var r := Step(cat, DataflowRecord(id, name));
            r.tree == cat.tree && r.order == cat.order &&
            r.items.Keys == cat.items.Keys + {id} &&
            r.items[id].name == name && r.items[id].id == id && r.items[id].key == id &&
            (forall i :: i in cat.items && i != id ==> r.items[i] == cat.items[i])
  {
  }

  /** A category scheme seen after a placeholder for it only names it; a new
      one starts with no children. */
  lemma SchemeStep(cat: Catalog, id: string, name: Option<string>, perspective: Option<string>)
    requires perspective != Some("T")
    ensures var r := Step(cat, SchemeRecord(perspective, id, name));
            id in r.tree && r.tree[id].name == name &&
            (id in cat.tree ==> r.tree[id] == cat.tree[id].(name := name) && r.order == cat.order) &&
            (id !in cat.tree ==> r.tree[id] == Container(name, Some(id), id, []) && r.order == cat.order + [id]) &&
            (forall k :: k in cat.tree && k != id ==> k in r.tree && r.tree[k] == cat.tree[k]) &&
            r.items == cat.items
  {
  }

  // ---------------------------------------------------------------------------
  // the whole build

  lemma EmptyWellFormed()
    ensures WellFormed(Empty)
  {
  }

  lemma ResolvesGrow(cat: Catalog, r: Catalog, c: ChildRef)
    requires cat.tree.Keys <= r.tree.Keys && cat.items.Keys <= r.items.Keys
    requires Resolves(cat, c)
    ensures Resolves(r, c)
  {
    match c
    case ContainerRef(k) => assert k in cat.tree.Keys;
    case ItemRef(i) => assert i in cat.items.Keys;
  }

  /** A catalog that only adds keys, and gives old entries their old children
      and new entries none, keeps every child resolving. */
  lemma ChildrenStillResolve(cat: Catalog, r: Catalog)
    requires WellFormed(cat)
    requires cat.tree.Keys <= r.tree.Keys && cat.items.Keys <= r.items.Keys
    requires forall k :: k in r.tree ==> r.tree[k].children == if k in cat.tree then cat.tree[k].children else []
    ensures forall k, c :: k in r.tree && c in r.tree[k].children ==> Resolves(r, c)
  {
    forall k, c | k in r.tree && c in r.tree[k].children
      ensures Resolves(r, c)
    {
      assert k in cat.tree && c in cat.tree[k].children;
      ResolvesGrow(cat, r, c);
    }
  }

  /** Appending a child that resolves keeps the catalog well formed. */
  lemma AddChildWellFormed(cat: Catalog, key: string, child: ChildRef)
    requires WellFormed(cat)
    requires Resolves(cat, child)
    ensures WellFormed(AddChild(cat, key, child))
  {
    var r := AddChild(cat, key, child);
    AddChildEffect(cat, key, child);
    forall k, c | k in r.tree && c in r.tree[k].children
      ensures Resolves(r, c)
    {
      if c == child {
        ResolvesGrow(cat, r, c);
      } else if k == key {
        assert key in cat.tree;
        assert r.tree[key].children == cat.tree[key].children + [child];
        assert c in cat.tree[key].children;
        ResolvesGrow(cat, r, c);
      } else {
        assert c in cat.tree[k].children;
        ResolvesGrow(cat, r, c);
      }
    }
    if key !in cat.tree {
      assert forall i :: 0 <= i < |cat.order| ==> cat.order[i] != key;
    }
  }

  /** Defining an entry keeps the catalog well formed. */
  lemma DefineWellFormed(cat: Catalog, key: string, name: Option<string>, id: Option<string>)
    requires WellFormed(cat)
    ensures WellFormed(Define(cat, key, name, id))
  {
    if key !in cat.tree {
      assert forall i :: 0 <= i < |cat.order| ==> cat.order[i] != key;
    }
    ChildrenStillResolve(cat, Define(cat, key, name, id));
  }

  /** Adding a dataflow item keeps the catalog well formed. */
  lemma EnsureItemWellFormed(cat: Catalog, id: string)
    requires WellFormed(cat)
    ensures WellFormed(EnsureItem(cat, id))
  {
    ChildrenStillResolve(cat, EnsureItem(cat, id));
  }

  /** Every record keeps the catalog well formed. */
  lemma StepWellFormed(cat: Catalog, rec: Record)
    requires WellFormed(cat) && !rec.ReaderError?
    ensures WellFormed(Step(cat, rec))
  {
    if !Hidden(rec) {
      match rec
      case CategoryRecord(_, schemeId, id, urn, name) =>
        DefineWellFormed(cat, urn, name, Some(id));
        AddChildWellFormed(Define(cat, urn, name, Some(id)), ParentKey(urn, id, schemeId), ContainerRef(urn));
      case SchemeRecord(_, id, name) =>
        if id in cat.tree {
          ChildrenStillResolve(cat, Step(cat, rec));
        } else {
          DefineWellFormed(cat, id, name, Some(id));
        }
      case CategorisationRecord(_, targetUrn, sourceId) =>
        EnsureItemWellFormed(cat, sourceId);
        AddChildWellFormed(EnsureItem(cat, sourceId), targetUrn, ItemRef(sourceId));
      case DataflowRecord(id, name) =>
        ChildrenStillResolve(cat, Step(cat, rec));
      case OtherRecord(_) =>
    }
  }

  /** Building from a well-formed catalog gives a well-formed catalog. */
  lemma {:induction false} BuildFromWellFormed(cat: Catalog, records: seq<Record>)
    requires WellFormed(cat)
    ensures BuildFrom(cat, records).Success? ==> WellFormed(BuildFrom(cat, records).value)
    decreases |records|
  {
    if records != [] && !records[0].ReaderError? {
      StepWellFormed(cat, records[0]);
      BuildFromWellFormed(Step(cat, records[0]), records[1..]);
    }
  }

  /** A build succeeds exactly when no record is a reader error, and then the
      catalog is well formed; otherwise it fails with the first error's message. */
  lemma {:induction false} BuildOutcome(cat: Catalog, records: seq<Record>)
    ensures BuildFrom(cat, records).Success? <==> forall i :: 0 <= i < |records| ==> !records[i].ReaderError?
    ensures BuildFrom(cat, records).Failure? ==>
              exists i :: 0 <= i < |records| && records[i].ReaderError? &&
                BuildFrom(cat, records).error == records[i].message &&
                forall j :: 0 <= j < i ==> !records[j].ReaderError?
    decreases |records|
  {
    if records != [] && !records[0].ReaderError? {
      var tail := records[1..];
      BuildOutcome(Step(cat, records[0]), tail);
      assert forall i :: 1 <= i < |records| ==> records[i] == tail[i - 1];
      if BuildFrom(cat, records).Failure? {
        var k :| 0 <= k < |tail| && tail[k].ReaderError? &&
                 BuildFrom(cat, records).error == tail[k].message &&
                 forall j :: 0 <= j < k ==> !tail[j].ReaderError?;
        assert records[k + 1] == tail[k];
      }
    }
  }

  /** A successful build is well formed. */
  lemma BuildWellFormed(records: seq<Record>)
    requires Build(records).Success?
    ensures WellFormed(Build(records).value)
  {
    EmptyWellFormed();
    BuildFromWellFormed(Empty, records);
  }

  // ---------------------------------------------------------------------------
  // where the tree keys come from

  /** Whether a record names a tree key: a category its urn and its parent's
      key, a scheme its id, a categorisation its target. */
  predicate NamesKey(rec: Record, k: string) {
    !Hidden(rec) &&
    match rec
    case CategoryRecord(_, schemeId, id, urn, _) => k == urn || k == ParentKey(urn, id, schemeId)
    case SchemeRecord(_, id, _) => k == id
    case CategorisationRecord(_, targetUrn, _) => k == targetUrn
    case _ => false
  }

  /** A record adds exactly the keys it names to the tree, and drops none. */
  lemma StepKeys(cat: Catalog, rec: Record)
    requires !rec.ReaderError?
    ensures forall k :: k in Step(cat, rec).tree <==> k in cat.tree || NamesKey(rec, k)
  {
  }

  /** A build's tree holds the keys it started with and the keys its records
      name, and no others. */
  lemma {:induction false} BuildFromKeys(cat: Catalog, records: seq<Record>)
    requires BuildFrom(cat, records).Success?
    ensures forall k :: k in BuildFrom(cat, records).value.tree <==>
              k in cat.tree || exists i :: 0 <= i < |records| && NamesKey(records[i], k)
    decreases |records|
  {
    if records != [] {
      var tail := records[1..];
      StepKeys(cat, records[0]);
      BuildFromKeys(Step(cat, records[0]), tail);
      forall k | k in BuildFrom(cat, records).value.tree
        ensures k in cat.tree || exists i :: 0 <= i < |records| && NamesKey(records[i], k)
      {
        if !(k in cat.tree) && !NamesKey(records[0], k) {
          var i :| 0 <= i < |tail| && NamesKey(tail[i], k);
          assert records[i + 1] == tail[i];
        }
      }
      forall k, i | 0 <= i < |records| && NamesKey(records[i], k)
        ensures k in BuildFrom(cat, records).value.tree
      {
        if i > 0 {
          assert tail[i - 1] == records[i];
        }
      }
    }
  }

  /** A fresh read's tree holds exactly the keys its own records name. */
  lemma BuildKeysNamed(records: seq<Record>)
    requires Build(records).Success?
    ensures forall k :: k in Build(records).value.tree <==> exists i :: 0 <= i < |records| && NamesKey(records[i], k)
  {
    BuildFromKeys(Empty, records);
  }

  // ---------------------------------------------------------------------------
  // listing and item info

  /** The tree keys shown at the root: those not starting with "urn:", that is
      the category schemes, in insertion order. */
  function RootKeys(order: seq<string>): (r: seq<string>)
    ensures forall k :: k in r <==> k in order && !StartsWith(k, "urn:")
  {
    if order == [] then []
    else (if StartsWith(order[0], "urn:") then [] else [order[0]]) + RootKeys(order[1..])
  }

  /** Distinct keys keep their root keys distinct. */
  lemma {:induction false} RootKeysDistinct(order: seq<string>)
    requires forall i, j :: 0 <= i < j < |order| ==> order[i] != order[j]
    ensures forall i, j :: 0 <= i < j < |RootKeys(order)| ==> RootKeys(order)[i] != RootKeys(order)[j]
  {
    if order != [] {
      var tail := order[1..];
      RootKeysDistinct(tail);
      assert order[0] !in tail by {
        forall j | 0 <= j < |tail| ensures tail[j] != order[0] {
          assert tail[j] == order[j + 1];
        }
      }
      var rest := RootKeys(tail);
      if !StartsWith(order[0], "urn:") {
        var r := RootKeys(order);
        assert r == [order[0]] + rest;
        forall i, j | 0 <= i < j < |r| ensures r[i] != r[j] {
          assert r[j] == rest[j - 1] && rest[j - 1] in rest;
          if i > 0 {
            assert r[i] == rest[i - 1];
          } else {
            assert r[i] == order[0] && rest[j - 1] in tail;
          }
        }
      } else {
        assert RootKeys(order) == rest;
      }
    }
  }

  /** The root listing: every root key as a container with its name. */
  function ListRoot(cat: Catalog): (r: seq<WebFs.ContainerItem>)
    requires WellFormed(cat)
  {
    var keys := RootKeys(cat.order);
    seq(|keys|, i requires 0 <= i < |keys| => WebFs.ContainerItem(true, keys[i], cat.tree[keys[i]].name, None))
  }

  /** The root lists exactly the tree entries whose key does not start with
      "urn:", each once and all as containers. */
  lemma ListRootSpec(cat: Catalog)
    requires WellFormed(cat)
    ensures forall x :: x in ListRoot(cat) ==>
              x.isContainer && x.id in cat.tree && !StartsWith(x.id, "urn:") && x.name == cat.tree[x.id].name
    ensures forall k :: k in cat.tree && !StartsWith(k, "urn:") ==> exists x :: x in ListRoot(cat) && x.id == k
    ensures forall i, j :: 0 <= i < j < |ListRoot(cat)| ==> ListRoot(cat)[i].id != ListRoot(cat)[j].id
  {
    var keys := RootKeys(cat.order);
    var r := ListRoot(cat);
    RootKeysDistinct(cat.order);
    assert forall i :: 0 <= i < |r| ==> r[i].id == keys[i];
    forall k | k in cat.tree && !StartsWith(k, "urn:")
      ensures exists x :: x in r && x.id == k
    {
      var i :| 0 <= i < |keys| && keys[i] == k;
      assert r[i].id == k;
    }
  }

  /** What a listing shows for one child: a container or a file, by its key and name. */
  function Describe(cat: Catalog, child: ChildRef): WebFs.ContainerItem
    requires Resolves(cat, child)
  {
    match child
    case ContainerRef(k) => WebFs.ContainerItem(true, k, cat.tree[k].name, None)
    case ItemRef(i) => WebFs.ContainerItem(false, i, cat.items[i].name, None)
  }

  /** The listing of a tree key: its children in the order they were added. */
  function ListChildren(cat: Catalog, key: string): (r: seq<WebFs.ContainerItem>)
    requires WellFormed(cat)
  {
    if key in cat.tree then
      var children := cat.tree[key].children;
      seq(|children|, i requires 0 <= i < |children| => Describe(cat, children[i]))
    else []
  }

  /** A known key lists its children in insertion order, flagged as containers
      exactly when they are tree entries; an unknown key lists nothing. */
  lemma ListChildrenSpec(cat: Catalog, key: string)
    requires WellFormed(cat)
    ensures key !in cat.tree ==> ListChildren(cat, key) == []
    ensures key in cat.tree ==>
              var children := cat.tree[key].children;
              var r := ListChildren(cat, key);
              |r| == |children| &&
              forall i :: 0 <= i < |r| ==>
                (r[i].isContainer <==> children[i].ContainerRef?) &&
                r[i].id == (if children[i].ContainerRef? then children[i].key else children[i].id) &&
                r[i].icon == None
  {
  }

  /** `get_container_contents` on a built catalog: the container id, or the
      category scheme argument when the id is empty, selects what is listed;
      with neither the root is listed. */
  function ContainerContents(cat: Catalog, containerId: Option<string>, schemeArg: Option<string>): (r: seq<WebFs.ContainerItem>)
    requires WellFormed(cat)
    ensures containerId.Some? && containerId.value != "" ==> r == ListChildren(cat, containerId.value)
    ensures (containerId.None? || containerId.value == "") && (schemeArg.None? || schemeArg.value == "") ==> r == ListRoot(cat)
    ensures (containerId.None? || containerId.value == "") && schemeArg.Some? && schemeArg.value != "" ==> r == ListChildren(cat, schemeArg.value)
  {
    var key := if containerId.Some? && containerId.value != "" then containerId else schemeArg;
    if key.None? || key.value == "" then ListRoot(cat) else ListChildren(cat, key.value)
  }

  /** `get_item_info` on a built catalog: the tree entry, else the item, under
      that id, described as in a listing; None when the id is in neither. */
  function ItemInfo(cat: Catalog, itemId: string): (r: Option<WebFs.ContainerItem>)
    requires WellFormed(cat)
    ensures r.None? <==> itemId !in cat.tree && itemId !in cat.items
    ensures itemId in cat.tree ==> r == Some(Describe(cat, ContainerRef(itemId)))
    ensures itemId !in cat.tree && itemId in cat.items ==> r == Some(Describe(cat, ItemRef(itemId)))
  {
    if itemId in cat.tree then
      var c := cat.tree[itemId];
      Some(WebFs.ContainerItem(true, c.key, c.name, None))
    else if itemId in cat.items then
      var it := cat.items[itemId];
      Some(WebFs.ContainerItem(false, it.key, it.name, None))
    else None
  }

  // ---------------------------------------------------------------------------
  // the driver

  /** The three structure queries the catalog is read from. */
  function Datasets(agency: Agency): seq<string> {
    [agency.CategorySchemesUrl(), agency.CategorisationsUrl(), agency.DataflowsUrl()]
  }

  /** Reads the pipeline's features for a list of dataset URLs. */
  type Reader = seq<string> -> seq<Record>

  /** The filesystem driver over one agency's catalog, built on first use and
      kept afterwards. */
  class EurostatFilesystemDriver {
    const agency: Agency
    var catalog: Option<Catalog>

    constructor (agency: Agency)
      ensures this.agency == agency && catalog == None
    {
      this.agency := agency;
      catalog := None;
    }

    /** The cached catalog, reading it when there is none yet; a failed read
        leaves the cache empty. */
    method Load(read: Reader) returns (r: Result<Catalog, string>)
      modifies this
      requires catalog.Some? ==> WellFormed(catalog.value)
      ensures old(catalog).Some? ==> r == Success(old(catalog).value) && catalog == old(catalog)
      ensures old(catalog).None? ==> r == Build(read(Datasets(agency)))
      ensures catalog == if r.Success? then Some(r.value) else None
      ensures r.Success? ==> WellFormed(r.value)
    {
      if catalog.Some? {
        return Success(catalog.value);
      }
      r := ReadCatalog(read(Datasets(agency)));
      if r.Success? {
        BuildWellFormed(read(Datasets(agency)));
        catalog := Some(r.value);
      }
    }

    /** `get_container_contents`: a listing of the cached catalog, or the read
        error. */
    method GetContainerContents(containerId: Option<string>, schemeArg: Option<string>, read: Reader)
      returns (r: Result<WebFs.ContainerContentResponse, string>)
      modifies this
      requires catalog.Some? ==> WellFormed(catalog.value)
      ensures catalog.Some? ==> WellFormed(catalog.value)
      ensures old(catalog).Some? ==> catalog == old(catalog)
      ensures old(catalog).None? ==> (catalog.Some? <==> Build(read(Datasets(agency))).Success?)
      ensures old(catalog).None? && catalog.None? ==> r == Failure(Build(read(Datasets(agency))).error)
      ensures old(catalog).None? && catalog.Some? ==> catalog.value == Build(read(Datasets(agency))).value
      ensures catalog.Some? ==> r == Success(WebFs.ContainerContentResponse(ContainerContents(catalog.value, containerId, schemeArg), None))
    {
      var loaded := Load(read);
      if loaded.Failure? {
        return Failure(loaded.error);
      }
      return Success(WebFs.ContainerContentResponse(ContainerContents(loaded.value, containerId, schemeArg), None));
    }

    /** `get_item_info`: the description of an id in the cached catalog, or
        the read error. */
    method GetItemInfo(itemId: string, read: Reader) returns (r: Result<Option<WebFs.ContainerItem>, string>)
      modifies this
      requires catalog.Some? ==> WellFormed(catalog.value)
      ensures catalog.Some? ==> WellFormed(catalog.value)
      ensures old(catalog).Some? ==> catalog == old(catalog)
      ensures old(catalog).None? ==> (catalog.Some? <==> Build(read(Datasets(agency))).Success?)
      ensures old(catalog).None? && catalog.None? ==> r == Failure(Build(read(Datasets(agency))).error)
      ensures old(catalog).None? && catalog.Some? ==> catalog.value == Build(read(Datasets(agency))).value
      ensures catalog.Some? ==> r == Success(ItemInfo(catalog.value, itemId))
    {
      var loaded := Load(read);
      if loaded.Failure? {
        return Failure(loaded.error);
      }
      return Success(ItemInfo(loaded.value, itemId));
    }
  }
}
