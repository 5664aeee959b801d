/** The category-scheme filesystem driver: the guard that refuses
    non-literal project and bucket arguments, the lazily built API object, and
    the dispatch of listings and item lookups on the `mode` argument. */
module Driver {
  import opened Wrappers
  import opened Strings
  import opened Values
  import opened Constants
  import WebFs
  import Categorization

  const LogName := "Eurostat"
  const Delim := "/"
  const ProjectIdParam := "_FME_PROJECT_ID"
  const BucketParam := "_FME_BUCKET"
  const BucketNameParam := "bucket_name"
  const SchemeParam := "__eurostat_category_scheme"

  datatype DriverError =
    | LiteralRequired(number: int, params: seq<string>)            // the non-literal argument guard
    | NoApi                                                         // no API object was ever set, or it is None
    | NotImplemented                                                // a listing mode other than the two category modes
    | NoParent(parent: Value)                                       // a category listing without a parent id
    | MissingBucket                                                 // no bucket argument for a non-category lookup
    | MissingContainerId(containerId: Value)                        // a category lookup without a container id
    | InfoArguments(bucket: Value, itemId: Value, explicitFolder: bool)  // the API's info takes one argument, not three
    | Enumerator(error: Categorization.CategorizationError)

  /** `kwargs.get(key, default)`. */
  function Get(kwargs: map<string, Value>, key: string, default: Value): Value {
    if key in kwargs then kwargs[key] else default
  }

  /** A string carrying a conditional or an attribute reference; any other
      value (None included) fails the `in` test with a TypeError, which the
      guard swallows. */
  predicate NonLiteral(v: Value) {
    v.Str? && (Contains(v.s, "FME_CONDITIONAL") || Contains(v.s, "@Value"))
  }

  /** The two values the guard looks at: the project id, and the bucket under
      `_FME_BUCKET`, or else under `bucket_name`. */
  function GuardedValues(kwargs: map<string, Value>): seq<Value> {
    [Get(kwargs, ProjectIdParam, Null), Get(kwargs, BucketParam, Get(kwargs, BucketNameParam, Null))]
  }

  /** `block_non_literal_args`: the error the guard raises before the wrapped
      call, or None when the call goes ahead with its arguments unchanged. */
  function BlockNonLiteralArgs(kwargs: map<string, Value>): (r: Option<DriverError>)
    ensures r.Some? ==> r.value == LiteralRequired(MustUseLiteral, [LogName])
  {
    if exists v :: v in GuardedValues(kwargs) && NonLiteral(v) then Some(LiteralRequired(MustUseLiteral, [LogName])) else None
  }

  /** The guard refuses exactly a non-literal project id or bucket. */
  lemma GuardRefuses(kwargs: map<string, Value>)
    ensures BlockNonLiteralArgs(kwargs).Some? <==>
              NonLiteral(Get(kwargs, ProjectIdParam, Null)) || NonLiteral(Get(kwargs, BucketParam, Get(kwargs, BucketNameParam, Null)))
  {
    var vs := GuardedValues(kwargs);
    if NonLiteral(vs[0]) {
      assert vs[0] in vs;
    }
    if NonLiteral(vs[1]) {
      assert vs[1] in vs;
    }
  }

  /** When `_FME_BUCKET` is given, `bucket_name` is not looked at. */
  lemma GuardBucketPrecedence(kwargs: map<string, Value>, other: Value)
    requires BucketParam in kwargs
    ensures BlockNonLiteralArgs(kwargs[BucketNameParam := other]) == BlockNonLiteralArgs(kwargs)
  {
    assert GuardedValues(kwargs[BucketNameParam := other]) == GuardedValues(kwargs);
  }

  /** Only the project id and the bucket arguments are looked at. */
  lemma GuardIgnoresOtherArguments(kwargs: map<string, Value>, key: string, v: Value)
    requires key != ProjectIdParam && key != BucketParam && key != BucketNameParam
    ensures BlockNonLiteralArgs(kwargs[key := v]) == BlockNonLiteralArgs(kwargs)
  {
    assert GuardedValues(kwargs[key := v]) == GuardedValues(kwargs);
  }

  /** A value that is not a string is never refused. */
  lemma GuardIgnoresNonStrings(kwargs: map<string, Value>)
    requires !Get(kwargs, ProjectIdParam, Null).Str?
    requires !Get(kwargs, BucketParam, Get(kwargs, BucketNameParam, Null)).Str?
    ensures BlockNonLiteralArgs(kwargs) == None
  {
    GuardRefuses(kwargs);
  }

  /** The item id a lookup goes on with: the delimiter alone means the root,
      the empty id. */
  function ItemPath(itemId: Value): (r: Value)
    ensures itemId == Str(Delim) ==> r == Str("")
    ensures itemId != Str(Delim) ==> r == itemId
  {
    if itemId == Str(Delim) then Str("") else itemId
  }

  /** Mapping the root is stable: the root id stays the root id. */
  lemma ItemPathIdempotent(itemId: Value)
    ensures ItemPath(ItemPath(itemId)) == ItemPath(itemId)
  {
    if itemId == Str(Delim) {
      assert Str("") != Str(Delim) by { assert |""| != |Delim|; }
    }
  }

  /** The `mode` argument. */
  function Mode(kwargs: map<string, Value>): Value {
    Get(kwargs, "mode", Null)
  }

  /** The parent a category listing lists: the container id when it is
      truthy, else the category scheme argument. */
  function ParentOf(containerId: Value, kwargs: map<string, Value>): Value {
    if Truthy(containerId) then containerId else Get(kwargs, SchemeParam, Null)
  }

  /** The filesystem driver over a category scheme enumerator. The API object
      is either set directly or built on first use by its factory, which
      here is the enumerator of one agency's category schemes. */
  class EurostatFilesystemDriver {
    var apiSet: bool
    var internal: Option<Categorization.ThemesEnumerator>
    var factory: Option<Agency>

    function Footprint(): set<object>
      reads this
    {
      if internal.Some? then {internal.value} else {}
    }

    /** Once set, there is an object or a factory to build one; a kept
        enumerator keeps its own invariant. */
    predicate Valid()
      reads this, Footprint()
    {
      (apiSet ==> internal.Some? || factory.Some?) &&
      (internal.Some? ==> internal.value.Valid())
    }

    /** A new driver has no API object set. */
    constructor ()
      ensures !apiSet && internal == None && factory == None && Valid()
    {
      apiSet := false;
      internal := None;
      factory := None;
    }

    /** `set_api`: neither an object nor a factory changes nothing; otherwise
        both are replaced by what was given. */
    method SetApi(api: Option<Categorization.ThemesEnumerator>, apifunc: Option<Agency>)
      modifies this
      requires Valid() && (api.Some? ==> api.value.Valid())
      ensures Valid()
      ensures api.None? && apifunc.None? ==> apiSet == old(apiSet) && internal == old(internal) && factory == old(factory)
      ensures api.Some? || apifunc.Some? ==> apiSet && internal == api && factory == apifunc
    {
      if api.None? && apifunc.None? {
        return;
      }
      apiSet := true;
      internal := api;
      factory := apifunc;
    }

    /** `api`: a pending factory is invoked, its object kept and the factory
        dropped, so it runs at most once; after that the kept object is
        returned. Without any object this fails as the attribute access
        would. */
    method Api() returns (r: Result<Categorization.ThemesEnumerator, DriverError>)
      modifies this
      requires Valid()
      ensures Valid() && apiSet == old(apiSet)
      ensures !old(apiSet) ==> r == Failure(NoApi) && internal == old(internal) && factory == old(factory)
      ensures old(apiSet) ==> factory == None
      ensures old(apiSet) && old(factory).None? ==> internal == old(internal) && r == Success(internal.value)
      ensures old(apiSet) && old(factory).Some? ==>
                internal.Some? && fresh(internal.value) && internal.value.agency == old(factory).value &&
                internal.value.items == None && internal.value.tree == None && r == Success(internal.value)
      ensures r.Failure? <==> !old(apiSet)
    {
      if !apiSet {
        return Failure(NoApi);
      }
      if factory.Some? {
        var built := new Categorization.ThemesEnumerator(factory.value);
        internal := Some(built);
        factory := None;
      }
      return Success(internal.value);
    }

    /** `get_container_contents`: after the guard, mode 'CategoryScheme'
        lists the schemes and mode 'Category' the categories under the
        container id (or, when that is empty, the scheme argument); any other
        mode is not implemented. */
    method GetContainerContents(containerId: Value, kwargs: map<string, Value>, fetch: Categorization.Fetch)
      returns (r: Result<WebFs.ContainerContentResponse, DriverError>)
      modifies this, Footprint()
      requires Valid()
      ensures Valid()
      ensures BlockNonLiteralArgs(kwargs).Some? ==>
                r == Failure(BlockNonLiteralArgs(kwargs).value) && unchanged(this) && unchanged(old(Footprint()))
      ensures BlockNonLiteralArgs(kwargs).None? && Mode(kwargs) != Str("CategoryScheme") && Mode(kwargs) != Str("Category") ==>
                r == Failure(NotImplemented) && unchanged(this) && unchanged(old(Footprint()))
      ensures Mode(kwargs) == Str("Category") && !ParentOf(containerId, kwargs).Str? ==>
                r.Failure? && (r.error.NoParent? ==> internal.Some? && internal.value.items.Some?)
      ensures BlockNonLiteralArgs(kwargs).None? && (Mode(kwargs) == Str("CategoryScheme") || Mode(kwargs) == Str("Category")) ==>
                (r == Failure(NoApi) <==> !old(apiSet)) &&
                (r.Failure? ==>
                   r.error.NoApi? ||
                   (r.error.NoParent? && Mode(kwargs) == Str("Category") && !ParentOf(containerId, kwargs).Str?) ||
                   (internal.Some? && Categorization.ReadOutcome(fetch, internal.value.agency).Failure? &&
                    r.error == Enumerator(Categorization.ReadOutcome(fetch, internal.value.agency).error)))
      ensures (BlockNonLiteralArgs(kwargs).None? && old(apiSet) &&
               (Mode(kwargs) == Str("CategoryScheme") || (Mode(kwargs) == Str("Category") && ParentOf(containerId, kwargs).Str?)) &&
               internal.Some? && Categorization.ReadOutcome(fetch, internal.value.agency).Success?) ==> r.Success?
      ensures var held := old(factory).None? && old(internal).Some? && old(internal.value.items).Some?;
              r.Success? ==>
                internal.Some? &&
                (held ==> internal.value.items == old(internal.value.items)) &&
                (!held ==> Categorization.ReadOutcome(fetch, internal.value.agency).Success? &&
                           internal.value.items == Some(Categorization.ReadOutcome(fetch, internal.value.agency).value))
      ensures r.Success? ==>
                internal.Some? && internal.value.items.Some? && r.value.continuation == None &&
                (Mode(kwargs) == Str("CategoryScheme") ==> r.value.contents == Categorization.Schemes(internal.value.items.value)) &&
                (Mode(kwargs) == Str("Category") ==>
                   r.value.contents == Categorization.Categories(internal.value.items.value, ParentOf(containerId, kwargs).s))
    {
      var blocked := BlockNonLiteralArgs(kwargs);
      if blocked.Some? {
        return Failure(blocked.value);
      }
      var mode := Mode(kwargs);
      if mode != Str("CategoryScheme") && mode != Str("Category") {
        return Failure(NotImplemented);
      }
      var parent := ParentOf(containerId, kwargs);
      var api := Api();
      if api.Failure? {
        return Failure(api.error);
      }
      var listed: Result<seq<WebFs.ContainerItem>, Categorization.CategorizationError>;
      if mode == Str("CategoryScheme") {
        listed := api.value.ListCategorySchemes(fetch);
      } else {
        if !parent.Str? {
          // the entries are loaded before the parent is split
          var entries := api.value.Entries(fetch);
          if entries.Failure? {
            return Failure(Enumerator(entries.error));
          }
          return Failure(NoParent(parent));
        }
        listed := api.value.ListCategories(fetch, parent.s);
      }
      if listed.Failure? {
        return Failure(Enumerator(listed.error));
      }
      return Success(WebFs.ContainerContentResponse(listed.value, None));
    }

    /** `get_item_info`: after the guard, mode 'Category' describes the
        container named by `CONTAINER_ID`; any other lookup needs a bucket
        (the blob container, else `_FME_BUCKET`), maps the delimiter to the
        root, and then calls the API's info with three arguments, which it
        does not take. */
    method GetItemInfo(itemId: Value, blobContainer: Value, explicitFolder: bool, kwargs: map<string, Value>, fetch: Categorization.Fetch)
      returns (r: Result<WebFs.ContainerItem, DriverError>)
      modifies this, Footprint()
      requires Valid()
      ensures Valid()
      ensures BlockNonLiteralArgs(kwargs).Some? ==>
                r == Failure(BlockNonLiteralArgs(kwargs).value) && unchanged(this) && unchanged(old(Footprint()))
      ensures BlockNonLiteralArgs(kwargs).None? && Mode(kwargs) != Str("Category") ==>
                (!Truthy(blobContainer) && BucketParam !in kwargs ==> r == Failure(MissingBucket)) &&
                (Truthy(blobContainer) || BucketParam in kwargs ==>
                   r.Failure? && (old(apiSet) ==> r == Failure(InfoArguments(
                     if Truthy(blobContainer) then blobContainer else kwargs[BucketParam], ItemPath(itemId), explicitFolder))))
      ensures BlockNonLiteralArgs(kwargs).None? && Mode(kwargs) == Str("Category") ==>
                (r == Failure(NoApi) <==> !old(apiSet)) &&
                (old(apiSet) && !Get(kwargs, "CONTAINER_ID", Null).Str? ==> r == Failure(MissingContainerId(Get(kwargs, "CONTAINER_ID", Null)))) &&
                (r.Failure? ==>
                   r.error.NoApi? || r.error.MissingContainerId? ||
                   (internal.Some? && Categorization.ReadOutcome(fetch, internal.value.agency).Failure? &&
                    r.error == Enumerator(Categorization.ReadOutcome(fetch, internal.value.agency).error)))
      ensures (BlockNonLiteralArgs(kwargs).None? && Mode(kwargs) == Str("Category") && old(apiSet) &&
               Get(kwargs, "CONTAINER_ID", Null).Str? &&
               internal.Some? && Categorization.ReadOutcome(fetch, internal.value.agency).Success?) ==> r.Success?
      ensures var held := old(factory).None? && old(internal).Some? && old(internal.value.items).Some?;
              r.Success? && Mode(kwargs) == Str("Category") ==>
                internal.Some? &&
                (held ==> internal.value.items == old(internal.value.items)) &&
                (!held ==> Categorization.ReadOutcome(fetch, internal.value.agency).Success? &&
                           internal.value.items == Some(Categorization.ReadOutcome(fetch, internal.value.agency).value))
      ensures Mode(kwargs) == Str("Category") && r.Success? ==>
                Get(kwargs, "CONTAINER_ID", Null).Str? && internal.Some? && internal.value.items.Some? &&
                internal.value.tree == Some(Categorization.NameIndex(internal.value.items.value)) &&
                r.value == Categorization.InfoItem(internal.value.tree.value, Get(kwargs, "CONTAINER_ID", Null).s)
    {
      var blocked := BlockNonLiteralArgs(kwargs);
      if blocked.Some? {
        return Failure(blocked.value);
      }
      if Mode(kwargs) == Str("Category") {
        var containerId := Get(kwargs, "CONTAINER_ID", Null);
        var api := Api();
        if api.Failure? {
          return Failure(api.error);
        }
        if !containerId.Str? {
          return Failure(MissingContainerId(containerId));
        }
        var info := api.value.Info(fetch, containerId.s);
        if info.Failure? {
          return Failure(Enumerator(info.error));
        }
        return Success(info.value);
      }
      var bucket := blobContainer;
      if !Truthy(bucket) {
        if BucketParam !in kwargs {
          return Failure(MissingBucket);
        }
        bucket := kwargs[BucketParam];
      }
      var path := ItemPath(itemId);
      var api := Api();
      if api.Failure? {
        return Failure(api.error);
      }
      return Failure(InfoArguments(bucket, path, explicitFolder));
    }
  }
}
