# Eurostat SDMX connector for FME, modelled in Dafny

This project models the core of the Eurostat connector for FME. The connector
lets FME Workbench browse the statistical catalogues of Eurostat and three
other Directorates-General (COMP, EMPL, GROW) through their SDMX 2.1 REST
APIs, as if they were a filesystem. Category schemes and categories appear as
folders, and dataflows appear as files. It also downloads codelists.

The model covers:

- **Agencies and queries** (`constants.dfy`): the four agencies, their labels
  and base URIs, and the category-scheme, categorisation and dataflow query
  URLs.
- **The catalog** (`catalog.dfy`): `read_catalog` folds the features of the
  three structure queries into a tree keyed by scheme id or category urn, plus
  a map of dataflow items. The catalog filesystem driver reads it on first use
  and lists and describes it.
- **The category scheme parser** (`categorization.dfy`): the SAX handler that
  turns a category scheme document into `(path, name, annotations)` entries,
  and the enumerator that lists schemes and categories and describes a
  container.
- **Codelists** (`codelists.dfy`): one query per requested codelist and the
  fold of the reader's output features into codelist records.
- **The category-scheme driver** (`driver.dfy`): the guard against
  non-literal connection arguments, the lazily built API object, and listing
  and item info by mode.
- **The vendored web-service connector library**:
  - the exception family, container-id normalisation, HTTP error mapping and
    request headers (`webserviceconnector.dfy`);
  - web-filesystem errors and their message templates (`errors.dfy`);
  - feature attribute helpers, `sanitize_fs_name` and `ItemGen` (`util.dfy`);
  - configuration taken off features (`config.dfy`);
  - folder and prefix helpers (`util_folders.dfy`);
  - container items, listing pages, the Workbench listing entry point,
    download encodings, operation dispatch and `walk` (`fmewebfs.dfy`);
  - the parts of the connector transformer factory that do not talk to FME
    (`factory.dfy`).

Supporting modules:

- `wrappers.dfy`: `Option` and `Result`. A `Failure` stands for a raised
  exception.
- `strings.dfy`: the Python `str` operations the code relies on.
- `values.dfy`: the dynamically typed attribute values, with Python
  truthiness and `str()`.

Where the source changes objects in place, the model does too. Classes keep
those fields (`Handler`, `ThemesEnumerator`, both filesystem drivers,
`Connector`, `Feature`, `ConfigFromFeature`, `FolderFromPathBuilder`,
`ItemGen`), and their methods are proved against pure transition functions.
Loops are methods with invariants (`ReadCatalog`, `FoldFeatures`,
`BuildRequests`, `FoldersOfPath`, `FindId`, `GetItemId`, `Walk`, the
attribute-popping loops).

Things the source reaches only through I/O are parameters:

- the XML reader pipeline is a function from dataset URLs to the records or
  features it outputs;
- the category scheme document is a function from URL to its parsed events
  (or a read error);
- a driver's listing is a function from container id and keyword arguments to
  one page.

## Model

| member | source | states |
|---|---|---|
| Constants.Agency.CategorySchemesUrl | python/fme-eurostat/src/fmepy_eurostat/constants.py:67-69 | the category-scheme query is the base URI, `/sdmx/2.1/categoryscheme/<agency>/all` and no query string |
| Constants.Agency.CategorisationsUrl | python/fme-eurostat/src/fmepy_eurostat/constants.py:70-72 | the categorisation query is the base URI and `/sdmx/2.1/categorisation/<agency>/all` |
| Constants.Agency.DataflowsUrl | python/fme-eurostat/src/fmepy_eurostat/constants.py:73-75 | the dataflow query is the base URI, `/sdmx/2.1/dataflow/<agency>/all` and `?detail=allstubs` |
| Constants.AgencyFromNameRoundTrip | python/fme-eurostat/src/fmepy_eurostat/constants.py:59-63 | looking an agency up by its member name (`Agency[name]`) finds that agency |
| Constants.AgenciesUnique | python/fme-eurostat/src/fmepy_eurostat/constants.py:59-66 | no two agencies share a label and base URI, so the enum has no aliases |
| Constants.QueryPathSegments | python/fme-eurostat/src/fmepy_eurostat/constants.py:67-75 | a structure query path is the six segments `"" sdmx 2.1 <resource> <agency> all` joined by '/' |
| Constants.ParseQueryPath | python/fme-eurostat/src/fmepy_eurostat/constants.py:67-75 | a query path read back gives a structure and an agency id without '/' |
| Constants.QueryPathRoundTrip | python/fme-eurostat/src/fmepy_eurostat/constants.py:67-75 | parsing a query path gives back the structure and agency id it was built from |
| Constants.AgencyQueriesRoundTrip | python/fme-eurostat/src/fmepy_eurostat/constants.py:59-75 | each agency's three queries name that agency and their own structure, and the agency is recovered from them |
| EurostatCatalog.ParentKeyNested | python/fme-eurostat/src/fmepy_eurostat/catalog.py:104-106 | the parent of a category whose urn is `<parent urn>.<id>` is the parent category's urn |
| EurostatCatalog.ParentKeyTopLevel | python/fme-eurostat/src/fmepy_eurostat/catalog.py:104-106 | the parent of a top-level category (urn prefix ends with ')') is its scheme id |
| EurostatCatalog.ReadCatalog | python/fme-eurostat/src/fmepy_eurostat/catalog.py:76-143 | the loop over output features builds exactly the catalog `Build` specifies; a reader error aborts with its message |
| EurostatCatalog.HiddenRecordIgnored | python/fme-eurostat/src/fmepy_eurostat/catalog.py:87-123 | a category, scheme or categorisation with dissemination perspective 'T' changes nothing |
| EurostatCatalog.AddChildEffect | python/fme-eurostat/src/fmepy_eurostat/catalog.py:107-111 | appending a child touches one container only: it is appended to an existing one, or a nameless one holding just that child is created and ordered last |
| EurostatCatalog.CategoryStep | python/fme-eurostat/src/fmepy_eurostat/catalog.py:87-111 | a category is stored under its urn with its name and id, keeping its children, and is appended to its parent's children, creating the parent as a placeholder when unseen |
| EurostatCatalog.CategorisationStep | python/fme-eurostat/src/fmepy_eurostat/catalog.py:121-133 | a categorisation adds the dataflow (named after its id when new, else kept as is) and appends it to the target container's children |
| EurostatCatalog.DataflowStep | python/fme-eurostat/src/fmepy_eurostat/catalog.py:134-141 | a dataflow record sets the item's name and leaves the tree and every other item alone |
| EurostatCatalog.SchemeStep | python/fme-eurostat/src/fmepy_eurostat/catalog.py:112-120 | a scheme seen after a placeholder only gets its name; a new one is created empty and ordered last |
| EurostatCatalog.AddChildWellFormed | python/fme-eurostat/src/fmepy_eurostat/catalog.py:107-111 | appending a resolving child keeps the catalog well formed |
| EurostatCatalog.DefineWellFormed | python/fme-eurostat/src/fmepy_eurostat/catalog.py:97-102 | defining a category or scheme entry keeps the catalog well formed |
| EurostatCatalog.EnsureItemWellFormed | python/fme-eurostat/src/fmepy_eurostat/catalog.py:126-128 | adding a dataflow item keeps the catalog well formed |
| EurostatCatalog.StepWellFormed | python/fme-eurostat/src/fmepy_eurostat/catalog.py:86-141 | every record keeps the catalog well formed: unique keys in order, each entry under its own key, every child resolving |
| EurostatCatalog.BuildFromWellFormed | python/fme-eurostat/src/fmepy_eurostat/catalog.py:79-143 | folding records into a well-formed catalog gives a well-formed catalog |
| EurostatCatalog.BuildOutcome | python/fme-eurostat/src/fmepy_eurostat/catalog.py:79-84 | the read succeeds exactly when no feature is a reader error, and otherwise fails with the message of the first one |
| EurostatCatalog.BuildWellFormed | python/fme-eurostat/src/fmepy_eurostat/catalog.py:36-143 | a successful read is well formed |
| EurostatCatalog.StepKeys | python/fme-eurostat/src/fmepy_eurostat/catalog.py:86-141 | one record adds exactly the tree keys it names (urn and parent key, scheme id, target urn) and drops none |
| EurostatCatalog.BuildFromKeys | python/fme-eurostat/src/fmepy_eurostat/catalog.py:79-143 | a fold's tree holds the keys it started with plus exactly those its records name |
| EurostatCatalog.BuildKeysNamed | python/fme-eurostat/src/fmepy_eurostat/catalog.py:76-77 | a read starts from fresh dicts, so its tree holds exactly the keys its own records name |
| EurostatCatalog.RootKeys | python/fme-eurostat/src/fmepy_eurostat/catalog.py:199-201 | the root keys are exactly the tree keys not starting with "urn:" |
| EurostatCatalog.RootKeysDistinct | python/fme-eurostat/src/fmepy_eurostat/catalog.py:199-201 | keys that are distinct, as the keys of a dict are, give distinct root keys |
| EurostatCatalog.ListRootSpec | python/fme-eurostat/src/fmepy_eurostat/catalog.py:195-203 | the root listing shows exactly the tree entries whose key does not start with "urn:", as named containers, each once |
| EurostatCatalog.ListChildrenSpec | python/fme-eurostat/src/fmepy_eurostat/catalog.py:204-214 | a known key lists its children in insertion order, flagged as containers or files by kind; an unknown key lists nothing |
| EurostatCatalog.ContainerContents | python/fme-eurostat/src/fmepy_eurostat/catalog.py:195-214 | a non-empty container id lists that key; with an empty or missing id, a non-empty scheme argument lists that scheme; with neither, the root is listed |
| EurostatCatalog.ItemInfo | python/fme-eurostat/src/fmepy_eurostat/catalog.py:250-253 | an id is described from the tree first, else from the items, and is None exactly when it is in neither |
| EurostatCatalog.EurostatFilesystemDriver.constructor | python/fme-eurostat/src/fmepy_eurostat/catalog.py:159-165 | a new driver has its agency and no catalog yet |
| EurostatCatalog.EurostatFilesystemDriver.Load | python/fme-eurostat/src/fmepy_eurostat/catalog.py:188-194 | the catalog is read from the agency's three queries only when there is none, and a cached one is returned as is |
| EurostatCatalog.EurostatFilesystemDriver.GetContainerContents | python/fme-eurostat/src/fmepy_eurostat/catalog.py:174-214 | the listing is `ContainerContents` of the cached catalog, on one page; with no catalog yet, the catalog is kept exactly when `Build` of the three queries succeeds, and otherwise its error is raised |
| EurostatCatalog.EurostatFilesystemDriver.GetItemInfo | python/fme-eurostat/src/fmepy_eurostat/catalog.py:234-253 | the answer is `ItemInfo` of the cached catalog; with no catalog yet, the catalog is kept exactly when `Build` of the three queries succeeds, and otherwise its error is raised |
| Categorization.LocalName | python/fme-eurostat/src/fmepy_eurostat/categorization.py:186 | unpacking `qname.split(' ')` into two succeeds exactly when the name holds one separator, giving the part after that one separator |
| Categorization.Concat | python/fme-eurostat/src/fmepy_eurostat/categorization.py:199 | a joined name is empty exactly when all its chunks are |
| Categorization.Handler.constructor | python/fme-eurostat/src/fmepy_eurostat/categorization.py:175-183 | the handler starts with nothing buffered, an empty path, collection off and no annotations |
| Categorization.Handler.StartElementEvent | python/fme-eurostat/src/fmepy_eurostat/categorization.py:185-193 | the fields become the `Start` transition of the old state; a malformed name raises and changes nothing |
| Categorization.Handler.EndElementEvent | python/fme-eurostat/src/fmepy_eurostat/categorization.py:195-214 | the fields become the `End` transition; a pop on an empty path or an annotation before its type raises and changes nothing |
| Categorization.Handler.CharDataEvent | python/fme-eurostat/src/fmepy_eurostat/categorization.py:216-221 | the fields become the `Chars` transition of the old state |
| Categorization.ParseString | python/fme-eurostat/src/fmepy_eurostat/categorization.py:223-229 | driving a handler with the events gives `Parse`'s result, and the callback has received the entries reported before any error |
| Categorization.ReportedOnSuccess | python/fme-eurostat/src/fmepy_eurostat/categorization.py:223-229 | on a successful parse the callback received exactly the parsed entries |
| Categorization.PathDepth | python/fme-eurostat/src/fmepy_eurostat/categorization.py:187-197 | after a run the category path has grown by the scheme and category starts less their ends |
| Categorization.EndPops | python/fme-eurostat/src/fmepy_eurostat/categorization.py:196-197 | a scheme or category end on an empty path raises; otherwise it pops exactly the last id |
| Categorization.CharsSpec | python/fme-eurostat/src/fmepy_eurostat/categorization.py:216-221 | character data is buffered only while collecting, as one stripped non-empty chunk, and nothing else changes |
| Categorization.StartSpec | python/fme-eurostat/src/fmepy_eurostat/categorization.py:185-193 | a start pushes the id of a scheme or category and resets its annotations, resets the scheme annotations on a scheme, and turns collection on for an English name, an annotation title or an annotation type |
| Categorization.StartKeepsSchemeAnnotations | python/fme-eurostat/src/fmepy_eurostat/categorization.py:185-191 | only a scheme start clears the scheme annotations, so a hidden scheme stays hidden inside its categories |
| Categorization.EndResets | python/fme-eurostat/src/fmepy_eurostat/categorization.py:213-214 | after any end nothing is collected and the buffer is empty |
| Categorization.EndReports | python/fme-eurostat/src/fmepy_eurostat/categorization.py:198-205 | a name end with buffered text reports the path, the joined text and the annotations, unless the scheme is hidden by perspective 'T'; at depth 1 the scheme annotations become the current ones, and at any other end they stay bound as they were |
| Categorization.AnnotationRecorded | python/fme-eurostat/src/fmepy_eurostat/categorization.py:210-211 | an annotation whose type ends in "ICON" is skipped; any other is recorded under its type with its title |
| Categorization.RunKeepsChunksClean | python/fme-eurostat/src/fmepy_eurostat/categorization.py:216-221 | every chunk ever buffered is stripped and non-empty |
| Categorization.SchemesSpec | python/fme-eurostat/src/fmepy_eurostat/categorization.py:53-63 | the schemes listed are exactly the entries with a one-id path, as files named by the entry |
| Categorization.CategoriesSpec | python/fme-eurostat/src/fmepy_eurostat/categorization.py:73-85 | the categories listed are exactly the entries one level below the '/'-split parent, as folders whose id is the '/'-joined path |
| Categorization.CategoryIdExtendsParent | python/fme-eurostat/src/fmepy_eurostat/categorization.py:77-82 | a listed category's id is the parent id, '/' and its own id |
| Categorization.NameIndexSpec | python/fme-eurostat/src/fmepy_eurostat/categorization.py:67-71 | the name index has a joined path exactly when some entry has it, with the name of the last such entry |
| Categorization.ThemesEnumerator.constructor | python/fme-eurostat/src/fmepy_eurostat/categorization.py:47-51 | a new enumerator has its agency, no items and no tree |
| Categorization.ThemesEnumerator.InitItems | python/fme-eurostat/src/fmepy_eurostat/categorization.py:87-139 | a read error raises and leaves no items; otherwise the items are the entries reported, and a parse error raises after them |
| Categorization.ThemesEnumerator.Entries | python/fme-eurostat/src/fmepy_eurostat/categorization.py:54-55 | the items are read only when there are none, and a list in hand is returned unchanged; a first read gives `ReadOutcome` (the reader's error or the parse) and keeps the reported entries, or none after a read error |
| Categorization.ThemesEnumerator.ListCategorySchemes | python/fme-eurostat/src/fmepy_eurostat/categorization.py:53-63 | the listing is `Schemes` of the items; with items in hand it succeeds, and otherwise it succeeds exactly when `ReadOutcome` does, keeping the parsed entries, or raises its error |
| Categorization.ThemesEnumerator.ListCategories | python/fme-eurostat/src/fmepy_eurostat/categorization.py:73-85 | the listing is `Categories` of the items under the parent; with items in hand it succeeds, and otherwise it succeeds exactly when `ReadOutcome` does, keeping the parsed entries, or raises its error |
| Categorization.ThemesEnumerator.Info | python/fme-eurostat/src/fmepy_eurostat/categorization.py:64-72 | the name index is built once and kept; the result is a container with the indexed name, or the id itself; it succeeds exactly when the items are in hand or `ReadOutcome` succeeds, keeping the parsed entries, and raises its error otherwise |
| Codelists.Describe | python/fme-eurostat/src/fmepy_eurostat/codelists.py:21-22 | `str(codelist)` reads its name and id, then `, version=` and its version, then its number of values |
| Codelists.CodelistUrlId | python/fme-eurostat/src/fmepy_eurostat/codelists.py:66 | a codelist query is always under the ESTAT path, and the requested id is recovered from it |
| Codelists.Requests | python/fme-eurostat/src/fmepy_eurostat/codelists.py:64-70 | one request per requested id, in order, each naming its dataset URL and codelist id |
| Codelists.Initial | python/fme-eurostat/src/fmepy_eurostat/codelists.py:72-73 | before reading there is one fresh record per requested id, owned by the agency |
| Codelists.Fold | python/fme-eurostat/src/fmepy_eurostat/codelists.py:75-93 | folding features never adds or drops a codelist, nor changes its agency or id |
| Codelists.Distinct | python/fme-eurostat/src/fmepy_eurostat/codelists.py:72-73 | the requested ids without repeats: the same members, each once |
| Codelists.Ordered | python/fme-eurostat/src/fmepy_eurostat/codelists.py:94 | the records are returned in the order of the given ids |
| Codelists.BuildRequests | python/fme-eurostat/src/fmepy_eurostat/codelists.py:64-70 | the request loop builds exactly `Requests` |
| Codelists.FoldFeatures | python/fme-eurostat/src/fmepy_eurostat/codelists.py:75-93 | the output loop computes exactly `Fold` |
| Codelists.Get | python/fme-eurostat/src/fmepy_eurostat/codelists.py:25-94 | `get` is the fold of the pipeline's output for the requests of the ids |
| Codelists.FoldStops | python/fme-eurostat/src/fmepy_eurostat/codelists.py:79-81 | a failure on some feature is the failure of the whole read |
| Codelists.FoldSucceeds | python/fme-eurostat/src/fmepy_eurostat/codelists.py:79-81 | the read succeeds exactly when every feature is not a reader error and names a requested codelist |
| Codelists.FoldFirstError | python/fme-eurostat/src/fmepy_eurostat/codelists.py:79-81 | a failing read raises the error of its first rejected feature |
| Codelists.IngestCode | python/fme-eurostat/src/fmepy_eurostat/codelists.py:91-93 | one code feature sets the code it names and no other code of any codelist |
| Codelists.FoldCodeKeys | python/fme-eurostat/src/fmepy_eurostat/codelists.py:75-93 | a code is in a codelist exactly when some feature named it, and an unnamed code keeps its value |
| Codelists.FoldCodeLastWins | python/fme-eurostat/src/fmepy_eurostat/codelists.py:91-93 | a code's name is the one the last feature naming it gives, in the requested language |
| Codelists.IngestHeader | python/fme-eurostat/src/fmepy_eurostat/codelists.py:83-89 | a header feature sets the header fields of its own codelist only |
| Codelists.FoldHeader | python/fme-eurostat/src/fmepy_eurostat/codelists.py:83-89 | a codelist's header is that of its last header feature, or untouched when there is none |
| Codelists.CodelistsSpec | python/fme-eurostat/src/fmepy_eurostat/codelists.py:72-94 | `get` returns one record per distinct requested id, in order of first request |
| Driver.BlockNonLiteralArgs | python/fme-eurostat/src/fmepy_eurostat/driver.py:28-40 | the guard's only error is message 9900062 with the log name |
| Driver.GuardRefuses | python/fme-eurostat/src/fmepy_eurostat/driver.py:30-37 | the guard refuses exactly a project id or bucket holding "FME_CONDITIONAL" or "@Value" |
| Driver.GuardBucketPrecedence | python/fme-eurostat/src/fmepy_eurostat/driver.py:31 | when `_FME_BUCKET` is given, `bucket_name` is not looked at |
| Driver.GuardIgnoresOtherArguments | python/fme-eurostat/src/fmepy_eurostat/driver.py:30-31 | only the project id and bucket arguments are looked at |
| Driver.GuardIgnoresNonStrings | python/fme-eurostat/src/fmepy_eurostat/driver.py:33-37 | a value that is not a string raises TypeError inside the guard, which swallows it, so it is never refused |
| Driver.ItemPath | python/fme-eurostat/src/fmepy_eurostat/driver.py:200-201 | the delimiter alone becomes the root id "", and any other id is kept |
| Driver.ItemPathIdempotent | python/fme-eurostat/src/fmepy_eurostat/driver.py:200-201 | mapping the root twice is mapping it once |
| Driver.EurostatFilesystemDriver.constructor | python/fme-eurostat/src/fmepy_eurostat/driver.py:44-50 | a new driver has no API object and no factory |
| Driver.EurostatFilesystemDriver.SetApi | python/fme-eurostat/src/fmepy_eurostat/driver.py:66-70 | with neither an object nor a factory nothing changes; otherwise both are replaced |
| Driver.EurostatFilesystemDriver.Api | python/fme-eurostat/src/fmepy_eurostat/driver.py:59-64 | a pending factory is invoked once, its fresh enumerator kept and the factory dropped; with nothing ever set it fails |
| Driver.EurostatFilesystemDriver.GetContainerContents | python/fme-eurostat/src/fmepy_eurostat/driver.py:72-119 | after the guard, mode 'CategoryScheme' lists the schemes, 'Category' the categories under the container id or the scheme argument, and any other mode raises 'not implemented'; a 'Category' listing without a string parent first loads the entries, raising a failed read, and then fails for the missing parent; with an API set and a readable document for its agency the listing succeeds, and the only errors are the missing API, the missing parent and the read's own error; the schemes or categories listed are those of the entries held before the call or, on a first read, of the parsed document |
| Driver.EurostatFilesystemDriver.GetItemInfo | python/fme-eurostat/src/fmepy_eurostat/driver.py:179-202 | after the guard, mode 'Category' describes `CONTAINER_ID`, succeeding when an API is set, the id is a string and its agency's document is readable, and otherwise raising the missing API, the missing id or the read's own error; the name index is built from the entries held before the call or, on a first read, from the parsed document; any other mode raises for a missing bucket, and the three-argument call to the API's info raises |
| WebServiceConnector.MessageNumberRoundTrip | python/fme-eurostat/src/fmepy_eurostat/_vendor/webserviceconnector/webserviceconnector.py:68-276 | each exception subclass raises its own message number, and the subclass is recovered from it |
| WebServiceConnector.NewException | python/fme-eurostat/src/fmepy_eurostat/_vendor/webserviceconnector/webserviceconnector.py:40-65 | the exception keeps number, details and message; missing or empty parameters become [], others their `str()` one by one |
| WebServiceConnector.Raise | python/fme-eurostat/src/fmepy_eurostat/_vendor/webserviceconnector/webserviceconnector.py:68-276 | a subclass fixes its message number and passes parameters and details through |
| WebServiceConnector.NormalizeContainerId | python/fme-eurostat/src/fmepy_eurostat/_vendor/webserviceconnector/webserviceconnector.py:308-320 | a falsy id or "/" becomes the root id, and any other id is kept |
| WebServiceConnector.NormalizeIdempotent | python/fme-eurostat/src/fmepy_eurostat/_vendor/webserviceconnector/webserviceconnector.py:308-320 | normalising twice is normalising once |
| WebServiceConnector.ErrorKind | python/fme-eurostat/src/fmepy_eurostat/_vendor/webserviceconnector/webserviceconnector.py:582-616 | a status raises exactly when it is 4xx, 500 or 503 |
| WebServiceConnector.ErrorKindClasses | python/fme-eurostat/src/fmepy_eurostat/_vendor/webserviceconnector/webserviceconnector.py:582-616 | 429, 500 and 503 are server errors; other 4xx are client kinds, with the generic request kind for exactly those other than 401, 403, 404, 409 and 429; success statuses raise nothing |
| WebServiceConnector.HandleErrorCodes | python/fme-eurostat/src/fmepy_eurostat/_vendor/webserviceconnector/webserviceconnector.py:582-616 | a failed status raises the kind's message number with the log prefix, service name and URL, detailed by the body or else the reason |
| WebServiceConnector.RequestOutcome | python/fme-eurostat/src/fmepy_eurostat/_vendor/webserviceconnector/webserviceconnector.py:454-497 | a 200-204 or 308 response is returned; any other raises when `_handleErrorCodes` does, and else gives None |
| WebServiceConnector.Connector.constructor | python/fme-eurostat/src/fmepy_eurostat/_vendor/webserviceconnector/webserviceconnector.py:279-304 | the headers are the connection's own with a JSON content type |
| WebServiceConnector.Connector.AddToHeader | python/fme-eurostat/src/fmepy_eurostat/_vendor/webserviceconnector/webserviceconnector.py:557-573 | a latin-1 value is set under its key; any other raises the request exception and leaves the headers as they were |
| WebServiceConnector.Connector.RemoveFromHeader | python/fme-eurostat/src/fmepy_eurostat/_vendor/webserviceconnector/webserviceconnector.py:575-580 | the key is gone and every other header is kept |
| Errors.DigitRun | python/fme-eurostat/src/fmepy_eurostat/_vendor/webserviceconnector/errors.py:26 | the greedy `\d+` run: all digits, and not followed by a digit |
| Errors.WebFilesystemError | python/fme-eurostat/src/fmepy_eurostat/_vendor/webserviceconnector/errors.py:10-34 | a number is kept with an empty message; a text is formatted (and may raise), with number -1; the parameters and details are passed on |
| Errors.MarkersToFieldsRender | python/fme-eurostat/src/fmepy_eurostat/_vendor/webserviceconnector/errors.py:26 | the `re.sub` step turns every `%N` marker of a well-formed template into `{N}` |
| Errors.PyFormatFields | python/fme-eurostat/src/fmepy_eurostat/_vendor/webserviceconnector/errors.py:27 | the `format` step replaces every field by its parameter |
| Errors.PyFormatField | python/fme-eurostat/src/fmepy_eurostat/_vendor/webserviceconnector/errors.py:27 | a field `{N}` takes the N-th parameter, or raises IndexError when there is none |
| Errors.FormatTemplate | python/fme-eurostat/src/fmepy_eurostat/_vendor/webserviceconnector/errors.py:25-27 | a well-formed template expands to its intended message, each `%N` replaced by `str` of its parameter |
| Errors.FormatPlainText | python/fme-eurostat/src/fmepy_eurostat/_vendor/webserviceconnector/errors.py:25-27 | a text without markers or braces is its own message |
| Errors.FormatMissingParam | python/fme-eurostat/src/fmepy_eurostat/_vendor/webserviceconnector/errors.py:25-27 | a marker naming a missing parameter raises IndexError |
| Errors.NotFoundMessage | python/fme-eurostat/src/fmepy_eurostat/_vendor/webserviceconnector/errors.py:47-49 | the not-found template formats to `<prefix>: Could not find item '<id>'` |
| Errors.NotFoundText | python/fme-eurostat/src/fmepy_eurostat/_vendor/webserviceconnector/errors.py:38-50 | `NotFoundError` never raises while formatting, and carries that message, number -1, its two parameters and the details |
| Errors.HttpErrorMessage | python/fme-eurostat/src/fmepy_eurostat/_vendor/webserviceconnector/errors.py:64-65 | the HTTP template formats to `<service>: HTTP error <status> (<reason>) for URL <url>` |
| Errors.HttpErrorText | python/fme-eurostat/src/fmepy_eurostat/_vendor/webserviceconnector/errors.py:53-66 | `WebFilesystemHTTPError` carries that message, with the given details when truthy and otherwise the response body |
| Util.Feature.SetAttribute | python/fme-eurostat/src/fmepy_eurostat/_vendor/webserviceconnector/util.py:19-33 | setting an attribute updates it and nothing else |
| Util.Feature.RemoveAttribute | python/fme-eurostat/src/fmepy_eurostat/_vendor/webserviceconnector/util.py:36-61 | removing an attribute drops it and nothing else |
| Util.WithAttributes | python/fme-eurostat/src/fmepy_eurostat/_vendor/webserviceconnector/util.py:19-33 | every value with a non-empty name is set, and every other attribute keeps its value |
| Util.SetAttributesOnFeature | python/fme-eurostat/src/fmepy_eurostat/_vendor/webserviceconnector/util.py:19-33 | the loop leaves exactly `WithAttributes` on the feature |
| Util.AttributeValue | python/fme-eurostat/src/fmepy_eurostat/_vendor/webserviceconnector/util.py:64-87 | a missing attribute reads as the missing value, and a present one as its value |
| Util.AfterGet | python/fme-eurostat/src/fmepy_eurostat/_vendor/webserviceconnector/util.py:80-86 | with `pop`, a present non-null attribute is removed; otherwise the attributes are unchanged |
| Util.GetAttributeFromFeature | python/fme-eurostat/src/fmepy_eurostat/_vendor/webserviceconnector/util.py:64-87 | returns `AttributeValue` and leaves `AfterGet` on the feature |
| Util.PopNamed | python/fme-eurostat/src/fmepy_eurostat/_vendor/webserviceconnector/util.py:50-52 | popping the listed names gives a result for exactly those names and removes exactly them |
| Util.PopNamedValue | python/fme-eurostat/src/fmepy_eurostat/_vendor/webserviceconnector/util.py:50-52 | a name listed once reads its original value; a name listed twice reads the missing value, as the first pop removed it |
| Util.PopPrefixed | python/fme-eurostat/src/fmepy_eurostat/_vendor/webserviceconnector/util.py:53-60 | without a name list, a non-empty prefix that some attribute starts with raises |
| Util.PopAttributesRemoves | python/fme-eurostat/src/fmepy_eurostat/_vendor/webserviceconnector/util.py:36-61 | `pop_attributes_off_feature` raises exactly in that case, and otherwise removes every requested and every prefixed attribute |
| Util.PopListed | python/fme-eurostat/src/fmepy_eurostat/_vendor/webserviceconnector/util.py:50-52 | the listed-names loop computes `PopNamed` |
| Util.AnyStartsWith | python/fme-eurostat/src/fmepy_eurostat/_vendor/webserviceconnector/util.py:53-60 | true exactly when some attribute name starts with the prefix |
| Util.PopPrefixNames | python/fme-eurostat/src/fmepy_eurostat/_vendor/webserviceconnector/util.py:53-60 | pops exactly the unlisted attributes that start with the prefix, with their values |
| Util.PopPrefixedOff | python/fme-eurostat/src/fmepy_eurostat/_vendor/webserviceconnector/util.py:53-60 | the prefix loop agrees with `PopPrefixed` |
| Util.PopAttributesOffFeature | python/fme-eurostat/src/fmepy_eurostat/_vendor/webserviceconnector/util.py:36-61 | the whole method agrees with its specification, results and feature alike |
| Util.SanitizeKeepsOtherNames | python/fme-eurostat/src/fmepy_eurostat/_vendor/webserviceconnector/util.py:99 | as written, a name without the full ten-character sequence comes back unchanged |
| Util.SanitizeRewritesSequence | python/fme-eurostat/src/fmepy_eurostat/_vendor/webserviceconnector/util.py:99 | as written, a name holding the sequence comes back shorter |
| Util.SanitizeKeepsSlash | python/fme-eurostat/src/fmepy_eurostat/_vendor/webserviceconnector/util.py:99 | as written, "a/b" keeps its slash |
| Util.SanitizeFsName | python/fme-eurostat/src/fmepy_eurostat/_vendor/webserviceconnector/util.py:99 | as written, a name shorter than the ten-character sequence comes back unchanged, whatever characters it holds |
| Util.SanitizeFsNameChars | python/fme-eurostat/src/fmepy_eurostat/_vendor/webserviceconnector/util.py:88-100 | as intended, a one-character name that is unsafe becomes the replacement and any other is kept; no unsafe character survives when the replacement is safe, and a safe name is returned unchanged |
| Util.SanitizeFsNameCharsConcat | python/fme-eurostat/src/fmepy_eurostat/_vendor/webserviceconnector/util.py:88-100 | as intended, sanitising works character by character: a concatenation sanitises to the concatenation of the parts |
| Util.ItemGen.constructor | python/fme-eurostat/src/fmepy_eurostat/_vendor/webserviceconnector/util.py:128-131 | the generator is not started and the marker is kept |
| Util.ItemGen.Next | python/fme-eurostat/src/fmepy_eurostat/_vendor/webserviceconnector/util.py:136-143 | the first call starts the generator, and it is never started again; each call gives the next pending item (on the first call, the generator's first item) and None exactly when none is pending |
| Config.StripDoubleQuotes | python/fme-eurostat/src/fmepy_eurostat/_vendor/webserviceconnector/config.py:21-30 | non-strings, and strings not starting with a double quote, are kept; others lose the quotes at both ends |
| Config.StripDoubleQuotesSlice | python/fme-eurostat/src/fmepy_eurostat/_vendor/webserviceconnector/config.py:21-30 | stripping removes only double quotes, and only at the two ends |
| Config.StripDoubleQuotesIdempotent | python/fme-eurostat/src/fmepy_eurostat/_vendor/webserviceconnector/config.py:21-30 | stripping twice is stripping once |
| Config.ConfigFromFeature.constructor | python/fme-eurostat/src/fmepy_eurostat/_vendor/webserviceconnector/config.py:44-52 | the config starts empty over its feature |
| Config.ConfigFromFeature.Pop | python/fme-eurostat/src/fmepy_eurostat/_vendor/webserviceconnector/config.py:54-72 | pops the attribute off the feature, processes it when asked, and stores the value under its name |
| Config.ListOperationConfig.BuildAttributes | python/fme-eurostat/src/fmepy_eurostat/_vendor/webserviceconnector/config.py:95-111 | name, id and type under the configured attribute names, the type being "Folder" or "File" |
| Config.ListTypeIsFolder | python/fme-eurostat/src/fmepy_eurostat/_vendor/webserviceconnector/config.py:95-111 | an item is reported as a Folder exactly when it is a container |
| Config.DownloadTargetExclusive | python/fme-eurostat/src/fmepy_eurostat/_vendor/webserviceconnector/config.py:126-144 | a download targets at most one of file, attribute and folder, and never overwrites |
| Config.UploadOperationConfig.BuildAttributes | python/fme-eurostat/src/fmepy_eurostat/_vendor/webserviceconnector/config.py:181-193 | only the uploaded item's id, under the configured attribute name |
| Config.UploadSourceExclusive | python/fme-eurostat/src/fmepy_eurostat/_vendor/webserviceconnector/config.py:161-179 | an upload reads from at most one of file, attribute and folder, and never overwrites |
| WebFs.NewContainerItem | python/fme-eurostat/src/fmepy_eurostat/_vendor/webserviceconnector/fmewebfs.py:83-100 | an item keeps its kind, id and name, and an icon only when it is truthy |
| WebFs.NewContainerItemKeys | python/fme-eurostat/src/fmepy_eurostat/_vendor/webserviceconnector/fmewebfs.py:95-100 | an item always holds IS_CONTAINER, ID and NAME, and holds ICON exactly when given a truthy icon |
| WebFs.ResponseKeys | python/fme-eurostat/src/fmepy_eurostat/_vendor/webserviceconnector/fmewebfs.py:158-169 | a page holds CONTENTS, and holds CONTINUE exactly when there is a next page |
| WebFs.ContinuationArgs | python/fme-eurostat/src/fmepy_eurostat/_vendor/webserviceconnector/fmewebfs.py:129-179 | the continuation is an empty dict on the last page, and otherwise its arguments |
| WebFs.FoldersFilesPartition | python/fme-eurostat/src/fmepy_eurostat/_vendor/webserviceconnector/fmewebfs.py:289-291 | every listed item lands in exactly one of folders and files |
| WebFs.FoldersOfContainers | python/fme-eurostat/src/fmepy_eurostat/_vendor/webserviceconnector/fmewebfs.py:289-291 | a listing of containers only is all folders and no files |
| WebFs.GetContainerContents | python/fme-eurostat/src/fmepy_eurostat/_vendor/webserviceconnector/fmewebfs.py:447-487 | a missing CONTAINER_ID raises, and so does an id that is looked up and is not found or not a container; otherwise the driver's page is returned, its continuation carrying the container id |
| WebFs.ResolveEncoding | python/fme-eurostat/src/fmepy_eurostat/_vendor/webserviceconnector/fmewebfs.py:565-608 | the requested name goes through the fix table: "fme-binary" means no encoding, a table entry gives its alias and any other name is kept; no configured encoding means utf-8; the result is never empty |
| WebFs.RequestedEncoding | python/fme-eurostat/src/fmepy_eurostat/_vendor/webserviceconnector/fmewebfs.py:580-588 | "auto-detect" takes the detected encoding, "fme-system" the system locale's and anything else the configured one, each falling back to utf-8 when missing or empty |
| WebFs.FixEncodingIdempotent | python/fme-eurostat/src/fmepy_eurostat/_vendor/webserviceconnector/fmewebfs.py:593-606 | no fixed encoding name is itself an entry of the fix table |
| WebFs.HandleOperation | python/fme-eurostat/src/fmepy_eurostat/_vendor/webserviceconnector/fmewebfs.py:680-708 | a keyword is forwarded to the operation it names ignoring case, and to none when it is not one of the four |
| WebFs.HandleOperationKeyword | python/fme-eurostat/src/fmepy_eurostat/_vendor/webserviceconnector/fmewebfs.py:680-708 | each operation's keyword, in any case, reaches that operation |
| WebFs.HandleOperationIgnoresCase | python/fme-eurostat/src/fmepy_eurostat/_vendor/webserviceconnector/fmewebfs.py:680-708 | a keyword and its lower-case spelling reach the same handler |
| WebFs.Children | python/fme-eurostat/src/fmepy_eurostat/_vendor/webserviceconnector/fmewebfs.py:295-296 | each kept folder is enqueued under its own ancestry, in order |
| WebFs.Walk | python/fme-eurostat/src/fmepy_eurostat/_vendor/webserviceconnector/fmewebfs.py:252-300 | a top that is not a container raises; otherwise the walk yields the pages of `WalkFrom` |
| WebFs.WalkInvInit | python/fme-eurostat/src/fmepy_eurostat/_vendor/webserviceconnector/fmewebfs.py:273-275 | the walk starts from the top container alone |
| WebFs.WalkInvPop | python/fme-eurostat/src/fmepy_eurostat/_vendor/webserviceconnector/fmewebfs.py:277-283 | taking the next ancestry off the queue keeps the walk invariant |
| WebFs.WalkInvPage | python/fme-eurostat/src/fmepy_eurostat/_vendor/webserviceconnector/fmewebfs.py:284-300 | listing one page and following its continuation keeps the walk invariant |
| WebFs.WalkInvDone | python/fme-eurostat/src/fmepy_eurostat/_vendor/webserviceconnector/fmewebfs.py:277-300 | when the queue is empty every kept folder has been listed |
| WebFs.WalkFromKeeps | python/fme-eurostat/src/fmepy_eurostat/_vendor/webserviceconnector/fmewebfs.py:252-300 | the walk keeps its invariant to the end of its queue |
| WebFs.WalkProperties | python/fme-eurostat/src/fmepy_eurostat/_vendor/webserviceconnector/fmewebfs.py:252-300 | every page lists a container under the top, breadth first, split into folders and files; a walk that ends has listed every kept folder |
| WebFs.WalkSkipsPruned | python/fme-eurostat/src/fmepy_eurostat/_vendor/webserviceconnector/fmewebfs.py:293-296 | a folder the caller removes from its parent's pages is never listed |
| Folders.FolderChain | python/fme-eurostat/src/fmepy_eurostat/_vendor/webserviceconnector/util_folders.py:47-60 | a path lies in as many folders as it has delimiters after the root prefix |
| Folders.FolderChainShape | python/fme-eurostat/src/fmepy_eurostat/_vendor/webserviceconnector/util_folders.py:47-60 | each folder starts with the root prefix, ends with the delimiter, extends the one before and is a prefix of the path |
| Folders.Unseen | python/fme-eurostat/src/fmepy_eurostat/_vendor/webserviceconnector/util_folders.py:61-66 | the reported folders are exactly the path's folders the previous path did not lie in |
| Folders.FolderFromPathBuilder.constructor | python/fme-eurostat/src/fmepy_eurostat/_vendor/webserviceconnector/util_folders.py:38-45 | the builder keeps its prefix and delimiter and has seen no folders |
| Folders.FolderFromPathBuilder.FeedPath | python/fme-eurostat/src/fmepy_eurostat/_vendor/webserviceconnector/util_folders.py:47-66 | reports the path's folders unseen for the previous path, and remembers the path's folders |
| Folders.FoldersOfPath | python/fme-eurostat/src/fmepy_eurostat/_vendor/webserviceconnector/util_folders.py:52-60 | the folder loop computes `FolderChain` |
| Folders.Unreported | python/fme-eurostat/src/fmepy_eurostat/_vendor/webserviceconnector/util_folders.py:61-66 | the comprehension computes `Unseen` |
| Folders.FeedFamily | python/fme-eurostat/src/fmepy_eurostat/_vendor/webserviceconnector/util_folders.py:15-35 | a file in a folder, then files in two of its subfolders, report the folder chain once and each subfolder once |
| Folders.FeedAllExample | python/fme-eurostat/src/fmepy_eurostat/_vendor/webserviceconnector/util_folders.py:15-35 | the documented six-path example reports its folders in the documented order, for any folder and file names |
| Folders.CommonPrefix | python/fme-eurostat/src/fmepy_eurostat/_vendor/webserviceconnector/util_folders.py:68-71 | a common prefix of both strings that cannot be extended |
| Folders.CommonPrefixLongest | python/fme-eurostat/src/fmepy_eurostat/_vendor/webserviceconnector/util_folders.py:68-71 | no common prefix is longer |
| Folders.FileOnly | python/fme-eurostat/src/fmepy_eurostat/_vendor/webserviceconnector/util_folders.py:74-86 | a files-only property is None on a container and the property on a file |
| Folders.StripPrefix | python/fme-eurostat/src/fmepy_eurostat/_vendor/webserviceconnector/util_folders.py:89-103 | the result is a suffix of the string: the prefix is dropped only when the string starts with it, and then only leading delimiter characters are dropped, all of them when a delimiter is given |
| Folders.StripPrefixRoundTrip | python/fme-eurostat/src/fmepy_eurostat/_vendor/webserviceconnector/util_folders.py:89-103 | stripping the prefix and delimiter off a key built from them gives its remainder back |
| Folders.Basename | python/fme-eurostat/src/fmepy_eurostat/_vendor/webserviceconnector/util_folders.py:115 | the base name holds no '/' and is the suffix after the last '/', or the whole path when there is none |
| Folders.AppendFolderToPrefix | python/fme-eurostat/src/fmepy_eurostat/_vendor/webserviceconnector/util_folders.py:106-118 | the result neither starts nor ends with the delimiter |
| Folders.AppendFolderToCleanPrefix | python/fme-eurostat/src/fmepy_eurostat/_vendor/webserviceconnector/util_folders.py:106-118 | a clean prefix and folder name are joined by exactly one delimiter |
| Folders.GetFolderId | python/fme-eurostat/src/fmepy_eurostat/_vendor/webserviceconnector/util_folders.py:136-153 | no folder gives ""; the root gives "" with `prefix_root`; otherwise an id already ending with the delimiter is kept and any other gets the delimiter appended |
| Folders.GetFolderIdIdempotent | python/fme-eurostat/src/fmepy_eurostat/_vendor/webserviceconnector/util_folders.py:136-153 | a folder id is its own folder id |
| ConnectorFactory.ItemMatches | python/fme-eurostat/src/fmepy_eurostat/_vendor/webserviceconnectorfactory/webserviceconnectorfactory.py:666-668 | a name matches when equal, or equal lower-cased when case is ignored; a missing name raises when case is ignored |
| ConnectorFactory.CaseInsensitiveMatch | python/fme-eurostat/src/fmepy_eurostat/_vendor/webserviceconnectorfactory/webserviceconnectorfactory.py:666-668 | names differing only in case match when case is ignored |
| ConnectorFactory.FirstMatchSpec | python/fme-eurostat/src/fmepy_eurostat/_vendor/webserviceconnectorfactory/webserviceconnectorfactory.py:663-678 | a found id is that of a matching candidate with no earlier match; none is found exactly when no candidate matches |
| ConnectorFactory.FirstMatchCaseSensitive | python/fme-eurostat/src/fmepy_eurostat/_vendor/webserviceconnectorfactory/webserviceconnectorfactory.py:663-678 | a case-sensitive search never raises |
| ConnectorFactory.FindId | python/fme-eurostat/src/fmepy_eurostat/_vendor/webserviceconnectorfactory/webserviceconnectorfactory.py:653-678 | `_findId`'s loops compute the first match among the items of the requested kind |
| ConnectorFactory.FindIdKind | python/fme-eurostat/src/fmepy_eurostat/_vendor/webserviceconnectorfactory/webserviceconnectorfactory.py:663-678 | a found id is the id of a listed item of the requested kind whose name matches |
| ConnectorFactory.GetItemId | python/fme-eurostat/src/fmepy_eurostat/_vendor/webserviceconnectorfactory/webserviceconnectorfactory.py:437-466 | searches the first page, then each continuation page, giving `SearchPages` |
| ConnectorFactory.SearchPagesSpec | python/fme-eurostat/src/fmepy_eurostat/_vendor/webserviceconnectorfactory/webserviceconnectorfactory.py:455-466 | a found id comes from the first page with a match; None exactly when no page matches |
| ConnectorFactory.RelativePath | python/fme-eurostat/src/fmepy_eurostat/_vendor/webserviceconnectorfactory/webserviceconnectorfactory.py:945 | the folder path, '/', and the item name up to its first " [" |
| ConnectorFactory.RelativePathPlain | python/fme-eurostat/src/fmepy_eurostat/_vendor/webserviceconnectorfactory/webserviceconnectorfactory.py:945 | a name without " [" is reported whole |
| ConnectorFactory.RelativePathBracketed | python/fme-eurostat/src/fmepy_eurostat/_vendor/webserviceconnectorfactory/webserviceconnectorfactory.py:903-905 | a name with a bracketed suffix is reported without it |
| ConnectorFactory.Dispatch | python/fme-eurostat/src/fmepy_eurostat/_vendor/webserviceconnectorfactory/webserviceconnectorfactory.py:196-218 | an operation type selects the operation of that name; any other is rejected with 932308 |
| ConnectorFactory.DispatchName | python/fme-eurostat/src/fmepy_eurostat/_vendor/webserviceconnectorfactory/webserviceconnectorfactory.py:126-132 | each operation is selected by its own name |
| ConnectorFactory.OutputsInputFeature | python/fme-eurostat/src/fmepy_eurostat/_vendor/webserviceconnectorfactory/webserviceconnectorfactory.py:195-225 | only the list operation holds the input feature back |

## Left out

- The FME runtime is left out: feature pipelines, `FMESession`, logging, the
  XML reader and the Expat tokeniser. Records, output features and parser
  events are inputs to the model.
- Network I/O, the connection manager, `refreshHeader`, sessions and retries
  are left out. `RequestOutcome` starts from a response already in hand.
- Concurrency is left out, including `util_pool_worker` and the driver's
  threaded `delete_item`.
- `download_file`, `upload_file` and `delete_item` of the category-scheme
  driver are left out, because they only call into a blob API that this
  connector does not have. `download_file` and `delete_item` of the catalog
  driver do nothing.
- `ThemesEnumeratorUniversalReaderXmp` and the `makeInstance` entry points
  are left out: they only construct objects from FME arguments.
- The sqlite cache that `init_items` sets up is left out, because it is never
  read. Its `sqlite3.connect` can raise; the model folds that failure into the
  failure of `Fetch`, the read of the category schemes. The database path is
  joined under the module's own file name, so on an ordinary file system the
  connection would fail; this was not executed and the model does not decide it.
- `decode`, `_aggressive_normpath_wrapper`, `choiceToBool`, `decodeValue`
  and `mkdir_p` are left out: they are FME text decoding and file-system
  calls.
- The operation-config constructors are left out. Only the popped values they
  keep are modelled, as datatype fields.
- Strings are sequences of characters. `str.lower()` is modelled as ASCII
  lower-casing. `str.isspace()` is modelled as Python's full set of white
  space characters.
- Errors.DigitRun: a digit is one of ASCII '0' to '9', whereas the `\d` of the
  message-marker pattern also matches other Unicode decimal digits.
- EurostatCatalog.ReadCatalog: the fields of a record (`id`, `urn`, the
  scheme id, the target urn and the source id) are strings that are always
  present. In the source, a feature without `Category.urn` or `Category.id`
  makes `read_catalog` raise when it uses the `None` value.
- Categorization.ThemesEnumerator.InitItems: `Fetch` gives either a read
  error or a whole document as events, so an XML syntax error raised by the
  parser partway through a document is not modelled. Such an error comes from
  a response that is not XML or is malformed, or from a missing
  `text_line_data`. In the source it is raised after `self.items = []`, so the
  entries reported before it stay cached, possibly as an empty list, and every
  later listing returns them without reading again. The model shows this
  caching only for the errors the content handler raises itself.
- Catalog.read_catalog: the warning for a category urn that does not end with
  `.<id>` is only logged, so it is not modelled.
- Categorization.Handler.EndElementEvent: the annotation dicts are reported
  as snapshots. In the source a reported dict is the live `annotations`
  object, which a later annotation end inside the same element would still
  change.
- Categorization.IdOf: a missing `id` attribute is pushed as "" instead of
  `None`.
- Driver.EurostatFilesystemDriver.GetItemInfo: a `CONTAINER_ID` that is not a
  string is reported as an error instead of an item with that id. The named
  parameters `bucket_name`, `blob_container` and `explicit_folder` are passed
  as separate arguments, and the remaining keyword arguments as one map.
- Driver.EurostatFilesystemDriver.GetContainerContents: the blob listing after
  `raise Exception('not implemented')` cannot be reached and is not modelled.
- Driver.EurostatFilesystemDriver.Api: the only factory modelled is the one
  that builds an agency's category-scheme enumerator.
- Codelists.Get: the `lang` session setting of the XML reader is left out.
  The language is only used to pick the name attributes.
- Errors.PyFormat: format fields other than plain indices (names, attribute
  access, format specs) are reported as one `FieldError`.
- WebFs.GetContainerContents: the item lookup and the listing function cannot
  fail, whereas in the source an error raised by the driver propagates. The
  `prettify_http_errors` decorator, which re-raises a `requests` `HTTPError`
  as a `WebFilesystemHTTPError`, is left out with the rest of the network.
- WebFs.Walk: the item lookup and the listing function cannot fail, so a
  driver error in the middle of a walk, which propagates in the source, is
  not modelled.
- WebFs.Walk: the walk carries a `fuel` bound on the number of listings. A
  walk that runs out of fuel stops early, which the source never does. Its
  result says whether the walk ran to its end.
- WebFs.ResolveEncoding: the encoding argument the source ignores is not
  modelled.
- ConnectorFactory.GetItemId: it requires that the pages passed in are the
  ones the listing function returns when it follows the continuations. The
  listing function cannot fail, whereas in the source an error raised by
  `getContainerContents` propagates out of `getItemId`.
- ConnectorFactory.RelativePath: an item whose name is `None` is left out.
- Folders.AppendFolderToPrefix: the delimiter is one character, whereas the
  source passes a string that `strip` treats as a set of characters and
  `join` inserts whole. Folders.FolderFromPathBuilder takes a one-character
  delimiter for the same reason, where the source's `delimiter` is a string.
- Folders.Basename: it uses '/' as the only separator, as `os.path.basename`
  does on POSIX.

## Findings

| source | as written | input that shows it | evidently intended | confidence | as-written member | corrected member |
|---|---|---|---|---|---|---|
| python/fme-eurostat/src/fmepy_eurostat/_vendor/webserviceconnector/util.py:99 | `sanitize_fs_name` passes the ten unsafe characters to `re.sub` as one pattern without a character class, so it replaces only the exact ten-character sequence `Util.UnsafeSequence` | `sanitize_fs_name("a/b")` returns `"a/b"` (`Util.SanitizeKeepsSlash`) | every one of the ten characters replaced (a character class) | not executed | Util.SanitizeFsName | Util.SanitizeFsNameChars |
