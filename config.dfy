/** Transformer configuration taken off an input feature: quote stripping, the
    config dict that records every popped attribute, the attributes a listed or
    uploaded item is described by, and the target and source type checks. */
module Config {
  import opened Wrappers
  import opened Strings
  import opened Values
  import opened Util
  import opened WebFs

  predicate IsQuote(c: char) {
    c == '"'
  }

  /** `_strip_double_quotes`: a string that starts with a double quote loses
      every leading and trailing double quote; any other string, and any value
      that is not a string, comes back unchanged. */
  function StripDoubleQuotes(v: Value): (r: Value)
    ensures !v.Str? ==> r == v
    ensures v.Str? && !StartsWith(v.s, "\"") ==> r == v
    ensures v.Str? && StartsWith(v.s, "\"") ==>
              r.Str? && (r.s == "" || (r.s[0] != '"' && r.s[|r.s| - 1] != '"'))
  {
    match v
    case Str(s) => if !StartsWith(s, "\"") then v else Str(Trim(s, IsQuote))
    case _ => v
  }

  /** Stripping removes double quotes from the two ends and nothing else: the
      result is a slice of the input with only quotes outside it. */
  lemma StripDoubleQuotesSlice(s: string)
    ensures var r := StripDoubleQuotes(Str(s)).s;
            exists i, j :: 0 <= i <= j <= |s| && r == s[i..j] &&
              (forall k :: 0 <= k < i ==> s[k] == '"') && (forall k :: j <= k < |s| ==> s[k] == '"')
  {
    var r := StripDoubleQuotes(Str(s)).s;
    if !StartsWith(s, "\"") {
      assert r == s[0..|s|];
    } else {
      var i, j := TrimQuotesBounds(s);
      assert r == s[i..j];
    }
  }

  /** Where the quote-trimmed text sits in the input. */
  lemma TrimQuotesBounds(s: string) returns (i: int, j: int)
    ensures 0 <= i <= j <= |s| && Trim(s, IsQuote) == s[i..j]
    ensures forall k :: 0 <= k < i ==> s[k] == '"'
    ensures forall k :: j <= k < |s| ==> s[k] == '"'
  {
    var front := TrimStart(s, IsQuote);
    var both := TrimEnd(front, IsQuote);
    i := |s| - |front|;
    j := i + |both|;
    assert front == s[i..] && both == front[..|both|];
    forall k | 0 <= k < i ensures s[k] == '"' {
      assert IsQuote(s[k]);
    }
    forall k | j <= k < |s| ensures s[k] == '"' {
      assert s[k] == front[k - i] && IsQuote(front[k - i]);
    }
  }

  /** Stripping twice is stripping once. */
  lemma StripDoubleQuotesIdempotent(v: Value)
    ensures StripDoubleQuotes(StripDoubleQuotes(v)) == StripDoubleQuotes(v)
  {
  }

  // ---------------------------------------------------------------------------
  // the config dict

  /** Configuration attributes popped off a feature, kept as a dict keyed by attribute name. */
  class ConfigFromFeature {
    const feature: Feature
    var config: map<string, Value>

    constructor (feature: Feature)
      ensures this.feature == feature && config == map[]
    {
      this.feature := feature;
      config := map[];
    }

    /** Pops one attribute off the feature (or takes `missing` when it is
        absent), passes it through `process` when one is given, records the
        result under the attribute's name and returns it. */
    method Pop(name: string, missing: Value, process: Option<Value -> Value>) returns (value: Value)
      modifies this, feature
      ensures var raw := AttributeValue(old(feature.attrs), name, missing);
              value == if process.Some? then process.value(raw) else raw
      ensures config == old(config)[name := value]
      ensures name in config && config[name] == value
      ensures feature.attrs == AfterGet(old(feature.attrs), name, true)
    {
      value := GetAttributeFromFeature(feature, name, missing, true);
      if process.Some? {
        value := process.value(value);
      }
      config := config[name := value];
    }
  }

  // ---------------------------------------------------------------------------
  // listing, download and upload configuration

  /** The display value of an item's name: its text, or None. */
  function NameValue(name: Option<string>): Value {
    if name.Some? then Str(name.value) else Null
  }

  /** The attribute names a listing writes an item's name, id and type to (popped config values). */
  datatype ListOperationConfig = ListOperationConfig(nameAttr: Value, idAttr: Value, typeAttr: Value) {
    /** `build_attributes`: name, id and type under the configured attribute
        names; when two names coincide the later entry (id over name, type over
        both) wins, as in a dict display. */
    function BuildAttributes(item: ContainerItem): (r: map<Value, Value>)
      ensures r.Keys == {nameAttr, idAttr, typeAttr}
      ensures r[typeAttr] == (if item.isContainer then Str("Folder") else Str("File"))
      ensures idAttr != typeAttr ==> r[idAttr] == Str(item.id)
      ensures nameAttr != idAttr && nameAttr != typeAttr ==> r[nameAttr] == NameValue(item.name)
    {
      map[nameAttr := NameValue(item.name)][idAttr := Str(item.id)][typeAttr := if item.isContainer then Str("Folder") else Str("File")]
    }
  }

  /** A listed item is reported as a Folder exactly when it is a container. */
  lemma ListTypeIsFolder(config: ListOperationConfig, item: ContainerItem)
    ensures config.BuildAttributes(item)[config.typeAttr] == Str("Folder") <==> item.isContainer
    ensures config.BuildAttributes(item)[config.typeAttr] == Str("File") <==> !item.isContainer
  {
  }

  /** The popped target type of a download. */
  datatype DownloadOperationConfig = DownloadOperationConfig(targetType: Value) {
    predicate TargetIsFile() { targetType == Str("File") }
    predicate TargetIsAttribute() { targetType == Str("Attribute") }
    predicate TargetIsFolder() { targetType == Str("Folder") }

    /** Downloads never overwrite an existing local target. */
    predicate OverwriteTarget() { false }
  }

  /** A download targets at most one of a file, an attribute and a folder, and never overwrites. */
  lemma DownloadTargetExclusive(config: DownloadOperationConfig)
    ensures !(config.TargetIsFile() && config.TargetIsAttribute())
    ensures !(config.TargetIsFile() && config.TargetIsFolder())
    ensures !(config.TargetIsAttribute() && config.TargetIsFolder())
    ensures !config.OverwriteTarget()
  {
    if config.TargetIsAttribute() {
      assert "Attribute"[0] != "File"[0] && "Attribute"[0] != "Folder"[0];
    }
  }

  /** The popped source type of an upload and the attribute it reports the new item's id in. */
  datatype UploadOperationConfig = UploadOperationConfig(sourceType: Value, objectIdAttr: Value) {
    predicate SourceIsFile() { sourceType == Str("File") }
    predicate SourceIsAttribute() { sourceType == Str("Attribute") }
    predicate SourceIsFolder() { sourceType == Str("Folder") }

    /** Uploads never overwrite an existing remote destination. */
    predicate OverwriteDestination() { false }

    /** `build_attributes`: the uploaded item's id under the configured attribute name, and nothing else. */
    function BuildAttributes(item: ContainerItem): (r: map<Value, Value>)
      ensures r.Keys == {objectIdAttr} && r[objectIdAttr] == Str(item.id)
    {
      map[objectIdAttr := Str(item.id)]
    }
  }

  /** An upload reads from at most one of a file, an attribute and a folder, and never overwrites. */
  lemma UploadSourceExclusive(config: UploadOperationConfig)
    ensures !(config.SourceIsFile() && config.SourceIsAttribute())
    ensures !(config.SourceIsFile() && config.SourceIsFolder())
    ensures !(config.SourceIsAttribute() && config.SourceIsFolder())
    ensures !config.OverwriteDestination()
  {
    if config.SourceIsAttribute() {
      assert "Attribute"[0] != "File"[0] && "Attribute"[0] != "Folder"[0];
    }
  }
}
