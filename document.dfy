/**
 * The exported rules document (`generate_yaml`, expectations.py:72-82) and
 * the reload of a previously saved document (expectations.py:119-122). Only
 * the dictionaries are modelled; the YAML text is not.
 */
module Document {
  import opened Text
  import opened Values

  const CSV: string := ".csv"
  const DESCRIPTION: string := "Synthesised rules from DQ rule builder"

  /** `uploaded_file.name.replace(".csv", '')`: every occurrence goes, not only a trailing one. */
  function ModelName(fileName: string): string
  {
    Replace(fileName, CSV, "")
  }

  /** A name that ends in `.csv` and holds no other occurrence loses just the extension. */
  lemma ModelNameDropsExtension(base: string)
    requires !Contains(base, CSV)
    ensures ModelName(base + CSV) == base
  {
    assert CSV[1..] == "csv";
    ReplaceTrailing(base, CSV);
  }

  /** A name without `.csv` (an Excel upload, say) is kept as it is. */
  lemma ModelNameKeepsOtherNames(fileName: string)
    requires !Contains(fileName, CSV)
    ensures ModelName(fileName) == fileName
  {
    ReplaceAbsent(fileName, CSV, "");
  }

  /** A `.csv` at the front of the name is removed as well. */
  lemma ModelNameDropsLeadingCsv(rest: string)
    requires !Contains(rest, CSV)
    ensures ModelName(CSV + rest) == rest
  {
    ReplaceLeading(CSV, rest, "");
    ReplaceAbsent(rest, CSV, "");
    assert "" + rest == rest;
  }

  /** The single model entry of the document. */
  function ModelEntry(fileName: string, rules: seq<Value>): Value
  {
    Dict(map[
      "name" := Str(ModelName(fileName)),
      "description" := Str(DESCRIPTION),
      "config" := Dict(map["materialized" := Bool(true)]),
      "columns" := List(rules)
    ])
  }

  /** The dictionary `generate_yaml` dumps. */
  function BuildDocument(fileName: string, rules: seq<Value>): Value
  {
    Dict(map["version" := Int(2), "models" := List([ModelEntry(fileName, rules)])])
  }

  /** `doc[key]` on a dictionary, with Python's two failures. */
  function Get(doc: Value, key: string): (r: Result<Value>)
    ensures r.Ok? <==> doc.Dict? && key in doc.fields
    ensures r.Ok? ==> r.value == doc.fields[key]
  {
    if !doc.Dict? then Err("TypeError")
    else if key !in doc.fields then Err("KeyError")
    else Ok(doc.fields[key])
  }

  /** The `i`-th item of a list value: how a reader gets `models[0]` back out of an export. */
  function Index(doc: Value, i: nat): (r: Result<Value>)
    ensures r.Ok? <==> doc.List? && i < |doc.items|
    ensures r.Ok? ==> r.value == doc.items[i]
  {
    if !doc.List? then Err("TypeError")
    else if i >= |doc.items| then Err("IndexError")
    else Ok(doc.items[i])
  }

  /** `doc["models"][0]["columns"]`: where the exported document keeps the rules. */
  function ExportedRules(doc: Value): Result<Value>
  {
    match Get(doc, "models")
    case Err(e) => Err(e)
    case Ok(models) =>
      match Index(models, 0)
      case Err(e) => Err(e)
      case Ok(model) => Get(model, "columns")
  }

  /** `parse_yaml(...)["expectations"]`: where the page looks for rules on reload. */
  function LoadRules(doc: Value): Result<Value>
  {
    Get(doc, "expectations")
  }

  /** The shape of the exported document. */
  lemma DocumentShape(fileName: string, rules: seq<Value>)
    ensures var doc := BuildDocument(fileName, rules);
            && doc.fields.Keys == {"version", "models"}
            && Get(doc, "version") == Ok(Int(2))
            && Get(doc, "models").Ok? && Get(doc, "models").value.List?
            && |Get(doc, "models").value.items| == 1
            && var model := Get(doc, "models").value.items[0];
               && Get(model, "name") == Ok(Str(ModelName(fileName)))
               && Get(model, "description") == Ok(Str(DESCRIPTION))
               && Get(model, "config") == Ok(Dict(map["materialized" := Bool(true)]))
               && model.fields.Keys == {"name", "description", "config", "columns"}
  {}

  /** The rules list is stored verbatim: reading it back gives the same list. */
  lemma ExportKeepsRules(fileName: string, rules: seq<Value>)
    ensures ExportedRules(BuildDocument(fileName, rules)) == Ok(List(rules))
  {}

  /**
   * The exporter and the loader disagree on where the rules live: an exported
   * document has no top-level `expectations`, so reloading it raises KeyError.
   */
  lemma ExportNotReloadable(fileName: string, rules: seq<Value>)
    ensures LoadRules(BuildDocument(fileName, rules)) == Err("KeyError")
  {}

  /**
   * The list the session starts from (expectations.py:110, 118-119): empty
   * without a reloaded document, otherwise its `expectations` entry, which
   * must be a list for the later `append` to work.
   */
  function InitialRules(reloaded: Option<Value>): (r: Result<seq<Value>>)
    ensures reloaded.None? ==> r == Ok([])
    ensures reloaded.Some? && r.Ok? ==> LoadRules(reloaded.value) == Ok(List(r.value))
  {
    if reloaded.None? then Ok([])
    else match LoadRules(reloaded.value)
      case Err(e) => Err(e)
      case Ok(v) => if v.List? then Ok(v.items) else Err("not a list")
  }

  /** A document that keeps its rules under `expectations` reloads them unchanged. */
  lemma ReloadRoundTrip(rules: seq<Value>, other: map<string, Value>)
    ensures InitialRules(Some(Dict(other["expectations" := List(rules)]))) == Ok(rules)
  {}

  /** Reloading an exported document fails, whatever rules it holds. */
  lemma ExportedDocumentFailsToSeed(fileName: string, rules: seq<Value>)
    ensures InitialRules(Some(BuildDocument(fileName, rules))).Err?
  {
    ExportNotReloadable(fileName, rules);
  }
}
