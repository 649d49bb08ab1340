/** `DataEndpoints` (inventaire/server/endpoints/data.py): auxiliary data lookups,
    under the base path "data". */
module DataEndpoints {
  import opened Values
  import opened Common

  /** `DataEndpoints.__init__`. */
  function Facade(): (e: EndpointTemplate)
    ensures e.basePath == Some("data")
  {
    New().(basePath := Some("data"))
  }

  /** `request_extract_wikipedia`: the title always, the language only when it is
      neither None nor empty. */
  function RequestExtractWikipedia(title: string, lang: Option<string> := None): (r: Outcome)
    ensures r.Req? && r.verb == GET && r.target == "data?action=wp-extract"
    ensures r.params.Keys == if Truthy(lang) then {"title", "lang"} else {"title"}
    ensures r.params["title"] == Str(title)
    ensures Truthy(lang) ==> r.params["lang"] == Str(lang.value)
  {
    var params := map["title" := Str(title)];
    var withLang := if Truthy(lang) then params["lang" := Str(lang.value)] else params;
    ActionTarget(Facade(), "data", "wp-extract", "data?action=wp-extract");
    Send(GET, Path(Facade(), Some("wp-extract")), withLang)
  }

  /** `get_isbn_basic_facts`: the single key "isbn". */
  function GetIsbnBasicFacts(isbn: string): (r: Outcome)
    ensures r == Req(GET, "data?action=isbn", map["isbn" := Str(isbn)])
  {
    ActionTarget(Facade(), "data", "isbn", "data?action=isbn");
    Send(GET, Path(Facade(), Some("isbn")), map["isbn" := Str(isbn)])
  }

  /** `get_property_values`: exactly the keys "property" and "type". */
  function GetPropertyValues(property: string, typeName: string): (r: Outcome)
    ensures r.Req? && r.verb == GET && r.target == "data?action=property-values"
    ensures r.params.Keys == {"property", "type"}
    ensures r.params["property"] == Str(property) && r.params["type"] == Str(typeName)
  {
    ActionTarget(Facade(), "data", "property-values", "data?action=property-values");
    Send(GET, Path(Facade(), Some("property-values")), map["property" := Str(property), "type" := Str(typeName)])
  }
}
