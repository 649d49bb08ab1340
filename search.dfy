/** `SearchEndpoints` (inventaire/server/endpoints/search.py): the generalist search,
    under the base path "search". */
module SearchEndpoints {
  import opened Values
  import opened Common

  /** `SearchEndpoints.__init__`. */
  function Facade(): (e: EndpointTemplate)
    ensures e.basePath == Some("search")
  {
    New().(basePath := Some("search"))
  }

  const DefaultTypes: string := "works|series|humans"

  /** The map `search` builds before merging the caller's data: the query and the
      types always, the other fields exactly when they are not None. */
  function SearchParams(u: Utils, search: string, types: string, limit: Option<int>, lang: Option<string>,
                        exact: Option<bool>, minScore: Option<int>): (p: Params)
    ensures p.Keys <= {"search", "types", "limit", "lang", "exact", "min_score"}
    ensures Holds(p, "search", Str(search)) && Holds(p, "types", Str(types))
    ensures KeptUnlessNone(p, "limit", OfInt(limit))
    ensures KeptUnlessNone(p, "lang", OfString(lang))
    ensures KeptUnlessNone(p, "exact", u.strBool(OfBool(exact)))
    ensures KeptUnlessNone(p, "min_score", OfInt(minScore))
  {
    var fixed := map["search" := Str(search), "types" := Str(types)];
    var optional := map["limit" := OfInt(limit),
                        "lang" := OfString(lang),
                        "exact" := u.strBool(OfBool(exact)),
                        "min_score" := OfInt(minScore)];
    FilteredKey(fixed, optional, "limit");
    FilteredKey(fixed, optional, "lang");
    FilteredKey(fixed, optional, "exact");
    FilteredKey(fixed, optional, "min_score");
    fixed + DropNone(optional)
  }

  /** `search`: a GET to the bare base path, with no action. */
  function Search(u: Utils, search: string, types: string := DefaultTypes, limit: Option<int> := None,
                  lang: Option<string> := None, exact: Option<bool> := None, minScore: Option<int> := None,
                  data: Option<Params> := None): (r: Outcome)
    ensures r == Req(GET, "search", u.dictMerge(OrEmpty(data), SearchParams(u, search, types, limit, lang, exact, minScore)))
  {
    Send(GET, Path(Facade()), u.dictMerge(OrEmpty(data), SearchParams(u, search, types, limit, lang, exact, minScore)))
  }

  /** `search` with only the query given asks for works, series and humans, and sends
      no limit, language or minimum score. */
  lemma SearchDefaults(u: Utils, search: string)
    ensures Search(u, search)
            == Req(GET, "search", u.dictMerge(map[], SearchParams(u, search, "works|series|humans", None, None, None, None)))
    ensures var p := SearchParams(u, search, "works|series|humans", None, None, None, None);
            Holds(p, "types", Str("works|series|humans")) && p.Keys - {"exact"} == {"search", "types"}
  {
  }

  /** The filter tests for None, not for falsiness: a zero limit, a zero minimum
      score and an empty language are all sent. */
  lemma FalsyValuesAreKept(u: Utils, search: string, types: string, exact: Option<bool>)
    ensures var p := SearchParams(u, search, types, Some(0), Some(""), exact, Some(0));
            Holds(p, "limit", Int(0)) && Holds(p, "min_score", Int(0)) && Holds(p, "lang", Str(""))
  {
  }
}
