/** `EntitiesEndpoints` (inventaire/server/endpoints/entities.py): books, authors and
    series data under the base path "entities". */
module EntitiesEndpoints {
  import opened Values
  import opened Common
  import opened Pipes

  /** `EntitiesEndpoints.__init__`: the template with its base path set. */
  function Facade(): (e: EndpointTemplate)
    ensures e.basePath == Some("entities")
  {
    New().(basePath := Some("entities"))
  }

  /** `create_entity`: the labels and claims merged with the caller's data. */
  function CreateEntity(u: Utils, labels: Value, claims: Value, data: Option<Params> := None): (r: Outcome)
    ensures r == Req(POST, "entities?action=create", u.dictMerge(OrEmpty(data), map["labels" := labels, "claims" := claims]))
  {
    var json := map["labels" := labels, "claims" := claims];
    ActionTarget(Facade(), "entities", "create", "entities?action=create");
    Send(POST, Path(Facade(), Some("create")), u.dictMerge(OrEmpty(data), json))
  }

  /** The map `resolve_entity` builds before merging the caller's data. */
  function ResolveEntityParams(u: Utils, entries: Value, create: bool, update: bool, enrich: bool): (p: Params)
    ensures p.Keys <= {"entries", "create", "update", "enrich"}
    ensures Holds(p, "entries", entries)
    ensures KeptUnlessNone(p, "create", u.strBool(Bool(create)))
    ensures KeptUnlessNone(p, "update", u.strBool(Bool(update)))
    ensures KeptUnlessNone(p, "enrich", u.strBool(Bool(enrich)))
  {
    var fixed := map["entries" := entries];
    var optional := map["create" := u.strBool(Bool(create)),
                        "update" := u.strBool(Bool(update)),
                        "enrich" := u.strBool(Bool(enrich))];
    FilteredKey(fixed, optional, "create");
    FilteredKey(fixed, optional, "update");
    FilteredKey(fixed, optional, "enrich");
    fixed + DropNone(optional)
  }

  /** `resolve_entity`. */
  function ResolveEntity(u: Utils, entries: Value, create: bool := true, update: bool := true, enrich: bool := true,
                         data: Option<Params> := None): (r: Outcome)
    ensures r == Req(POST, "entities?action=resolve",
                     u.dictMerge(OrEmpty(data), ResolveEntityParams(u, entries, create, update, enrich)))
  {
    ActionTarget(Facade(), "entities", "resolve", "entities?action=resolve");
    Send(POST, Path(Facade(), Some("resolve")),
         u.dictMerge(OrEmpty(data), ResolveEntityParams(u, entries, create, update, enrich)))
  }

  /** The body `update_claim` sends. */
  function UpdateClaimParams(uri: string, property: string, oldValue: Option<string>, newValue: Option<string>): (p: Params)
    ensures p.Keys <= {"uri", "property", "old-value", "new-value"}
    ensures Holds(p, "uri", Str(uri)) && Holds(p, "property", Str(property))
    ensures ("old-value" in p <==> oldValue.Some?) && (oldValue.Some? ==> p["old-value"] == Str(oldValue.value))
    ensures ("new-value" in p <==> newValue.Some?) && (newValue.Some? ==> p["new-value"] == Str(newValue.value))
  {
    var fixed := map["uri" := Str(uri), "property" := Str(property)];
    var optional := map["old-value" := OfString(oldValue), "new-value" := OfString(newValue)];
    FilteredKey(fixed, optional, "old-value");
    FilteredKey(fixed, optional, "new-value");
    fixed + DropNone(optional)
  }

  /** `update_claim`: a PUT, with no caller data to merge. */
  function UpdateClaim(uri: string, property: string, oldValue: Option<string> := None, newValue: Option<string> := None): (r: Outcome)
    ensures r == Req(PUT, "entities?action=update_claim", UpdateClaimParams(uri, property, oldValue, newValue))
  {
    ActionTarget(Facade(), "entities", "update_claim", "entities?action=update_claim");
    Send(PUT, Path(Facade(), Some("update_claim")), UpdateClaimParams(uri, property, oldValue, newValue))
  }

  /** `merge`: a PUT whose body has exactly the keys "from" and "to". */
  function Merge(fromEntity: string, toEntity: string): (r: Outcome)
    ensures r.Req? && r.verb == PUT && r.target == "entities?action=merge"
    ensures r.params.Keys == {"from", "to"}
    ensures r.params["from"] == Str(fromEntity) && r.params["to"] == Str(toEntity)
  {
    ActionTarget(Facade(), "entities", "merge", "entities?action=merge");
    Send(PUT, Path(Facade(), Some("merge")), map["from" := Str(fromEntity), "to" := Str(toEntity)])
  }

  /** The map `get_entities_by_uris` builds before merging the caller's data. */
  function EntitiesByUrisParams(u: Utils, uris: string, refresh: Option<bool>, autocreate: Option<bool>): (p: Params)
    ensures p.Keys <= {"uris", "refresh", "autocreate"}
    ensures Holds(p, "uris", Str(uris))
    ensures KeptUnlessNone(p, "refresh", u.strBool(OfBool(refresh)))
    ensures KeptUnlessNone(p, "autocreate", u.strBool(OfBool(autocreate)))
  {
    var fixed := map["uris" := Str(uris)];
    var optional := map["refresh" := u.strBool(OfBool(refresh)), "autocreate" := u.strBool(OfBool(autocreate))];
    FilteredKey(fixed, optional, "refresh");
    FilteredKey(fixed, optional, "autocreate");
    fixed + DropNone(optional)
  }

  /** `get_entities_by_uris`. */
  function GetEntitiesByUris(u: Utils, uris: string, refresh: Option<bool> := None, autocreate: Option<bool> := None,
                             data: Option<Params> := None): (r: Outcome)
    ensures r == Req(GET, "entities?action=by-uris", u.dictMerge(OrEmpty(data), EntitiesByUrisParams(u, uris, refresh, autocreate)))
  {
    ActionTarget(Facade(), "entities", "by-uris", "entities?action=by-uris");
    Send(GET, Path(Facade(), Some("by-uris")), u.dictMerge(OrEmpty(data), EntitiesByUrisParams(u, uris, refresh, autocreate)))
  }

  /** `get_popularity`: the URIs pipe-joined when given as a list, and "refresh"
      added only when it is true. */
  function GetPopularity(u: Utils, uris: StrOrList, refresh: bool := false): (r: Outcome)
    ensures r.Req? && r.verb == GET && r.target == "entities?action=popularity"
    ensures r.params.Keys == if refresh then {"uris", "refresh"} else {"uris"}
    ensures r.params["uris"] == Str(PipeJoined(uris))
    ensures refresh ==> r.params["refresh"] == u.strBool(Bool(true))
  {
    var params := map["uris" := Str(PipeJoined(uris))];
    var withRefresh := if refresh then params["refresh" := u.strBool(Bool(refresh))] else params;
    ActionTarget(Facade(), "entities", "popularity", "entities?action=popularity");
    Send(GET, Path(Facade(), Some("popularity")), withRefresh)
  }

  /** `get_history`. */
  function GetHistory(id: string): (r: Outcome)
    ensures r == Req(GET, "entities?action=history", map["id" := Str(id)])
  {
    ActionTarget(Facade(), "entities", "history", "entities?action=history");
    Send(GET, Path(Facade(), Some("history")), map["id" := Str(id)])
  }

  /** `get_author_works`. */
  function GetAuthorWorks(u: Utils, uri: string, refresh: bool := false): (r: Outcome)
    ensures r.Req? && r.verb == GET && r.target == "entities?action=author-works"
    ensures r.params.Keys == if refresh then {"uri", "refresh"} else {"uri"}
    ensures r.params["uri"] == Str(uri)
    ensures refresh ==> r.params["refresh"] == u.strBool(Bool(true))
  {
    var params := map["uri" := Str(uri)];
    var withRefresh := if refresh then params["refresh" := u.strBool(Bool(refresh))] else params;
    ActionTarget(Facade(), "entities", "author-works", "entities?action=author-works");
    Send(GET, Path(Facade(), Some("author-works")), withRefresh)
  }

  /** `get_serie_parts`. */
  function GetSerieParts(u: Utils, uri: string, refresh: bool := false): (r: Outcome)
    ensures r.Req? && r.verb == GET && r.target == "entities?action=serie-parts"
    ensures r.params.Keys == if refresh then {"uri", "refresh"} else {"uri"}
    ensures r.params["uri"] == Str(uri)
    ensures refresh ==> r.params["refresh"] == u.strBool(Bool(true))
  {
    var params := map["uri" := Str(uri)];
    var withRefresh := if refresh then params["refresh" := u.strBool(Bool(refresh))] else params;
    ActionTarget(Facade(), "entities", "serie-parts", "entities?action=serie-parts");
    Send(GET, Path(Facade(), Some("serie-parts")), withRefresh)
  }

  /** `move_to_wikidata`: a PUT with the single key "uri". */
  function MoveToWikidata(uri: string): (r: Outcome)
    ensures r == Req(PUT, "entities?action=move-to-wikidata", map["uri" := Str(uri)])
  {
    ActionTarget(Facade(), "entities", "move-to-wikidata", "entities?action=move-to-wikidata");
    Send(PUT, Path(Facade(), Some("move-to-wikidata")), map["uri" := Str(uri)])
  }

  /** `update_label`: a placeholder, whatever keyword arguments it is given. */
  function UpdateLabel(params: Params): (r: Outcome)
    ensures r.NotImplemented?
  {
    NotImplemented
  }

  /** `revert_merge`: a placeholder. */
  function RevertMerge(params: Params): (r: Outcome)
    ensures r.NotImplemented?
  {
    NotImplemented
  }

  /** `get_entities_by_claims`: a placeholder. */
  function GetEntitiesByClaims(params: Params): (r: Outcome)
    ensures r.NotImplemented?
  {
    NotImplemented
  }

  /** `get_publisher_publications`: a placeholder. */
  function GetPublisherPublications(params: Params): (r: Outcome)
    ensures r.NotImplemented?
  {
    NotImplemented
  }

  /** `revert_edit`: a placeholder. */
  function RevertEdit(params: Params): (r: Outcome)
    ensures r.NotImplemented?
  {
    NotImplemented
  }

  /** `restore_version`: a placeholder. */
  function RestoreVersion(params: Params): (r: Outcome)
    ensures r.NotImplemented?
  {
    NotImplemented
  }

  /** `resolve_entity` with every flag left at its default asks to create, update and
      enrich, and merges onto an empty map. */
  lemma ResolveEntityDefaults(u: Utils, entries: Value)
    ensures ResolveEntity(u, entries)
            == Req(POST, "entities?action=resolve", u.dictMerge(map[], ResolveEntityParams(u, entries, true, true, true)))
  {
  }

  /** Passing the popularity URIs as a list or as their pipe-joined string sends the
      same request, whatever the URIs hold. */
  lemma PopularityUrisListOrString(u: Utils, uris: seq<string>, refresh: bool)
    ensures GetPopularity(u, Items(uris), refresh) == GetPopularity(u, Joined(Join(Pipe, uris)), refresh)
  {
    assert PipeJoined(Items(uris)) == Join(Pipe, uris) == PipeJoined(Joined(Join(Pipe, uris)));
  }

  /** A non-empty list of pipe-free URIs can be read back, in order, from the request. */
  lemma PopularityUrisReadBack(u: Utils, uris: seq<string>, refresh: bool)
    requires |uris| >= 1 && forall i :: 0 <= i < |uris| ==> Pipe !in uris[i]
    ensures Split(Pipe, GetPopularity(u, Items(uris), refresh).params["uris"].s) == uris
  {
  }
}
