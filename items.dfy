/** `ItemsEndpoints` (inventaire/server/endpoints/items.py): the copies of books in
    users' inventories, under the base path "items". */
module ItemsEndpoints {
  import opened Values
  import opened Common

  /** `ItemsEndpoints.__init__`. */
  function Facade(): (e: EndpointTemplate)
    ensures e.basePath == Some("items")
  {
    New().(basePath := Some("items"))
  }

  /** The body `create_item` builds before merging the caller's data: the entity, and
      each optional field exactly when it is not None. */
  function CreateItemBody(entity: string, transaction: Option<string>, listing: Option<string>,
                          lang: Option<string>, details: Option<string>, notes: Option<string>): (json: Params)
    ensures json.Keys <= {"entity", "transaction", "listing", "lang", "details", "notes"}
    ensures Holds(json, "entity", Str(entity))
    ensures KeptUnlessNone(json, "transaction", OfString(transaction))
    ensures KeptUnlessNone(json, "listing", OfString(listing))
    ensures KeptUnlessNone(json, "lang", OfString(lang))
    ensures KeptUnlessNone(json, "details", OfString(details))
    ensures KeptUnlessNone(json, "notes", OfString(notes))
  {
    var fixed := map["entity" := Str(entity)];
    var optional := map["transaction" := OfString(transaction),
                        "listing" := OfString(listing),
                        "lang" := OfString(lang),
                        "details" := OfString(details),
                        "notes" := OfString(notes)];
    FilteredKey(fixed, optional, "transaction");
    FilteredKey(fixed, optional, "listing");
    FilteredKey(fixed, optional, "lang");
    FilteredKey(fixed, optional, "details");
    FilteredKey(fixed, optional, "notes");
    fixed + DropNone(optional)
  }

  /** `create_item`: a POST to the bare base path, with no action. */
  function CreateItem(u: Utils, entity: string, transaction: Option<string> := Some("inventorying"),
                      listing: Option<string> := Some("private"), lang: Option<string> := None,
                      details: Option<string> := None, notes: Option<string> := None,
                      data: Option<Params> := None): (r: Outcome)
    ensures r == Req(POST, "items", u.dictMerge(OrEmpty(data), CreateItemBody(entity, transaction, listing, lang, details, notes)))
  {
    Send(POST, Path(Facade()), u.dictMerge(OrEmpty(data), CreateItemBody(entity, transaction, listing, lang, details, notes)))
  }

  /** With only the entity given, the item is inventoried privately, nothing else is
      sent, and the body is merged onto an empty map. */
  lemma CreateItemDefaults(u: Utils, entity: string)
    ensures CreateItem(u, entity)
            == Req(POST, "items", u.dictMerge(map[], map["entity" := Str(entity), "transaction" := Str("inventorying"),
                                                         "listing" := Str("private")]))
  {
    var body := CreateItemBody(entity, Some("inventorying"), Some("private"), None, None, None);
    assert body == map["entity" := Str(entity), "transaction" := Str("inventorying"), "listing" := Str("private")];
  }

  /** `get_last_public_items`: the keyword arguments are forwarded unchanged. */
  function GetLastPublicItems(params: Params): (r: Outcome)
    ensures r == Req(GET, "items?action=last-public", params)
  {
    ActionTarget(Facade(), "items", "last-public", "items?action=last-public");
    Send(GET, Path(Facade(), Some("last-public")), params)
  }

  /** `update_item`: a placeholder. */
  function UpdateItem(params: Params): (r: Outcome)
    ensures r.NotImplemented?
  {
    NotImplemented
  }

  /** `get_items_by_ids`: a placeholder. */
  function GetItemsByIds(params: Params): (r: Outcome)
    ensures r.NotImplemented?
  {
    NotImplemented
  }

  /** `get_items_by_users`: a placeholder. */
  function GetItemsByUsers(params: Params): (r: Outcome)
    ensures r.NotImplemented?
  {
    NotImplemented
  }

  /** `get_items_by_entities`: a placeholder. */
  function GetItemsByEntities(params: Params): (r: Outcome)
    ensures r.NotImplemented?
  {
    NotImplemented
  }

  /** `get_nearby_items`: a placeholder. */
  function GetNearbyItems(params: Params): (r: Outcome)
    ensures r.NotImplemented?
  {
    NotImplemented
  }

  /** `delete_item`: a placeholder. */
  function DeleteItem(params: Params): (r: Outcome)
    ensures r.NotImplemented?
  {
    NotImplemented
  }
}
