/** `ShelvesEndpoints` (inventaire/server/endpoints/shelves.py): lists of a user's
    items, under the base path "shelves". */
module ShelvesEndpoints {
  import opened Values
  import opened Common
  import opened Pipes

  /** `ShelvesEndpoints.__init__`. */
  function Facade(): (e: EndpointTemplate)
    ensures e.basePath == Some("shelves")
  {
    New().(basePath := Some("shelves"))
  }

  /** `get_shelves_by_ids`: the single key "ids", pipe-joined when given a list. */
  function GetShelvesByIds(ids: StrOrList): (r: Outcome)
    ensures r == Req(GET, "shelves?action=by-ids", map["ids" := Str(PipeJoined(ids))])
  {
    ActionTarget(Facade(), "shelves", "by-ids", "shelves?action=by-ids");
    Send(GET, Path(Facade(), Some("by-ids")), map["ids" := Str(PipeJoined(ids))])
  }

  /** `get_shelves_by_owners`: the single key "owners", pipe-joined when given a list. */
  function GetShelvesByOwners(owners: StrOrList): (r: Outcome)
    ensures r == Req(GET, "shelves?action=by-owners", map["owners" := Str(PipeJoined(owners))])
  {
    ActionTarget(Facade(), "shelves", "by-owners", "shelves?action=by-owners");
    Send(GET, Path(Facade(), Some("by-owners")), map["owners" := Str(PipeJoined(owners))])
  }

  /** `create_shelf`: name, listing and description merged with the caller's data. */
  function CreateShelf(u: Utils, name: string, listing: string, description: string, data: Option<Params> := None): (r: Outcome)
    ensures r == Req(POST, "shelves?action=create",
                     u.dictMerge(OrEmpty(data), map["name" := Str(name), "listing" := Str(listing), "description" := Str(description)]))
  {
    var json := map["name" := Str(name), "listing" := Str(listing), "description" := Str(description)];
    ActionTarget(Facade(), "shelves", "create", "shelves?action=create");
    Send(POST, Path(Facade(), Some("create")), u.dictMerge(OrEmpty(data), json))
  }

  /** The body `update_shelf` builds before merging the caller's data; a description
      that is None or empty is left out. */
  function UpdateShelfBody(id: string, name: string, listing: string, description: Option<string>): (json: Params)
    ensures json.Keys == if Truthy(description) then {"id", "name", "listing", "description"} else {"id", "name", "listing"}
    ensures json["id"] == Str(id) && json["name"] == Str(name) && json["listing"] == Str(listing)
    ensures Truthy(description) ==> json["description"] == Str(description.value)
  {
    var json := map["id" := Str(id), "name" := Str(name), "listing" := Str(listing)];
    if Truthy(description) then json["description" := Str(description.value)] else json
  }

  /** `update_shelf`: a POST, not a PUT. */
  function UpdateShelf(u: Utils, id: string, name: string, listing: string, description: Option<string> := None,
                       data: Option<Params> := None): (r: Outcome)
    ensures r == Req(POST, "shelves?action=update", u.dictMerge(OrEmpty(data), UpdateShelfBody(id, name, listing, description)))
  {
    ActionTarget(Facade(), "shelves", "update", "shelves?action=update");
    Send(POST, Path(Facade(), Some("update")), u.dictMerge(OrEmpty(data), UpdateShelfBody(id, name, listing, description)))
  }

  /** `delete_shelf`: a POST whose library-built body has the single key "id". */
  function DeleteShelf(u: Utils, id: string, data: Option<Params> := None): (r: Outcome)
    ensures r == Req(POST, "shelves?action=delete", u.dictMerge(OrEmpty(data), map["id" := Str(id)]))
  {
    ActionTarget(Facade(), "shelves", "delete", "shelves?action=delete");
    Send(POST, Path(Facade(), Some("delete")), u.dictMerge(OrEmpty(data), map["id" := Str(id)]))
  }

  /** `add_items`: a placeholder. */
  function AddItems(params: Params): (r: Outcome)
    ensures r.NotImplemented?
  {
    NotImplemented
  }

  /** `remove_items`: a placeholder. */
  function RemoveItems(params: Params): (r: Outcome)
    ensures r.NotImplemented?
  {
    NotImplemented
  }

  /** A list of ids and their pipe-joined string send the same request. */
  lemma ByIdsListOrString()
    ensures GetShelvesByIds(Items(["a", "b"])) == GetShelvesByIds(Joined("a|b"))
    ensures GetShelvesByIds(Joined("a|b")) == Req(GET, "shelves?action=by-ids", map["ids" := Str("a|b")])
  {
    var xs := ["a", "b"];
    assert xs[1..] == ["b"];
    assert Join(Pipe, xs) == "a" + [Pipe] + Join(Pipe, ["b"]);
    assert PipeJoined(Items(xs)) == "a|b";
  }

  /** Any string of ids and the list of its pipe-separated pieces send the same
      request, for ids and for owners. */
  lemma PiecesSendTheSameRequest(s: string)
    ensures GetShelvesByIds(Items(Split(Pipe, s))) == GetShelvesByIds(Joined(s))
    ensures GetShelvesByOwners(Items(Split(Pipe, s))) == GetShelvesByOwners(Joined(s))
  {
    StringAndItsPiecesAgree(s);
  }
}
