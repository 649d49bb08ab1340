/** `UsersEndpoints` (inventaire/server/endpoints/users.py): user lookups under the
    base path "users". */
module UsersEndpoints {
  import opened Values
  import opened Common
  import opened Pipes

  /** `UsersEndpoints.__init__`. */
  function Facade(): (e: EndpointTemplate)
    ensures e.basePath == Some("users")
  {
    New().(basePath := Some("users"))
  }

  /** `get_users_by_ids`: the single key "ids", pipe-joined when given a list. */
  function GetUsersByIds(ids: StrOrList): (r: Outcome)
    ensures r == Req(GET, "users?action=by-ids", map["ids" := Str(PipeJoined(ids))])
  {
    ActionTarget(Facade(), "users", "by-ids", "users?action=by-ids");
    Send(GET, Path(Facade(), Some("by-ids")), map["ids" := Str(PipeJoined(ids))])
  }

  /** `get_users_by_usernames`: the single key "usernames", pipe-joined when given a list. */
  function GetUsersByUsernames(usernames: StrOrList): (r: Outcome)
    ensures r == Req(GET, "users?action=by-usernames", map["usernames" := Str(PipeJoined(usernames))])
  {
    ActionTarget(Facade(), "users", "by-usernames", "users?action=by-usernames");
    Send(GET, Path(Facade(), Some("by-usernames")), map["usernames" := Str(PipeJoined(usernames))])
  }

  /** `search`: the single key "search". */
  function Search(search: string): (r: Outcome)
    ensures r == Req(GET, "users?action=search", map["search" := Str(search)])
  {
    ActionTarget(Facade(), "users", "search", "users?action=search");
    Send(GET, Path(Facade(), Some("search")), map["search" := Str(search)])
  }

  /** One id in a list is sent verbatim, with no pipe added. */
  lemma SingleIdVerbatim(id: string)
    ensures GetUsersByIds(Items([id])) == GetUsersByIds(Joined(id))
    ensures GetUsersByUsernames(Items([id])) == GetUsersByUsernames(Joined(id))
  {
  }

  /** The ids of a non-empty list of pipe-free ids can be read back, in order, by
      splitting the "ids" parameter on pipes; likewise for usernames. */
  lemma IdsReadBack(xs: seq<string>)
    requires |xs| >= 1 && forall i :: 0 <= i < |xs| ==> Pipe !in xs[i]
    ensures Split(Pipe, GetUsersByIds(Items(xs)).params["ids"].s) == xs
    ensures Split(Pipe, GetUsersByUsernames(Items(xs)).params["usernames"].s) == xs
  {
  }
}
