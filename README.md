# inventaire-python-api: request building, modelled in Dafny

The library wraps the REST API of the inventaire.io book-sharing service. Each
resource family (entities, shelves, users, items, search, data, images) has an
endpoint facade. A facade is an `EndpointTemplate` whose constructor sets a fixed
base path. Each public method normalises its arguments into a query or body map,
builds a target with `_path` (`<base>?action=<action>` or bare `<base>`), and calls
one session verb.

This model treats every facade method as a pure function from its arguments to an
`Outcome`. An `Outcome` is one of:

- the request descriptor: verb, target string and parameter map;
- the multipart upload descriptor;
- `NotImplemented`, for the placeholder methods;
- `PathError`, the `ValueError` `_path` raises when no base path can be resolved.

Nothing is sent anywhere.

Files:

- `values.dfy` (module `Values`): Python values, parameter maps, `Outcome`, and the
  `None`-filtering comprehension the facades share.
- `pipes.dfy` (module `Pipes`): `"|".join`, its inverse `split("|")`, and the
  `str | list[str]` identifier arguments.
- `common.dfy` (module `Common`): `EndpointTemplate.__init__` and `_path`.
- `entities.dfy`, `shelves.dfy`, `users.dfy`, `items.dfy`, `search.dfy`,
  `data.dfy`, `images.dfy`: one module per facade class, named after it.

`dict_merge` and `str_bool` come from `inventaire/utils/common.py`, which is not
part of this model. Each facade function receives them as the two function-valued
fields of a `Utils` argument. The contracts say which maps are merged and which
values are converted, but never which side of a merge wins or what string
`str_bool` returns. Python default arguments are Dafny default parameter values.
Python's `None` is `Option.None` for typed optional arguments and `Value.Null`
inside maps.

## Model

| member | source | states |
|---|---|---|
| `Common.New` | inventaire/server/endpoints/common.py:7-9 | a freshly constructed template has no base path |
| `Common.ResolvedBase` | inventaire/server/endpoints/common.py:22-23 | a non-empty `base` override is used; otherwise the template's own base path is used |
| `Common.Path` | inventaire/server/endpoints/common.py:11-30 | a target exists iff the override or the base path is non-empty; it is exactly `base + "?action=" + action` for a non-empty action and exactly the base (no `?`) for a missing or empty action, with the override taking precedence |
| `Common.ActionTarget` | inventaire/server/endpoints/common.py:28-29 | a template whose base path is a non-empty `base` builds exactly `base + "?action=" + action` for a non-empty action |
| `Common.FreshTemplateHasNoTarget` | inventaire/server/endpoints/common.py:7-26 | on a freshly constructed template, `_path` fails unless a non-empty override is given |
| `Common.PathRoundTrip` | inventaire/server/endpoints/common.py:28-30 | for a base without `?`, the target reads back as exactly that base and the action, and a missing or empty action leaves no `?action=` in it |
| `Common.Send` | inventaire/server/endpoints/common.py:25-26 | a request is issued iff `_path` produced a target; otherwise the outcome is the path error and no request exists |
| `Values.Truthy` | inventaire/server/endpoints/common.py:22-28 | Python truthiness of a `str | None`: `None` and `""` are falsy, every other string is truthy (also the `if description:` and `if lang:` tests at shelves.py:91 and data.py:25) |
| `Values.OrEmpty` | inventaire/server/endpoints/entities.py:39-40 | `if data is None: data = {}`: a missing `data` becomes the empty map, a given one is used as is |
| `Values.DropNone` | inventaire/server/endpoints/items.py:44-56 | the `{k: v ... if v is not None}` comprehension: a key is kept iff its value is not None, keeps that value, and no key is added |
| `Values.FilteredKey` | inventaire/server/endpoints/items.py:44-57 | after the `is not None` comprehension is spread into a literal, an optional key no fixed key shadows is present iff its value is not None, and then holds that value |
| `Pipes.Join` | inventaire/server/endpoints/users.py:24 | joining no items gives `""`; one item is returned verbatim; the result contains the separator iff there are two or more items or some item contains it |
| `Pipes.Split` | inventaire/server/endpoints/users.py:24 | a split always has at least one piece, and no piece contains the separator |
| `Pipes.SplitJoin` | inventaire/server/endpoints/users.py:24 | splitting the join of a non-empty list of pipe-free items recovers the list in order |
| `Pipes.JoinSplit` | inventaire/server/endpoints/shelves.py:28 | joining the pieces of any string gives the string back |
| `Pipes.PipeJoined` | inventaire/server/endpoints/shelves.py:28 | a string passes unchanged; any list, including an empty one or one whose items contain `|`, gives exactly its `|`-join (so `""` for an empty list and the element itself for a one-element list); a non-empty list of pipe-free items can be split back into the list |
| `Pipes.StringAndItsPiecesAgree` | inventaire/server/endpoints/shelves.py:28 | a string and the list of its pipe-separated pieces normalise to the same text |
| `EntitiesEndpoints.Facade` | inventaire/server/endpoints/entities.py:13-15 | the entities facade has base path `entities` |
| `EntitiesEndpoints.CreateEntity` | inventaire/server/endpoints/entities.py:39-44 | POST `entities?action=create` with `dict_merge(data or {}, {labels, claims})` |
| `EntitiesEndpoints.ResolveEntityParams` | inventaire/server/endpoints/entities.py:70-81 | `entries` is always present; `create`/`update`/`enrich` are each present iff `str_bool` of the flag is not None, and then hold that value; no other key |
| `EntitiesEndpoints.ResolveEntity` | inventaire/server/endpoints/entities.py:67-83 | POST `entities?action=resolve` with those params merged with `data or {}`; all three flags default to true |
| `EntitiesEndpoints.UpdateClaimParams` | inventaire/server/endpoints/entities.py:110-121 | `uri` and `property` are always present; `old-value` is present iff `old_value` is not None, and `new-value` iff `new_value` is not None; no other key |
| `EntitiesEndpoints.UpdateClaim` | inventaire/server/endpoints/entities.py:110-122 | PUT `entities?action=update_claim` with exactly those params and no merge |
| `EntitiesEndpoints.Merge` | inventaire/server/endpoints/entities.py:135-139 | PUT `entities?action=merge` with exactly the keys `from` and `to` |
| `EntitiesEndpoints.EntitiesByUrisParams` | inventaire/server/endpoints/entities.py:169-179 | `uris` is always present; `refresh`/`autocreate` are omitted exactly when `str_bool` returns None |
| `EntitiesEndpoints.GetEntitiesByUris` | inventaire/server/endpoints/entities.py:166-181 | GET `entities?action=by-uris` with those params merged with `data or {}` |
| `EntitiesEndpoints.GetPopularity` | inventaire/server/endpoints/entities.py:200-203 | GET `entities?action=popularity`; `uris` is pipe-joined from a list or passed as a string; `refresh` is present iff it is true |
| `EntitiesEndpoints.ResolveEntityDefaults` | inventaire/server/endpoints/entities.py:67-83 | with every flag omitted, `create`, `update` and `enrich` are all true and the params are merged onto an empty map |
| `EntitiesEndpoints.PopularityUrisListOrString` | inventaire/server/endpoints/entities.py:200 | any URI list and its pipe-joined string send identical requests |
| `EntitiesEndpoints.PopularityUrisReadBack` | inventaire/server/endpoints/entities.py:200 | a non-empty list of pipe-free URIs can be split back, in order, out of the request |
| `EntitiesEndpoints.GetHistory` | inventaire/server/endpoints/entities.py:215-216 | GET `entities?action=history` with exactly `{id}` |
| `EntitiesEndpoints.GetAuthorWorks` | inventaire/server/endpoints/entities.py:229-232 | GET `entities?action=author-works` with `uri`, plus `refresh` iff it is true |
| `EntitiesEndpoints.GetSerieParts` | inventaire/server/endpoints/entities.py:245-248 | GET `entities?action=serie-parts` with `uri`, plus `refresh` iff it is true |
| `EntitiesEndpoints.MoveToWikidata` | inventaire/server/endpoints/entities.py:278-279 | PUT `entities?action=move-to-wikidata` with exactly `{uri}` |
| `EntitiesEndpoints.UpdateLabel` | inventaire/server/endpoints/entities.py:85-89 | always NotImplemented, whatever its arguments |
| `EntitiesEndpoints.RevertMerge` | inventaire/server/endpoints/entities.py:141-145 | always NotImplemented |
| `EntitiesEndpoints.GetEntitiesByClaims` | inventaire/server/endpoints/entities.py:183-187 | always NotImplemented |
| `EntitiesEndpoints.GetPublisherPublications` | inventaire/server/endpoints/entities.py:250-254 | always NotImplemented |
| `EntitiesEndpoints.RevertEdit` | inventaire/server/endpoints/entities.py:256-260 | always NotImplemented |
| `EntitiesEndpoints.RestoreVersion` | inventaire/server/endpoints/entities.py:262-266 | always NotImplemented |
| `ShelvesEndpoints.Facade` | inventaire/server/endpoints/shelves.py:14-16 | the shelves facade has base path `shelves` |
| `ShelvesEndpoints.GetShelvesByIds` | inventaire/server/endpoints/shelves.py:28-29 | GET `shelves?action=by-ids` with the single key `ids`, pipe-joined from a list or passed as a string |
| `ShelvesEndpoints.GetShelvesByOwners` | inventaire/server/endpoints/shelves.py:41-42 | GET `shelves?action=by-owners` with the single key `owners`, normalised the same way |
| `ShelvesEndpoints.ByIdsListOrString` | inventaire/server/endpoints/shelves.py:28-29 | `["a","b"]` and `"a|b"` produce identical requests, with `ids = "a|b"` |
| `ShelvesEndpoints.PiecesSendTheSameRequest` | inventaire/server/endpoints/shelves.py:28-42 | any id string and the list of its pieces produce identical requests, for ids and for owners |
| `ShelvesEndpoints.CreateShelf` | inventaire/server/endpoints/shelves.py:59-64 | POST `shelves?action=create` with `dict_merge(data or {}, {name, listing, description})` |
| `ShelvesEndpoints.UpdateShelfBody` | inventaire/server/endpoints/shelves.py:90-92 | `id`, `name` and `listing` always; `description` iff it is neither None nor empty; no other key |
| `ShelvesEndpoints.UpdateShelf` | inventaire/server/endpoints/shelves.py:87-94 | POST (not PUT) `shelves?action=update` with that body merged with `data or {}` |
| `ShelvesEndpoints.DeleteShelf` | inventaire/server/endpoints/shelves.py:107-112 | POST `shelves?action=delete`; the library-built map is exactly `{id}`, merged with `data or {}` |
| `ShelvesEndpoints.AddItems` | inventaire/server/endpoints/shelves.py:114-118 | always NotImplemented |
| `ShelvesEndpoints.RemoveItems` | inventaire/server/endpoints/shelves.py:120-124 | always NotImplemented |
| `UsersEndpoints.Facade` | inventaire/server/endpoints/users.py:10-12 | the users facade has base path `users` |
| `UsersEndpoints.GetUsersByIds` | inventaire/server/endpoints/users.py:24-25 | GET `users?action=by-ids` with the single key `ids`, pipe-joined from a list or passed as a string |
| `UsersEndpoints.GetUsersByUsernames` | inventaire/server/endpoints/users.py:37-40 | GET `users?action=by-usernames` with the single key `usernames`, normalised the same way |
| `UsersEndpoints.Search` | inventaire/server/endpoints/users.py:52-53 | GET `users?action=search` with exactly `{search}` |
| `UsersEndpoints.SingleIdVerbatim` | inventaire/server/endpoints/users.py:24 | a one-element list sends that element verbatim, with no pipe |
| `UsersEndpoints.IdsReadBack` | inventaire/server/endpoints/users.py:24-40 | splitting the sent `ids` or `usernames` on `|` recovers a non-empty list of pipe-free ids, in order |
| `ItemsEndpoints.Facade` | inventaire/server/endpoints/items.py:12-14 | the items facade has base path `items` |
| `ItemsEndpoints.CreateItemBody` | inventaire/server/endpoints/items.py:44-57 | `entity` is always present; each of `transaction`, `listing`, `lang`, `details` and `notes` is present iff its argument is not None, and then holds it; no other key |
| `ItemsEndpoints.CreateItem` | inventaire/server/endpoints/items.py:16-59 | POST to the bare target `items` with that body merged with `data or {}`; `transaction` defaults to `inventorying` and `listing` to `private` |
| `ItemsEndpoints.CreateItemDefaults` | inventaire/server/endpoints/items.py:16-59 | `create_item` called with only the entity is a POST to `items` of exactly `{entity, transaction: inventorying, listing: private}` merged onto an empty map |
| `ItemsEndpoints.GetLastPublicItems` | inventaire/server/endpoints/items.py:85-89 | GET `items?action=last-public` with the keyword arguments forwarded unchanged |
| `ItemsEndpoints.UpdateItem` | inventaire/server/endpoints/items.py:61-65 | always NotImplemented |
| `ItemsEndpoints.GetItemsByIds` | inventaire/server/endpoints/items.py:67-71 | always NotImplemented |
| `ItemsEndpoints.GetItemsByUsers` | inventaire/server/endpoints/items.py:73-77 | always NotImplemented |
| `ItemsEndpoints.GetItemsByEntities` | inventaire/server/endpoints/items.py:79-83 | always NotImplemented |
| `ItemsEndpoints.GetNearbyItems` | inventaire/server/endpoints/items.py:91-95 | always NotImplemented |
| `ItemsEndpoints.DeleteItem` | inventaire/server/endpoints/items.py:97-101 | always NotImplemented |
| `SearchEndpoints.Facade` | inventaire/server/endpoints/search.py:12-14 | the search facade has base path `search` |
| `SearchEndpoints.SearchParams` | inventaire/server/endpoints/search.py:45-58 | `search` and `types` are always present; `limit`, `lang` and `min_score` are present iff not None; `exact` iff `str_bool(exact)` is not None; no other key |
| `SearchEndpoints.Search` | inventaire/server/endpoints/search.py:16-60 | GET to the bare target `search` with those params merged with `data or {}`; `types` defaults to `works|series|humans` |
| `SearchEndpoints.SearchDefaults` | inventaire/server/endpoints/search.py:16-60 | `search` called with only the query sends `types = works|series|humans` and no `limit`, `lang` or `min_score`, merged onto an empty map |
| `SearchEndpoints.FalsyValuesAreKept` | inventaire/server/endpoints/search.py:56 | a zero `limit`, a zero `min_score` and an empty `lang` are all kept, because the filter tests for None |
| `DataEndpoints.Facade` | inventaire/server/endpoints/data.py:9-11 | the data facade has base path `data` |
| `DataEndpoints.RequestExtractWikipedia` | inventaire/server/endpoints/data.py:24-27 | GET `data?action=wp-extract` with `title`, plus `lang` iff it is neither None nor empty |
| `DataEndpoints.GetIsbnBasicFacts` | inventaire/server/endpoints/data.py:39-40 | GET `data?action=isbn` with exactly `{isbn}` |
| `DataEndpoints.GetPropertyValues` | inventaire/server/endpoints/data.py:53-54 | GET `data?action=property-values` with exactly `{property, type}` |
| `ImagesEndpoints.Facade` | inventaire/server/endpoints/images.py:11-13 | the images facade has base path `images` |
| `ImagesEndpoints.GetDataUrl` | inventaire/server/endpoints/images.py:25-26 | GET `images?action=data-url` with exactly `{url}` |
| `ImagesEndpoints.Upload` | inventaire/server/endpoints/images.py:28-53 | an upload to `images?action=upload` whose params are exactly `{container, hash: str_bool(hash)}` (defaults `entities` and true), with the file path and bytes passed through unchanged |
| `ImagesEndpoints.UploadDefaults` | inventaire/server/endpoints/images.py:28-53 | `upload` called with no optional argument sends `container = entities` and the converted `hash = true`, with no file path and no bytes |

## Left out

- The session (`inventaire/session.py`) is not part of this model: its construction, authentication resolution, attribute overrides, logging and verb dispatch. The template therefore does not store the session reference that `EndpointTemplate.__init__` keeps, and `_path` reading fields without changing them holds because the template is a value.
- `post_image`'s check that exactly one of file path and file bytes is given lives in the session, so `ImagesEndpoints.Upload` passes both options through unchecked.
- `dict_merge` and `str_bool` (`inventaire/utils/common.py`) are not part of this model. They are uninterpreted parameters, so no contract says that caller-supplied `data` keys override library-built keys, nor that flags become `"true"`/`"false"`.
- The facades with no parameter normalisation (`groups.py`, `transactions.py`, `user.py`, `auth.py`) and the pure placeholder facades (`invitations.py`, `activity_pub.py`) are left out. `_path` and `Send` already cover their only logic.
- Network I/O and responses are left out; the model stops at the request descriptor.
- Logging and the repository's usage script `inventaire-example.py` are left out.
- Arguments are modelled at their annotated or documented Python types (the unannotated `search` of `UsersEndpoints.search` is a string, as its docstring says). A caller who passes `None` for a parameter annotated `str`, or a list for a parameter annotated `str` (such as `uris` of `get_entities_by_uris`), is not modelled.
