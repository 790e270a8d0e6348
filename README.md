# ONOS LBaaS v2 driver: request construction

The ONOS LBaaS v2 driver relays load-balancer lifecycle events from Neutron
LBaaS to the ONOS controller's REST API. It has one manager per resource kind:
load balancer, listener, pool, member and health monitor. Each manager maps
`create`, `update` and `delete` to exactly one request, a verb, a path and an
optional JSON body. This project models how those requests are built and proves
what they look like.

- `paths.dfy`, module `LbaasPaths`. This holds the pure path construction: `LBAAS`,
  `UrlPath` (`url_path`), `ObjName` (`obj_name`, Python's `obj_type[:-1]`),
  `EntityPath` (`url_path + '/' + id`) and `MemberUrl` (`_member_url`). Beside
  them is `Segments`, a reference definition of a path as a REST router reads
  it: the list of its '/'-separated segments. The shape lemmas are stated with it.
- `driver.dfy`, module `LbaasDriver`. This holds the request datatype, the pure
  request builders `CreateRequest`, `UpdateRequest` and `DeleteRequest`, and the
  class `Manager`. The manager's five attributes (`onos_path`, `onos_auth`,
  `obj_type`, `url_path`, `obj_name`) are `const` fields, because the
  constructor assigns them once. The only state that changes is the ghost log
  `sent`. Each of `Create`, `Update` and `Delete` appends exactly one request to
  it, through `SendMsg`, which stands for the `send_msg` call. `Manager.Valid()`
  holds after construction and after every operation. It says that every
  logged request carries the manager's own endpoint and credentials and has a
  path that starts with the manager's `Prefix()`. For a top-level kind that
  prefix is its own `url_path`; for the member manager it is the pools
  collection `lbaas/<pools>/`. Each logged request has a body unless it is a
  delete, and that body's only key is `obj_name`.

The Python code has one subclass per kind. In the behaviour modelled here,
the subclasses differ only in the kind string they pass to the shared constructor, in the member manager's
override of the three paths, and in the load-balancer manager's `refresh` and
`stats` hooks. In the model, the class carries a `kind`, and `kind == Member`
selects the member paths. `Refresh` and `Stats` require `kind == LoadBalancer`
and send nothing.

The kind strings (`ONOS_LOADBALANCERS`, `ONOS_POOLS`, `ONOS_MEMBERS`, …) are
defined in `networking_onos/extensions/constant.py`, which is not part of this
model. They are parameters here, the record `KindNames`. The object's
`to_api_dict()` result is the opaque type parameter `D`.

### Two facts about paths that the code does not guarantee

- Ids are inserted into paths as they are. Inside a top-level manager this is
  harmless: the update path determines the id for every id
  (`EntityPathInjective`, `EntityPathIdentifiesObject`). Member paths are
  unambiguous when pool ids contain no '/': `EntityPathIdentifiesObject`
  proves this with no hypothesis on member ids or kind strings, since the
  pool id is the only varying part that is followed by more text. Paths
  compared across managers can still coincide. Two lemmas show what goes
  wrong when a pool id holds a '/'. `MemberPathsCollideWithSlashes` gives two different members that get the
  same update path when a pool id contains "/members/".
  `MemberCreateCanEqualOtherUpdate` shows that creating a member in pool
  `q/<members>` posts to the update path of member `<members>` in pool `q`.
- In a top-level manager, a create path is never equal to an update or delete
  path for the same object, because the latter is strictly longer
  (`TopLevelRequests`). Still, it can end in "/" + id: for a slash-free kind
  string, exactly when the id equals the kind string (`CreatePathCanEndInId`
  and `CreatePathEndsInIdOnlyForKind`). So "a create path does not
  end in the id" is not a property of this code. With slash-free names, the
  true distinction is the segment count: a create path has two segments, an
  update or delete path three (`TopLevelRequests`).

## Model

| member | source | states |
|---|---|---|
| `LbaasPaths.ObjName` | networking_onos/plugins/lbaas/driver_v2.py:54 | `obj_name` is `obj_type` without its last character, and "" when `obj_type` is "" |
| `LbaasPaths.UrlPath` | networking_onos/plugins/lbaas/driver_v2.py:53 | `url_path` starts with "lbaas/" and the rest is exactly `obj_type`; its segments are stated in `UrlPathShape` |
| `LbaasPaths.EntityPath` | networking_onos/plugins/lbaas/driver_v2.py:68-77 | the path `<collection> + '/' + id` that update (line 68) and delete (line 77) target; its contract is `EntityPathShape` and `EntityPathInjective` |
| `LbaasPaths.MemberUrl` | networking_onos/plugins/lbaas/driver_v2.py:178-180 | `_member_url`: the members collection `/<members>` nested inside the pool's entity path `lbaas/<pools>/<pool_id>`; its segments are stated in `MemberUrlShape` |
| `LbaasPaths.MemberUrlOfNestedPool` | networking_onos/plugins/lbaas/driver_v2.py:178-180 | the member collection of pool `q + "/" + members` equals the entity path of member `members` in pool `q` |
| `LbaasPaths.ObjNameOfPlural` | networking_onos/plugins/lbaas/driver_v2.py:54 | a plural kind string `x + "s"` yields the singular `x` |
| `LbaasPaths.UrlPathShape` | networking_onos/plugins/lbaas/driver_v2.py:15-53 | `url_path` starts with "lbaas/", the rest is exactly `obj_type`, and a slash-free `obj_type` gives the segments `["lbaas", obj_type]` |
| `LbaasPaths.UrlPathEndsInKind` | networking_onos/plugins/lbaas/driver_v2.py:53 | `url_path` ends in "/" followed by `obj_type` |
| `LbaasPaths.UrlPathEndsOnlyInKind` | networking_onos/plugins/lbaas/driver_v2.py:53 | with a slash-free `obj_type`, `url_path` ends in "/" + id only when the id is `obj_type` |
| `LbaasPaths.EntityPathShape` | networking_onos/plugins/lbaas/driver_v2.py:68 | `url_path + '/' + id` starts with the collection path and "/", ends in "/" + id, is longer than the collection path, and adds the id's segments to the collection's segments |
| `LbaasPaths.EntityPathInjective` | networking_onos/plugins/lbaas/driver_v2.py:68 | inside one collection, two entity paths are equal if and only if the ids are equal |
| `LbaasPaths.MemberUrlShape` | networking_onos/plugins/lbaas/driver_v2.py:178-180 | with slash-free parts, the member collection path has the segments `["lbaas", pools, pool_id, members]` |
| `LbaasPaths.MemberUrlUnderPool` | networking_onos/plugins/lbaas/driver_v2.py:178-180 | the member collection path starts with the pool's own path `lbaas/<pools>/<pool_id>/` and ends in "/" + members |
| `LbaasPaths.MemberUrlInjective` | networking_onos/plugins/lbaas/driver_v2.py:178-180 | two pool ids give the same member collection path if and only if they are equal |
| `LbaasPaths.MemberEntityPathInjective` | networking_onos/plugins/lbaas/driver_v2.py:162-165 | with slash-free pool ids, two member entity paths `_member_url(obj) + "/" + id` are equal if and only if both the pool ids and the member ids are equal, whatever the kind strings |
| `LbaasDriver.Body` | networking_onos/plugins/lbaas/driver_v2.py:61 | the body `{obj_name: obj.to_api_dict()}` has exactly one key, `obj_name`, which maps to the object's API dictionary |
| `LbaasDriver.CollectionPath` | networking_onos/plugins/lbaas/driver_v2.py:153-156 | where a create posts: for a top-level kind `url_path` (line 59), which is `UrlPath(obj_type)`; for members `_member_url(obj)` (line 154), which lies under the pool's path and ends in "/" + members |
| `LbaasDriver.CreateRequest` | networking_onos/plugins/lbaas/driver_v2.py:58-61 | a post carrying the manager's `onos_path` and `onos_auth`, with the single-key body `{obj_name: api dict}`; its path is stated in `TopLevelRequests` and `MemberRequests` (lines 153-156) |
| `LbaasDriver.UpdateRequest` | networking_onos/plugins/lbaas/driver_v2.py:67-70 | a put carrying the manager's `onos_path` and `onos_auth`, with the create body, to a path ending in "/" + id; the exact path is stated in `TopLevelRequests` and `MemberRequests` (lines 162-165) |
| `LbaasDriver.DeleteRequest` | networking_onos/plugins/lbaas/driver_v2.py:76-79 | a delete carrying the manager's `onos_path` and `onos_auth`, to the update path, with no body (member form at lines 171-174) |
| `LbaasDriver.CreatePathCanEndInId` | networking_onos/plugins/lbaas/driver_v2.py:58-61 | for every top-level manager, a create request whose object id equals `obj_type` has a path ending in "/" + id |
| `LbaasDriver.CreatePathEndsInIdOnlyForKind` | networking_onos/plugins/lbaas/driver_v2.py:58-61 | for a top-level manager with a slash-free kind string, a create path ends in "/" + id only when the id equals the kind string |
| `LbaasDriver.MemberCreateCanEqualOtherUpdate` | networking_onos/plugins/lbaas/driver_v2.py:153-165 | creating a member in pool `q + "/" + members` posts to the update path of the member whose id is `members` in pool `q` |
| `LbaasDriver.TopLevelRequests` | networking_onos/plugins/lbaas/driver_v2.py:58-79 | for the four top-level kinds: create is a post to `url_path` with the single-key body; update is a put to exactly `url_path + "/" + id` with the same body; delete is a delete to that same path with no body; the update path differs from the create path and ends in "/" + id; with slash-free kind strings and ids, the segment counts are 2 and 3 |
| `LbaasDriver.MemberRequests` | networking_onos/plugins/lbaas/driver_v2.py:153-180 | member create is a post to `_member_url(obj)`, which lies under the pool's path; member update and delete both target `_member_url(obj) + "/" + id`, update with the create body and delete with none; with slash-free parts the segments are `[lbaas, pools, pool_id, members]` plus the member id for update and delete |
| `LbaasDriver.MemberCollectionByPool` | networking_onos/plugins/lbaas/driver_v2.py:178-180 | two members get the same member create path if and only if they have the same pool id; the member id and the body play no part |
| `LbaasDriver.EntityPathIdentifiesObject` | networking_onos/plugins/lbaas/driver_v2.py:162-174 | two objects get the same update/delete path if and only if they have the same id and, for members, the same pool; for top-level kinds this holds for every id; for members it needs only slash-free pool ids, whatever the member ids and kind strings |
| `LbaasDriver.MemberPathsCollideWithSlashes` | networking_onos/plugins/lbaas/driver_v2.py:163 | when a pool id holds a '/', two different members, ids `x/members/y` in pool `a` and `y` in pool `a/members/x`, get the same update path |
| `LbaasDriver.PoolUpdateExample` | networking_onos/plugins/lbaas/driver_v2.py:67-70 | a pool manager updating pool `p1` sends a put to `lbaas/pools/p1` with the body `{"pool": …}` |
| `LbaasDriver.MemberExample` | networking_onos/plugins/lbaas/driver_v2.py:153-176 | member `m1` of pool `p1`: create posts to `lbaas/pools/p1/members` with `{"member": …}`, delete targets `lbaas/pools/p1/members/m1` with no body |
| `LbaasDriver.Manager.constructor` | networking_onos/plugins/lbaas/driver_v2.py:47-54 | the five attributes are set from the endpoint, the credentials and the kind string, which `KindNames.Plural` picks as each subclass constructor does (lines 88-89, 128-129, 137-138, 148-149, 188-189): `url_path` from `UrlPath`, `obj_name` from `ObjName`; the log starts empty and `Valid()` holds |
| `LbaasDriver.Manager.SendMsg` | networking_onos/plugins/lbaas/driver_v2.py:60-61 | a call of the transport appends one request with the manager's own `onos_path` and `onos_auth` to the log |
| `LbaasDriver.Manager.RequestsIssued` | networking_onos/plugins/lbaas/driver_v2.py:58-79 | for a valid manager, the create, update and delete requests it builds for any object carry its own endpoint and credentials, lie under its `Prefix()`, have a body exactly when they are not deletes, and key that body by `obj_name` |
| `LbaasDriver.Manager.Create` | networking_onos/plugins/lbaas/driver_v2.py:58-61 | appends exactly the request `CreateRequest` describes; for members this is the path of lines 153-156; `Valid()` is kept |
| `LbaasDriver.Manager.Update` | networking_onos/plugins/lbaas/driver_v2.py:67-70 | appends exactly the request `UpdateRequest` describes; for members this is the path of lines 162-165; `Valid()` is kept |
| `LbaasDriver.Manager.Delete` | networking_onos/plugins/lbaas/driver_v2.py:76-79 | appends exactly the request `DeleteRequest` describes; for members this is the path of lines 171-174; `Valid()` is kept |
| `LbaasDriver.Manager.Refresh` | networking_onos/plugins/lbaas/driver_v2.py:93-97 | the load balancer's refresh hook sends nothing and changes nothing |
| `LbaasDriver.Manager.Stats` | networking_onos/plugins/lbaas/driver_v2.py:101-103 | the load balancer's stats hook sends nothing and changes nothing |

## Left out

- `onos_utils.send_msg` (`networking_onos/common/utils.py` is not part of this model): the HTTP transport, basic authentication, JSON encoding and the errors they raise. The model records the request handed to it in a ghost log and nothing more; a failing call is not distinguished from a successful one.
- Configuration loading from `cfg.CONF.onos`: `onos_path` and the `(username, password)` pair are constructor parameters.
- The `log_method_call` and `driver_op` decorators: logging and the Neutron LBaaS database status updates, which live in libraries outside this repository.
- `obj.to_api_dict()`: its result is the opaque type `D`.
- `ONOSLbaasDriverV2.__init__`, which builds the five managers; the `db_delete_method` property; the `out_of_sync` class attribute. They are framework wiring with no local behaviour. Building one `Manager` per `Kind` stands for the driver constructor.
- Any reconciliation in `refresh` and `stats`: both are `pass` in the source.
- The commented-out OpenDaylight client calls.
- HTTP verbs are the strings 'post', 'put' and 'delete' in the source; here they are the enumeration `HttpMethod`.
- `LbObject` carries a pool id for every kind, while only member objects have one in Neutron LBaaS. Only the member paths read it, and the lemmas show the other paths do not depend on it.
- Python's dynamic typing: an id that is not a string would raise on concatenation; ids are strings here.
