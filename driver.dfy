/**
  The ONOS LBaaS v2 driver's resource managers: one manager per resource kind
  (load balancer, listener, pool, member, health monitor) turns each lifecycle
  call into exactly one REST request to the ONOS controller.

  The request construction is pure (`CreateRequest`, `UpdateRequest`,
  `DeleteRequest`); the manager object is a class whose attributes are fixed
  at construction and whose only changing state is the log of requests it has
  handed to the transport.
 */
module LbaasDriver {
  import opened LbaasPaths

  datatype Option<T> = None | Some(value: T)

  /** The controller credentials, the (username, password) pair. */
  datatype Auth = Auth(username: string, password: string)

  /** The HTTP verbs the driver uses: 'post', 'put' and 'delete'. */
  datatype HttpMethod = Post | Put | Delete

  /**
    One call of the transport: base URL, credentials, verb, path and the
    optional JSON body, a single-key map from the object name to the object's
    API dictionary. `D` stands for the API dictionary, which stays opaque.
   */
  datatype Request<D> = Request(
    onosPath: string,
    onosAuth: Auth,
    verb: HttpMethod,
    path: string,
    body: Option<map<string, D>>)

  /**
    A resource object handed in by the LBaaS framework: its id, the id of its
    pool (read only by the member manager) and its API dictionary.
   */
  datatype LbObject<D> = LbObject(id: string, poolId: string, apiDict: D)

  datatype Kind = LoadBalancer | Listener | Pool | Member | HealthMonitor

  /** The plural kind strings the controller's REST API uses for each kind. */
  datatype KindNames = KindNames(
    loadBalancers: string,
    listeners: string,
    pools: string,
    members: string,
    healthMonitors: string)
  {
    function Plural(kind: Kind): string {
      match kind
      case LoadBalancer => loadBalancers
      case Listener => listeners
      case Pool => pools
      case Member => members
      case HealthMonitor => healthMonitors
    }
  }

  /** The five attributes a manager sets in its constructor. */
  datatype ManagerFields = ManagerFields(
    onosPath: string,
    onosAuth: Auth,
    objType: string,
    urlPath: string,
    objName: string)
  {
    /** `url_path` and `obj_name` are derived from `obj_type` as the constructor does. */
    predicate WellFormed() {
      urlPath == UrlPath(objType) && objName == ObjName(objType)
    }
  }

  /** The request body `{obj_name: obj.to_api_dict()}`. */
  function Body<D>(objName: string, obj: LbObject<D>): (b: map<string, D>)
    ensures b.Keys == {objName} && |b| == 1
    ensures b[objName] == obj.apiDict
  {
    map[objName := obj.apiDict]
  }

  /**
    The path a create posts to: `url_path` for the top-level kinds, the pool's
    member collection for members.
   */
  function CollectionPath<D>(kind: Kind, names: KindNames, m: ManagerFields, obj: LbObject<D>): (r: string)
    ensures kind != Member && m.WellFormed() ==> r == UrlPath(m.objType)
    ensures kind == Member ==> EntityPath(UrlPath(names.pools), obj.poolId) + "/" <= r
                               && EndsWith(r, "/" + names.members)
  {
    if kind == Member then
      MemberUrlUnderPool(names.pools, obj.poolId, names.members);
      MemberUrl(names.pools, obj.poolId, names.members)
    else m.urlPath
  }

  /** The request `create` sends: a post carrying the manager's endpoint and the single-key body. */
  function CreateRequest<D>(kind: Kind, names: KindNames, m: ManagerFields, obj: LbObject<D>): (r: Request<D>)
    ensures r.onosPath == m.onosPath && r.onosAuth == m.onosAuth && r.verb == Post
    ensures r.body.Some? && r.body.value.Keys == {m.objName} && r.body.value[m.objName] == obj.apiDict
  {
    Request(m.onosPath, m.onosAuth, Post, CollectionPath(kind, names, m, obj), Some(Body(m.objName, obj)))
  }

  /** The request `update` sends: a put to one object, with the same body as create. */
  function UpdateRequest<D>(kind: Kind, names: KindNames, m: ManagerFields, obj: LbObject<D>): (r: Request<D>)
    ensures r.onosPath == m.onosPath && r.onosAuth == m.onosAuth && r.verb == Put
    ensures r.body == CreateRequest(kind, names, m, obj).body
    ensures EndsWith(r.path, "/" + obj.id)
  {
    EntityPathShape(CollectionPath(kind, names, m, obj), obj.id);
    Request(m.onosPath, m.onosAuth, Put, EntityPath(CollectionPath(kind, names, m, obj), obj.id),
            Some(Body(m.objName, obj)))
  }

  /** The request `delete` sends: a delete to the update path, with no body. */
  function DeleteRequest<D>(kind: Kind, names: KindNames, m: ManagerFields, obj: LbObject<D>): (r: Request<D>)
    ensures r.onosPath == m.onosPath && r.onosAuth == m.onosAuth && r.verb == Delete
    ensures r.path == UpdateRequest(kind, names, m, obj).path && r.body == None
  {
    Request(m.onosPath, m.onosAuth, Delete, EntityPath(CollectionPath(kind, names, m, obj), obj.id), None)
  }

  /**
    Load balancer, listener, pool and health monitor: create posts to
    `url_path` itself; update and delete both target `url_path + "/" + id`,
    update with the create body and delete with none. With slash-free kind
    strings and ids, create is two segments and update/delete three, the last
    being the id.
   */
  lemma TopLevelRequests<D>(kind: Kind, names: KindNames, m: ManagerFields, obj: LbObject<D>)
    requires kind != Member && m.WellFormed()
    ensures var c := CreateRequest(kind, names, m, obj);
            && c.verb == Post && c.path == m.urlPath
            && c.body.Some? && c.body.value.Keys == {m.objName} && c.body.value[m.objName] == obj.apiDict
    ensures var c, u := CreateRequest(kind, names, m, obj), UpdateRequest(kind, names, m, obj);
            && u.verb == Put && u.body == c.body
            && u.path == EntityPath(m.urlPath, obj.id)
            && EndsWith(u.path, "/" + obj.id) && u.path != c.path
    ensures var u, d := UpdateRequest(kind, names, m, obj), DeleteRequest(kind, names, m, obj);
            d.verb == Delete && d.path == u.path && d.body == None
    ensures NoSlash(m.objType) ==>
              Segments(CreateRequest(kind, names, m, obj).path) == [LBAAS, m.objType]
    ensures NoSlash(m.objType) && NoSlash(obj.id) ==>
              Segments(UpdateRequest(kind, names, m, obj).path) == [LBAAS, m.objType, obj.id]
  {
    UrlPathShape(m.objType);
    EntityPathShape(m.urlPath, obj.id);
  }

  /**
    Members: create posts to `lbaas/<pools>/<pool id>/<members>`, which lies
    under the pool's own path; update and delete both target that path plus
    `"/" + id`, update with the create body and delete with none.
   */
  lemma MemberRequests<D>(names: KindNames, m: ManagerFields, obj: LbObject<D>)
    requires m.WellFormed() && m.objType == names.members
    ensures var c := CreateRequest(Member, names, m, obj);
            && c.verb == Post && c.path == MemberUrl(names.pools, obj.poolId, names.members)
            && EntityPath(UrlPath(names.pools), obj.poolId) + "/" <= c.path
            && c.body.Some? && c.body.value.Keys == {ObjName(names.members)}
            && c.body.value[ObjName(names.members)] == obj.apiDict
    ensures var c, u := CreateRequest(Member, names, m, obj), UpdateRequest(Member, names, m, obj);
            && u.verb == Put && u.body == c.body
            && u.path == EntityPath(c.path, obj.id) && EndsWith(u.path, "/" + obj.id)
    ensures var u, d := UpdateRequest(Member, names, m, obj), DeleteRequest(Member, names, m, obj);
            d.verb == Delete && d.path == u.path && d.body == None
    ensures NoSlash(names.pools) && NoSlash(obj.poolId) && NoSlash(names.members) ==>
              Segments(CreateRequest(Member, names, m, obj).path)
              == [LBAAS, names.pools, obj.poolId, names.members]
    ensures NoSlash(names.pools) && NoSlash(obj.poolId) && NoSlash(names.members) && NoSlash(obj.id) ==>
              Segments(UpdateRequest(Member, names, m, obj).path)
              == [LBAAS, names.pools, obj.poolId, names.members, obj.id]
  {
    var c := CollectionPath(Member, names, m, obj);
    MemberUrlUnderPool(names.pools, obj.poolId, names.members);
    EntityPathShape(c, obj.id);
    if NoSlash(names.pools) && NoSlash(obj.poolId) && NoSlash(names.members) {
      MemberUrlShape(names.pools, obj.poolId, names.members);
    }
  }

  /**
    The member collection path depends on the pool id and on nothing else of
    the object: two members share it exactly when they are in the same pool.
   */
  lemma MemberCollectionByPool<D>(names: KindNames, m: ManagerFields, obj1: LbObject<D>, obj2: LbObject<D>)
    ensures CreateRequest(Member, names, m, obj1).path == CreateRequest(Member, names, m, obj2).path
            <==> obj1.poolId == obj2.poolId
  {
    MemberUrlInjective(names.pools, obj1.poolId, obj2.poolId, names.members);
  }

  /**
    An update or delete path names one object: two objects get the same path
    exactly when they have the same id and, for members, the same pool. For
    members this needs slash-free pool ids, because the pool id is the only
    part of a member path that varies and is followed by more text; slashes
    in member ids or in the kind strings do no harm.
   */
  lemma EntityPathIdentifiesObject<D>(kind: Kind, names: KindNames, m: ManagerFields,
                                      obj1: LbObject<D>, obj2: LbObject<D>)
    requires kind == Member ==> NoSlash(obj1.poolId) && NoSlash(obj2.poolId)
    ensures UpdateRequest(kind, names, m, obj1).path == UpdateRequest(kind, names, m, obj2).path
            <==> obj1.id == obj2.id && (kind == Member ==> obj1.poolId == obj2.poolId)
  {
    if kind == Member {
      MemberEntityPathInjective(names.pools, names.members, obj1.poolId, obj1.id, obj2.poolId, obj2.id);
    } else {
      EntityPathInjective(m.urlPath, obj1.id, obj2.id);
    }
  }

  /**
    Without that hypothesis the paths collide: ids are inserted as they are,
    so a pool id holding "/members/" can shift the segments.
   */
  lemma MemberPathsCollideWithSlashes<D>(names: KindNames, m: ManagerFields, d: D)
    requires names.pools == "pools" && names.members == "members"
    ensures UpdateRequest(Member, names, m, LbObject("x/members/y", "a", d)).path
            == UpdateRequest(Member, names, m, LbObject("y", "a/members/x", d)).path
  {
  }

  /**
    A member create path can be another member's update path: a member created
    in pool `q + "/" + members` posts to the path that updates the member whose
    id is the members kind string in pool `q`.
   */
  lemma MemberCreateCanEqualOtherUpdate<D>(names: KindNames, m: ManagerFields,
                                           obj1: LbObject<D>, obj2: LbObject<D>)
    requires obj1.poolId == EntityPath(obj2.poolId, names.members) && obj2.id == names.members
    ensures CreateRequest(Member, names, m, obj1).path == UpdateRequest(Member, names, m, obj2).path
  {
  }

  /**
    For a top-level kind, a create path (the bare `url_path`) ends in "/" + id
    whenever the id equals the kind string; only the segment count, stated in
    `TopLevelRequests`, tells it apart from an update path.
   */
  lemma CreatePathCanEndInId<D>(kind: Kind, names: KindNames, m: ManagerFields, obj: LbObject<D>)
    requires kind != Member && m.WellFormed() && obj.id == m.objType
    ensures EndsWith(CreateRequest(kind, names, m, obj).path, "/" + obj.id)
  {
    UrlPathEndsInKind(m.objType);
  }

  /**
    Conversely, with a slash-free kind string that is the only way: the '/'
    before the id can only be the one after the namespace.
   */
  lemma CreatePathEndsInIdOnlyForKind<D>(kind: Kind, names: KindNames, m: ManagerFields, obj: LbObject<D>)
    requires kind != Member && m.WellFormed() && NoSlash(m.objType)
    requires EndsWith(CreateRequest(kind, names, m, obj).path, "/" + obj.id)
    ensures obj.id == m.objType
  {
    UrlPathEndsOnlyInKind(m.objType, obj.id);
  }

  /** A pool manager updating pool `p1`: PUT lbaas/pools/p1 with body {"pool": ...}. */
  lemma PoolUpdateExample<D>(names: KindNames, m: ManagerFields, d: D)
    requires m.WellFormed() && m.objType == "pools"
    ensures UpdateRequest(Pool, names, m, LbObject("p1", "", d))
            == Request(m.onosPath, m.onosAuth, Put, "lbaas/pools/p1", Some(map["pool" := d]))
  {
    ObjNameOfPlural("pool");
    assert "pool" + "s" == "pools";
    assert EntityPath("lbaas/pools", "p1") == "lbaas/pools/p1";
  }

  /**
    Member `m1` of pool `p1`: create posts to lbaas/pools/p1/members with body
    {"member": ...}; delete targets lbaas/pools/p1/members/m1 with no body.
   */
  lemma MemberExample<D>(names: KindNames, m: ManagerFields, d: D)
    requires names.pools == "pools" && names.members == "members"
    requires m.WellFormed() && m.objType == names.members
    ensures CreateRequest(Member, names, m, LbObject("m1", "p1", d))
            == Request(m.onosPath, m.onosAuth, Post, "lbaas/pools/p1/members", Some(map["member" := d]))
    ensures DeleteRequest(Member, names, m, LbObject("m1", "p1", d))
            == Request(m.onosPath, m.onosAuth, Delete, "lbaas/pools/p1/members/m1", None)
  {
    ObjNameOfPlural("member");
    assert "member" + "s" == "members";
    assert MemberUrl("pools", "p1", "members") == "lbaas/pools/p1/members";
    assert EntityPath("lbaas/pools/p1/members", "m1") == "lbaas/pools/p1/members/m1";
  }

  /**
    A resource manager. The Python subclasses differ only in the kind string
    they pass to the shared constructor, in the member manager's own paths and
    in the load-balancer manager's two extra hooks; here `kind` selects them.
   */
  class Manager<D> {
    const kind: Kind
    const names: KindNames
    const onosPath: string
    const onosAuth: Auth
    const objType: string
    const urlPath: string
    const objName: string
    /** The requests handed to the transport so far, oldest first. */
    ghost var sent: seq<Request<D>>

    function Fields(): ManagerFields {
      ManagerFields(onosPath, onosAuth, objType, urlPath, objName)
    }

    /** Every path this manager sends starts with this. */
    function Prefix(): string {
      if kind == Member then UrlPath(names.pools) + "/" else urlPath
    }

    /**
      A request this manager may have sent: its own endpoint and credentials,
      a path under its collection, a body exactly when the verb is not
      delete, and then the single key `obj_name`.
     */
    ghost predicate Issued(r: Request<D>) {
      && r.onosPath == onosPath && r.onosAuth == onosAuth
      && Prefix() <= r.path
      && (r.verb == HttpMethod.Delete <==> r.body == None)
      && (r.body.Some? ==> r.body.value.Keys == {objName})
    }

    /** Every request of `log` is one this manager may have sent. */
    ghost predicate AllIssued(log: seq<Request<D>>) {
      forall i :: 0 <= i < |log| ==> Issued(log[i])
    }

    ghost predicate Valid()
      reads this
    {
      && objType == names.Plural(kind)
      && Fields().WellFormed()
      && AllIssued(sent)
    }

    /** The three requests this manager builds for an object are all ones it may send. */
    lemma RequestsIssued(obj: LbObject<D>)
      requires Valid()
      ensures Issued(CreateRequest(kind, names, Fields(), obj))
      ensures Issued(UpdateRequest(kind, names, Fields(), obj))
      ensures Issued(DeleteRequest(kind, names, Fields(), obj))
    {
      var collection := CollectionPath(kind, names, Fields(), obj);
      assert Prefix() <= collection <= EntityPath(collection, obj.id);
    }

    /** Appending a request this manager may send keeps the whole log issued. */
    lemma IssuedAppend(log: seq<Request<D>>, r: Request<D>)
      requires AllIssued(log) && Issued(r)
      ensures AllIssued(log + [r])
    {
      forall i | 0 <= i < |log + [r]|
        ensures Issued((log + [r])[i])
      {
        if i < |log| {
          assert (log + [r])[i] == log[i];
        }
      }
    }

    constructor (onosPath: string, onosAuth: Auth, names: KindNames, kind: Kind)
      ensures Valid() && sent == []
      ensures this.kind == kind && this.names == names
      ensures this.onosPath == onosPath && this.onosAuth == onosAuth
      ensures objType == names.Plural(kind)
      ensures urlPath == UrlPath(names.Plural(kind)) && objName == ObjName(names.Plural(kind))
    {
      var objType := names.Plural(kind);
      this.kind := kind;
      this.names := names;
      this.onosPath := onosPath;
      this.onosAuth := onosAuth;
      this.objType := objType;
      this.urlPath := LBAAS + "/" + objType;
      this.objName := ObjName(objType);
      sent := [];
    }

    /** The transport `send_msg`, seen only as the request it is given. */
    method SendMsg(verb: HttpMethod, path: string, body: Option<map<string, D>>)
      modifies this
      ensures sent == old(sent) + [Request(onosPath, onosAuth, verb, path, body)]
    {
      sent := sent + [Request(onosPath, onosAuth, verb, path, body)];
    }

    method Create(obj: LbObject<D>)
      requires Valid()
      modifies this
      ensures Valid()
      ensures sent == old(sent) + [CreateRequest(kind, names, Fields(), obj)]
    {
      var entityPath := if kind == Member then MemberUrl(names.pools, obj.poolId, names.members)
                        else urlPath;
      RequestsIssued(obj);
      SendMsg(Post, entityPath, Some(Body(objName, obj)));
      IssuedAppend(old(sent), CreateRequest(kind, names, Fields(), obj));
    }

    method Update(obj: LbObject<D>)
      requires Valid()
      modifies this
      ensures Valid()
      ensures sent == old(sent) + [UpdateRequest(kind, names, Fields(), obj)]
    {
      var collection := if kind == Member then MemberUrl(names.pools, obj.poolId, names.members)
                        else urlPath;
      var entityPath := EntityPath(collection, obj.id);
      RequestsIssued(obj);
      SendMsg(Put, entityPath, Some(Body(objName, obj)));
      IssuedAppend(old(sent), UpdateRequest(kind, names, Fields(), obj));
    }

    method Delete(obj: LbObject<D>)
      requires Valid()
      modifies this
      ensures Valid()
      ensures sent == old(sent) + [DeleteRequest(kind, names, Fields(), obj)]
    {
      var collection := if kind == Member then MemberUrl(names.pools, obj.poolId, names.members)
                        else urlPath;
      var entityPath := EntityPath(collection, obj.id);
      RequestsIssued(obj);
      SendMsg(HttpMethod.Delete, entityPath, None);
      IssuedAppend(old(sent), DeleteRequest(kind, names, Fields(), obj));
    }

    /** The load balancer's state-repair hook: not implemented, sends nothing. */
    method Refresh(lb: LbObject<D>)
      requires kind == LoadBalancer
      ensures sent == old(sent)
    {
    }

    /** The load balancer's statistics hook: not implemented, sends nothing. */
    method Stats(lb: LbObject<D>)
      requires kind == LoadBalancer
      ensures sent == old(sent)
    {
    }
  }
}
