/**
  Path construction of the ONOS LBaaS v2 driver: how a manager turns its
  resource kind, an object id and (for members) a pool id into the REST path
  it sends to the ONOS controller.

  Next to the construction functions stands `Segments`, an independent
  reference definition of a path as the controller's REST router reads it: the
  list of '/'-separated segments. The lemmas state each path's shape through it.
 */
module LbaasPaths {

  /** The namespace every LBaaS path starts with. */
  const LBAAS: string := "lbaas"

  predicate NoSlash(s: string) {
    '/' !in s
  }

  predicate EndsWith(s: string, suffix: string) {
    |suffix| <= |s| && s[|s| - |suffix|..] == suffix
  }

  /** The '/'-separated segments of a path, empty segments included. */
  function Segments(s: string): (r: seq<string>)
    ensures |r| >= 1
    ensures forall i :: 0 <= i < |r| ==> NoSlash(r[i])
  {
    if |s| == 0 then [""]
    else
      var rest := Segments(s[1..]);
      if s[0] == '/' then [""] + rest
      else [[s[0]] + rest[0]] + rest[1..]
  }

  /** A string without '/' is a single segment. */
  lemma {:induction false} SegmentsOfAtom(s: string)
    requires NoSlash(s)
    ensures Segments(s) == [s]
  {
    if |s| > 0 {
      assert forall c :: c in s[1..] ==> c in s;
      SegmentsOfAtom(s[1..]);
      assert [s[0]] + s[1..] == s;
    }
  }

  /** Joining two paths with '/' concatenates their segments. */
  lemma {:induction false} SegmentsOfJoin(a: string, b: string)
    ensures Segments(a + "/" + b) == Segments(a) + Segments(b)
  {
    var s := a + "/" + b;
    if |a| == 0 {
      assert s[0] == '/' && s[1..] == b;
    } else {
      assert s[0] == a[0] && s[1..] == a[1..] + "/" + b;
      SegmentsOfJoin(a[1..], b);
      var ra := Segments(a[1..]);
      var rb := Segments(b);
      if a[0] != '/' {
        assert (ra + rb)[0] == ra[0];
        assert (ra + rb)[1..] == ra[1..] + rb;
      }
    }
  }

  /**
    A slash-free string followed by a string that starts with '/' can be split
    back in one way only: the '/' marks where the first part ends.
   */
  lemma {:induction false} SlashFreeSplit(a: string, s: string, b: string, t: string)
    requires NoSlash(a) && NoSlash(b)
    requires |s| > 0 && s[0] == '/' && |t| > 0 && t[0] == '/'
    requires a + s == b + t
    ensures a == b && s == t
  {
    if |a| > 0 && |b| > 0 {
      assert a[0] == (a + s)[0] == (b + t)[0] == b[0];
      assert (a + s)[1..] == a[1..] + s;
      assert (b + t)[1..] == b[1..] + t;
      assert forall c :: c in a[1..] ==> c in a;
      assert forall c :: c in b[1..] ==> c in b;
      SlashFreeSplit(a[1..], s, b[1..], t);
      assert a == [a[0]] + a[1..] && b == [b[0]] + b[1..];
    } else {
      assert (a + s)[0] == (b + t)[0];
      assert a == [] == b;
      assert a + s == s && b + t == t;
    }
  }

  /** `url_path` of a manager: the namespace followed by its kind string. */
  function UrlPath(objType: string): (r: string)
    ensures LBAAS + "/" <= r && r[|LBAAS| + 1..] == objType
  {
    LBAAS + "/" + objType
  }

  /**
    `obj_name` of a manager: its kind string without the last character (the
    plural "s"), as Python's `obj_type[:-1]`, which gives "" for "".
   */
  function ObjName(objType: string): (r: string)
    ensures objType == [] ==> r == []
    ensures objType != [] ==> r + [objType[|objType| - 1]] == objType
  {
    if |objType| == 0 then "" else objType[..|objType| - 1]
  }

  /** The path of one object inside a collection path: `collection + '/' + id`. */
  function EntityPath(collection: string, id: string): (r: string)
  {
    collection + "/" + id
  }

  /** `_member_url`: the collection path of the members of one pool. */
  function MemberUrl(pools: string, poolId: string, members: string): (r: string)
    ensures r == EntityPath(EntityPath(UrlPath(pools), poolId), members)
  {
    LBAAS + "/" + pools + "/" + poolId + "/" + members
  }

  /** A plural kind string loses exactly its trailing "s". */
  lemma ObjNameOfPlural(singular: string)
    ensures ObjName(singular + "s") == singular
  {
  }

  /** `url_path` is the namespace, then the kind string as one more segment. */
  lemma UrlPathShape(objType: string)
    ensures LBAAS + "/" <= UrlPath(objType)
    ensures UrlPath(objType)[|LBAAS| + 1..] == objType
    ensures NoSlash(objType) ==> Segments(UrlPath(objType)) == [LBAAS, objType]
  {
    SegmentsOfJoin(LBAAS, objType);
    SegmentsOfAtom(LBAAS);
    if NoSlash(objType) {
      SegmentsOfAtom(objType);
    }
  }

  /**
    An entity path extends its collection path by one segment holding the id:
    it starts with `collection + "/"`, ends with `"/" + id`, and is strictly
    longer than the collection path, so it is never the collection path itself.
   */
  lemma EntityPathShape(collection: string, id: string)
    ensures collection + "/" <= EntityPath(collection, id)
    ensures EntityPath(collection, id)[|collection| + 1..] == id
    ensures EndsWith(EntityPath(collection, id), "/" + id)
    ensures |EntityPath(collection, id)| > |collection|
    ensures Segments(EntityPath(collection, id)) == Segments(collection) + Segments(id)
    ensures NoSlash(id) ==> Segments(EntityPath(collection, id)) == Segments(collection) + [id]
  {
    var p := EntityPath(collection, id);
    assert p == (collection + "/") + id;
    assert p[|p| - |"/" + id|..] == "/" + id;
    SegmentsOfJoin(collection, id);
    if NoSlash(id) {
      SegmentsOfAtom(id);
    }
  }

  /** Within one collection, the entity path determines the id and back. */
  lemma EntityPathInjective(collection: string, id1: string, id2: string)
    ensures EntityPath(collection, id1) == EntityPath(collection, id2) <==> id1 == id2
  {
    EntityPathShape(collection, id1);
    EntityPathShape(collection, id2);
  }

  /**
    The member collection path is the namespace, the pools kind, the pool id
    and the members kind, one segment each; it mentions no member id.
   */
  lemma MemberUrlShape(pools: string, poolId: string, members: string)
    requires NoSlash(pools) && NoSlash(poolId) && NoSlash(members)
    ensures Segments(MemberUrl(pools, poolId, members)) == [LBAAS, pools, poolId, members]
  {
    SegmentsOfAtom(LBAAS);
    SegmentsOfAtom(pools);
    SegmentsOfAtom(poolId);
    SegmentsOfAtom(members);
    SegmentsOfJoin(LBAAS, pools);
    SegmentsOfJoin(LBAAS + "/" + pools, poolId);
    SegmentsOfJoin(LBAAS + "/" + pools + "/" + poolId, members);
  }

  /** The member collection path starts with the pool's own entity path. */
  lemma MemberUrlUnderPool(pools: string, poolId: string, members: string)
    ensures EntityPath(UrlPath(pools), poolId) + "/" <= MemberUrl(pools, poolId, members)
    ensures EndsWith(MemberUrl(pools, poolId, members), "/" + members)
  {
  }

  /** Two pools share a member collection path exactly when they are the same pool. */
  lemma MemberUrlInjective(pools: string, poolId1: string, poolId2: string, members: string)
    ensures MemberUrl(pools, poolId1, members) == MemberUrl(pools, poolId2, members)
            <==> poolId1 == poolId2
  {
    var prefix := LBAAS + "/" + pools + "/";
    var suffix := "/" + members;
    var u1 := MemberUrl(pools, poolId1, members);
    var u2 := MemberUrl(pools, poolId2, members);
    assert u1 == prefix + poolId1 + suffix;
    assert u2 == prefix + poolId2 + suffix;
    assert u1[|prefix|..|u1| - |suffix|] == poolId1;
    assert u2[|prefix|..|u2| - |suffix|] == poolId2;
  }

  /**
    Pool ids are inserted as they are, so the member collection of pool
    `q + "/" + members` is the path of the member named `members` in pool `q`.
   */
  lemma MemberUrlOfNestedPool(pools: string, q: string, members: string)
    ensures MemberUrl(pools, EntityPath(q, members), members)
            == EntityPath(MemberUrl(pools, q, members), members)
  {
  }

  /**
    With a slash-free pool id, the path of one member names its pool and its
    id: the pool id is the only part that varies and is followed by more text.
   */
  lemma MemberEntityPathInjective(pools: string, members: string,
                                  poolId1: string, id1: string, poolId2: string, id2: string)
    requires NoSlash(poolId1) && NoSlash(poolId2)
    ensures EntityPath(MemberUrl(pools, poolId1, members), id1)
            == EntityPath(MemberUrl(pools, poolId2, members), id2)
            <==> poolId1 == poolId2 && id1 == id2
  {
    var prefix := LBAAS + "/" + pools + "/";
    var rest1 := "/" + members + "/" + id1;
    var rest2 := "/" + members + "/" + id2;
    var p1 := EntityPath(MemberUrl(pools, poolId1, members), id1);
    var p2 := EntityPath(MemberUrl(pools, poolId2, members), id2);
    assert p1 == prefix + (poolId1 + rest1);
    assert p2 == prefix + (poolId2 + rest2);
    if p1 == p2 {
      assert p1[|prefix|..] == poolId1 + rest1;
      assert p2[|prefix|..] == poolId2 + rest2;
      SlashFreeSplit(poolId1, rest1, poolId2, rest2);
      assert rest1[|members| + 2..] == id1;
      assert rest2[|members| + 2..] == id2;
    }
  }

  /** `url_path` ends in "/" followed by the kind string. */
  lemma UrlPathEndsInKind(objType: string)
    ensures EndsWith(UrlPath(objType), "/" + objType)
  {
    var path := UrlPath(objType);
    assert path == LBAAS + ("/" + objType);
    assert path[|path| - |"/" + objType|..] == "/" + objType;
  }

  /**
    With a slash-free kind string, `url_path` ends in "/" + id only for the
    kind string itself: the only '/' in it is the one after the namespace.
   */
  lemma UrlPathEndsOnlyInKind(objType: string, id: string)
    requires NoSlash(objType) && EndsWith(UrlPath(objType), "/" + id)
    ensures id == objType
  {
    var path := UrlPath(objType);
    assert path == "lbaas/" + objType;
    var p := |path| - |id| - 1;
    assert path[p] == ("/" + id)[0] == '/';
    assert forall i | 6 <= i < |path| :: path[i] == objType[i - 6];
    assert p == 5;
    assert path[6..] == id;
  }
}
