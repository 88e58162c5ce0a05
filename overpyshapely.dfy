/**
 * The decision rules of the Overpass-to-shapely converter: which element
 * becomes which geometry constructor, over which inputs and in which order.
 * The converter's only state, the query result, is fixed when it is made,
 * so every rule is a function of that result.
 */
module OverToShape {
  import opened Results
  import opened Geometry
  import opened Dicts
  import opened Osm
  import opened Features

  // ---------------------------------------------------------------------
  // Choosing the element
  // ---------------------------------------------------------------------

  /** The only id of the list; an empty list or several ids fail. */
  function DefaultId(ids: seq<int>): (r: Result<int>)
    ensures r.Ok? <==> |ids| == 1
    ensures r.Ok? ==> r.value == ids[0] && r.value in ids
    ensures |ids| == 0 ==> r == Err(NoElement)
    ensures |ids| > 1 ==> r == Err(Ambiguous(ids))
  {
    if |ids| == 0 then Err(NoElement)
    else if |ids| > 1 then Err(Ambiguous(ids))
    else Ok(ids[0])
  }

  /**
   * The default selection as the code is written: the message for several ids
   * joins a list of integers, which raises a TypeError before the intended
   * ValueError can be built.
   */
  function DefaultIdAsWritten(ids: seq<int>): (r: Result<int>)
    ensures r.Ok? <==> |ids| == 1
    ensures r.Ok? ==> r.value == ids[0]
    ensures |ids| == 0 ==> r == Err(NoElement)
    ensures |ids| > 1 ==> r == Err(JoinTypeError)
  {
    if |ids| == 0 then Err(NoElement)
    else if |ids| > 1 then Err(JoinTypeError)
    else Ok(ids[0])
  }

  lemma AmbiguityRaisesTypeError(a: int, b: int)
    ensures DefaultIdAsWritten([a, b]) == Err(JoinTypeError)
    ensures DefaultId([a, b]) == Err(Ambiguous([a, b]))
  {
  }

  /** Python truthiness of an optional id: None and 0 are both false. */
  predicate Truthy(id: Option<int>)
  {
    id.Some? && id.value != 0
  }

  /** A truthy id is used as given; a falsy one is replaced by the default selection. */
  function SelectId(id: Option<int>, ids: seq<int>): (r: Result<int>)
    ensures Truthy(id) ==> r == Ok(id.value)
    ensures !Truthy(id) ==> (r.Ok? <==> |ids| == 1)
    ensures !Truthy(id) && r.Ok? ==> r.value == ids[0]
    ensures !Truthy(id) && r.Err? ==> r.error == NoElement || r.error == Ambiguous(ids)
  {
    if Truthy(id) then Ok(id.value) else DefaultId(ids)
  }

  function NodeOf(res: OverpassResult, id: Option<int>): (r: Result<Node>)
    ensures r.Ok? <==> SelectId(id, res.nodeIds).Ok? && SelectId(id, res.nodeIds).value in res.nodes
    ensures r.Ok? ==> r.value == res.nodes[SelectId(id, res.nodeIds).value]
    ensures SelectId(id, res.nodeIds).Err? ==> r == Err(SelectId(id, res.nodeIds).error)
    ensures SelectId(id, res.nodeIds).Ok? && SelectId(id, res.nodeIds).value !in res.nodes ==>
      r == Err(NotFound(SelectId(id, res.nodeIds).value))
  {
    var k :- SelectId(id, res.nodeIds);
    GetNode(res, k)
  }

  function WayOf(res: OverpassResult, id: Option<int>): (r: Result<Way>)
    ensures r.Ok? <==> SelectId(id, res.wayIds).Ok? && SelectId(id, res.wayIds).value in res.ways
    ensures r.Ok? ==> r.value == res.ways[SelectId(id, res.wayIds).value]
    ensures SelectId(id, res.wayIds).Err? ==> r == Err(SelectId(id, res.wayIds).error)
    ensures SelectId(id, res.wayIds).Ok? && SelectId(id, res.wayIds).value !in res.ways ==>
      r == Err(NotFound(SelectId(id, res.wayIds).value))
  {
    var k :- SelectId(id, res.wayIds);
    GetWay(res, k)
  }

  function RelationOf(res: OverpassResult, id: Option<int>): (r: Result<Relation>)
    ensures r.Ok? <==> SelectId(id, res.relationIds).Ok? && SelectId(id, res.relationIds).value in res.relations
    ensures r.Ok? ==> r.value == res.relations[SelectId(id, res.relationIds).value]
    ensures SelectId(id, res.relationIds).Err? ==> r == Err(SelectId(id, res.relationIds).error)
    ensures SelectId(id, res.relationIds).Ok? && SelectId(id, res.relationIds).value !in res.relations ==>
      r == Err(NotFound(SelectId(id, res.relationIds).value))
  {
    var k :- SelectId(id, res.relationIds);
    GetRelation(res, k)
  }

  // ---------------------------------------------------------------------
  // Nodes and ways
  // ---------------------------------------------------------------------

  function CoordOf(n: Node): Coord
  {
    Coord(n.lon, n.lat)
  }

  /** A Point at the node's longitude (first) and latitude (second). */
  function NodeToShape(n: Node): (p: Geom)
    ensures p.Point? && p.at.lon == n.lon && p.at.lat == n.lat
  {
    Point(CoordOf(n))
  }

  /** The (lon, lat) pairs of the nodes, in order: the ring of a closed way. */
  function Ring(nodes: seq<Node>): seq<Coord>
  {
    seq(|nodes|, i requires 0 <= i < |nodes| => CoordOf(nodes[i]))
  }

  /** One Point per node, in order: the vertices of an open way. */
  function Vertices(nodes: seq<Node>): seq<Geom>
  {
    seq(|nodes|, i requires 0 <= i < |nodes| => NodeToShape(nodes[i]))
  }

  /** Closed means the first and last node ids agree; coordinates are not compared. */
  predicate IsClosed(nodes: seq<Node>)
    requires |nodes| > 0
  {
    nodes[0].id == nodes[|nodes| - 1].id
  }

  /**
   * A way whose first and last node ids agree becomes a Polygon over the
   * nodes' coordinates in order; any other way becomes a LineString over one
   * Point per node in order. Reading the first node of an empty way fails.
   */
  function WayToShape(w: Way): (r: Result<Geom>)
    ensures r.Err? <==> |w.nodes| == 0
    ensures r.Err? ==> r.error == EmptyWay(w.id)
    ensures r.Ok? ==> (r.value.Polygon? <==> w.nodes[0].id == w.nodes[|w.nodes| - 1].id)
    ensures r.Ok? ==> r.value.Polygon? || r.value.LineString?
    ensures r.Ok? && r.value.Polygon? ==>
      |r.value.shell| == |w.nodes| &&
      forall i :: 0 <= i < |w.nodes| ==> r.value.shell[i] == Coord(w.nodes[i].lon, w.nodes[i].lat)
    ensures r.Ok? && r.value.LineString? ==>
      |r.value.vertices| == |w.nodes| &&
      forall i :: 0 <= i < |w.nodes| ==> r.value.vertices[i] == Point(Coord(w.nodes[i].lon, w.nodes[i].lat))
  {
    if |w.nodes| == 0 then Err(EmptyWay(w.id))
    else if IsClosed(w.nodes) then Ok(Polygon(Ring(w.nodes)))
    else Ok(LineString(Vertices(w.nodes)))
  }

  // ---------------------------------------------------------------------
  // Members, relations and dispatch; no cycle guard is needed, since
  // relation members are never followed
  // ---------------------------------------------------------------------

  /** At least one member is labelled "inner" or "outer". */
  predicate HasAreaRole(members: seq<Member>)
  {
    exists i :: 0 <= i < |members| && (members[i].role == "inner" || members[i].role == "outer")
  }

  /** The members with the given role, in member order. */
  function Pick(members: seq<Member>, role: string): (picked: seq<Member>)
    ensures forall i :: 0 <= i < |picked| ==> picked[i] in members && picked[i].role == role
    ensures forall i :: 0 <= i < |members| && members[i].role == role ==> members[i] in picked
    ensures |picked| <= |members|
  {
    if members == [] then []
    else (if members[0].role == role then [members[0]] else []) + Pick(members[1..], role)
  }

  /** `resolve()` of a node or way member: the element it refers to. */
  function Resolve(m: Member): Element
    requires m.NodeMember? || m.WayMember?
  {
    if m.NodeMember? then NodeElement(m.node) else WayElement(m.way)
  }

  /**
   * The member branch of the dispatcher: a node or way member is converted
   * as the element it resolves to (`MemberResolvesOneLevel`); relation and
   * area members are refused.
   */
  function MemberToShape(m: Member): (r: Result<Geom>)
    ensures r.Ok? <==> m.NodeMember? || (m.WayMember? && |m.way.nodes| > 0)
    ensures m.NodeMember? ==> r == Ok(Point(Coord(m.node.lon, m.node.lat)))
    ensures m.RelationMember? || m.AreaMember? ==> r == Err(UnexpectedType)
  {
    match m
    case NodeMember(_, n) => Ok(NodeToShape(n))
    case WayMember(_, w) => WayToShape(w)
    case RelationMember(_, _) => Err(UnexpectedType)
    case AreaMember(_, _) => Err(UnexpectedType)
  }

  /** Converts the members in order; the first failure is the result. */
  function ConvertMembers(ms: seq<Member>): (r: Result<seq<Geom>>)
    ensures r.Ok? ==> |r.value| == |ms|
    ensures ms != [] && MemberToShape(ms[0]).Err? ==> r == Err(MemberToShape(ms[0]).error)
  {
    if ms == [] then Ok([])
    else
      var head :- MemberToShape(ms[0]);
      var tail :- ConvertMembers(ms[1..]);
      Ok([head] + tail)
  }

  /**
   * `_relation_to_shapely`: a subtraction exactly when some member is inner
   * or outer, a plain union otherwise. `RelationWithAreaRoles` and
   * `RelationWithoutAreaRoles` state the operands.
   */
  function RelationToShape(rel: Relation): (r: Result<Geom>)
    ensures r.Ok? ==> (r.value.Difference? <==> HasAreaRole(rel.members))
    ensures r.Ok? && r.value.Difference? ==>
      r.value.minuend.UnionOfPolygonized? && r.value.subtrahend.UnionOfPolygonized? &&
      |r.value.minuend.parts| == |Pick(rel.members, "outer")| &&
      |r.value.subtrahend.parts| == |Pick(rel.members, "inner")|
    ensures r.Ok? && !r.value.Difference? ==>
      r.value.UnionOfPolygonized? && |r.value.parts| == |rel.members|
  {
    if HasAreaRole(rel.members) then
      var inner :- ConvertMembers(Pick(rel.members, "inner"));
      var outer :- ConvertMembers(Pick(rel.members, "outer"));
      Ok(Difference(UnionOfPolygonized(outer), UnionOfPolygonized(inner)))
    else
      // every member is taken as outer
      var all :- ConvertMembers(rel.members);
      Ok(UnionOfPolygonized(all))
  }

  /** The line soup of a relation: one component per member. */
  function RelationToLines(rel: Relation): (r: Result<Geom>)
    ensures r.Ok? ==> r.value.MultiLineString? && |r.value.lines| == |rel.members|
  {
    var lines :- ConvertMembers(rel.members);
    Ok(MultiLineString(lines))
  }

  /**
   * `_obj_to_shapely`. The per-kind cases are spelled out in `Dispatch` and
   * `MemberResolvesOneLevel`; what a way or relation becomes is stated by
   * `WayToShape` and the relation lemmas below.
   */
  function ObjToShape(e: Element): (r: Result<Geom>)
    ensures e.NodeElement? ==> r == Ok(Point(Coord(e.node.lon, e.node.lat)))
    ensures e.AreaElement? ==> r == Err(UnexpectedType)
    ensures e.MemberElement? && (e.member.RelationMember? || e.member.AreaMember?) ==>
      r == Err(UnexpectedType)
    ensures e.RelationElement? && r.Ok? ==> r.value.Difference? || r.value.UnionOfPolygonized?
  {
    match e
    case NodeElement(n) => Ok(NodeToShape(n))
    case WayElement(w) => WayToShape(w)
    case RelationElement(rel) => RelationToShape(rel)
    case MemberElement(m) => MemberToShape(m)
    case AreaElement(_) => Err(UnexpectedType)
  }

  // ---------------------------------------------------------------------
  // What the rules promise
  // ---------------------------------------------------------------------

  /** Whether two ways become a Polygon depends on their node ids alone. */
  lemma ClosureDependsOnIdsOnly(w1: Way, w2: Way)
    requires |w1.nodes| == |w2.nodes|
    requires forall i :: 0 <= i < |w1.nodes| ==> w1.nodes[i].id == w2.nodes[i].id
    ensures WayToShape(w1).Ok? == WayToShape(w2).Ok?
    ensures WayToShape(w1).Ok? ==> (WayToShape(w1).value.Polygon? <==> WayToShape(w2).value.Polygon?)
  {
  }

  /** Two distinct end nodes on the same spot do not close a way. */
  lemma SameSpotDistinctIdsIsLine(w: Way)
    requires |w.nodes| >= 2
    requires CoordOf(w.nodes[0]) == CoordOf(w.nodes[|w.nodes| - 1])
    requires w.nodes[0].id != w.nodes[|w.nodes| - 1].id
    ensures WayToShape(w).Ok? && WayToShape(w).value.LineString?
  {
  }

  /**
   * Node, way and relation elements go to their own rule; an area is refused.
   * This only unfolds the dispatcher: the rules themselves are stated by
   * `WayToShape` and the relation lemmas.
   */
  lemma Dispatch(e: Element)
    ensures e.NodeElement? ==> ObjToShape(e) == Ok(Point(Coord(e.node.lon, e.node.lat)))
    ensures e.WayElement? ==> ObjToShape(e) == WayToShape(e.way)
    ensures e.RelationElement? ==> ObjToShape(e) == RelationToShape(e.relation)
    ensures e.AreaElement? ==> ObjToShape(e) == Err(UnexpectedType)
  {
  }

  /**
   * Like `Dispatch`, this unfolds the member branch of the dispatcher.
   * A node or way member converts exactly as the element it resolves to;
   * relation and area members are refused without being resolved.
   */
  lemma MemberResolvesOneLevel(m: Member)
    ensures m.NodeMember? || m.WayMember? ==> ObjToShape(MemberElement(m)) == ObjToShape(Resolve(m))
    ensures m.RelationMember? || m.AreaMember? ==> ObjToShape(MemberElement(m)) == Err(UnexpectedType)
  {
  }

  /** Every member converts. */
  predicate AllConvert(ms: seq<Member>)
  {
    forall i :: 0 <= i < |ms| ==> MemberToShape(ms[i]).Ok?
  }

  /** Member k is the first one that fails to convert. */
  predicate FirstFailure(ms: seq<Member>, k: int)
  {
    && 0 <= k < |ms|
    && MemberToShape(ms[k]).Err?
    && forall j :: 0 <= j < k ==> MemberToShape(ms[j]).Ok?
  }

  /** The geometries of members that all convert, in member order. */
  function Shapes(ms: seq<Member>): seq<Geom>
    requires AllConvert(ms)
  {
    seq(|ms|, i requires 0 <= i < |ms| => MemberToShape(ms[i]).value)
  }

  /**
   * Converting a list of members succeeds exactly when every member converts,
   * and then gives one geometry per member in order; otherwise it fails with
   * the error of the first member that fails.
   */
  lemma {:induction false} ConvertMembersSpec(ms: seq<Member>)
    ensures ConvertMembers(ms).Ok? <==> AllConvert(ms)
    ensures AllConvert(ms) ==> ConvertMembers(ms) == Ok(Shapes(ms))
    ensures !AllConvert(ms) ==>
      exists k :: FirstFailure(ms, k) && ConvertMembers(ms) == Err(MemberToShape(ms[k]).error)
  {
    if ms == [] {
      assert Shapes(ms) == [];
    } else {
      ConvertMembersSpec(ms[1..]);
      assert AllConvert(ms) <==> MemberToShape(ms[0]).Ok? && AllConvert(ms[1..]) by {
        assert forall i :: 0 <= i < |ms[1..]| ==> ms[1..][i] == ms[i + 1];
      }
      if AllConvert(ms) {
        assert [MemberToShape(ms[0]).value] + Shapes(ms[1..]) == Shapes(ms);
      } else if MemberToShape(ms[0]).Ok? {
        var k :| FirstFailure(ms[1..], k) && ConvertMembers(ms[1..]) == Err(MemberToShape(ms[1..][k]).error);
        assert FirstFailure(ms, k + 1);
      } else {
        assert FirstFailure(ms, 0);
      }
    }
  }

  /** Picking by role keeps member order: it distributes over concatenation. */
  lemma {:induction false} PickConcat(a: seq<Member>, b: seq<Member>, role: string)
    ensures Pick(a + b, role) == Pick(a, role) + Pick(b, role)
  {
    if a == [] {
      assert a + b == b;
    } else {
      assert (a + b)[1..] == a[1..] + b;
      PickConcat(a[1..], b, role);
    }
  }

  /** A member whose role is not the one picked leaves the pick unchanged. */
  lemma PickSkips(before: seq<Member>, m: Member, after: seq<Member>, role: string)
    requires m.role != role
    ensures Pick(before + [m] + after, role) == Pick(before + after, role)
  {
    assert Pick([m], role) == [] by {
      assert [m][1..] == [];
    }
    calc {
      Pick(before + [m] + after, role);
      { PickConcat(before + [m], after, role); }
      Pick(before + [m], role) + Pick(after, role);
      { PickConcat(before, [m], role); }
      Pick(before, role) + Pick([m], role) + Pick(after, role);
      Pick(before, role) + Pick(after, role);
      { PickConcat(before, after, role); }
      Pick(before + after, role);
    }
  }

  /**
   * With some "inner" or "outer" member, the result is the union of the
   * polygonized outer members minus the union of the polygonized inner
   * members, each in member order; an inner failure is reported first.
   */
  lemma RelationWithAreaRoles(rel: Relation)
    requires HasAreaRole(rel.members)
    ensures RelationToShape(rel).Ok? <==>
      AllConvert(Pick(rel.members, "inner")) && AllConvert(Pick(rel.members, "outer"))
    ensures AllConvert(Pick(rel.members, "inner")) && AllConvert(Pick(rel.members, "outer")) ==>
      RelationToShape(rel) == Ok(Difference(
        UnionOfPolygonized(Shapes(Pick(rel.members, "outer"))),
        UnionOfPolygonized(Shapes(Pick(rel.members, "inner")))))
    ensures !AllConvert(Pick(rel.members, "inner")) ==>
      exists k :: FirstFailure(Pick(rel.members, "inner"), k) &&
        RelationToShape(rel) == Err(MemberToShape(Pick(rel.members, "inner")[k]).error)
    ensures AllConvert(Pick(rel.members, "inner")) && !AllConvert(Pick(rel.members, "outer")) ==>
      exists k :: FirstFailure(Pick(rel.members, "outer"), k) &&
        RelationToShape(rel) == Err(MemberToShape(Pick(rel.members, "outer")[k]).error)
  {
    ConvertMembersSpec(Pick(rel.members, "inner"));
    ConvertMembersSpec(Pick(rel.members, "outer"));
  }

  /** Without any "inner" or "outer" member, every member is outer and nothing is subtracted. */
  lemma RelationWithoutAreaRoles(rel: Relation)
    requires !HasAreaRole(rel.members)
    ensures RelationToShape(rel).Ok? <==> AllConvert(rel.members)
    ensures AllConvert(rel.members) ==>
      RelationToShape(rel) == Ok(UnionOfPolygonized(Shapes(rel.members)))
  {
    ConvertMembersSpec(rel.members);
  }

  /**
   * Once some member is "inner" or "outer", a member with any other role is
   * never converted: adding it anywhere changes nothing, even when it would fail.
   */
  lemma OtherRolesIgnored(id: int, before: seq<Member>, m: Member, after: seq<Member>, tags: TagMap)
    requires m.role != "inner" && m.role != "outer"
    requires HasAreaRole(before + after)
    ensures RelationToShape(Relation(id, before + [m] + after, tags)) ==
            RelationToShape(Relation(id, before + after, tags))
  {
    var with, without := before + [m] + after, before + after;
    var i :| 0 <= i < |without| && (without[i].role == "inner" || without[i].role == "outer");
    var j := if i < |before| then i else i + 1;
    assert with[j] == without[i];
    PickSkips(before, m, after, "inner");
    PickSkips(before, m, after, "outer");
    SameBucketsSameShape(Relation(id, with, tags), Relation(id, without, tags));
  }

  /** With area roles on both sides, the result depends only on the two buckets. */
  lemma SameBucketsSameShape(r1: Relation, r2: Relation)
    requires HasAreaRole(r1.members) && HasAreaRole(r2.members)
    requires Pick(r1.members, "inner") == Pick(r2.members, "inner")
    requires Pick(r1.members, "outer") == Pick(r2.members, "outer")
    ensures RelationToShape(r1) == RelationToShape(r2)
  {
  }

  /**
   * A relation or area member that the relation rule converts makes the
   * whole relation fail: nested relations are not recursed into.
   */
  lemma UnresolvedMemberFails(rel: Relation, k: int)
    requires 0 <= k < |rel.members|
    requires rel.members[k].RelationMember? || rel.members[k].AreaMember?
    requires rel.members[k].role == "inner" || rel.members[k].role == "outer" || !HasAreaRole(rel.members)
    ensures RelationToShape(rel).Err?
  {
    var m := rel.members[k];
    assert MemberToShape(m).Err?;
    if HasAreaRole(rel.members) {
      RelationWithAreaRoles(rel);
      var picked := Pick(rel.members, m.role);
      assert m in picked;
      var j :| 0 <= j < |picked| && picked[j] == m;
      assert !AllConvert(picked);
    } else {
      RelationWithoutAreaRoles(rel);
      assert !AllConvert(rel.members);
    }
  }

  /** The line soup has exactly one component per member, in member order. */
  lemma RelationLinesPerMember(rel: Relation)
    ensures RelationToLines(rel).Ok? <==> AllConvert(rel.members)
    ensures RelationToLines(rel).Ok? ==>
      RelationToLines(rel).value.MultiLineString? &&
      |RelationToLines(rel).value.lines| == |rel.members| &&
      forall i :: 0 <= i < |rel.members| ==>
        RelationToLines(rel).value.lines[i] == MemberToShape(rel.members[i]).value
  {
    ConvertMembersSpec(rel.members);
  }

  /**
   * In a well-formed result, a default-selected id is always found: with no
   * id given, a lookup fails only because the selection itself fails.
   */
  lemma DefaultSelectionIsFound(res: OverpassResult)
    requires WellFormed(res)
    ensures NodeOf(res, None).Err? ==> NodeOf(res, None).error in {NoElement, Ambiguous(res.nodeIds)}
    ensures WayOf(res, None).Err? ==> WayOf(res, None).error in {NoElement, Ambiguous(res.wayIds)}
    ensures RelationOf(res, None).Err? ==>
      RelationOf(res, None).error in {NoElement, Ambiguous(res.relationIds)}
    ensures |res.nodeIds| == 1 ==> NodeOf(res, None) == Ok(res.nodes[res.nodeIds[0]])
    ensures |res.wayIds| == 1 ==> WayOf(res, None) == Ok(res.ways[res.wayIds[0]])
    ensures |res.relationIds| == 1 ==> RelationOf(res, None) == Ok(res.relations[res.relationIds[0]])
  {
    if |res.nodeIds| == 1 {
      assert res.nodeIds[0] in res.nodeIds;
    }
    if |res.wayIds| == 1 {
      assert res.wayIds[0] in res.wayIds;
    }
    if |res.relationIds| == 1 {
      assert res.relationIds[0] in res.relationIds;
    }
  }

  // ---------------------------------------------------------------------
  // Entry points: choose an element, convert it, wrap it in a Feature
  // ---------------------------------------------------------------------

  /**
   * The feature holds the element's own tag dictionary when that is
   * non-empty, and a fresh empty one otherwise.
   */
  twostate predicate TakesTags(new f: Feature, tags: TagMap)
    reads f, tags, f.tagMap
  {
    && (tags.entries != map[] ==> f.tagMap == tags)
    && (tags.entries == map[] ==> fresh(f.tagMap) && f.tagMap.entries == map[])
  }

  method GetNodeFeature(res: OverpassResult, id: Option<int>) returns (r: Result<Feature>)
    ensures r.Ok? <==> NodeOf(res, id).Ok?
    ensures r.Err? ==> r.error == NodeOf(res, id).error
    ensures r.Ok? ==> fresh(r.value) && r.value.geometry == NodeToShape(NodeOf(res, id).value)
    ensures r.Ok? ==> TakesTags(r.value, NodeOf(res, id).value.tags)
  {
    var node :- NodeOf(res, id);
    var f := new Feature(NodeToShape(node), node.tags);
    return Ok(f);
  }

  method GetWayFeature(res: OverpassResult, id: Option<int>) returns (r: Result<Feature>)
    ensures r.Ok? <==> WayOf(res, id).Ok? && WayToShape(WayOf(res, id).value).Ok?
    ensures r.Err? && WayOf(res, id).Err? ==> r.error == WayOf(res, id).error
    ensures r.Err? && WayOf(res, id).Ok? ==> r.error == WayToShape(WayOf(res, id).value).error
    ensures r.Ok? ==> fresh(r.value) && r.value.geometry == WayToShape(WayOf(res, id).value).value
    ensures r.Ok? ==> TakesTags(r.value, WayOf(res, id).value.tags)
  {
    var way :- WayOf(res, id);
    var geometry :- WayToShape(way);
    var f := new Feature(geometry, way.tags);
    return Ok(f);
  }

  method GetRelationFeature(res: OverpassResult, id: Option<int>) returns (r: Result<Feature>)
    ensures r.Ok? <==> RelationOf(res, id).Ok? && RelationToShape(RelationOf(res, id).value).Ok?
    ensures r.Err? && RelationOf(res, id).Err? ==> r.error == RelationOf(res, id).error
    ensures r.Err? && RelationOf(res, id).Ok? ==> r.error == RelationToShape(RelationOf(res, id).value).error
    ensures r.Ok? ==> fresh(r.value) && r.value.geometry == RelationToShape(RelationOf(res, id).value).value
    ensures r.Ok? ==> TakesTags(r.value, RelationOf(res, id).value.tags)
  {
    var relation :- RelationOf(res, id);
    var geometry :- RelationToShape(relation);
    var f := new Feature(geometry, relation.tags);
    return Ok(f);
  }

  method GetRelationFeatureMulti(res: OverpassResult, id: Option<int>) returns (r: Result<Feature>)
    ensures r.Ok? <==> RelationOf(res, id).Ok? && RelationToLines(RelationOf(res, id).value).Ok?
    ensures r.Err? && RelationOf(res, id).Err? ==> r.error == RelationOf(res, id).error
    ensures r.Err? && RelationOf(res, id).Ok? ==> r.error == RelationToLines(RelationOf(res, id).value).error
    ensures r.Ok? ==> fresh(r.value) && r.value.geometry == RelationToLines(RelationOf(res, id).value).value
    ensures r.Ok? ==> TakesTags(r.value, RelationOf(res, id).value.tags)
  {
    var relation :- RelationOf(res, id);
    var geometry :- RelationToLines(relation);
    var f := new Feature(geometry, relation.tags);
    return Ok(f);
  }
}
