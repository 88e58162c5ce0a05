/**
 * The overpy element model the converters read. Coordinates are integers,
 * since only their equality and placement matter here. The library's
 * lookups become maps from id to element, and a relation member carries the
 * element its `resolve()` would return.
 */
module Osm {
  import opened Results
  import opened Dicts

  datatype Node = Node(id: int, lon: int, lat: int, tags: TagMap)

  /** A way with its node references already resolved to nodes, in order. */
  datatype Way = Way(id: int, nodes: seq<Node>, tags: TagMap)

  /**
   * A relation member, one variant per overpy member class. Node and way
   * members carry the element their `resolve()` returns; relation and area
   * members carry only their reference, since the converter never resolves them.
   */
  datatype Member =
    | NodeMember(role: string, node: Node)    // overpy.RelationNode
    | WayMember(role: string, way: Way)       // overpy.RelationWay
    | RelationMember(role: string, ref: int)  // overpy.RelationRelation
    | AreaMember(role: string, ref: int)      // overpy.RelationArea

  datatype Relation = Relation(id: int, members: seq<Member>, tags: TagMap)

  /** Every kind of object the dispatcher can be handed. */
  datatype Element =
    | NodeElement(node: Node)
    | WayElement(way: Way)
    | RelationElement(relation: Relation)
    | AreaElement(id: int)
    | MemberElement(member: Member)

  /** An Overpass query result: the id lists it reports and the lookups by id. */
  datatype OverpassResult = OverpassResult(
    nodeIds: seq<int>, wayIds: seq<int>, relationIds: seq<int>,
    nodes: map<int, Node>, ways: map<int, Way>, relations: map<int, Relation>)

  /** The ids in `ids` are distinct. */
  predicate Distinct(ids: seq<int>)
  {
    forall i, j :: 0 <= i < j < |ids| ==> ids[i] != ids[j]
  }

  /**
   * As overpy builds a result: each id list lists the keys of its lookup
   * exactly, each key once.
   */
  predicate WellFormed(res: OverpassResult)
  {
    && Distinct(res.nodeIds) && Distinct(res.wayIds) && Distinct(res.relationIds)
    && res.nodes.Keys == (set k | k in res.nodeIds)
    && res.ways.Keys == (set k | k in res.wayIds)
    && res.relations.Keys == (set k | k in res.relationIds)
  }

  function GetNode(res: OverpassResult, id: int): (r: Result<Node>)
  {
    if id in res.nodes then Ok(res.nodes[id]) else Err(NotFound(id))
  }

  function GetWay(res: OverpassResult, id: int): (r: Result<Way>)
  {
    if id in res.ways then Ok(res.ways[id]) else Err(NotFound(id))
  }

  function GetRelation(res: OverpassResult, id: int): (r: Result<Relation>)
  {
    if id in res.relations then Ok(res.relations[id]) else Err(NotFound(id))
  }
}
