# osm-borders converters in Dafny

This project models the converters of osm-borders. They turn OpenStreetMap
elements from an Overpass query result into shapely geometries wrapped in
features:

- a node becomes a point;
- a way becomes a polygon when its first and last node ids agree, and a line otherwise;
- a relation becomes "union of the polygonized outer members minus union of
  the polygonized inner members", or, when no member is labelled inner or
  outer, the union of all members polygonized;
- a relation can also become a multi-line "line soup" of its members.

The shapely calls are symbolic constructors (`Geometry.Geom`). So the proved
facts are about which inputs reach which constructor, and in which order.
A `Feature` is a class that holds a geometry and a tag dictionary. The
dictionary (`Dicts.TagMap`) is an object shared by reference, as a Python dict is.

Files:

- `results.dfy`: `Result`/`Option` and the exceptions the code raises.
- `geometry.dfy`: the symbolic shapely geometries.
- `dicts.dfy`: the tag dictionary object.
- `osm.dfy`: the overpy element model and the query result as id lists plus lookups. `Osm.WellFormed` says a result is what overpy builds: each id list holds exactly its map's keys, with no repeats.
- `overpyshapely.dfy`: the conversion rules (pure functions), the lemmas about them, and the four `get_*_feature` entry points.
- `feature.dfy`: the `Feature` class.

The model follows the code as written:

- A relation member is one of four variants, as in overpy. A node member
  (`RelationNode`) and a way member (`RelationWay`) carry the element they
  resolve to. A relation member (`RelationRelation`) and an area member
  (`RelationArea`) carry only the referenced id.
- The dispatcher resolves only node and way members. A member that is a
  relation or an area is refused with the "unexpected object type" error.
  So nested relations are never recursed into (`UnresolvedMemberFails`).
- There is no cycle guard. None is needed: since relation members are never
  followed, no conversion reaches another relation.
- The code checks no node counts. The only failure on a way is reading the
  first node of a way with no nodes. Python raises IndexError there (`EmptyWay`).
- Ring assembly never fails in this model. Whatever polygonization does is
  inside the symbolic `UnionOfPolygonized`.
- Member order is kept in each role bucket and in the line soup. Whether
  member order affects the unioned area is up to shapely and is not modelled.

## Model

| member | source | states |
|---|---|---|
| `OverToShape.DefaultId` | converters/overpyshapely.py:13-18 | succeeds exactly on a one-element list and returns that element; an empty list fails with "no element"; several ids fail naming all of them |
| `OverToShape.DefaultIdAsWritten` | converters/overpyshapely.py:13-18 | the code as written: succeeds exactly on a one-element list and returns that element; an empty list fails with "no element"; any two or more ids fail with a TypeError from joining integers |
| `OverToShape.AmbiguityRaisesTypeError` | converters/overpyshapely.py:17 | for two ids, the code as written raises the join TypeError, while the intended error names both ids |
| `OverToShape.SelectId` | converters/overpyshapely.py:21-22 | a truthy id is used unchanged; None and 0 are replaced by the default selection, which succeeds exactly on a one-element list |
| `OverToShape.NodeOf` | converters/overpyshapely.py:20-23 | the node is found exactly when the selected id succeeds and is in the result, and it is the node stored under that id; a failed selection passes on its own error (no element, or several ids), and a selected id missing from the result fails with NotFound of that id |
| `OverToShape.WayOf` | converters/overpyshapely.py:26-29 | the same for ways and the way id list, with the same two errors |
| `OverToShape.RelationOf` | converters/overpyshapely.py:32-35 | the same for relations and the relation id list, with the same two errors |
| `OverToShape.WayToShape` | converters/overpyshapely.py:61-65 | fails exactly on a way with no nodes; the result is a Polygon exactly when the first and last node ids agree, and otherwise a LineString; a Polygon's ring has each node's (lon, lat) in node order; a LineString has one Point per node in node order |
| `OverToShape.ClosureDependsOnIdsOnly` | converters/overpyshapely.py:62 | two ways with the same node ids in the same positions get the same Polygon-or-LineString decision, whatever their coordinates |
| `OverToShape.SameSpotDistinctIdsIsLine` | converters/overpyshapely.py:62-65 | end nodes with equal coordinates but different ids give a LineString |
| `OverToShape.NodeToShape` | converters/overpyshapely.py:58-59 | a Point with the node's longitude first and latitude second |
| `OverToShape.ObjToShape` | converters/overpyshapely.py:47-56 | a node gives Point(lon, lat); an area, and a relation or area member, fail with the unexpected-type error; a relation gives a difference or a union (the per-kind cases are `Dispatch` and `MemberResolvesOneLevel`) |
| `OverToShape.MemberToShape` | converters/overpyshapely.py:54-56 | succeeds exactly for a node member and for a way member with at least one node; a node member gives its node's point; relation and area members fail with the unexpected-type error (the full rule is `MemberResolvesOneLevel`) |
| `OverToShape.ConvertMembers` | converters/overpyshapely.py:71 | a success has one geometry per member; a failing first member's error is the result (the full contract is `ConvertMembersSpec`; the same comprehension appears at lines 43, 76 and 83) |
| `OverToShape.RelationToShape` | converters/overpyshapely.py:67-84 | a success is a Difference exactly when some member is inner or outer, with outer and inner unions of one part per member of each bucket; otherwise a union with one part per member (the operands are stated by `RelationWithAreaRoles` and `RelationWithoutAreaRoles`) |
| `OverToShape.RelationToLines` | converters/overpyshapely.py:42-44 | a success is a MultiLineString with one line per member (each line is stated by `RelationLinesPerMember`) |
| `OverToShape.Dispatch` | converters/overpyshapely.py:47-59 | a node gives Point(lon, lat), a way the way rule, a relation the relation rule; an area fails with the unexpected-type error |
| `OverToShape.MemberResolvesOneLevel` | converters/overpyshapely.py:54-56 | a node or way member converts exactly as its resolved element does; relation and area members fail with the unexpected-type error |
| `OverToShape.Pick` | converters/overpyshapely.py:71 | every picked member is a member with the given role, and every member with that role is picked |
| `OverToShape.PickConcat` | converters/overpyshapely.py:71 | picking by role distributes over concatenation, so each bucket keeps member order |
| `OverToShape.PickSkips` | converters/overpyshapely.py:71 | a member whose role differs from the picked one does not change the bucket |
| `OverToShape.ConvertMembersSpec` | converters/overpyshapely.py:71 | converting a member list succeeds exactly when every member converts, and then gives one geometry per member in order; otherwise it fails with the error of the first failing member |
| `OverToShape.RelationWithAreaRoles` | converters/overpyshapely.py:68-79 | with an inner or outer member, the result succeeds exactly when all inner and outer members convert; it is Difference(UnionOfPolygonized(outer shapes), UnionOfPolygonized(inner shapes)), each bucket in member order; an inner failure is the one reported, and when every inner member converts, the first failing outer member's error is reported |
| `OverToShape.RelationWithoutAreaRoles` | converters/overpyshapely.py:81-84 | with no inner or outer member, the result is UnionOfPolygonized of all members' shapes in order, with no subtraction; it succeeds exactly when all members convert |
| `OverToShape.OtherRolesIgnored` | converters/overpyshapely.py:68-79 | once some member is inner or outer, inserting a member with any other role anywhere leaves the result unchanged, even if that member would fail to convert |
| `OverToShape.UnresolvedMemberFails` | converters/overpyshapely.py:54-56 | a relation or area member that the relation rule converts makes the relation fail |
| `OverToShape.RelationLinesPerMember` | converters/overpyshapely.py:43 | the line soup succeeds exactly when every member converts; it is a MultiLineString with one component per member, each equal to that member's conversion, in member order |
| `OverToShape.DefaultSelectionIsFound` | converters/overpyshapely.py:20-35 | in a well-formed result with no id given, a lookup fails only with the selection's own error (none, or several ids); a single candidate id is always found and its element returned |
| `OverToShape.GetNodeFeature` | converters/overpyshapely.py:20-24 | fails exactly as the node selection and lookup fail; otherwise a new feature with the node's point that shares a non-empty tag dictionary, or gets a fresh empty one |
| `OverToShape.GetWayFeature` | converters/overpyshapely.py:26-30 | the lookup error comes first, then the way rule's error; otherwise a new feature with the way's geometry and its tags, as for nodes |
| `OverToShape.GetRelationFeature` | converters/overpyshapely.py:32-36 | the same with the relation rule |
| `OverToShape.GetRelationFeatureMulti` | converters/overpyshapely.py:38-45 | the same with the line soup |
| `Features.Feature.constructor` | converters/feature.py:5-14 | stores the geometry unchanged; adopts a non-empty tag dictionary itself (aliased); a missing or empty one is replaced by a fresh empty dictionary |
| `Features.Feature.SetTag` | converters/feature.py:16-17 | the key now maps to the value, overwriting an earlier one; every other key keeps its presence and value |
| `Features.Feature.GetTag` | converters/feature.py:19-20 | succeeds exactly when the key is present and returns its value; a missing key fails with a key error |
| `Features.Feature.Geojson` | converters/feature.py:22-28 | type "Feature", the current geometry, and the live tag dictionary as properties |
| `Features.Feature.Tags` | converters/feature.py:30-32 | returns the live tag dictionary |
| `Features.SetTagThroughFeature` | converters/feature.py:11-20 | a tag set through a feature changes the element's own non-empty dictionary in place, and does not touch an empty one; get_tag, tags and geojson then show the value |

## Left out

- The shapely operations (`polygonize_full`, `cascaded_union`, `difference`, the `Polygon`, `LineString`, `MultiLineString` and `Point` constructors, `mapping`) are symbolic constructors. They are foreign floating-point geometry, so nothing is proved about areas, ring closure or validity, and their own exceptions (for example too few coordinates for a ring) are not modelled.
- Coordinates are integers, not floats; only their equality and order of placement matter here.
- The overpy lookups (`get_node`, `get_way`, `get_relation`, `node_ids`, `way_ids`, `relation_ids`) are given as maps and id lists. A missing id fails with `NotFound`; the library's own exception type and its `resolve_missing` fetching are not modelled.
- `RelationNode.resolve()` and `RelationWay.resolve()` are the node or way the member carries. A referenced element missing from the result (a library exception) is not modelled, and neither is the way's own lookup of its nodes.
- The text of the error messages is not modelled; only which error is raised.
- `Feature.constructor`'s `isinstance` assertion on the geometry is enforced by the parameter's type, not checked at run time.
- `Features.Feature.Geojson`: the geometry is exported as the symbolic value, not as shapely's GeoJSON mapping of it.

## Findings

| source | as written | input that shows it | evidently intended | confidence | as-written member | corrected member |
|---|---|---|---|---|---|---|
| converters/overpyshapely.py:17 | `", ".join(lst)` joins a list of integer ids, so building the message raises TypeError | a result with two relations, ids 1 and 2, and no id given: the call raises TypeError instead of the ValueError listing the ids | a ValueError that names the conflicting ids | high; not executed (overpy's id lists hold ints) | `OverToShape.DefaultIdAsWritten` (shown by `OverToShape.AmbiguityRaisesTypeError`) | `OverToShape.DefaultId` |

`OverToShape.SelectId` and the four entry points use the corrected
`OverToShape.DefaultId`. So with two candidate ids and no id given, the model
fails with `Ambiguous([1, 2])`, where the code as written raises the TypeError.
