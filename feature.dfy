/** The output feature: a geometry plus a tag dictionary that callers may amend. */
module Features {
  import opened Results
  import opened Geometry
  import opened Dicts

  /** The GeoJSON-shaped export: a type tag, the geometry and the tag dictionary itself. */
  datatype GeoJson = GeoJson(kind: string, geometry: Geom, properties: TagMap)

  class Feature {
    var geometry: Geom
    var tagMap: TagMap

    /**
     * A non-empty dictionary is adopted as it is (shared with the caller);
     * a missing or empty one is replaced by a fresh empty dictionary.
     * The geometry argument is typed, so it is always a geometry.
     */
    constructor (geometry: Geom, tags: TagMap?)
      ensures this.geometry == geometry
      ensures tags != null && tags.entries != map[] ==> tagMap == tags
      ensures tags == null || tags.entries == map[] ==> fresh(tagMap) && tagMap.entries == map[]
    {
      var adopted: TagMap;
      if tags != null && tags.entries != map[] {
        adopted := tags;
      } else {
        adopted := new TagMap(map[]);
      }
      this.geometry := geometry;
      tagMap := adopted;
    }

    /** Sets one tag, overwriting an earlier value, and leaves every other tag as it was. */
    method SetTag(key: string, value: string)
      modifies tagMap
      ensures tagMap.entries == old(tagMap.entries)[key := value]
      // the two clauses below follow from the one above; they spell out
      // "every other tag is left as it was"
      ensures forall k :: k != key ==> (k in tagMap.entries <==> k in old(tagMap.entries))
      ensures forall k :: k != key && k in old(tagMap.entries) ==> tagMap.entries[k] == old(tagMap.entries)[k]
    {
      tagMap.entries := tagMap.entries[key := value];
    }

    /** Reads one tag; a key that is not set fails. */
    method GetTag(key: string) returns (r: Result<string>)
      ensures r.Ok? <==> key in tagMap.entries
      ensures r.Ok? ==> r.value == tagMap.entries[key]
      ensures r.Err? ==> r.error == MissingTag(key)
    {
      if key in tagMap.entries {
        r := Ok(tagMap.entries[key]);
      } else {
        r := Err(MissingTag(key));
      }
    }

    /** The export carries the current geometry and the live tag dictionary. */
    method Geojson() returns (g: GeoJson)
      ensures g.kind == "Feature"
      ensures g.geometry == geometry && g.properties == tagMap
    {
      g := GeoJson("Feature", geometry, tagMap);
    }

    /** The live tag dictionary, so it reflects every earlier SetTag. */
    method Tags() returns (t: TagMap)
      ensures t == tagMap
    {
      t := tagMap;
    }
  }

  /**
   * A caller that hands an element's tag dictionary to a new feature and sets
   * a tag through the feature: a non-empty dictionary is changed in place, an
   * empty one is left alone; reading the tag back, the tag dictionary and
   * the export all show the value set.
   */
  method SetTagThroughFeature(geometry: Geom, tags: TagMap, key: string, value: string)
    returns (f: Feature, readBack: Result<string>, current: TagMap, exported: GeoJson)
    modifies tags
    ensures old(tags.entries) != map[] ==> f.tagMap == tags && tags.entries == old(tags.entries)[key := value]
    ensures old(tags.entries) == map[] ==> tags.entries == map[] && f.tagMap.entries == map[key := value]
    ensures readBack == Ok(value)
    ensures key in current.entries && current.entries[key] == value
    ensures exported.kind == "Feature" && exported.geometry == geometry && exported.properties == current
  {
    f := new Feature(geometry, tags);
    f.SetTag(key, value);
    readBack := f.GetTag(key);
    current := f.Tags();
    exported := f.Geojson();
  }
}
