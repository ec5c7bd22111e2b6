/** HighwayAccessCheck: flags a way whose access tag is "yes" or "permissive" when its highway
    type is a motorway-like road (instruction 0) or a footway-like road (instruction 1). */
module HighwayAccess {
  import opened Atlas

  const AccessTagsToFlag: seq<string> := ["yes", "permissive"]

  const MotorwayHighwayTags: seq<string> := ["motorway", "trunk"]

  const FootwayHighwayTags: seq<string> :=
    ["footway", "bridleway", "steps", "path", "cycleway", "pedestrian", "track", "bus_guideway",
     "busway", "raceway"]

  /** `List.contains` on a tag: case-sensitive, and false for an absent (null) tag. */
  predicate Listed(tag: Option<string>, list: seq<string>)
  {
    tag.Some? && tag.value in list
  }

  /** No highway type is both motorway-like and footway-like. */
  lemma HighwayListsDisjoint(highway: Option<string>)
    ensures !(Listed(highway, MotorwayHighwayTags) && Listed(highway, FootwayHighwayTags))
  {
  }

  /** The decision of `flag` as the instruction index chosen, if any. */
  function AccessVerdict(access: Option<string>, highway: Option<string>): (r: Option<nat>)
    ensures r.Some? ==> Listed(access, AccessTagsToFlag)
    ensures r == Some(0) <==> Listed(access, AccessTagsToFlag) && Listed(highway, MotorwayHighwayTags)
    ensures r == Some(1) <==> Listed(access, AccessTagsToFlag) && Listed(highway, FootwayHighwayTags)
    ensures r.None? <==>
      (!Listed(access, AccessTagsToFlag) ||
       (!Listed(highway, MotorwayHighwayTags) && !Listed(highway, FootwayHighwayTags)))
  {
    if Listed(access, AccessTagsToFlag) then
      if Listed(highway, MotorwayHighwayTags) then Some(0)
      else if Listed(highway, FootwayHighwayTags) then Some(1)
      else None
    else None
  }

  /** The access match is case-sensitive: "YES" is not "yes". */
  lemma AccessMatchIsCaseSensitive()
    ensures AccessVerdict(Some("YES"), Some("motorway")) == None
    ensures AccessVerdict(Some("yes"), Some("motorway")) == Some(0)
  {
    assert "YES" != "yes" by {
      assert "YES"[0] != "yes"[0];
    }
  }

  class HighwayAccessCheck {
    const flags: FlagRegistry

    constructor()
      ensures fresh(flags) && flags.ids == {}
    {
      flags := new FlagRegistry();
    }

    /** `validCheckForObject`: an unflagged main edge. */
    predicate ValidCheckForObject(obj: AtlasObject)
      reads flags
      ensures ValidCheckForObject(obj) ==> obj.EdgeObject? && obj.edge.isMain
      ensures obj.OsmIdentifier() in flags.ids ==> !ValidCheckForObject(obj)
    {
      !flags.IsFlagged(obj.OsmIdentifier()) && (obj.EdgeObject? && obj.edge.isMain)
    }

    /** `flag`: marks the OSM id whatever the verdict, then decides on the object's tags. */
    method Flag(obj: AtlasObject) returns (r: Option<nat>)
      modifies flags
      ensures flags.ids == old(flags.ids) + {obj.OsmIdentifier()}
      ensures forall o: AtlasObject :: o.OsmIdentifier() == obj.OsmIdentifier() ==> !ValidCheckForObject(o)
      ensures r == AccessVerdict(obj.AccessTag(), obj.HighwayTag())
    {
      flags.MarkAsFlagged(obj.OsmIdentifier());
      var accessTag := obj.AccessTag();
      var highwayTag := obj.HighwayTag();
      if Listed(accessTag, AccessTagsToFlag) {
        if Listed(highwayTag, MotorwayHighwayTags) {
          return Some(0);
        }
        if Listed(highwayTag, FootwayHighwayTags) {
          return Some(1);
        }
      }
      return None;
    }
  }
}
