/**
 * Finding the encounter zone of an actor and the level range it asks for.
 * The three host lookups are given as inputs, in the order they are tried.
 */
module Zones {
  import opened Wrappers
  import opened Types
  import opened Config

  /**
   * An encounter zone: its form id and the minimum and maximum level its data
   * holds. The width of those fields belongs to the host; they are taken as
   * integers and converted to uint16_t as the C++ assignment does.
   */
  datatype Zone = Zone(formId: FormId, minLevel: int, maxLevel: int)

  /**
   * The results of the three lookups: the host's GetEncounterZone function, the
   * actor's extra data, and the loaded data of its cell. None is a null pointer.
   */
  datatype ZoneSources = ZoneSources(fromFunction: Option<Zone>, fromExtraData: Option<Zone>, fromCell: Option<Zone>)

  /** The form id of the host's special zone object that stands for "no zone". */
  const NoZoneFormId: FormId := 0x1E

  predicate IsZone(ez: Option<Zone>) {
    ez.Some? && ez.value.formId != NoZoneFormId
  }

  /** The lookups in priority order. */
  function Chain(src: ZoneSources): (zs: seq<Option<Zone>>)
  {
    [src.fromFunction, src.fromExtraData, src.fromCell]
  }

  /**
   * The actor's zone: the first lookup that found a zone other than the
   * no-zone object, or None when none did.
   */
  function ResolveZone(src: ZoneSources): (ez: Option<Zone>)
    ensures ez.None? <==> forall k :: 0 <= k < 3 ==> !IsZone(Chain(src)[k])
    ensures ez.Some? ==> IsZone(ez)
    ensures ez.Some? ==> exists k :: 0 <= k < 3 && Chain(src)[k] == ez && forall j :: 0 <= j < k ==> !IsZone(Chain(src)[j])
  {
    var zs := Chain(src);
    assert zs[0] == src.fromFunction && zs[1] == src.fromExtraData && zs[2] == src.fromCell;
    assert forall k :: 0 <= k < 3 ==> zs[k] == src.fromFunction || zs[k] == src.fromExtraData || zs[k] == src.fromCell;
    if IsZone(src.fromFunction) then src.fromFunction
    else if IsZone(src.fromExtraData) then src.fromExtraData
    else if IsZone(src.fromCell) then src.fromCell
    else None
  }

  /**
   * minEZ and maxEZ: the zone's levels, or the configured no-zone levels when
   * there is no zone, as uint16_t; the minimum is raised to 1, and a maximum of
   * 0 keeps meaning "no cap".
   */
  function ZoneRange(s: Settings, ez: Option<Zone>): (r: LevelRange)
    ensures r.min >= 1
    ensures var m := ToUInt16(if ez.Some? then ez.value.minLevel else s.noZoneMin); r.min == if m < 1 then 1 else m
    ensures r.max == ToUInt16(if ez.Some? then ez.value.maxLevel else s.noZoneMax)
  {
    var minEZ := ToUInt16(s.noZoneMin);
    var maxEZ := ToUInt16(s.noZoneMax);
    var minEZ := if ez.Some? then ToUInt16(ez.value.minLevel) else minEZ;
    var maxEZ := if ez.Some? then ToUInt16(ez.value.maxLevel) else maxEZ;
    LevelRange(if minEZ < 1 then 1 else minEZ, if maxEZ < 1 then 0 else maxEZ)
  }

  /** A zone whose levels lie in range gives exactly its range, with a minimum of 0 read as 1. */
  lemma ZoneRangeOfZone(s: Settings, z: Zone)
    requires 0 <= z.minLevel < 0x1_0000 && 0 <= z.maxLevel < 0x1_0000
    ensures ZoneRange(s, Some(z)) == LevelRange(if z.minLevel == 0 then 1 else z.minLevel, z.maxLevel)
  {
  }
}
