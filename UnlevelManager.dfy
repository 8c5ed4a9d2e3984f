/**
 * The store of original level ranges and the per-actor releveling it backs.
 * Persistent records are keyed by the form id of a template from the loaded
 * plugins; records of templates created at run time (dynamic form ids) also
 * remember the range written and the object written to, because the host
 * reuses those ids for other objects.
 */
module Manager {
  import opened Wrappers
  import opened Types
  import opened Config
  import opened Bounds
  import opened Eligibility
  import opened Zones

  /** A dynamic record (dynamicData): the original range, the range written, and the template written to. */
  datatype DynamicData = DynamicData(
    originalMin: UInt16, originalMax: UInt16, modifiedMin: UInt16, modifiedMax: UInt16, pointer: Template)

  /**
   * What ResetActorbase leaves in a template with the given record. As the
   * source is written, its test compares calcLevelMin with the record twice,
   * so a template whose minimum already matches keeps a drifted maximum.
   */
  function ResetOutcome(record: Option<ActorbaseData>, current: LevelRange): (r: LevelRange)
    ensures record.Some? && current.min != record.value.originalMin ==>
              r == LevelRange(record.value.originalMin, record.value.originalMax)
    ensures record.None? || current.min == record.value.originalMin ==> r == current
  {
    if record.Some? && (current.min != record.value.originalMin || current.min != record.value.originalMin) then
      LevelRange(record.value.originalMin, record.value.originalMax)
    else current
  }

  /** A template whose maximum alone was changed is not restored by ResetActorbase. */
  lemma ResetMissesMaximumOnlyChange(record: ActorbaseData, current: LevelRange)
    requires current.min == record.originalMin && current.max != record.originalMax
    ensures ResetOutcome(Some(record), current) != LevelRange(record.originalMin, record.originalMax)
  {
  }

  /** What ProcessActor does to an actor's template. */
  datatype Action = Untouched | Reset | Relevel(minLevel: UInt16, maxLevel: UInt16)

  /**
   * The decision ProcessActor takes. cell is None when the actor has no parent
   * cell or the cell has no loaded data; otherwise it holds the three zone lookups.
   */
  function Decide(s: Settings, actor: Actor, cell: Option<ZoneSources>): (a: Action)
    ensures !StaticAllows(s, actor.base) ==> a == Untouched
    ensures StaticAllows(s, actor.base) && (!Filter(s, actor) || s.manualUninstall) ==> a == Reset
    ensures StaticAllows(s, actor.base) && Filter(s, actor) && !s.manualUninstall ==> (a == Untouched <==> cell.None?)
    ensures StaticAllows(s, actor.base) && Filter(s, actor) && !s.manualUninstall && cell.Some? ==>
              (a == Reset <==> ResolveZone(cell.value).None? && s.noZoneSkip)
    ensures a.Relevel? ==> cell.Some? && LevelRange(a.minLevel, a.maxLevel) == ZoneRange(s, ResolveZone(cell.value))
    ensures a.Relevel? ==> a.minLevel >= 1
  {
    if !StaticAllows(s, actor.base) then Untouched
    else if !Filter(s, actor) || s.manualUninstall then Reset
    else if cell.None? then Untouched
    else
      var ez := ResolveZone(cell.value);
      if ez.None? && s.noZoneSkip then Reset
      else
        var r := ZoneRange(s, ez);
        Relevel(r.min, r.max)
  }

  /**
   * With the default settings (iNoZoneSkip on), an eligible actor in a loaded
   * cell without an encounter zone is reset rather than given the no-zone levels.
   */
  lemma DefaultsResetZoneless(actor: Actor, src: ZoneSources)
    requires StaticAllows(Defaults, actor.base) && Filter(Defaults, actor)
    requires ResolveZone(src).None?
    ensures Decide(Defaults, actor, Some(src)) == Reset
  {
  }

  /** With the default settings, followers are never relevelled, whatever their cell. */
  lemma DefaultsLeaveFollowers(actor: Actor, cell: Option<ZoneSources>)
    requires actor.isPlayerTeammate
    ensures !Decide(Defaults, actor, cell).Relevel?
  {
  }

  /** The form array of the host: every entry a template or null. */
  function Snapshot(forms: seq<Template?>): (m: map<FormId, ActorbaseData>)
    reads forms
    ensures forall id :: id in m <==>
              exists i :: 0 <= i < |forms| && forms[i] != null && forms[i].hasPCLevelMult && forms[i].formId == id
    decreases |forms|
  {
    if forms == [] then map[]
    else
      var t := forms[|forms| - 1];
      var m := Snapshot(forms[..|forms| - 1]);
      if t != null && t.hasPCLevelMult then m[t.formId := ActorbaseData(t.calcLevelMin, t.calcLevelMax)] else m
  }

  /** No two player-levelled templates of the form array share a form id. */
  predicate DistinctLevelledIds(forms: seq<Template?>)
  {
    forall j, k ::
      (0 <= j < k < |forms| && forms[j] != null && forms[k] != null
       && forms[j].hasPCLevelMult && forms[k].hasPCLevelMult) ==> forms[j].formId != forms[k].formId
  }

  /** With distinct ids, the snapshot records every player-levelled template's current range. */
  lemma {:induction false} SnapshotRecords(forms: seq<Template?>, i: nat)
    requires DistinctLevelledIds(forms)
    requires i < |forms| && forms[i] != null && forms[i].hasPCLevelMult
    ensures forms[i].formId in Snapshot(forms)
    ensures Snapshot(forms)[forms[i].formId] == ActorbaseData(forms[i].calcLevelMin, forms[i].calcLevelMax)
    decreases |forms|
  {
    var n := |forms| - 1;
    var prefix := forms[..n];
    if i < n {
      assert DistinctLevelledIds(prefix) by {
        forall j, k | 0 <= j < k < |prefix| && prefix[j] != null && prefix[k] != null
          && prefix[j].hasPCLevelMult && prefix[k].hasPCLevelMult
          ensures prefix[j].formId != prefix[k].formId
        {
          assert prefix[j] == forms[j] && prefix[k] == forms[k];
        }
      }
      SnapshotRecords(prefix, i);
      assert prefix[i] == forms[i];
    }
  }

  class UnlevelManager {
    const settings: Settings
    var originalActorBaseLevels: map<FormId, ActorbaseData>
    var dynamicActorBaseLevels: map<FormId, DynamicData>

    constructor (settings: Settings)
      ensures this.settings == settings
      ensures originalActorBaseLevels == map[] && dynamicActorBaseLevels == map[]
    {
      this.settings := settings;
      originalActorBaseLevels := map[];
      dynamicActorBaseLevels := map[];
    }

    /** A dynamic record is trusted only while the template still holds what was written, and is the same object. */
    predicate DynamicDataIsValid(base: Template)
      reads this, base
    {
      && base.formId in dynamicActorBaseLevels
      && dynamicActorBaseLevels[base.formId].modifiedMin == base.calcLevelMin
      && dynamicActorBaseLevels[base.formId].modifiedMax == base.calcLevelMax
      && dynamicActorBaseLevels[base.formId].pointer == base
    }

    /**
     * The original range of a template as the store reports it now: a trusted
     * dynamic record, a persistent record, or else the template's current range.
     */
    function OriginalOf(base: Template): (o: ActorbaseData)
      reads this, base
      ensures !IsDynamic(base.formId) && base.formId in originalActorBaseLevels ==> o == originalActorBaseLevels[base.formId]
      ensures (if IsDynamic(base.formId) then !DynamicDataIsValid(base) else base.formId !in originalActorBaseLevels) ==>
                o == ActorbaseData(base.calcLevelMin, base.calcLevelMax)
    {
      if IsDynamic(base.formId) then
        if DynamicDataIsValid(base) then
          ActorbaseData(dynamicActorBaseLevels[base.formId].originalMin, dynamicActorBaseLevels[base.formId].originalMax)
        else ActorbaseData(base.calcLevelMin, base.calcLevelMax)
      else if base.formId in originalActorBaseLevels then originalActorBaseLevels[base.formId]
      else ActorbaseData(base.calcLevelMin, base.calcLevelMax)
    }

    /** A template with a persistent record, among those ResetToOriginal considers. */
    predicate HasRecord(t: Template)
      reads this
    {
      t.hasPCLevelMult && t.formId in originalActorBaseLevels
    }

    /** The template holds its persistent record. */
    predicate Restored(t: Template)
      reads this, t
    {
      && t.formId in originalActorBaseLevels
      && t.calcLevelMin == originalActorBaseLevels[t.formId].originalMin
      && t.calcLevelMax == originalActorBaseLevels[t.formId].originalMax
    }

    /** Persistent records, once made, are never changed or dropped. */
    twostate predicate KeepsRecords()
      reads this
    {
      forall id :: id in old(originalActorBaseLevels) ==>
        id in originalActorBaseLevels && originalActorBaseLevels[id] == old(originalActorBaseLevels)[id]
    }

    /** SetActorBaseData: writes the new range, and for a dynamic template remembers what was written. */
    method SetActorBaseData(base: Template, originalMin: UInt16, originalMax: UInt16, min: UInt16, max: UInt16)
      modifies this`dynamicActorBaseLevels, base`calcLevelMin, base`calcLevelMax
      ensures base.calcLevelMin == min && base.calcLevelMax == max
      ensures dynamicActorBaseLevels == if IsDynamic(base.formId)
        then old(dynamicActorBaseLevels)[base.formId := DynamicData(originalMin, originalMax, min, max, base)]
        else old(dynamicActorBaseLevels)
    {
      var baseFormID := base.formId;
      if IsDynamic(baseFormID) {
        dynamicActorBaseLevels := dynamicActorBaseLevels[baseFormID := DynamicData(originalMin, originalMax, min, max, base)];
      }
      base.calcLevelMin := min;
      base.calcLevelMax := max;
    }

    /**
     * GetOriginalActorBaseData: the template's original range. A persistent
     * record is made the first time a non-dynamic template is seen; a dynamic
     * record that no longer describes the template is dropped.
     */
    method GetOriginalActorBaseData(base: Template) returns (r: ActorbaseData)
      modifies this`originalActorBaseLevels, this`dynamicActorBaseLevels
      ensures r == old(OriginalOf(base))
      ensures originalActorBaseLevels == if IsDynamic(base.formId) then old(originalActorBaseLevels)
        else old(originalActorBaseLevels)[base.formId := r]
      ensures dynamicActorBaseLevels == if IsDynamic(base.formId) && !old(DynamicDataIsValid(base))
        then old(dynamicActorBaseLevels) - {base.formId}
        else old(dynamicActorBaseLevels)
      ensures KeepsRecords()
    {
      var baseFormID := base.formId;
      var originalMin: UInt16 := 0;
      var originalMax: UInt16 := 0;
      if IsDynamic(baseFormID) {
        var dynamicDataIsValid := false;
        if baseFormID in dynamicActorBaseLevels {
          var tmp := dynamicActorBaseLevels[baseFormID];
          if tmp.modifiedMin == base.calcLevelMin && tmp.modifiedMax == base.calcLevelMax && tmp.pointer == base {
            dynamicDataIsValid := true;
          } else {
            dynamicActorBaseLevels := dynamicActorBaseLevels - {baseFormID};
          }
        }
        if !dynamicDataIsValid {
          originalMin := base.calcLevelMin;
          originalMax := base.calcLevelMax;
        } else {
          var tmp := dynamicActorBaseLevels[baseFormID];
          originalMin := tmp.originalMin;
          originalMax := tmp.originalMax;
        }
      } else {
        if baseFormID !in originalActorBaseLevels {
          originalMin := base.calcLevelMin;
          originalMax := base.calcLevelMax;
          originalActorBaseLevels := originalActorBaseLevels[baseFormID := ActorbaseData(originalMin, originalMax)];
        } else {
          var tmp := originalActorBaseLevels[baseFormID];
          originalMin := tmp.originalMin;
          originalMax := tmp.originalMax;
        }
      }
      r := ActorbaseData(originalMin, originalMax);
    }

    /**
     * ResetToOriginal: every player-levelled template of the form array that
     * has a persistent record is given its recorded range; all others keep theirs.
     */
    method ResetToOriginal(forms: seq<Template?>)
      modifies set t: Template | t in forms
      ensures forall t: Template :: t in forms && HasRecord(t) ==> Restored(t)
      ensures forall t: Template :: t in forms && !HasRecord(t) ==>
                t.calcLevelMin == old(t.calcLevelMin) && t.calcLevelMax == old(t.calcLevelMax)
    {
      var i := 0;
      while i < |forms|
        invariant i <= |forms|
        invariant forall t: Template :: t in forms && !HasRecord(t) ==>
                    t.calcLevelMin == old(t.calcLevelMin) && t.calcLevelMax == old(t.calcLevelMax)
        invariant forall j :: 0 <= j < i && forms[j] != null && HasRecord(forms[j]) ==> Restored(forms[j])
      {
        var npc := forms[i];
        if npc != null && npc.hasPCLevelMult {
          var baseFormID := npc.formId;
          if baseFormID in originalActorBaseLevels {
            var tmp := originalActorBaseLevels[baseFormID];
            if npc.calcLevelMin != tmp.originalMin || npc.calcLevelMax != tmp.originalMax {
              npc.calcLevelMin := tmp.originalMin;
              npc.calcLevelMax := tmp.originalMax;
            }
          }
        }
        i := i + 1;
      }
      forall t: Template | t in forms && HasRecord(t) ensures Restored(t) {
        var j :| 0 <= j < |forms| && forms[j] == t;
      }
    }

    /** ReadOriginalData: records the current range of every player-levelled template of the form array. */
    method ReadOriginalData(forms: seq<Template?>)
      modifies this`originalActorBaseLevels
      ensures originalActorBaseLevels == old(originalActorBaseLevels) + Snapshot(forms)
    {
      var i := 0;
      while i < |forms|
        invariant i <= |forms|
        invariant originalActorBaseLevels == old(originalActorBaseLevels) + Snapshot(forms[..i])
      {
        var npc := forms[i];
        assert forms[..i + 1][..i] == forms[..i];
        if npc != null && npc.hasPCLevelMult {
          originalActorBaseLevels := originalActorBaseLevels[npc.formId := ActorbaseData(npc.calcLevelMin, npc.calcLevelMax)];
        }
        i := i + 1;
      }
      assert forms[..i] == forms;
    }

    /** ResetActorbase: puts a template back to its persistent record, under the test as written. */
    method ResetActorbase(base: Template)
      modifies base`calcLevelMin, base`calcLevelMax
      ensures LevelRange(base.calcLevelMin, base.calcLevelMax)
        == ResetOutcome(Get(originalActorBaseLevels, base.formId), old(LevelRange(base.calcLevelMin, base.calcLevelMax)))
    {
      var baseFormID := base.formId;
      if baseFormID in originalActorBaseLevels {
        var tmp := originalActorBaseLevels[baseFormID];
        if base.calcLevelMin != tmp.originalMin || base.calcLevelMin != tmp.originalMin {
          base.calcLevelMin := tmp.originalMin;
          base.calcLevelMax := tmp.originalMax;
        }
      }
    }

    /**
     * RelevelActorbase: looks up the template's original range and writes the
     * range ComputeBounds derives from it and from the requested range.
     */
    method RelevelActorbase(base: Template, minLevel: UInt16, maxLevel: UInt16)
      requires CastDefined(minLevel, maxLevel, base.level, OriginalOf(base), settings)
      modifies this`originalActorBaseLevels, this`dynamicActorBaseLevels, base`calcLevelMin, base`calcLevelMax
      ensures LevelRange(base.calcLevelMin, base.calcLevelMax)
        == ComputeBounds(minLevel, maxLevel, base.level, old(OriginalOf(base)), settings)
      ensures originalActorBaseLevels == if IsDynamic(base.formId) then old(originalActorBaseLevels)
        else old(originalActorBaseLevels)[base.formId := old(OriginalOf(base))]
      ensures dynamicActorBaseLevels == if IsDynamic(base.formId)
        then old(dynamicActorBaseLevels)[base.formId := DynamicData(
          NormalisedOriginal(old(OriginalOf(base))).originalMin, NormalisedOriginal(old(OriginalOf(base))).originalMax,
          base.calcLevelMin, base.calcLevelMax, base)]
        else old(dynamicActorBaseLevels)
      ensures KeepsRecords()
      ensures NormalisedOriginal(OriginalOf(base)) == NormalisedOriginal(old(OriginalOf(base)))
    {
      var original := GetOriginalActorBaseData(base);
      var normalised, range := RelevelBounds(minLevel, maxLevel, base.level, original, settings);
      SetActorBaseData(base, normalised.originalMin, normalised.originalMax, range.min, range.max);
    }

    /** OnDataInit: the original ranges are read once game data is loaded. */
    method OnDataInit(forms: seq<Template?>)
      modifies this`originalActorBaseLevels
      ensures originalActorBaseLevels == old(originalActorBaseLevels) + Snapshot(forms)
    {
      ReadOriginalData(forms);
    }

    /** OnPreLoad: templates are restored and, since dynamic ids are recycled, every dynamic record is dropped. */
    method OnPreLoad(forms: seq<Template?>)
      modifies this`dynamicActorBaseLevels, set t: Template | t in forms
      ensures forall t: Template :: t in forms && HasRecord(t) ==> Restored(t)
      ensures forall t: Template :: t in forms && !HasRecord(t) ==>
                t.calcLevelMin == old(t.calcLevelMin) && t.calcLevelMax == old(t.calcLevelMax)
      ensures dynamicActorBaseLevels == map[]
    {
      ResetToOriginal(forms);
      dynamicActorBaseLevels := map[];
    }

    /** OnPostLoad: with manual uninstall set, the levels just loaded from the save are restored again. */
    method OnPostLoad(forms: seq<Template?>)
      modifies set t: Template | t in forms
      ensures settings.manualUninstall ==> forall t: Template :: t in forms && HasRecord(t) ==> Restored(t)
      ensures forall t: Template :: t in forms && (!settings.manualUninstall || !HasRecord(t)) ==>
                t.calcLevelMin == old(t.calcLevelMin) && t.calcLevelMax == old(t.calcLevelMax)
    {
      if settings.manualUninstall {
        ResetToOriginal(forms);
      }
    }

    /**
     * ProcessActor: releases an ineligible actor's template back to its
     * record, and relevels an eligible actor in a loaded cell to its zone.
     */
    method ProcessActor(actor: Actor, cell: Option<ZoneSources>)
      requires Decide(settings, actor, cell).Relevel? ==>
        CastDefined(Decide(settings, actor, cell).minLevel, Decide(settings, actor, cell).maxLevel,
                    actor.base.level, OriginalOf(actor.base), settings)
      modifies this`originalActorBaseLevels, this`dynamicActorBaseLevels, actor.base`calcLevelMin, actor.base`calcLevelMax
      ensures KeepsRecords()
      ensures Decide(settings, actor, cell) == Untouched ==> unchanged(this, actor.base)
      ensures Decide(settings, actor, cell) == Reset ==>
        && unchanged(this)
        && LevelRange(actor.base.calcLevelMin, actor.base.calcLevelMax)
           == ResetOutcome(Get(originalActorBaseLevels, actor.base.formId),
                           old(LevelRange(actor.base.calcLevelMin, actor.base.calcLevelMax)))
      ensures Decide(settings, actor, cell).Relevel? ==>
        && LevelRange(actor.base.calcLevelMin, actor.base.calcLevelMax)
           == ComputeBounds(Decide(settings, actor, cell).minLevel, Decide(settings, actor, cell).maxLevel,
                            actor.base.level, old(OriginalOf(actor.base)), settings)
        && originalActorBaseLevels == (if IsDynamic(actor.base.formId) then old(originalActorBaseLevels)
             else old(originalActorBaseLevels)[actor.base.formId := old(OriginalOf(actor.base))])
        && dynamicActorBaseLevels == (if IsDynamic(actor.base.formId)
             then old(dynamicActorBaseLevels)[actor.base.formId := DynamicData(
               NormalisedOriginal(old(OriginalOf(actor.base))).originalMin,
               NormalisedOriginal(old(OriginalOf(actor.base))).originalMax,
               actor.base.calcLevelMin, actor.base.calcLevelMax, actor.base)]
             else old(dynamicActorBaseLevels))
        && NormalisedOriginal(OriginalOf(actor.base)) == NormalisedOriginal(old(OriginalOf(actor.base)))
    {
      var base := actor.base;
      var pass := StaticFilter(settings, base);
      if !pass {
        return;
      }
      if !Filter(settings, actor) || settings.manualUninstall {
        // the actor may have been relevelled earlier, before it became a follower
        ResetActorbase(base);
        return;
      }
      if cell.None? {
        return;
      }
      var ez := ResolveZone(cell.value);
      if ez.None? && settings.noZoneSkip {
        ResetActorbase(base);
        return;
      }
      var range := ZoneRange(settings, ez);
      RelevelActorbase(base, range.min, range.max);
    }
  }
}
