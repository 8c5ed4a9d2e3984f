/**
 * Properties of the store across several calls: releveling the same template
 * twice gives what releveling it once gave, and restoring after any sequence
 * of processed actors gives every player-levelled template its range from
 * before the plugin touched it.
 */
module Lifecycle {
  import opened Wrappers
  import opened Types
  import opened Config
  import opened Bounds
  import opened Zones
  import opened Manager

  /**
   * A second RelevelActorbase with the same request writes the same range as
   * the first: the range it reads back as the original is still the one
   * before the first call, not the one the first call wrote.
   */
  method RelevelTwice(m: UnlevelManager, base: Template, minLevel: UInt16, maxLevel: UInt16)
    returns (first: LevelRange, second: LevelRange)
    requires CastDefined(minLevel, maxLevel, base.level, m.OriginalOf(base), m.settings)
    modifies m`originalActorBaseLevels, m`dynamicActorBaseLevels, base`calcLevelMin, base`calcLevelMax
    ensures first == second
    ensures first == ComputeBounds(minLevel, maxLevel, base.level, old(m.OriginalOf(base)), m.settings)
  {
    ghost var o0 := m.OriginalOf(base);
    m.RelevelActorbase(base, minLevel, maxLevel);
    first := LevelRange(base.calcLevelMin, base.calcLevelMax);
    ghost var o1 := m.OriginalOf(base);
    ComputeBoundsOnNormalised(minLevel, maxLevel, base.level, o0, m.settings);
    ComputeBoundsOnNormalised(minLevel, maxLevel, base.level, o1, m.settings);
    m.RelevelActorbase(base, minLevel, maxLevel);
    second := LevelRange(base.calcLevelMin, base.calcLevelMax);
  }

  /** An actor handed over by an event, with the zone lookups of its cell (None when not loaded). */
  datatype Event = Event(actor: Actor, cell: Option<ZoneSources>)

  /** A relevel the event may cause has a scaled request that fits in uint16_t. */
  predicate EventFits(s: Settings, e: Event)
  {
    var a := Decide(s, e.actor, e.cell);
    a.Relevel? ==> ScaledFits(a.minLevel, a.maxLevel, e.actor.base.level, s)
  }

  /**
   * The uninstall round trip: original ranges are read at data load, a
   * sequence of actors is processed, then the templates are reset. Every
   * player-levelled template of the form array ends where it started, given
   * distinct form ids and events whose scaled requests fit in uint16_t.
   */
  method ProcessThenRestore(m: UnlevelManager, forms: seq<Template?>, events: seq<Event>)
    requires DistinctLevelledIds(forms)
    requires forall i :: 0 <= i < |events| ==> EventFits(m.settings, events[i])
    modifies m`originalActorBaseLevels, m`dynamicActorBaseLevels
    modifies set t: Template | t in forms
    modifies set i | 0 <= i < |events| :: events[i].actor.base
    ensures forall t: Template :: t in forms && t.hasPCLevelMult ==>
              t.calcLevelMin == old(t.calcLevelMin) && t.calcLevelMax == old(t.calcLevelMax)
  {
    m.OnDataInit(forms);
    forall t: Template | t in forms && t.hasPCLevelMult
      ensures t.formId in m.originalActorBaseLevels
      ensures m.originalActorBaseLevels[t.formId] == ActorbaseData(old(t.calcLevelMin), old(t.calcLevelMax))
    {
      var i :| 0 <= i < |forms| && forms[i] == t;
      SnapshotRecords(forms, i);
    }
    var k := 0;
    while k < |events|
      invariant k <= |events|
      invariant forall t: Template :: t in forms && t.hasPCLevelMult ==>
                  t.formId in m.originalActorBaseLevels
                  && m.originalActorBaseLevels[t.formId] == ActorbaseData(old(t.calcLevelMin), old(t.calcLevelMax))
    {
      var e := events[k];
      assert EventFits(m.settings, e);
      var a := Decide(m.settings, e.actor, e.cell);
      if a.Relevel? {
        ScaledFitsCastDefined(a.minLevel, a.maxLevel, e.actor.base.level, m.OriginalOf(e.actor.base), m.settings);
      }
      m.ProcessActor(e.actor, e.cell);
      k := k + 1;
    }
    m.ResetToOriginal(forms);
  }
}
