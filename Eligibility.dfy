/**
 * Which actors the plugin may relevel: the static test on the template
 * (player-levelled, and allowed by the plugin filter) and the per-event test
 * on the actor (uniques, summons, followers).
 */
module Eligibility {
  import opened Wrappers
  import opened Types
  import opened Config

  /** One of the three lists names the file list: its master file, its winning file, or any file in it. */
  predicate Listed(s: Settings, files: FileList)
  {
    || files[0] in s.pluginFilterMasterList
    || files[|files| - 1] in s.pluginFilterWinningList
    || exists i :: 0 <= i < |files| && files[i] in s.pluginFilterAnyList
  }

  /**
   * What the plugin filter decides. With the filter off, or with no known file
   * list, every template passes; otherwise a listed template is rejected, or,
   * inverted, only a listed template passes.
   */
  predicate PluginAllows(s: Settings, base: Template)
    ensures !s.UsePluginFilter() || base.sourceFiles.None? ==> PluginAllows(s, base)
  {
    !s.UsePluginFilter() || base.sourceFiles.None? || Listed(s, base.sourceFiles.value) == s.pluginFilterInvert
  }

  /** PluginFilter: the two search loops over the template's file list. */
  method PluginFilter(s: Settings, base: Template) returns (pass: bool)
    ensures pass == PluginAllows(s, base)
  {
    if !s.UsePluginFilter() {
      return true;
    }
    if base.sourceFiles.None? {
      // the host reports that the file list cannot be found, and the template passes
      return true;
    }
    var files := base.sourceFiles.value;
    var first := 0;
    var last := |files| - 1;
    var fileNameMaster := files[first];
    var fileNameWinning := files[last];
    if !s.pluginFilterInvert {
      if fileNameMaster in s.pluginFilterMasterList {
        return false;
      }
      if fileNameWinning in s.pluginFilterWinningList {
        return false;
      }
      if |s.pluginFilterAnyList| > 0 {
        var i := first;
        while i <= last
          invariant first <= i <= last + 1
          invariant forall k :: first <= k < i ==> files[k] !in s.pluginFilterAnyList
        {
          if files[i] in s.pluginFilterAnyList {
            return false;
          }
          i := i + 1;
        }
      }
    } else {
      var included := false;
      if fileNameMaster in s.pluginFilterMasterList {
        included := true;
      } else if fileNameWinning in s.pluginFilterWinningList {
        included := true;
      } else if |s.pluginFilterAnyList| > 0 {
        var i := first;
        while i <= last
          invariant first <= i <= last + 1
          invariant !included
          invariant forall k :: first <= k < i ==> files[k] !in s.pluginFilterAnyList
        {
          if files[i] in s.pluginFilterAnyList {
            included := true;
            break;
          }
          i := i + 1;
        }
      }
      if !included {
        return false;
      }
    }
    return true;
  }

  /** The static test: only player-levelled templates the plugin filter allows. */
  predicate StaticAllows(s: Settings, base: Template)
  {
    base.hasPCLevelMult && PluginAllows(s, base)
  }

  /** StaticFilter. */
  method StaticFilter(s: Settings, base: Template) returns (pass: bool)
    ensures pass == StaticAllows(s, base)
  {
    if !base.hasPCLevelMult {
      return false;
    }
    pass := PluginFilter(s, base);
  }

  /**
   * Filter: uniques and followers are rejected unless the settings include
   * them; a summon (an actor with a commanding actor whose template is
   * summonable) is rejected unless summons are included, and, when summons are
   * treated like their owner, whenever its owner is rejected.
   */
  predicate Filter(s: Settings, actor: Actor)
    decreases actor
    ensures Filter(s, actor) ==> s.relevelUniques || !actor.base.isUnique
    ensures Filter(s, actor) ==> s.relevelFollowers || !actor.isPlayerTeammate
    ensures Filter(s, actor) && actor.commandingActor.Some? && actor.base.isSummonable ==> s.relevelSummons
    ensures actor.commandingActor.None? || !actor.base.isSummonable ==>
              (Filter(s, actor) <==>
                 (s.relevelUniques || !actor.base.isUnique) && (s.relevelFollowers || !actor.isPlayerTeammate))
    ensures actor.commandingActor.Some? && actor.base.isSummonable && s.relevelSummons ==>
              (Filter(s, actor) <==>
                 && (!s.treatSummonsLikeOwner || Filter(s, actor.commandingActor.value))
                 && (s.relevelUniques || !actor.base.isUnique)
                 && (s.relevelFollowers || !actor.isPlayerTeammate))
  {
    if !s.relevelUniques && actor.base.isUnique then false
    else if actor.commandingActor.Some? && actor.base.isSummonable
            && (!s.relevelSummons || (s.treatSummonsLikeOwner && !Filter(s, actor.commandingActor.value))) then false
    else if !s.relevelFollowers && actor.isPlayerTeammate then false
    else true
  }

  /**
   * The k-th owner up a chain of summons: each step goes from a summonable
   * template's actor to its commanding actor. None when the chain ends earlier.
   */
  function SummonOwner(actor: Actor, k: nat): (o: Option<Actor>)
    decreases k
  {
    if k == 0 then Some(actor)
    else if actor.commandingActor.Some? && actor.base.isSummonable then SummonOwner(actor.commandingActor.value, k - 1)
    else None
  }

  /** With summons treated like their owner, a summon whose owner is rejected is rejected. */
  lemma SummonOfRejectedOwnerRejected(s: Settings, actor: Actor)
    requires s.relevelSummons && s.treatSummonsLikeOwner
    requires actor.commandingActor.Some? && actor.base.isSummonable
    requires !Filter(s, actor.commandingActor.value)
    ensures !Filter(s, actor)
  {
  }

  /** The same holds along a whole chain of summons: a rejected owner anywhere above rejects the summon. */
  lemma {:induction false} RejectedSummonerRejects(s: Settings, actor: Actor, k: nat)
    requires s.relevelSummons && s.treatSummonsLikeOwner
    requires SummonOwner(actor, k).Some? && !Filter(s, SummonOwner(actor, k).value)
    ensures !Filter(s, actor)
    decreases k
  {
    if k > 0 {
      RejectedSummonerRejects(s, actor.commandingActor.value, k - 1);
      SummonOfRejectedOwnerRejected(s, actor);
    }
  }

  /** Once the filter is on and the file list is known, the inverted filter passes exactly what the plain one rejects. */
  lemma InvertedPluginFilterNegates(s: Settings, base: Template)
    requires s.UsePluginFilter() && base.sourceFiles.Some?
    ensures PluginAllows(s.(pluginFilterInvert := true), base) == !PluginAllows(s.(pluginFilterInvert := false), base)
  {
  }

  /** The plugin filter passes every template when it is off or the file list is unknown. */
  lemma PluginFilterPassesUnknown(s: Settings, base: Template)
    requires !s.UsePluginFilter() || base.sourceFiles.None?
    ensures PluginAllows(s, base)
  {
  }
}
