/**
 * The plugin configuration: an immutable record of the options the settings
 * loader reads from its INI file. The defaults are those the fields are
 * initialised with before the file is read.
 */
module Config {
  import Helper

  /** A signed 32-bit integer (int). */
  type Int32 = x: int | -0x8000_0000 <= x < 0x8000_0000

  datatype Settings = Settings(
    logLevel: Int32,
    relevelUniques: bool,
    relevelSummons: bool,
    relevelFollowers: bool,
    treatSummonsLikeOwner: bool,
    includeLevelMult: bool,
    extendLevels: bool,
    noZoneMin: Int32,
    noZoneMax: Int32,
    noZoneSkip: bool,
    pluginFilterInvert: bool,
    pluginFilterMaster: string,
    pluginFilterAny: string,
    pluginFilterWinning: string,
    forceAutoCalcAttributes: bool,
    manualUninstall: bool,
    pluginFilterMasterList: set<string>,
    pluginFilterAnyList: set<string>,
    pluginFilterWinningList: set<string>)
  {
    /** The plugin filter is on exactly when one of its three name sets is non-empty. */
    predicate UsePluginFilter()
    {
      |pluginFilterMasterList| + |pluginFilterAnyList| + |pluginFilterWinningList| > 0
    }
  }

  /** The values the fields hold before the INI file is read. */
  const Defaults: Settings :=
    Settings(2, true, true, false, true, true, false, 1, 1000, true,
             false, "", "", "", true, false, {}, {}, {})

  /**
   * The last step of loading: the three comma separated plugin lists are split
   * into name sets; every other option is kept as read.
   */
  method SplitPluginLists(s: Settings) returns (r: Settings)
    ensures r == s.(pluginFilterMasterList := r.pluginFilterMasterList,
                    pluginFilterAnyList := r.pluginFilterAnyList,
                    pluginFilterWinningList := r.pluginFilterWinningList)
    ensures forall f :: f in r.pluginFilterMasterList <==> f in Helper.Fields(Helper.Trim(s.pluginFilterMaster), ',')
    ensures forall f :: f in r.pluginFilterAnyList <==> f in Helper.Fields(Helper.Trim(s.pluginFilterAny), ',')
    ensures forall f :: f in r.pluginFilterWinningList <==> f in Helper.Fields(Helper.Trim(s.pluginFilterWinning), ',')
  {
    var master := Helper.SplitString(s.pluginFilterMaster, ',');
    var any := Helper.SplitString(s.pluginFilterAny, ',');
    var winning := Helper.SplitString(s.pluginFilterWinning, ',');
    r := s.(pluginFilterMasterList := master, pluginFilterAnyList := any, pluginFilterWinningList := winning);
  }

  /** With every list string blank the filter stays off. */
  lemma BlankListsDisableFilter(s: Settings, r: Settings)
    requires Helper.AllBlank(s.pluginFilterMaster) && Helper.AllBlank(s.pluginFilterAny)
    requires Helper.AllBlank(s.pluginFilterWinning)
    requires forall f :: f in r.pluginFilterMasterList <==> f in Helper.Fields(Helper.Trim(s.pluginFilterMaster), ',')
    requires forall f :: f in r.pluginFilterAnyList <==> f in Helper.Fields(Helper.Trim(s.pluginFilterAny), ',')
    requires forall f :: f in r.pluginFilterWinningList <==> f in Helper.Fields(Helper.Trim(s.pluginFilterWinning), ',')
    ensures !r.UsePluginFilter()
  {
    assert r.pluginFilterMasterList == {};
    assert r.pluginFilterAnyList == {};
    assert r.pluginFilterWinningList == {};
  }
}
