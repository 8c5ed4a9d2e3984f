/** The host's records the plugin reads and writes: NPC templates and placed actors. */
module Types {
  import opened Wrappers

  /** An unsigned 16-bit integer (uint16_t), the width of every level field. */
  type UInt16 = x: int | 0 <= x < 0x1_0000

  /** A form id (FormID, uint32_t). */
  type FormId = x: int | 0 <= x < 0x1_0000_0000

  /** Form ids from here on belong to templates created at run time; the host recycles them. */
  const FirstDynamicFormId: FormId := 0xff00_0000

  predicate IsDynamic(id: FormId) {
    id >= FirstDynamicFormId
  }

  /** Assignment of an integer to a uint16_t, which C++ reduces modulo 2^16. */
  function ToUInt16(x: int): (r: UInt16)
    ensures 0 <= x < 0x1_0000 ==> r == x
    ensures (x - r) % 0x1_0000 == 0
  {
    x % 0x1_0000
  }

  /** A non-empty list of plugin file names, master first and winning file last. */
  type FileList = s: seq<string> | |s| > 0 witness [""]

  /**
   * An NPC template (TESNPC). Only the level range is written by the plugin;
   * everything else it reads is fixed. sourceFiles is the file list of the
   * template's root face NPC, None when the root or its list cannot be found.
   */
  class Template {
    const formId: FormId
    const level: UInt16
    const hasPCLevelMult: bool
    const isUnique: bool
    const isSummonable: bool
    const sourceFiles: Option<FileList>
    var calcLevelMin: UInt16
    var calcLevelMax: UInt16

    constructor (formId: FormId, level: UInt16, hasPCLevelMult: bool, isUnique: bool, isSummonable: bool,
                 sourceFiles: Option<FileList>, calcLevelMin: UInt16, calcLevelMax: UInt16)
      ensures this.formId == formId && this.level == level && this.hasPCLevelMult == hasPCLevelMult
      ensures this.isUnique == isUnique && this.isSummonable == isSummonable && this.sourceFiles == sourceFiles
      ensures this.calcLevelMin == calcLevelMin && this.calcLevelMax == calcLevelMax
    {
      this.formId := formId;
      this.level := level;
      this.hasPCLevelMult := hasPCLevelMult;
      this.isUnique := isUnique;
      this.isSummonable := isSummonable;
      this.sourceFiles := sourceFiles;
      this.calcLevelMin := calcLevelMin;
      this.calcLevelMax := calcLevelMax;
    }
  }

  /**
   * A placed actor at the moment an event hands it to the plugin: its template,
   * the actor commanding it (a summoner), and whether it is a player teammate.
   */
  datatype Actor = Actor(base: Template, commandingActor: Option<Actor>, isPlayerTeammate: bool)

  /** A template's level range, calcLevelMin and calcLevelMax; a maximum of 0 means no cap. */
  datatype LevelRange = LevelRange(min: UInt16, max: UInt16)

  /** A stored original level range (actorbaseData). */
  datatype ActorbaseData = ActorbaseData(originalMin: UInt16, originalMax: UInt16)
}
