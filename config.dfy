/**
 * The deployment configuration of the bot: the Compute Engine instance it
 * controls, the machine type of each tier, the allow-listed LINE users, the
 * channel credentials and the Japanese command and reply vocabulary.  Every
 * value is a constant; nothing in the program changes it.
 */
module Config {
  import opened Wrappers
  import opened Text

  const PROJECT: string := ""
  const ZONE: string := ""
  const INSTANCE_NAME: string := ""

  /** The path in front of a machine-type name in an instance resource. */
  const MACHINE_TYPE_SUFFIX: string := "zones/" + ZONE + "/machineTypes/"
  /** Machine type per tier. */
  const MACHINE_TYPE_DICT: map<string, string> := map["default" := "e2-highcpu-2", "high" := "e2-highcpu-4"]

  /** The LINE user ids allowed to operate the server. */
  const USER_IDS: seq<string> := ["", ""]

  const CHANNEL_SECRET: string := ""
  const CHANNEL_ACCESS_TOKEN: string := ""

  /** Command keywords and reply texts, by key. */
  const DICTIONARY: map<string, string> := map[
    "started" := "起動しました",
    "stopped" := "停止しました",
    "changed" := "変更しました",
    "alreadyStarted" := "すでに起動しています",
    "alreadyStopped" := "すでに停止しています",
    "notSupportedFunction" := "その操作はサポートしていません",
    "notAuthorized" := "権限がありません",
    "start" := "起動",
    "stop" := "停止",
    "scaleUp" := "スペックアップ",
    "scaleDown" := "スペックダウン",
    "machineType" := "現在のマシンタイプ{}"
  ]

  /** The text of the "machineType" reply template in front of its one field. */
  const MACHINE_TYPE_CAPTION: string := "現在のマシンタイプ"

  /** The tier table is total over the two tiers and injective. */
  lemma TierTable()
    ensures MACHINE_TYPE_DICT.Keys == {"default", "high"}
    ensures MACHINE_TYPE_DICT["default"] != MACHINE_TYPE_DICT["high"]
  {
  }

  /** Neither machine type ends with the other, so `endswith` tells the tiers apart. */
  lemma TiersDistinguishable()
    ensures !EndsWith(MACHINE_TYPE_DICT["default"], MACHINE_TYPE_DICT["high"])
    ensures !EndsWith(MACHINE_TYPE_DICT["high"], MACHINE_TYPE_DICT["default"])
  {
  }

  /**
   * The machine-type names hold no path separator and the path in front of
   * them ends with one, so the label read back after a resize is the name.
   */
  lemma MachineTypePaths()
    ensures '/' !in MACHINE_TYPE_DICT["default"] && '/' !in MACHINE_TYPE_DICT["high"]
    ensures |MACHINE_TYPE_SUFFIX| > 0 && MACHINE_TYPE_SUFFIX[|MACHINE_TYPE_SUFFIX| - 1] == '/'
  {
  }

  /** The four command keywords are pairwise distinct. */
  lemma KeywordsDistinct()
    ensures DICTIONARY["start"] != DICTIONARY["stop"]
    ensures DICTIONARY["start"] != DICTIONARY["scaleUp"]
    ensures DICTIONARY["start"] != DICTIONARY["scaleDown"]
    ensures DICTIONARY["stop"] != DICTIONARY["scaleUp"]
    ensures DICTIONARY["stop"] != DICTIONARY["scaleDown"]
    ensures DICTIONARY["scaleUp"] != DICTIONARY["scaleDown"]
  {
  }

  /**
   * Three keys the request handler looks up are not in the table; their
   * lower-case, unpunctuated spellings are.
   */
  lemma MisspelledReplyKeys()
    ensures "NotAuthorized" !in DICTIONARY && "notAuthorized" in DICTIONARY
    ensures "alreadyStopped!" !in DICTIONARY && "alreadyStopped" in DICTIONARY
    ensures "alreadyStarted!" !in DICTIONARY && "alreadyStarted" in DICTIONARY
  {
  }

  /** The "machineType" template has exactly one field, which takes the label. */
  lemma MachineTypeTemplate(name: string)
    ensures DICTIONARY["machineType"] == MACHINE_TYPE_CAPTION + "{}"
    ensures NoBraces(MACHINE_TYPE_CAPTION)
    ensures Format(DICTIONARY["machineType"], name) == Some(MACHINE_TYPE_CAPTION + name)
  {
    assert DICTIONARY["machineType"] == MACHINE_TYPE_CAPTION + "{}" + "";
    FormatSingleField(MACHINE_TYPE_CAPTION, "", name);
    assert MACHINE_TYPE_CAPTION + name + "" == MACHINE_TYPE_CAPTION + name;
  }
}
