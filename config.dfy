/** The settings store of configmanager.py: a map from setting names to
    values, loaded from a settings file or from built-in defaults, and
    written back on every update. The file is represented by its decoded
    contents; JSON encoding and file I/O are not part of this model. */
module Config {
  import opened Common

  /** The JSON values the settings hold. */
  datatype Value = Str(s: string) | Flag(b: bool)

  type Settings = map<string, Value>

  /** The settings used when there is no settings file: seven of them, and
      no window choice among them. */
  function Defaults(): (d: Settings)
    ensures |d| == 7 && "active_gui" !in d
  {
    map["model_size" := Str("large-v2"),
        "device" := Str("cuda"),
        "compute_type" := Str("float16"),
        "language" := Str("en"),
        "hotkey" := Str("f4"),
        "type_hotkey" := Str("f2"),
        "buffer" := Flag(true)]
  }

  /** The default settings are exactly these seven. */
  lemma DefaultsExactly()
    ensures Defaults().Keys == {"model_size", "device", "compute_type", "language", "hotkey", "type_hotkey", "buffer"}
    ensures Defaults()["model_size"] == Str("large-v2") && Defaults()["device"] == Str("cuda")
    ensures Defaults()["compute_type"] == Str("float16") && Defaults()["language"] == Str("en")
    ensures Defaults()["hotkey"] == Str("f4") && Defaults()["type_hotkey"] == Str("f2")
    ensures Defaults()["buffer"] == Flag(true)
  {
  }

  /** `load_config`: the file's settings, or the defaults when there is no
      file (`None`). */
  function LoadConfig(file: Option<Settings>): (s: Settings)
    ensures file.Some? ==> s == file.value
    ensures file.None? ==> s == Defaults()
  {
    match file
    case Some(m) => m
    case None => Defaults()
  }

  /** `ConfigManager` (configmanager.py). */
  class ConfigManager {
    var settings: Settings
    /** The contents of the settings file; `None` when there is none. */
    var file: Option<Settings>

    constructor(file: Option<Settings>)
      ensures this.file == file && settings == LoadConfig(file)
    {
      this.file := file;
      settings := LoadConfig(file);
    }

    /** `get_setting`: the value for `key`, or none when it is absent. */
    function GetSetting(key: string): (v: Option<Value>)
      reads this
      ensures v.None? <==> key !in settings
      ensures v.Some? ==> key in settings && v.value == settings[key]
    {
      if key in settings then Some(settings[key]) else None
    }

    /** `save_settings`: write the map to the file and make it current. */
    method SaveSettings(s: Settings)
      modifies this
      ensures settings == s && file == Some(s)
    {
      file := Some(s);
      settings := s;
    }

    /** `update_setting`: set one key and save. Reading `key` then gives the
        new value, every other key is unchanged, and loading the file again
        gives the current settings. */
    method UpdateSetting(key: string, value: Value)
      modifies this
      ensures settings == old(settings)[key := value]
      ensures GetSetting(key) == Some(value)
      ensures forall k :: k != key ==> GetSetting(k) == old(GetSetting(k))
      ensures file == Some(settings) && LoadConfig(file) == settings
    {
      var s := settings[key := value];
      SaveSettings(s);
    }
  }
}
