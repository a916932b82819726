/**
 * Application settings: the built-in defaults, the merge of the settings file
 * over them at start-up, and the generation of a fresh API key. The settings
 * dictionary is a `SettingsStore` object whose map the controllers update in
 * place; `saves` counts the calls of `writesettings()`, and the clock it
 * stamps is a parameter (the JSON file itself is not part of this model).
 */
module AppControl {
  import opened Common

  const PlaceholderApiKey := "change-me"
  const ApiKeyLength := 128
  const ApiKeyAlphabet := "ABCDEFGHJKLMNPQRSTUVWXYZ-+~abcdefghijkmnopqrstuvwxyz123456789"

  function Camera(id: int, fps: int, height: int, width: int, brightness: int, contrast: int,
                  saturation: int, hue: int, gamma: int, sharpness: int, gain: int): Value
  {
    Dict(map[
      "cameraID" := Int(id), "cameraFPS" := Int(fps), "cameraHeight" := Int(height),
      "cameraWidth" := Int(width), "cameraBrightness" := Int(brightness),
      "cameraContrast" := Int(contrast), "cameraSaturation" := Int(saturation),
      "cameraHue" := Int(hue), "cameraGamma" := Int(gamma), "cameraSharpness" := Int(sharpness),
      "cameraGain" := Int(gain)])
  }

  /** `initialise()`: the default settings. */
  function Defaults(): (d: map<string, Value>)
    ensures "api-key" in d && d["api-key"] == Str(PlaceholderApiKey)
  {
    map[
      LastSaveKey := Str("01/01/2000 00:00:01"),
      "api-key" := Str(PlaceholderApiKey),
      "app-name" := Str("Oxide Line Laser Controller"),
      "logfilepath" := Str("./logs/lasercontroller.log"),
      "logappname" := Str("Laser-Controller-Py"),
      "loglevel" := Str("INFO"),
      "gunicornpath" := Str("./logs/"),
      "cputemp" := Str("/sys/class/thermal/thermal_zone0/temp"),
      "frequency" := Int(1000),
      "power" := Int(25),
      "maxtime" := Int(500),
      "pyro-laseroff" := Str("pQCl"),
      "pyro-laseron" := Str("pQGk"),
      "pyro-port" := Str("/dev/ttyUSB0"),
      "pyro-speed" := Int(115200),
      "pyro-readlaser" := Str("JQ=="),
      "pyro-readtemp" := Str("AQ=="),
      "pyro-min-temp" := Int(385),
      "pyro-running-average" := Int(3),
      "camera-qty" := Int(2),
      "camera0" := Camera(0, 5, 640, 480, 128, 148, 90, -40, 4, 15, 0),
      "camera1" := Camera(2, 5, 640, 480, 64, 32, 64, 0, 100, 0, 50)
    ]
  }

  const LegacyKeys := ["power", "maxtime", "frequency", "pyro-min-temp", "pyro-running-average",
                       "pyro-port", "pyro-speed", "pyro-readtemp", "pyro-readlaser",
                       "pyro-laseron", "pyro-laseroff"]

  /**
   * The keys the legacy controllers read are all defaults, with a positive
   * window length; the keys the current laser controller reads
   * ('laser-maxtime', 'digital_on_command', 'digital_off_command') are not.
   */
  lemma DefaultKeys()
    ensures forall k :: k in LegacyKeys ==> k in Defaults()
    ensures Defaults()["pyro-running-average"] == Int(3) && Defaults()["maxtime"] == Int(500)
    ensures "laser-maxtime" !in Defaults()
    ensures "digital_on_command" !in Defaults() && "digital_off_command" !in Defaults()
  {
  }

  /**
   * The deadline a timer started at `now` computes from
   * `settings['maxtime']`. Python counts a boolean as the integer 1 or 0; a
   * missing key, a string or a dictionary leaves the timer without one.
   */
  function MaxTimeDeadline(now: int, values: map<string, Value>): (d: Option<int>)
    ensures d.Some? <==> "maxtime" in values && (values["maxtime"].Int? || values["maxtime"].Bool?)
    ensures d.Some? && values["maxtime"].Int? ==> d.value - now == values["maxtime"].i
    ensures d.Some? && values["maxtime"].Bool? ==> d.value - now == if values["maxtime"].b then 1 else 0
  {
    if "maxtime" !in values then None
    else match values["maxtime"]
      case Int(i) => Some(now + i)
      case Bool(b) => Some(now + if b then 1 else 0)
      case _ => None
  }

  /** With the default settings every off timer runs for 500 seconds. */
  lemma DefaultMaxTimeDeadline(now: int)
    ensures MaxTimeDeadline(now, Defaults()) == Some(now + 500)
  {
    DefaultKeys();
  }

  /** `readsettings()`: the file's dictionary, or `{}` when there is no file. */
  function ReadSettings(file: Option<map<string, Value>>): (f: map<string, Value>)
    ensures file.None? ==> f == map[]
    ensures file.Some? ==> f == file.value
  {
    match file
    case None => map[]
    case Some(contents) => contents
  }

  /**
   * The settings after the merge loop: every key of `current` takes the file's
   * value when the file has it and keeps its own value otherwise; keys only the
   * file has are ignored.
   */
  function Merge(current: map<string, Value>, file: map<string, Value>): (m: map<string, Value>)
    ensures m.Keys == current.Keys
    ensures forall k :: k in current && k in file ==> m[k] == file[k]
    ensures forall k :: k in current && k !in file ==> m[k] == current[k]
  {
    map k | k in current :: if k in file then file[k] else current[k]
  }

  /** Merging the same file twice changes nothing more. */
  lemma MergeIdempotent(current: map<string, Value>, file: map<string, Value>)
    ensures Merge(Merge(current, file), file) == Merge(current, file)
  {
  }

  /** Keys the file has but the defaults lack make no difference. */
  lemma MergeIgnoresExtraKeys(current: map<string, Value>, file: map<string, Value>)
    ensures Merge(current, file) == Merge(current, map k | k in file && k in current :: file[k])
  {
  }

  /** Some key of the current settings is absent from the file. */
  predicate MissingKeys(current: map<string, Value>, file: map<string, Value>) {
    exists k :: k in current && k !in file
  }

  /** With no settings file every key keeps its default. */
  lemma MissingFileKeepsDefaults(current: map<string, Value>)
    ensures Merge(current, ReadSettings(None)) == current
  {
  }

  /** Whether `loadsettings()` writes the settings back. */
  predicate LoadSaves(current: map<string, Value>, file: map<string, Value>)
    requires "api-key" in current
  {
    MissingKeys(current, file) || Merge(current, file)["api-key"] == Str(PlaceholderApiKey)
  }

  const LastSaveKey := "LastSave"

  /** The dictionary `writesettings()` persists: 'LastSave' set to the formatted clock. */
  function Stamped(values: map<string, Value>, stamp: string): (m: map<string, Value>)
    ensures m.Keys == values.Keys + {LastSaveKey}
    ensures m[LastSaveKey] == Str(stamp)
    ensures forall k :: k in values && k != LastSaveKey ==> m[k] == values[k]
  {
    values[LastSaveKey := Str(stamp)]
  }

  predicate InAlphabet(key: string) {
    forall i :: 0 <= i < |key| ==> key[i] in ApiKeyAlphabet
  }

  /** `generate_api_key(n)`: `n` characters each chosen freely from the alphabet. */
  method GenerateApiKey(n: nat) returns (key: string)
    ensures |key| == n
    ensures InAlphabet(key)
  {
    key := "";
    while |key| < n
      invariant |key| <= n
      invariant InAlphabet(key)
    {
      assert ApiKeyAlphabet[0] in ApiKeyAlphabet;
      var c :| c in ApiKeyAlphabet;
      key := key + [c];
    }
  }

  /** The global `settings` dictionary. */
  class SettingsStore {
    var values: map<string, Value>
    var saves: nat

    constructor ()
      ensures values == Defaults() && saves == 0
    {
      values := Defaults();
      saves := 0;
    }

    /** `writesettings()`: stamps 'LastSave' with the clock, formatted, and persists the dictionary. */
    method WriteSettings(stamp: string)
      modifies this
      ensures values == Stamped(old(values), stamp) && saves == old(saves) + 1
    {
      values := values[LastSaveKey := Str(stamp)];
      saves := saves + 1;
    }

    /** `settings[key] = value`. */
    method Set(key: string, value: Value)
      modifies this
      ensures values == old(values)[key := value] && saves == old(saves)
    {
      values := values[key := value];
    }

    /**
     * `loadsettings()`: merge the file over the current values, replace a
     * placeholder API key by a generated one, and save (stamped with `stamp`)
     * when a key was missing from the file or the key was replaced.
     */
    method LoadSettings(file: Option<map<string, Value>>, stamp: string)
      requires "api-key" in values
      modifies this
      ensures var saved := LoadSaves(old(values), ReadSettings(file));
        values.Keys == old(values).Keys + (if saved then {LastSaveKey} else {})
      ensures var saved := LoadSaves(old(values), ReadSettings(file));
        forall k :: k in old(values) && k != "api-key" && !(saved && k == LastSaveKey) ==>
          values[k] == Merge(old(values), ReadSettings(file))[k]
      ensures LoadSaves(old(values), ReadSettings(file)) ==> values[LastSaveKey] == Str(stamp)
      ensures Merge(old(values), ReadSettings(file))["api-key"] == Str(PlaceholderApiKey) ==>
        values["api-key"].Str? && |values["api-key"].s| == ApiKeyLength && InAlphabet(values["api-key"].s)
      ensures Merge(old(values), ReadSettings(file))["api-key"] != Str(PlaceholderApiKey) ==>
        values["api-key"] == Merge(old(values), ReadSettings(file))["api-key"]
      ensures saves == old(saves) + if LoadSaves(old(values), ReadSettings(file)) then 1 else 0
    {
      var fsettings := ReadSettings(file);
      ghost var start := values;
      var changed := false;
      var todo := values.Keys;
      while todo != {}
        invariant todo <= start.Keys && values.Keys == start.Keys && saves == old(saves)
        invariant forall k :: k in start && k !in todo ==> values[k] == Merge(start, fsettings)[k]
        invariant forall k :: k in todo ==> values[k] == start[k]
        invariant changed <==> exists k :: k in start && k !in todo && k !in fsettings
        decreases todo
      {
        var k :| k in todo;
        if k in fsettings {
          values := values[k := fsettings[k]];
        } else {
          changed := true;
        }
        todo := todo - {k};
      }
      assert values == Merge(start, fsettings);
      assert changed == MissingKeys(start, fsettings);
      if values["api-key"] == Str(PlaceholderApiKey) {
        var key := GenerateApiKey(ApiKeyLength);
        values := values["api-key" := Str(key)];
        changed := true;
      }
      if changed {
        WriteSettings(stamp);
      }
    }
  }
}
