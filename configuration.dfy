/** Configuration files of the monitored services (interface/src/utils/configuration.py):
    the per-service table of file names, the path built from it, the alertmanager e-mail
    settings read and merged inside the loaded document, and `save_yaml`'s policy of
    writing, restarting the container and turning some exceptions into `False`. */
module Configuration {
  import opened Wrappers
  import opened PyText
  import opened YamlDoc
  import Docker

  /** One row of `config_extensions`. */
  datatype ConfigEntry = ConfigEntry(ext: string, name: string, isEnv: bool)

  const ConfigExtensions: map<string, ConfigEntry> := map[
    "grafana" := ConfigEntry("ini", "grafana", false),
    "loki" := ConfigEntry("yaml", "loki", false),
    "promtail" := ConfigEntry("yaml", "promtail", false),
    "alertmanager" := ConfigEntry("yaml", "alertmanager", false),
    "prometheus" := ConfigEntry("yaml", "prometheus", false),
    "application" := ConfigEntry(".env", "application", true),
    "node-exporter" := ConfigEntry("yaml", "node-exporter", false),
    "cadvisor" := ConfigEntry("json", "cadvisor", false)
  ]

  /** The last component `get_config_path` joins: `name.ext`, or the bare `ext` for the
      environment-file entry. */
  function FileName(e: ConfigEntry): string {
    (if e.isEnv then "" else e.name + ".") + e.ext
  }

  /** Exactly one of the eight services keeps its settings in an environment file. */
  lemma OnlyApplicationIsEnv()
    ensures forall t :: t in ConfigExtensions && ConfigExtensions[t].isEnv ==> t == "application"
    ensures "application" in ConfigExtensions && ConfigExtensions["application"].isEnv
    ensures FileName(ConfigExtensions["application"]) == ".env"
  {
  }

  /** Every type and every file name in the table is a non-empty relative component. */
  lemma EntryShape(configType: string)
    requires configType in ConfigExtensions
    ensures configType != [] && configType[0] != '/' && configType[|configType| - 1] != '/'
    ensures var file := FileName(ConfigExtensions[configType]); file != [] && file[0] != '/'
  {
  }

  /** The directory `os.path.join` starts from never ends in a separator. */
  lemma UpShape(rootDir: string)
    ensures var up := PathJoin(rootDir, "../../.."); up != [] && up[|up| - 1] == '.'
  {
  }

  /** `get_config_path(config_type)` relative to the module's directory `rootDir`: a table
      lookup that raises KeyError for an unknown type, then
      `os.path.join(rootDir, "../../..", "config", config_type.lower(), file)`, which puts
      exactly one separator between the components. */
  function GetConfigPath(rootDir: string, configType: string): (r: Result<string, PyError>)
    ensures r.Err? <==> configType !in ConfigExtensions
    ensures r.Err? ==> r.error == KeyError
    ensures r.Ok? ==> r.value == PathJoin(rootDir, "../../..") + "/" + "config" + "/" + Lower(configType)
                                 + "/" + FileName(ConfigExtensions[configType])
  {
    if configType !in ConfigExtensions then Err(KeyError)
    else
      var entry := ConfigExtensions[configType];
      var up := PathJoin(rootDir, "../../..");
      var dir := Lower(configType);
      var file := FileName(entry);
      UpShape(rootDir);
      EntryShape(configType);
      assert dir != [] && dir[0] != '/' && dir[|dir| - 1] != '/' by {
        assert dir[0] == LowerChar(configType[0]);
        assert dir[|dir| - 1] == LowerChar(configType[|configType| - 1]);
      }
      var inConfig := PathJoin(up, "config");
      PathJoinRelative(up, "config");
      var inDir := PathJoin(inConfig, dir);
      PathJoinRelative(inConfig, dir);
      PathJoinRelative(inDir, file);
      Ok(PathJoin(inDir, file))
  }

  /** The path is the module's starting directory followed by the components below it, and
      its last component is the table's file name. */
  lemma ConfigPathShape(rootDir: string, configType: string)
    requires configType in ConfigExtensions
    ensures var p := GetConfigPath(rootDir, configType);
            var up := PathJoin(rootDir, "../../..");
            p.Ok? && |up| <= |p.value| && p.value[..|up|] == up
            && EndsWith(p.value, "/" + FileName(ConfigExtensions[configType]))
  {
    var up := PathJoin(rootDir, "../../..");
    var file := FileName(ConfigExtensions[configType]);
    var x := up + "/" + "config" + "/" + Lower(configType);
    EndsWithLast(x, "/", file);
    PrefixOfConcat(up, "/", "config", "/", Lower(configType), "/" + file);
  }

  /** The environment type's path ends in `/.env`. */
  lemma ApplicationEnvPath(rootDir: string)
    ensures GetConfigPath(rootDir, "application").Ok?
    ensures EndsWith(GetConfigPath(rootDir, "application").value, "/" + ".env")
  {
    OnlyApplicationIsEnv();
    ConfigPathShape(rootDir, "application");
  }

  /** `['receivers'][0]['email_configs'][0]`. */
  const EmailPath: Path := [Key("receivers"), Index(0), Key("email_configs"), Index(0)]

  /** `receivers` is a non-empty list whose first receiver is a dict with `email_configs`. */
  predicate HasFirstReceiver(config: Yaml) {
    config.YMap? && "receivers" in config.fields && config.fields["receivers"].YList?
    && |config.fields["receivers"].items| > 0 && config.fields["receivers"].items[0].YMap?
    && "email_configs" in config.fields["receivers"].items[0].fields
  }

  /** The `email_configs` entry of the first receiver. */
  function EmailConfigs(config: Yaml): Yaml
    requires HasFirstReceiver(config)
  {
    config.fields["receivers"].items[0].fields["email_configs"]
  }

  /** `get_email_settings` on the loaded alertmanager document: the first entry of the first
      receiver's `email_configs` list; a missing key raises KeyError, an empty list
      IndexError. */
  function GetEmailSettings(config: Yaml): (r: Result<Yaml, PyError>)
    ensures r.Ok? ==> HasFirstReceiver(config)
    ensures HasFirstReceiver(config) && EmailConfigs(config).YList? ==>
              (EmailConfigs(config).items == [] ==> r == Err(IndexError))
              && (EmailConfigs(config).items != [] ==> r == Ok(EmailConfigs(config).items[0]))
    ensures config.YMap? && "receivers" !in config.fields ==> r == Err(KeyError)
  {
    var r := GetPath(config, EmailPath);
    assert EmailPath[1..] == [Index(0), Key("email_configs"), Index(0)];
    assert EmailPath[2..] == [Key("email_configs"), Index(0)];
    assert EmailPath[3..] == [Index(0)];
    r
  }

  /** The document `update_email_settings` dumps: the first e-mail receiver's settings merged
      with the given ones (new keys win) and nothing else changed; when the lookup chain
      raises, that error, and AttributeError when the settings found are not a dict. */
  function UpdateEmailSettings(config: Yaml, settings: map<string, Yaml>): (r: Result<Yaml, PyError>)
    ensures GetEmailSettings(config).Err? ==> r == Err(GetEmailSettings(config).error)
    ensures GetEmailSettings(config).Ok? && !GetEmailSettings(config).value.YMap? ==> r == Err(AttributeError)
    ensures r.Ok? <==> GetEmailSettings(config).Ok? && GetEmailSettings(config).value.YMap?
    ensures r.Ok? ==> GetEmailSettings(r.value) == Ok(YMap(GetEmailSettings(config).value.fields + settings))
    ensures r.Ok? ==> forall q :: Diverge(EmailPath, q) ==> GetPath(r.value, q) == GetPath(config, q)
  {
    UpdateAtOutcome(config, EmailPath, settings);
    var r := UpdateAt(config, EmailPath, settings);
    if r.Ok? then
      UpdateThenGet(config, EmailPath, settings);
      UpdateFrameEverywhere(config, EmailPath, settings);
      r
    else
      r
  }

  /** What a file holds: nothing (after `open(path, 'w')` truncated it) or a YAML document. */
  datatype FileContent = Truncated | Holds(doc: Yaml)

  /** What `open(path, 'w')` does: it opens the file, or raises FileNotFoundError,
      PermissionError or another OSError (the path is a directory, the file system is
      read-only, ...). */
  datatype OpenOutcome = Opened | NoSuchDirectory | PermissionDenied | OtherOSError

  /** The exceptions the write step raises. `save_yaml` catches the first three and turns
      them into `False`; any other OSError passes through. */
  datatype SaveFailure = YamlError | FileNotFound | PermissionError | OSError

  /** `save_yaml`'s result: True, False after a caught exception, the uncaught OSError of
      the write, or the ValueError of `restart_container_by_name`, which is not caught. */
  datatype SaveOutcome = Saved | NotSaved(failure: SaveFailure) | RaisesOSError | RaisesValueError

  function OpenFailure(open: OpenOutcome): SaveFailure
    requires open != Opened
  {
    match open
    case NoSuchDirectory => FileNotFound
    case PermissionDenied => PermissionError
    case OtherOSError => OSError
  }

  /** The write step of `save_yaml` AS WRITTEN: `open(path, 'w')` truncates the file before
      `yaml.safe_load(content)` runs, so malformed content leaves the file empty. `parsed`
      is the outcome of `safe_load` (None for a YAMLError). */
  function WriteAsWritten(files: map<string, FileContent>, path: string, open: OpenOutcome,
                          parsed: Option<Yaml>): (r: (map<string, FileContent>, Option<SaveFailure>))
    ensures open == NoSuchDirectory ==> r == (files, Some(FileNotFound))
    ensures open == PermissionDenied ==> r == (files, Some(PermissionError))
    ensures open == OtherOSError ==> r == (files, Some(OSError))
    ensures open == Opened && parsed.None? ==> r == (files[path := Truncated], Some(YamlError))
    ensures r.1.None? <==> open == Opened && parsed.Some?
    ensures r.1.None? ==> r.0 == files[path := Holds(parsed.value)]
  {
    if open != Opened then (files, Some(OpenFailure(open)))
    else if parsed.None? then (files[path := Truncated], Some(YamlError))
    else (files[path := Holds(parsed.value)], None)
  }

  /** Malformed content destroys the file it was meant to replace. */
  lemma MalformedContentTruncates(files: map<string, FileContent>, path: string)
    requires path in files && files[path].Holds?
    ensures var (after, failure) := WriteAsWritten(files, path, Opened, None);
            failure == Some(YamlError) && after[path] == Truncated && after[path] != files[path]
  {
  }

  /** The write step as intended: the content is parsed before the file is opened, so a
      failed save leaves every file as it was, and a successful one replaces exactly the
      target file with the parsed document. */
  function Write(files: map<string, FileContent>, path: string, open: OpenOutcome,
                 parsed: Option<Yaml>): (r: (map<string, FileContent>, Option<SaveFailure>))
    ensures r.1.Some? ==> r.0 == files
    ensures r.1.None? <==> parsed.Some? && open == Opened
    ensures r.1.None? ==> r.0 == files[path := Holds(parsed.value)]
    ensures parsed.None? ==> r.1 == Some(YamlError)
    ensures parsed.Some? && open == NoSuchDirectory ==> r.1 == Some(FileNotFound)
    ensures parsed.Some? && open == PermissionDenied ==> r.1 == Some(PermissionError)
    ensures parsed.Some? && open == OtherOSError ==> r.1 == Some(OSError)
  {
    if parsed.None? then (files, Some(YamlError))
    else if open != Opened then (files, Some(OpenFailure(open)))
    else (files[path := Holds(parsed.value)], None)
  }

  /** Where they differ: only a malformed document written to a file that opens. */
  lemma WriteAgreesExceptOnMalformed(files: map<string, FileContent>, path: string,
                                     open: OpenOutcome, parsed: Option<Yaml>)
    ensures parsed.Some? ==> WriteAsWritten(files, path, open, parsed) == Write(files, path, open, parsed)
    ensures WriteAsWritten(files, path, open, parsed).1.Some? <==> Write(files, path, open, parsed).1.Some?
  {
  }

  /** The configuration files on disk, by path. */
  class ConfigFiles {
    var files: map<string, FileContent>

    constructor(files: map<string, FileContent>)
      ensures this.files == files
    {
      this.files := files;
    }
  }

  /** `save_yaml(path, content, config_type)` as written: open the file for writing, parse and
      dump the content, then restart the container named `configType`; True only when both
      succeed, False for the caught missing-file, permission and YAML errors (nothing
      restarted, and a YAML error leaves the opened file empty), any other OSError of the
      open raised through (nothing written or restarted), and the restart's ValueError
      raised through when no container has that name (the file already written). */
  method SaveYaml(store: ConfigFiles, dm: Docker.DockerManager, path: string, parsed: Option<Yaml>,
                  open: OpenOutcome, configType: string) returns (r: SaveOutcome)
    modifies store, dm
    ensures var (after, failure) := WriteAsWritten(old(store.files), path, open, parsed);
            store.files == after
            && (failure.Some? ==> dm.restarted == old(dm.restarted))
            && (failure.Some? && failure.value != OSError ==> r == NotSaved(failure.value))
            && (failure == Some(OSError) ==> r == RaisesOSError)
            && (failure.None? ==>
                  var target := Docker.FirstNamedId(Docker.ListContainers(dm.client, true, None), configType);
                  (target.None? ==> r == RaisesValueError && dm.restarted == old(dm.restarted))
                  && (target.Some? ==> r == Saved && dm.restarted == old(dm.restarted) + [target.value]))
  {
    var (after, failure) := WriteAsWritten(store.files, path, open, parsed);
    store.files := after;
    if failure == Some(OSError) {
      return RaisesOSError;
    } else if failure.Some? {
      return NotSaved(failure.value);
    }
    var restarted := dm.RestartContainerByName(configType);
    if restarted.Err? {
      return RaisesValueError;
    }
    return Saved;
  }

  /** Why `update_email_settings` raises before it reaches `save_yaml`. */
  datatype EmailError = ConfigNotFound | Lookup(error: PyError)

  /** What `load_config` returns for a file that exists: the document, or None for an
      emptied file. */
  function Loaded(content: FileContent): Yaml {
    if content.Holds? then content.doc else YNull
  }

  /** `update_email_settings(settings)`: load the alertmanager document (a missing file raises
      FileNotFoundError), merge the settings in place, and save the dumped document with
      `save_yaml`, restarting the first container named `alertmanager`. Whatever `save_yaml`
      returns is ignored, but its uncaught OSError and ValueError pass through
      (`r.value == RaisesOSError`, `r.value == RaisesValueError`). The dumped document always
      parses, so here the write as written does what the intended `Write` does. */
  method UpdateEmailSettingsAndSave(store: ConfigFiles, dm: Docker.DockerManager, rootDir: string,
                                    settings: map<string, Yaml>, open: OpenOutcome)
    returns (r: Result<SaveOutcome, EmailError>)
    modifies store, dm
    ensures var path := GetConfigPath(rootDir, "alertmanager").value;
            && (path !in old(store.files) ==> r == Err(ConfigNotFound))
            && (path in old(store.files) && UpdateEmailSettings(Loaded(old(store.files)[path]), settings).Err? ==>
                  r == Err(Lookup(UpdateEmailSettings(Loaded(old(store.files)[path]), settings).error)))
            && (r.Err? ==> store.files == old(store.files) && dm.restarted == old(dm.restarted))
            && (r.Ok? ==> path in old(store.files)
                          && UpdateEmailSettings(Loaded(old(store.files)[path]), settings).Ok?
                          && store.files == Write(old(store.files), path, open,
                                                  Some(UpdateEmailSettings(Loaded(old(store.files)[path]), settings).value)).0
                          && (r.value.NotSaved? <==> open == NoSuchDirectory || open == PermissionDenied)
                          && (open == OtherOSError ==> r.value == RaisesOSError)
                          && (open != Opened ==> dm.restarted == old(dm.restarted))
                          && var target := Docker.FirstNamedId(Docker.ListContainers(dm.client, true, None), "alertmanager");
                             (open == Opened && target.None? ==> r.value == RaisesValueError && dm.restarted == old(dm.restarted))
                             && (open == Opened && target.Some? ==> r.value == Saved && dm.restarted == old(dm.restarted) + [target.value]))
  {
    var path := GetConfigPath(rootDir, "alertmanager").value;
    if path !in store.files {
      return Err(ConfigNotFound);
    }
    var updated := UpdateEmailSettings(Loaded(store.files[path]), settings);
    if updated.Err? {
      return Err(Lookup(updated.error));
    }
    WriteAgreesExceptOnMalformed(store.files, path, open, Some(updated.value));
    var saved := SaveYaml(store, dm, path, Some(updated.value), open, "alertmanager");
    return Ok(saved);
  }
}
