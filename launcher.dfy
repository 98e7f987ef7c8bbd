/** The launcher script (logwatcher.py): it checks the command line and the env file, adds
    the `application` service to docker-compose.yml, brings the compose services up and
    starts the dashboard; every failure ends the process with exit status 1. */
module Launcher {
  import opened Wrappers
  import opened PyText
  import opened YamlDoc
  import Compose

  const Network := "monitoring"
  const ComposeImageName := "application"
  const EnvFilePath := "./config/application/.env"

  const ArgumentCountMessage := "Incorrect number of arguments. Usage: script.py <image_name> <port>"

  function InvalidPortMessage(port: string): string {
    "Invalid port number: " + port + ". Port must be between 1 and 65535."
  }

  /** The port test: `port.isdigit()` and `1 <= int(port) <= 65535`. */
  predicate ValidPort(port: string) {
    IsDigit(port) && 1 <= DecimalValue(port) <= 65535
  }

  /** `f'{port}:{port}'`: the same port on the host and in the container. */
  function PortMapping(port: string): string {
    port + ":" + port
  }

  /** The record `main` adds as the `application` service. */
  function ServiceRecord(image: string, port: string): Yaml {
    YMap(map[
      "container_name" := YStr(ComposeImageName),
      "image" := YStr(image),
      "ports" := YList([YStr(PortMapping(port))]),
      "env_file" := YStr(EnvFilePath),
      "networks" := YList([YStr(Network)])])
  }

  /** The exceptions `main` tells apart: ValueError, FileNotFoundError (with the file or
      program that is missing) and any other exception. */
  datatype Raised = ValueError(message: string) | FileNotFoundError(missing: string) | Unexpected

  /** How `docker-compose up -d` goes: it succeeds, it exits non-zero (the manager turns
      the CalledProcessError into a plain exception), or the program is missing. */
  datatype UpResult = UpOk | UpFailed | UpMissing

  /** What happened to docker-compose.yml. */
  datatype FileEffect = Untouched | Rewritten(doc: Yaml) | Damaged

  /** Everything `main` does that can be seen from outside: its exit status, the exception
      it logged, the compose file, whether the compose services came up and whether the
      dashboard was started. */
  datatype Outcome = Outcome(code: int, raised: Option<Raised>, file: FileEffect, servicesUp: bool, dashboard: bool)

  /** A failure before anything was changed. */
  function Refused(e: Raised): Outcome {
    Outcome(1, Some(e), Untouched, false, false)
  }

  /** `main`, with the file system and the programs it runs given as inputs: whether the
      env file exists, the compose document as loaded (None when the file is missing or
      not YAML), how the save goes, how `docker-compose up` goes and whether `streamlit`
      is installed.
      The exit status is 0 exactly when nothing was raised (and the dashboard started),
      1 otherwise. Any argument count other than the script name plus two is a ValueError
      before anything else happens; with the right count the port is refused iff it is
      not a valid port, before the env file is looked at, and a missing env file is
      refused before the compose file is touched. A compose file that is missing or not YAML,
      or whose `services` entry cannot take the service, is an unexpected error with the
      file untouched; a failed save leaves it untouched or, when the dump fails after the
      open, damaged; a failing `docker-compose up` is an unexpected error and a missing
      `docker-compose` or `streamlit` a FileNotFoundError, with the file already rewritten.
      When every step succeeds the dashboard starts and the exit status is 0. A run that reaches the dashboard has
      saved the compose file with the `application` service set to the record built from
      the arguments and every other service and top-level entry as loaded. */
  function Launch(argv: seq<string>, envExists: bool, loaded: Option<Yaml>, save: Compose.SaveResult,
                  up: UpResult, streamlitFound: bool): (o: Outcome)
    ensures (o.code == 0 <==> o.raised.None?) && (o.code == 0 || o.code == 1) && (o.code == 0 <==> o.dashboard)
    ensures |argv| != 3 ==> o == Refused(ValueError(ArgumentCountMessage))
    ensures |argv| == 3 ==> (!ValidPort(argv[2]) <==> o == Refused(ValueError(InvalidPortMessage(argv[2]))))
    ensures |argv| == 3 && ValidPort(argv[2]) && !envExists ==> o == Refused(FileNotFoundError(EnvFilePath))
    ensures |argv| == 3 && ValidPort(argv[2]) && envExists && loaded.None? ==> o == Refused(Unexpected)
    ensures |argv| == 3 && ValidPort(argv[2]) && envExists && loaded.Some? ==>
              var added := Compose.Add(loaded.value, ComposeImageName, ServiceRecord(argv[1], argv[2]));
              (added.Err? ==> o == Refused(Unexpected))
              && (added.Ok? && save != Compose.Written ==>
                    o == Outcome(1, Some(Unexpected), if save == Compose.DumpFailed then Damaged else Untouched, false, false))
              && (added.Ok? && save == Compose.Written && up == UpFailed ==>
                    o == Outcome(1, Some(Unexpected), Rewritten(added.value), false, false))
              && (added.Ok? && save == Compose.Written && up == UpMissing ==>
                    o == Outcome(1, Some(FileNotFoundError("docker-compose")), Rewritten(added.value), false, false))
              && (added.Ok? && save == Compose.Written && up == UpOk && !streamlitFound ==>
                    o == Outcome(1, Some(FileNotFoundError("streamlit")), Rewritten(added.value), true, false))
              && (added.Ok? && save == Compose.Written && up == UpOk && streamlitFound ==>
                    o == Outcome(0, None, Rewritten(added.value), true, true))
    ensures o.code == 0 ==>
              |argv| == 3 && ValidPort(argv[2]) && envExists && loaded.Some?
              && o.file.Rewritten? && Compose.ServicesOf(loaded.value).Ok? && Compose.ServicesOf(o.file.doc).Ok?
              && var before := Compose.ServicesOf(loaded.value).value;
                 var after := Compose.ServicesOf(o.file.doc).value;
                 ComposeImageName in after && after[ComposeImageName] == ServiceRecord(argv[1], argv[2])
                 && (forall k :: k in before && k != ComposeImageName ==> k in after && after[k] == before[k])
                 && Compose.Others(o.file.doc) == Compose.Others(loaded.value)
  {
    if |argv| != 3 then Refused(ValueError(ArgumentCountMessage))
    else if !ValidPort(argv[2]) then Refused(ValueError(InvalidPortMessage(argv[2])))
    else if !envExists then Refused(FileNotFoundError(EnvFilePath))
    else if loaded.None? then Refused(Unexpected)
    else
      var added := Compose.Add(loaded.value, ComposeImageName, ServiceRecord(argv[1], argv[2]));
      if added.Err? then Refused(Unexpected)
      else if save != Compose.Written then
        Outcome(1, Some(Unexpected), if save == Compose.DumpFailed then Damaged else Untouched, false, false)
      else if up == UpFailed then Outcome(1, Some(Unexpected), Rewritten(added.value), false, false)
      else if up == UpMissing then Outcome(1, Some(FileNotFoundError("docker-compose")), Rewritten(added.value), false, false)
      else if !streamlitFound then Outcome(1, Some(FileNotFoundError("streamlit")), Rewritten(added.value), true, false)
      else Outcome(0, None, Rewritten(added.value), true, true)
  }

  /** `"<port>:<port>"` splits back, at its colon, into the port twice. */
  lemma PortMappingSplits(port: string)
    requires AllDigits(port)
    ensures Split(PortMapping(port), ':') == [port, port]
  {
    forall i | 0 <= i < |port| ensures port[i] != ':' {
      assert IsAsciiDigit(port[i]);
    }
    var parts := [port, port];
    assert Join(parts, ':') == PortMapping(port) by {
      assert parts[1..] == [port];
    }
    SplitJoin(parts, ':');
  }

  /** Leading zeros are accepted: `int()` ignores them, so "0" + p passes exactly when p
      does (for a non-empty p). */
  lemma LeadingZeroPort(p: string)
    requires p != []
    ensures ValidPort("0" + p) <==> ValidPort(p)
  {
    if AllDigits(p) {
      LeadingZero(p);
    } else {
      var i :| 0 <= i < |p| && !IsAsciiDigit(p[i]);
      assert ("0" + p)[i + 1] == p[i];
    }
  }

  /** `main` itself, step by step: the checks in order, then the compose manager, then the programs. */
  method Run(argv: seq<string>, envExists: bool, loaded: Option<Yaml>, save: Compose.SaveResult,
              up: UpResult, streamlitFound: bool) returns (o: Outcome)
    ensures o == Launch(argv, envExists, loaded, save, up, streamlitFound)
  {
    if |argv| != 3 {
      return Refused(ValueError(ArgumentCountMessage));
    }
    var image, port := argv[1], argv[2];
    if !ValidPort(port) {
      return Refused(ValueError(InvalidPortMessage(port)));
    }
    if !envExists {
      return Refused(FileNotFoundError(EnvFilePath));
    }
    if loaded.None? {
      return Refused(Unexpected);
    }
    var manager := new Compose.DockerComposeManager(loaded.value);
    var added := manager.AddService(ComposeImageName, ServiceRecord(image, port), save);
    if added.Err? {
      var effect := if manager.file.None? then Damaged else Untouched;
      return Outcome(1, Some(Unexpected), effect, false, false);
    }
    var written := Rewritten(manager.composeData);
    match up {
      case UpFailed =>
        return Outcome(1, Some(Unexpected), written, false, false);
      case UpMissing =>
        return Outcome(1, Some(FileNotFoundError("docker-compose")), written, false, false);
      case UpOk =>
    }
    if !streamlitFound {
      return Outcome(1, Some(FileNotFoundError("streamlit")), written, true, false);
    }
    o := Outcome(0, None, written, true, true);
  }
}
