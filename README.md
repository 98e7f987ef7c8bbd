# logWatcher in Dafny

logWatcher is a Streamlit dashboard for the containers of a Docker Compose deployment. A
launcher script adds the monitored application to `docker-compose.yml` and starts the
services. The dashboard pages then read metrics from Prometheus, tail container logs,
edit the configuration files of the monitoring services and run benchmarks. This project
models the logic behind those pages and proves properties of it. The Docker client, the
Prometheus server, the file system, the clock and the programs the launcher runs are not
modelled: they become inputs.

Modules, one per source file, plus shared helpers:

- `MonitoringPage` (`interface/src/pages/monitoring.py`): the rolling per-metric history
  in the session state. It is a `SessionState` class whose poll appends one reading to
  each of the eight series and cuts each series to its last 60 readings.
- `LogsPage` (`interface/src/pages/logs.py`): the `update_logs` loop as a `LogTail`
  class, with its watermark, the lines found and the effects it has:
  - the fetch bounds,
  - what is displayed,
  - the sleeps.

  The clock, the fetched text and the stop flag are given, one per iteration.
- `Compose` (`interface/src/utils/composemanager.py`): a `DockerComposeManager` class.
  It holds the document in memory and what the compose file holds. Add, remove and
  update change the `services` dict, and each change is followed by a save.
- `Docker` (`interface/src/utils/dockermanager.py`): container listing with the network
  filter and port strings, and the first-match lookups by name. The Docker client is a
  given sequence of container records. Restarts are recorded in a log.
- `Launcher` (`logwatcher.py`): `main`, meaning its argument and port checks, the env-file
  check, the service record, and the mapping of exceptions to exit codes.
- `Configuration` (`interface/src/utils/configuration.py`): the `config_extensions`
  table, `get_config_path`, reading and merging the alertmanager e-mail settings, and
  `save_yaml`'s policy for results and exceptions.
- `Prometheus` (`interface/src/utils/monitoring.py`): decoding the query envelope, the
  derived metrics and the assembly of the metrics record. The server is a function from
  query string to reply.
- `Benchmarking` (`interface/src/utils/benchmarking.py`): the reductions of the sampling
  phases, the HTTP success count and the `results` dict the phases fill.
- Helpers:
  - `Wrappers`: Option and Result.
  - `PyText`: Python's `split`, `join`, `strip`, `isdigit`, `int`, `lower` and
    `posixpath.join`.
  - `Lists`: `reversed`, list comprehensions with a filter, and subsequences.
  - `YamlDoc`: loaded YAML documents, subscript chains and `dict.update` at the end of a
    chain.

The model follows the code in two places where one might expect otherwise:

- A failed Prometheus request raises out of the getters (`raise_for_status` is not
  caught), so the metrics record is not produced.
- A reduction over an empty sample list raises ZeroDivisionError; it does not report
  "insufficient data".

## Model

| member | source | states |
|---|---|---|
| MonitoringPage.Fresh | interface/src/pages/monitoring.py:17-21 | the history created holds every one of the eight series, each empty |
| MonitoringPage.HistoryKeysComplete | interface/src/pages/monitoring.py:18-21 | the history has exactly eight keys, all distinct, and every series is among them |
| MonitoringPage.Last60 | interface/src/pages/monitoring.py:61 | `[-60:]` keeps min(60, len) elements, and they are the last ones of the list |
| MonitoringPage.UpdatedSeries | interface/src/pages/monitoring.py:50-61 | a poll keeps the set of keys; each series then has min(60, old length + 1) readings, is a suffix of the old series plus the new reading, ends with that reading, and is not cut while it had fewer than 60 readings |
| MonitoringPage.EndsWithReading | interface/src/pages/monitoring.py:50-58 | after a poll, every series ends with the reading that poll supplied |
| MonitoringPage.RecordedReadings | interface/src/pages/monitoring.py:51-53 | memory records the dict's `percentage`; cpu, disk and processes record the raw value, with None kept as None |
| MonitoringPage.RecordedRates | interface/src/pages/monitoring.py:55-58 | the network series record receive/transmit and the I/O series record read/write |
| MonitoringPage.AppendScalars | interface/src/pages/monitoring.py:51-53 | the first loop appends one reading to each of the four scalar series and leaves the other series alone |
| MonitoringPage.TruncateAll | interface/src/pages/monitoring.py:60-61 | the second loop replaces every series by its last 60 readings and keeps the keys |
| MonitoringPage.SessionState.InitializeApp | interface/src/pages/monitoring.py:17-21 | a missing history is created fresh; an existing one is left as it is |
| MonitoringPage.SessionState.UpdateHistory | interface/src/pages/monitoring.py:50-61 | the stored history becomes the one-poll update of the old one, and it still holds all eight series |
| LogsPage.TimingOptionsWellFormed | interface/src/pages/logs.py:52 | every entry of the timing box is `all` or a digit count, a `/`, and a span without `/` |
| LogsPage.WindowSplits | interface/src/pages/logs.py:20 | a window's text splits on `/` into its count and its span |
| LogsPage.SecondsBack | interface/src/pages/logs.py:20 | `all` gives no window; any other option gives the integer value of its count |
| LogsPage.StartBound | interface/src/pages/logs.py:23-28 | the fetch starts at the watermark if one is set, otherwise at end minus the window when that is non-zero, otherwise it is unbounded, and is unbounded in no other case |
| LogsPage.StripKeepsLine | interface/src/pages/logs.py:32 | stripping a piece without a newline gives either "" or a line that neither starts nor ends with whitespace |
| LogsPage.NewLinesOk | interface/src/pages/logs.py:32 | every new line is non-empty, stripped and free of newlines |
| LogsPage.NewLinesAreKeptPieces | interface/src/pages/logs.py:32 | the new lines are exactly the non-blank stripped pieces of the text split on newlines, in their order, one line per non-blank piece; none of them is empty |
| LogsPage.RenderSplits | interface/src/pages/logs.py:39 | the shown text splits back on newlines into the kept lines, newest first |
| LogsPage.NoLogsMessageAsWritten | interface/src/pages/logs.py:45 | for a window, the message is the prefix followed by the window's span |
| LogsPage.AllTimeMessageRaises | interface/src/pages/logs.py:45 | for `all`, the message raises IndexError (see Findings) |
| LogsPage.NoLogsMessage | interface/src/pages/logs.py:43-45 | the corrected message agrees with the code for every window and is "No logs found" for `all` |
| LogsPage.StartInv | interface/src/pages/logs.py:15-17 | the initial loop state satisfies the loop invariant |
| LogsPage.NextProperties | interface/src/pages/logs.py:34-37 | an iteration keeps the invariant; `all_logs` grows by exactly the new lines; `logs_found` is never cleared; the watermark moves to the iteration's end time iff lines arrived; with no new lines the state is unchanged |
| LogsPage.SleepAfter | interface/src/pages/logs.py:47 | the pause is 100 ms iff new lines arrived, otherwise 1000 ms |
| LogsPage.Shown | interface/src/pages/logs.py:34-45 | as written: the display is refreshed with all lines newest first when new ones arrived; while nothing was ever found, a window's "no logs" message is shown, and for `all` the iteration raises IndexError, and only then; otherwise the display keeps what it showed |
| LogsPage.ShownIntended | interface/src/pages/logs.py:34-45 | as intended: the same display wherever the code does not raise, and "No logs found" where it raises |
| LogsPage.LastProductive | interface/src/pages/logs.py:37 | the watermark candidate is always one of the iterations' end times |
| LogsPage.ReplayProperties | interface/src/pages/logs.py:19-47 | over any run, `all_logs` is the old lines followed by everything produced, in order; the watermark is the end time of the last productive iteration (or stays); found stays found; the invariant holds |
| LogsPage.FirstStop | interface/src/pages/logs.py:19 | the loop runs exactly up to the first set stop flag |
| LogsPage.LogTail.constructor | interface/src/pages/logs.py:15-17 | the loop starts with no lines, no watermark, nothing found and nothing fetched, shown or slept |
| LogsPage.LogTail.Iterate | interface/src/pages/logs.py:20-47 | one pass produces the next loop state and one fetch with the chosen bounds; when it does not raise, the display is updated and one sleep follows; when it raises, the container has been emptied and no sleep follows |
| LogsPage.FetchAt | interface/src/pages/logs.py:23-30 | fetch j of a run starts from the watermark of the state the first j iterations leave, so once a line has arrived every later fetch starts at the end time of the last productive iteration |
| LogsPage.SleepAt | interface/src/pages/logs.py:47 | sleep j of a run is the pause that iteration j's own fetch calls for |
| LogsPage.RunSoFarNext | interface/src/pages/logs.py:19-47 | an iteration that does not raise carries the run's state, fetches, sleeps and display one iteration further; one that raises is the first, with `all`, nothing found before and nothing fetched now |
| LogsPage.LogTail.Run | interface/src/pages/logs.py:19-47 | the loop raises IndexError iff the option is `all`, nothing was found before, and the first iteration runs and finds nothing; it then has made that one fetch, with its start bound, and no sleep, and the state is untouched. Otherwise it ends in the state the iterations before the first stop flag produce. It has made exactly their fetches, each with its own start bound and end time, and their sleeps, in order. The container shows all lines once any arrived, the window's "no logs" message while none was ever found, and what it showed before otherwise |
| Compose.ServicesOf | interface/src/utils/composemanager.py:26 | `compose_data['services']` is a dict exactly when the document is a dict whose `services` entry is one; a missing entry raises KeyError |
| Compose.Add | interface/src/utils/composemanager.py:25-26 | the entry is set, overwriting any earlier one; every other service and every other top-level entry is unchanged; a malformed document raises |
| Compose.Remove | interface/src/utils/composemanager.py:29-34 | a present name alone is deleted, and nothing else changes; an absent name raises not-found |
| Compose.Update | interface/src/utils/composemanager.py:36-41 | the service's fields become the old ones merged with the new (new values win, other fields kept, keys = old keys plus new keys); other services and entries are unchanged; an absent name raises not-found; a non-dict service raises AttributeError |
| Compose.RemoveAfterAdd | interface/src/utils/composemanager.py:25-32 | removing a service just added under a new name gives back the document |
| Compose.AddAfterRemove | interface/src/utils/composemanager.py:25-32 | adding back a removed service with its old record gives back the document |
| Compose.AddIdempotent | interface/src/utils/composemanager.py:25-26 | adding the same record twice is the same as adding it once |
| Compose.UpdateWithNothing | interface/src/utils/composemanager.py:36-38 | updating a dict service with no fields changes nothing |
| Compose.DockerComposeManager.constructor | interface/src/utils/composemanager.py:5-7 | the manager starts with the loaded document, which is also what the file holds |
| Compose.DockerComposeManager.SaveComposeFile | interface/src/utils/composemanager.py:18-23 | the save succeeds iff the write does, and then the file holds the document; a failed open leaves the file as it was; a failed dump leaves it without a document |
| Compose.DockerComposeManager.AddService | interface/src/utils/composemanager.py:25-27 | on error, nothing changes; otherwise the document becomes the added one and, when the save succeeds, the file holds it |
| Compose.DockerComposeManager.RemoveService | interface/src/utils/composemanager.py:29-34 | on not-found, nothing changes; otherwise the document loses the service and, when the save succeeds, the file holds it |
| Compose.DockerComposeManager.UpdateService | interface/src/utils/composemanager.py:36-41 | on not-found or error, nothing changes; otherwise the document is the merged one and, when the save succeeds, the file holds it |
| Docker.ClientList | interface/src/utils/dockermanager.py:13 | `all=True` gives every container; otherwise exactly the running ones, in order, one record per running container |
| Docker.FilterByNetworks | interface/src/utils/dockermanager.py:15-16 | with a non-empty list, exactly the containers on at least one listed network, in the original order, one record per such container; with None or [] nothing is removed |
| Docker.GetPorts | interface/src/utils/dockermanager.py:18-24 | one string per published port, in order, built from the first binding's host port and the container port without its protocol; unpublished ports are skipped; missing port info gives [] |
| Docker.PortStringSplits | interface/src/utils/dockermanager.py:21 | a port string splits back, at its colon, into the host port and the bare container port |
| Docker.ListContainers | interface/src/utils/dockermanager.py:26-29 | one record (id, name, status, ports) per container that survives the listing and the filter, in the same order |
| Docker.FirstNamed | interface/src/utils/dockermanager.py:96-97 | the position found is the first record with the name, or there is none with that name |
| Docker.FindNamed | interface/src/utils/dockermanager.py:96-99 | the loop's scan stops at exactly that first match, or runs to the end when there is none |
| Docker.DockerManager.constructor | interface/src/utils/dockermanager.py:7-8 | a manager over a client has restarted nothing |
| Docker.DockerManager.RestartContainer | interface/src/utils/dockermanager.py:51-52 | the id is restarted once more |
| Docker.DockerManager.RestartContainerByName | interface/src/utils/dockermanager.py:94-100 | only the first container with the name is restarted, exactly once; when there is none, ValueError is raised and nothing is restarted |
| Docker.DockerManager.GetContainerIdByName | interface/src/utils/dockermanager.py:102-107 | None iff no container has the name; otherwise the id of the first one that does |
| Launcher.Launch | logwatcher.py:17-61 | exit 0 iff nothing was raised iff the dashboard started, and 1 otherwise. A wrong argument count is a ValueError before anything else. A port fails iff it is not a digit string with a value in 1..65535, before the env file is looked at. A missing env file is a FileNotFoundError before the compose file is touched. A compose file that is missing, malformed or cannot take the service is an unexpected error with the file untouched. A failed save is an unexpected error; the file is untouched after a failed open and damaged after a failed dump. A failing `docker-compose up` is an unexpected error, and a missing `docker-compose` or `streamlit` a FileNotFoundError, with the file rewritten. When every step succeeds the exit status is 0. A successful run saved the `application` service as the record built from the arguments, keeping every other service and entry |
| Launcher.PortMappingSplits | logwatcher.py:39 | `"<port>:<port>"` splits back at its colon into the port twice |
| Launcher.LeadingZeroPort | logwatcher.py:25 | a leading zero does not change whether a port is accepted |
| Launcher.Run | logwatcher.py:17-61 | `main` step by step: the checks in order, the compose manager, then the programs; it has the outcome `Launch` describes |
| Configuration.OnlyApplicationIsEnv | interface/src/utils/configuration.py:20-29 | only `application` is an environment-file entry, and its file name is exactly `.env` |
| Configuration.EntryShape | interface/src/utils/configuration.py:20-29 | every table key and every file name is a non-empty relative path component |
| Configuration.GetConfigPath | interface/src/utils/configuration.py:66-71 | an unknown type raises KeyError; a known one gives the root, then `config`, the lower-cased type and the file name, one separator between each |
| Configuration.ConfigPathShape | interface/src/utils/configuration.py:66-71 | the path starts with the root directory and ends with `/` and the table's file name |
| Configuration.ApplicationEnvPath | interface/src/utils/configuration.py:66-71 | the `application` path ends in `/.env` |
| Configuration.GetEmailSettings | interface/src/utils/configuration.py:33-37 | the result is the first entry of the first receiver's `email_configs` list; a missing `receivers` raises KeyError, and an empty list raises IndexError |
| Configuration.UpdateEmailSettings | interface/src/utils/configuration.py:39-43 | the lookup's error, or AttributeError for a non-dict, is raised; otherwise reading back gives the old settings merged with the new, and every path that diverges from the e-mail path reads what it read before |
| Configuration.WriteAsWritten | interface/src/utils/configuration.py:54-55 | as written: an open that fails (missing directory, permission, any other OSError) changes no file and reports its exception; malformed content leaves the opened file truncated (see Findings); parsed content replaces exactly the target file |
| Configuration.MalformedContentTruncates | interface/src/utils/configuration.py:54-55 | a file holding a document loses it when malformed content is saved to it |
| Configuration.Write | interface/src/utils/configuration.py:53-64 | as intended, a failed write leaves every file as it was, and a successful one replaces exactly the target file; each failure is mapped to its own exception |
| Configuration.WriteAgreesExceptOnMalformed | interface/src/utils/configuration.py:54-55 | the two write steps agree on all well-formed content and on whether they fail |
| Configuration.SaveYaml | interface/src/utils/configuration.py:51-64 | as written: True only when both the write and the restart of the first container with that name succeed; False for the caught YAML, missing-file and permission errors, with nothing restarted; any other OSError of the open is raised through, with nothing written or restarted; a failed open leaves the files as they were, and malformed content leaves the opened file truncated; the restart's ValueError is not caught |
| Configuration.UpdateEmailSettingsAndSave | interface/src/utils/configuration.py:39-49 | a missing file or a failed lookup raises with nothing changed; otherwise the merged document is saved with `save_yaml`. It is reported unsaved, with nothing restarted, iff the open fails with a missing directory or a permission error; another OSError is raised through, with nothing restarted. When the file opens, the first container named `alertmanager` is restarted once and the save succeeds; with no such container the ValueError is raised through and nothing is restarted |
| YamlDoc.Subscript | interface/src/utils/configuration.py:37 | a subscript succeeds only on a dict with a key, or on a list or string with an index |
| YamlDoc.UpdateAtOutcome | interface/src/utils/configuration.py:43 | `.update` at the end of a chain raises exactly what the chain raises, and AttributeError when the chain reaches a non-dict |
| YamlDoc.UpdateThenGet | interface/src/utils/configuration.py:43 | reading back along the updated chain gives the merged dict |
| YamlDoc.UpdateFrameEverywhere | interface/src/utils/configuration.py:43 | every chain that diverges from the updated one reads what it read before |
| Prometheus.Hundredths | interface/src/utils/monitoring.py:25 | the nearest whole number of hundredths, within half a hundredth |
| Prometheus.Round2Error | interface/src/utils/monitoring.py:25 | `round(x, 2)` is within 0.005 of x |
| Prometheus.Round2Idempotent | interface/src/utils/monitoring.py:25 | rounding twice is rounding once |
| Prometheus.RoundOpt | interface/src/utils/monitoring.py:25 | None stays None, and a number is rounded to within 0.005 |
| Prometheus.Truncate | interface/src/utils/monitoring.py:80 | `int()` of a float truncates toward zero |
| Prometheus.GetMetricValue | interface/src/utils/monitoring.py:14-19 | the first sample's value iff the status is "success" and the result list is non-empty; None for another status or an empty list; KeyError for a success without `data.result`; the HTTP error raised |
| Prometheus.CpuUsage | interface/src/utils/monitoring.py:21-25 | the value rounded, None kept, the query's error raised |
| Prometheus.Mebibytes | interface/src/utils/monitoring.py:35-36 | absent iff the input is; otherwise bytes / 1024² rounded |
| Prometheus.Kibibytes | interface/src/utils/monitoring.py:60-61 | absent iff the input is; otherwise bytes / 1024 rounded |
| Prometheus.Percentage | interface/src/utils/monitoring.py:37 | present iff both values are present and the divisor is positive, and then it is part / whole * 100, rounded |
| Prometheus.Memory | interface/src/utils/monitoring.py:27-43 | usage and limit in MiB and the guarded percentage; the usage query's error comes first |
| Prometheus.Disk | interface/src/utils/monitoring.py:45-49 | disk usage in MiB, None kept |
| Prometheus.Network | interface/src/utils/monitoring.py:51-62 | receive and transmit in KiB/s, None kept, receive's error first |
| Prometheus.Io | interface/src/utils/monitoring.py:64-75 | read and write in MiB/s, None kept, read's error first |
| Prometheus.Processes | interface/src/utils/monitoring.py:77-80 | None when the first reply has no value; otherwise the truncated second value; TypeError when the second reply has none |
| Prometheus.CpuThrottling | interface/src/utils/monitoring.py:82-96 | both counters as read, and the guarded, rounded throttled share |
| Prometheus.Assemble | interface/src/utils/monitoring.py:98-109 | each of the seven fields is its own getter's result; the getters run in the record's order, and the error of the first one that raises is the call's error |
| Prometheus.GetContainerMetrics | interface/src/utils/monitoring.py:21-109 | each field comes from the queries for the container that its getter asks; the processes count is the second asking of the processes query, guarded by the first; the CPU query's error comes before any other |
| Prometheus.MetricsSucceedIff | interface/src/utils/monitoring.py:98-109 | the record is produced iff every reply decodes, and the second processes reply has a value whenever the first does |
| Prometheus.AbsentStaysAbsent | interface/src/utils/monitoring.py:98-109 | each derived field is absent exactly when its raw value is; it never becomes zero |
| Benchmarking.CpuPercent | interface/src/utils/benchmarking.py:24-26 | ZeroDivisionError iff the system delta is 0; otherwise the sample times the system delta is the CPU delta times the CPU count times 100 |
| Benchmarking.MemoryMb | interface/src/utils/benchmarking.py:43 | the sample times 1024² is the usage in bytes |
| Benchmarking.Summarize | interface/src/utils/benchmarking.py:30-34 | the reduction raises iff there are no samples |
| Benchmarking.MaxOfBounds | interface/src/utils/benchmarking.py:32 | `max` is a sample and is at least every sample |
| Benchmarking.MinOfBounds | interface/src/utils/benchmarking.py:33 | `min` is a sample and is at most every sample |
| Benchmarking.SumBetween | interface/src/utils/benchmarking.py:31 | samples within [lo, hi] sum to within [n*lo, n*hi] |
| Benchmarking.MeanBounds | interface/src/utils/benchmarking.py:30-34 | min <= sum / len <= max |
| Benchmarking.SummaryBounds | interface/src/utils/benchmarking.py:30-34 | for samples, min <= average <= max, and max and min are samples that bound all the others |
| Benchmarking.SummaryAverage | interface/src/utils/benchmarking.py:31 | the average times the number of samples is their sum |
| Benchmarking.Rounds | interface/src/utils/benchmarking.py:22 | the loop makes passes while less than the duration has elapsed and stops at the first check that finds it over |
| Benchmarking.CpuSamplesOutcome | interface/src/utils/benchmarking.py:22-27 | the CPU phase raises iff some reading has a zero system delta; otherwise there is one sample per reading, each that reading's percentage |
| Benchmarking.MemorySamples | interface/src/utils/benchmarking.py:41-44 | one sample per pass, each that pass's usage in MiB |
| Benchmarking.CountSuccessfulBounds | interface/src/utils/benchmarking.py:61 | 0 <= successful <= outcomes; equal to the number of outcomes iff all are 200 responses, and 0 iff none is |
| Benchmarking.HttpReportOf | interface/src/utils/benchmarking.py:54-70 | raises iff no time passed; `total_requests` is the number asked for, even when requests raised; `successful_requests` is the count of 200 responses; rate times time is the number asked for |
| Benchmarking.ContainerBenchmark.constructor | interface/src/utils/benchmarking.py:16 | `results` starts empty |
| Benchmarking.ContainerBenchmark.CpuBenchmark | interface/src/utils/benchmarking.py:18-35 | the loop's result is the reduction of the samples of the passes it made; on success it is stored under 'cpu', and on an exception `results` is unchanged |
| Benchmarking.ContainerBenchmark.MemoryBenchmark | interface/src/utils/benchmarking.py:37-52 | the same for memory samples in MiB, under 'memory' |
| Benchmarking.ContainerBenchmark.HttpBenchmark | interface/src/utils/benchmarking.py:54-70 | the HTTP report is stored under 'http' |
| Benchmarking.ContainerBenchmark.RunAllBenchmarks | interface/src/utils/benchmarking.py:72-76 | succeeds iff all three phases do; results then holds cpu, memory and http, each its own phase's result, with no other entry changed; an exception keeps only what the earlier phases stored |

## Left out

- Streamlit rendering and page layout: the dashboard, the plots, the configuration and alerts pages, `update_config`, `load_css`, gauges and charts. These are UI.
- `interface/src/utils/alerting.py` and `interface/src/utils/helpers.py` are not part of this model: they are an HTTP call, a stub and an event-loop wrapper.
- I/O is replaced by inputs: HTTP (`requests`, `aiohttp`), the Docker SDK, `subprocess` (`docker-compose up`, `streamlit run`), and file reads and writes.
- YAML parsing and dumping are not modelled. A parsed document is an input (`loaded`, `parsed`), and the dump is assumed to write back the same document.
- Decoding of the container logs (logs.py:32): `decode('utf-8')` raises UnicodeDecodeError on bytes that are not UTF-8. `LogsPage` takes the already decoded text, so that error path is not modelled.
- Configuration.SaveYaml: an OSError raised while the dump writes the file (a full disk, say), after the open has truncated it, is not modelled. It would escape `save_yaml` and `update_email_settings` and leave a partly written file. Only the OSErrors of the open are modelled.
- YAML anchors and aliases: `safe_load` can make two places of a document share one dict, and the in-place `.update` (interface/src/utils/configuration.py:43, interface/src/utils/composemanager.py:38) then changes every place that shares it. `YamlDoc` documents are trees of values, so `YamlDoc.UpdateFrameEverywhere` and `Compose.Update` hold for documents without aliases only.
- `load_compose_file` (composemanager.py:9-16) is not modelled as code: its outcome is the `loaded` input of `Launcher.Launch`, with None for a missing or malformed file.
- Concurrency is not modelled: the `asyncio.gather` fan-out (only the outcomes are given, in order) and the asyncio stop event (a flag per iteration).
- Floating point: numbers are exact reals. `Prometheus.Round2` rounds exactly, half to even; binary-float representation error is not modelled.
- `float()` parsing of the JSON sample string: the sample is already a finite number. Prometheus can send "NaN", "+Inf" or "-Inf", which `float()` accepts; those values, and what rounding and the percentages do with them, are not modelled.
- Wall clock and sleeps: `time.time()` readings are inputs. The benchmark sleeps are not recorded, and the log loop's sleeps are recorded in milliseconds.
- The benchmark sample sources: `get_container_metrics` has no `cpu_stats` key, and `get_container_stats` does not exist in `DockerManager`. The readings of each pass are inputs instead.
- The `ContainerBenchmark` constructor's container lookup (benchmarking.py:13-15): the class only holds `results`.
- `PyText.IsDigit`, `PyText.Lower`: deal with the ASCII digits and letters only. Python's Unicode digits and case mappings are not modelled.
- Docker `containers.list(all=False)` is modelled as "the containers whose status is running".
- The meaning of the PromQL queries: only their text is modelled.
- `Compose.ServicesOf`: a `services` entry that is a list or a string is a TypeError. In Python, `in` on such an entry would succeed and a later step would raise a different exception.
- `Launcher.Launch`: the exit status of `streamlit run` is ignored, as in the code. Logging is not modelled.
- The other `DockerManager` methods (get, run, stop, remove, pause, container logs, exec, images) are single pass-through calls into the Docker SDK. Only the restart used by the modelled lookups is modelled.

## Findings

| source | as written | input that shows it | evidently intended | confidence | as-written member | corrected member |
|---|---|---|---|---|---|---|
| interface/src/pages/logs.py:45 | the "no logs" message takes `log_time_option.split('/')[1]` | the option `all` before any log line arrives: `"all".split('/')` has one piece, so the subscript raises IndexError inside the loop | a message without a window for `all` | not executed | LogsPage.AllTimeMessageRaises | LogsPage.NoLogsMessage |
| interface/src/utils/configuration.py:54-55 | the file is opened with `'w'` (truncated) before `yaml.safe_load(content)` parses the content | malformed YAML content saved over an existing, valid file: the YAMLError is caught and False returned, but the file is left empty | parse first, so that a failed save leaves the file as it was | not executed | Configuration.MalformedContentTruncates | Configuration.Write |
