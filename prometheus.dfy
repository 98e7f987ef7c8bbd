/** Prometheus queries of the monitoring page (interface/src/utils/monitoring.py): decoding the
    JSON envelope of an instant query into an optional number, and the derived per-container
    metrics, each rounded to two decimals, with absent values kept absent. The HTTP server is
    a parameter: the response it gives to each query string. */
module Prometheus {
  import opened Wrappers

  /** One entry of `data.result`; `value` is `float(entry["value"][1])`. */
  datatype Sample = Sample(value: real)

  /** The decoded JSON body: `status`, and `data.result` (None when that key is missing). */
  datatype Envelope = Envelope(status: string, result: Option<seq<Sample>>)

  /** What `query` obtains: a body, or a response `raise_for_status` rejects. */
  datatype Response = Reply(body: Envelope) | HttpFailure

  /** The exceptions that leave the getters: the uncaught `HTTPError`, a KeyError for a
      successful body without `data.result`, and the TypeError of `int(None)`. */
  datatype MetricError = HttpError | KeyError | TypeError

  // ---------------------------------------------------------------- rounding

  /** `x * 100` rounded to the nearest integer, ties to the even one. */
  function Hundredths(x: real): (n: int)
    ensures -0.5 <= n as real - x * 100.0 <= 0.5
  {
    var y := x * 100.0;
    var f := y.Floor;
    var frac := y - f as real;
    if frac < 0.5 then f
    else if frac > 0.5 then f + 1
    else if f % 2 == 0 then f
    else f + 1
  }

  /** `round(x, 2)` on exact reals: the nearest multiple of 0.01, ties to the even one. */
  function Round2(x: real): real {
    Hundredths(x) as real / 100.0
  }

  /** Rounding moves a value by at most half a hundredth. */
  lemma Round2Error(x: real)
    ensures -0.005 <= Round2(x) - x <= 0.005
  {
    var n := Hundredths(x);
    assert Round2(x) - x == (n as real - x * 100.0) / 100.0;
  }

  /** A whole number of hundredths is rounded to itself. */
  lemma HundredthsOfWhole(n: int)
    ensures Hundredths(n as real / 100.0) == n
  {
    var y := (n as real / 100.0) * 100.0;
    assert y == n as real;
    assert y.Floor == n;
  }

  /** Rounding twice is rounding once. */
  lemma Round2Idempotent(x: real)
    ensures Round2(Round2(x)) == Round2(x)
  {
    HundredthsOfWhole(Hundredths(x));
  }

  function RoundOpt(v: Option<real>): (r: Option<real>)
    ensures r.None? <==> v.None?
    ensures r.Some? ==> -0.005 <= r.value - v.value <= 0.005
  {
    if v.None? then None else Round2Error(v.value); Some(Round2(v.value))
  }

  /** `int(x)` of a float: truncation toward zero. */
  function Truncate(x: real): (n: int)
    ensures 0.0 <= x ==> 0 <= n && n as real <= x < n as real + 1.0
    ensures x < 0.0 ==> n <= 0 && n as real - 1.0 < x <= n as real
  {
    if 0.0 <= x then x.Floor else -((-x).Floor)
  }

  // ---------------------------------------------------------------- queries

  /** `<metric>{name=~".*<container>.*"}`: every series whose container name contains
      `container`. */
  function Selector(metric: string, container: string): string {
    metric + "{name=~\".*" + container + ".*\"}"
  }

  /** `rate(<selector>[5m])`. */
  function Rate(selector: string): string {
    "rate(" + selector + "[5m])"
  }

  function CpuQuery(c: string): string {
    "sum(" + Rate(Selector("container_cpu_usage_seconds_total", c)) + ") * 100"
  }
  function MemoryUsageQuery(c: string): string { Selector("container_memory_usage_bytes", c) }
  function MemoryLimitQuery(c: string): string { Selector("container_spec_memory_limit_bytes", c) }
  function DiskQuery(c: string): string { Selector("container_fs_usage_bytes", c) }
  function ReceiveQuery(c: string): string { Rate(Selector("container_network_receive_bytes_total", c)) }
  function TransmitQuery(c: string): string { Rate(Selector("container_network_transmit_bytes_total", c)) }
  function ReadQuery(c: string): string { Rate(Selector("container_fs_reads_bytes_total", c)) }
  function WriteQuery(c: string): string { Rate(Selector("container_fs_writes_bytes_total", c)) }
  function ProcessesQuery(c: string): string { Selector("container_processes", c) }
  function PeriodsQuery(c: string): string { Selector("container_cpu_cfs_periods_total", c) }
  function ThrottledQuery(c: string): string { Selector("container_cpu_cfs_throttled_periods_total", c) }

  // ---------------------------------------------------------------- decoding

  /** `get_metric_value`: the first sample's value when the status is "success" and the
      result list is non-empty, None otherwise; the `and` stops before `data` is read when
      the status is anything else. */
  function GetMetricValue(resp: Response): (r: Result<Option<real>, MetricError>)
    ensures resp.HttpFailure? ==> r == Err(HttpError)
    ensures r == Err(KeyError) <==> resp.Reply? && resp.body.status == "success" && resp.body.result.None?
    ensures r.Ok? && r.value.Some? <==>
              resp.Reply? && resp.body.status == "success" && resp.body.result.Some? && resp.body.result.value != []
    ensures r.Ok? && r.value.Some? ==> r.value.value == resp.body.result.value[0].value
    ensures r.Ok? && r.value.None? <==>
              resp.Reply? && (resp.body.status != "success" || resp.body.result == Some([]))
  {
    match resp
    case HttpFailure => Err(HttpError)
    case Reply(body) =>
      if body.status != "success" then Ok(None)
      else if body.result.None? then Err(KeyError)
      else if body.result.value == [] then Ok(None)
      else Ok(Some(body.result.value[0].value))
  }

  // ---------------------------------------------------------------- derived metrics

  /** `get_container_cpu_usage`: the value rounded, None kept. */
  function CpuUsage(resp: Response): (r: Result<Option<real>, MetricError>)
    ensures r.Err? <==> GetMetricValue(resp).Err?
    ensures r.Err? ==> r.error == GetMetricValue(resp).error
    ensures r.Ok? ==> (r.value.None? <==> GetMetricValue(resp).value.None?)
    ensures r.Ok? && r.value.Some? ==>
              -0.005 <= r.value.value - GetMetricValue(resp).value.value <= 0.005
  {
    var v :- GetMetricValue(resp);
    Ok(RoundOpt(v))
  }

  /** Bytes to mebibytes, rounded; None kept. */
  function Mebibytes(v: Option<real>): (r: Option<real>)
    ensures r.None? <==> v.None?
    ensures r.Some? ==> -0.005 <= r.value - v.value / 1048576.0 <= 0.005
  {
    if v.None? then None else RoundOpt(Some(v.value / 1048576.0))
  }

  /** Bytes to kibibytes, rounded; None kept. */
  function Kibibytes(v: Option<real>): (r: Option<real>)
    ensures r.None? <==> v.None?
    ensures r.Some? ==> -0.005 <= r.value - v.value / 1024.0 <= 0.005
  {
    if v.None? then None else RoundOpt(Some(v.value / 1024.0))
  }

  /** `(part / whole) * 100`, rounded, when both are present and `whole > 0`. */
  function Percentage(part: Option<real>, whole: Option<real>): (r: Option<real>)
    ensures r.Some? <==> part.Some? && whole.Some? && whole.value > 0.0
    ensures r.Some? ==>
              -0.005 <= r.value - part.value / whole.value * 100.0 <= 0.005
  {
    if part.Some? && whole.Some? && whole.value > 0.0 then
      RoundOpt(Some(part.value / whole.value * 100.0))
    else None
  }

  datatype MemoryUsage = MemoryUsage(usageMb: Option<real>, limitMb: Option<real>, percentage: Option<real>)

  /** `get_container_memory_usage`: usage and limit in MiB and the usage percentage. The
      usage query is asked first, so its error wins. */
  function Memory(usage: Response, limit: Response): (r: Result<MemoryUsage, MetricError>)
    ensures GetMetricValue(usage).Err? ==> r == Err(GetMetricValue(usage).error)
    ensures GetMetricValue(usage).Ok? && GetMetricValue(limit).Err? ==> r == Err(GetMetricValue(limit).error)
    ensures r.Ok? <==> GetMetricValue(usage).Ok? && GetMetricValue(limit).Ok?
    ensures r.Ok? ==> r.value == MemoryUsage(Mebibytes(GetMetricValue(usage).value),
                                            Mebibytes(GetMetricValue(limit).value),
                                            Percentage(GetMetricValue(usage).value, GetMetricValue(limit).value))
  {
    var u :- GetMetricValue(usage);
    var l :- GetMetricValue(limit);
    Ok(MemoryUsage(Mebibytes(u), Mebibytes(l), Percentage(u, l)))
  }

  /** `get_container_disk_usage`: MiB, rounded. */
  function Disk(resp: Response): (r: Result<Option<real>, MetricError>)
    ensures r.Err? <==> GetMetricValue(resp).Err?
    ensures r.Err? ==> r.error == GetMetricValue(resp).error
    ensures r.Ok? ==> r.value == Mebibytes(GetMetricValue(resp).value)
  {
    var v :- GetMetricValue(resp);
    Ok(Mebibytes(v))
  }

  datatype NetworkTraffic = NetworkTraffic(receive: Option<real>, transmit: Option<real>)

  /** `get_container_network_traffic`: KiB/s each way, receive asked first. */
  function Network(receive: Response, transmit: Response): (r: Result<NetworkTraffic, MetricError>)
    ensures GetMetricValue(receive).Err? ==> r == Err(GetMetricValue(receive).error)
    ensures GetMetricValue(receive).Ok? && GetMetricValue(transmit).Err? ==> r == Err(GetMetricValue(transmit).error)
    ensures r.Ok? <==> GetMetricValue(receive).Ok? && GetMetricValue(transmit).Ok?
    ensures r.Ok? ==> r.value == NetworkTraffic(Kibibytes(GetMetricValue(receive).value),
                                               Kibibytes(GetMetricValue(transmit).value))
  {
    var rx :- GetMetricValue(receive);
    var tx :- GetMetricValue(transmit);
    Ok(NetworkTraffic(Kibibytes(rx), Kibibytes(tx)))
  }

  datatype IoUsage = IoUsage(read: Option<real>, write: Option<real>)

  /** `get_container_io_usage`: MiB/s read and written, read asked first. */
  function Io(read: Response, write: Response): (r: Result<IoUsage, MetricError>)
    ensures GetMetricValue(read).Err? ==> r == Err(GetMetricValue(read).error)
    ensures GetMetricValue(read).Ok? && GetMetricValue(write).Err? ==> r == Err(GetMetricValue(write).error)
    ensures r.Ok? <==> GetMetricValue(read).Ok? && GetMetricValue(write).Ok?
    ensures r.Ok? ==> r.value == IoUsage(Mebibytes(GetMetricValue(read).value), Mebibytes(GetMetricValue(write).value))
  {
    var rd :- GetMetricValue(read);
    var wr :- GetMetricValue(write);
    Ok(IoUsage(Mebibytes(rd), Mebibytes(wr)))
  }

  /** `get_container_processes`: the query is asked once for the test and, when that gave a
      value, again for the value converted by `int`, so `first` and `second` are the two
      replies. A second reply without a value makes `int(None)` raise TypeError. */
  function Processes(first: Response, second: Response): (r: Result<Option<int>, MetricError>)
    ensures GetMetricValue(first).Err? ==> r == Err(GetMetricValue(first).error)
    ensures GetMetricValue(first) == Ok(None) ==> r == Ok(None)
    ensures GetMetricValue(first).Ok? && GetMetricValue(first).value.Some? ==>
              (GetMetricValue(second).Err? ==> r == Err(GetMetricValue(second).error))
              && (GetMetricValue(second) == Ok(None) ==> r == Err(TypeError))
              && (GetMetricValue(second).Ok? && GetMetricValue(second).value.Some? ==>
                    r == Ok(Some(Truncate(GetMetricValue(second).value.value))))
    ensures r.Ok? && r.value.Some? ==> GetMetricValue(first).Ok? && GetMetricValue(first).value.Some?
  {
    var probe :- GetMetricValue(first);
    if probe.None? then Ok(None)
    else
      var v :- GetMetricValue(second);
      if v.None? then Err(TypeError) else Ok(Some(Truncate(v.value)))
  }

  datatype Throttling = Throttling(periods: Option<real>, throttledPeriods: Option<real>,
                                   throttlingRatio: Option<real>)

  /** `get_container_cpu_throttling`: both counters as read, and the rounded share of
      throttled periods when the period count is present and positive. */
  function CpuThrottling(periods: Response, throttled: Response): (r: Result<Throttling, MetricError>)
    ensures GetMetricValue(periods).Err? ==> r == Err(GetMetricValue(periods).error)
    ensures GetMetricValue(periods).Ok? && GetMetricValue(throttled).Err? ==> r == Err(GetMetricValue(throttled).error)
    ensures r.Ok? <==> GetMetricValue(periods).Ok? && GetMetricValue(throttled).Ok?
    ensures r.Ok? ==> r.value.periods == GetMetricValue(periods).value
                      && r.value.throttledPeriods == GetMetricValue(throttled).value
                      && r.value.throttlingRatio == Percentage(GetMetricValue(throttled).value, GetMetricValue(periods).value)
  {
    var p :- GetMetricValue(periods);
    var t :- GetMetricValue(throttled);
    Ok(Throttling(p, t, Percentage(t, p)))
  }

  /** The seven entries of `get_container_metrics`. */
  datatype ContainerMetrics = ContainerMetrics(
    cpuUsage: Option<real>,
    memoryUsage: MemoryUsage,
    diskUsage: Option<real>,
    networkTraffic: NetworkTraffic,
    ioUsage: IoUsage,
    processes: Option<int>,
    cpuThrottling: Throttling)

  /** A reply `get_metric_value` decodes without raising. */
  predicate Decodes(resp: Response) {
    GetMetricValue(resp).Ok?
  }

  /** A reply that decodes to a number. */
  predicate HasValue(resp: Response) {
    GetMetricValue(resp).Ok? && GetMetricValue(resp).value.Some?
  }

  /** The server's replies to the queries `get_container_metrics` asks, in the order it asks
      them; `processesAgain` answers the second asking of the processes query. */
  datatype Replies = Replies(
    cpu: Response, memoryUsage: Response, memoryLimit: Response, disk: Response,
    receive: Response, transmit: Response, read: Response, write: Response,
    processes: Response, processesAgain: Response, periods: Response, throttled: Response)

  /** The replies for container `name`: `prom` answers each query string, `again` answers the
      processes query when it is asked the second time. */
  function RepliesFor(prom: string -> Response, again: string -> Response, name: string): Replies {
    Replies(prom(CpuQuery(name)), prom(MemoryUsageQuery(name)), prom(MemoryLimitQuery(name)),
            prom(DiskQuery(name)), prom(ReceiveQuery(name)), prom(TransmitQuery(name)),
            prom(ReadQuery(name)), prom(WriteQuery(name)), prom(ProcessesQuery(name)),
            again(ProcessesQuery(name)), prom(PeriodsQuery(name)), prom(ThrottledQuery(name)))
  }

  /** `get_container_metrics`: the seven getters in the record's order, the first raised
      exception leaving the whole call; each field is its own getter's result. */
  function Assemble(rs: Replies): (r: Result<ContainerMetrics, MetricError>)
    ensures CpuUsage(rs.cpu).Err? ==> r == Err(CpuUsage(rs.cpu).error)
    ensures CpuUsage(rs.cpu).Ok? && Memory(rs.memoryUsage, rs.memoryLimit).Err? ==>
              r == Err(Memory(rs.memoryUsage, rs.memoryLimit).error)
    ensures CpuUsage(rs.cpu).Ok? && Memory(rs.memoryUsage, rs.memoryLimit).Ok? && Disk(rs.disk).Err? ==>
              r == Err(Disk(rs.disk).error)
    ensures CpuUsage(rs.cpu).Ok? && Memory(rs.memoryUsage, rs.memoryLimit).Ok? && Disk(rs.disk).Ok?
            && Network(rs.receive, rs.transmit).Err? ==>
              r == Err(Network(rs.receive, rs.transmit).error)
    ensures CpuUsage(rs.cpu).Ok? && Memory(rs.memoryUsage, rs.memoryLimit).Ok? && Disk(rs.disk).Ok?
            && Network(rs.receive, rs.transmit).Ok? && Io(rs.read, rs.write).Err? ==>
              r == Err(Io(rs.read, rs.write).error)
    ensures CpuUsage(rs.cpu).Ok? && Memory(rs.memoryUsage, rs.memoryLimit).Ok? && Disk(rs.disk).Ok?
            && Network(rs.receive, rs.transmit).Ok? && Io(rs.read, rs.write).Ok?
            && Processes(rs.processes, rs.processesAgain).Err? ==>
              r == Err(Processes(rs.processes, rs.processesAgain).error)
    ensures CpuUsage(rs.cpu).Ok? && Memory(rs.memoryUsage, rs.memoryLimit).Ok? && Disk(rs.disk).Ok?
            && Network(rs.receive, rs.transmit).Ok? && Io(rs.read, rs.write).Ok?
            && Processes(rs.processes, rs.processesAgain).Ok? && CpuThrottling(rs.periods, rs.throttled).Err? ==>
              r == Err(CpuThrottling(rs.periods, rs.throttled).error)
    ensures r.Ok? ==> CpuUsage(rs.cpu).Ok? && r.value.cpuUsage == CpuUsage(rs.cpu).value
    ensures r.Ok? ==> Memory(rs.memoryUsage, rs.memoryLimit).Ok?
                      && r.value.memoryUsage == Memory(rs.memoryUsage, rs.memoryLimit).value
    ensures r.Ok? ==> Disk(rs.disk).Ok? && r.value.diskUsage == Disk(rs.disk).value
    ensures r.Ok? ==> Network(rs.receive, rs.transmit).Ok?
                      && r.value.networkTraffic == Network(rs.receive, rs.transmit).value
    ensures r.Ok? ==> Io(rs.read, rs.write).Ok? && r.value.ioUsage == Io(rs.read, rs.write).value
    ensures r.Ok? ==> Processes(rs.processes, rs.processesAgain).Ok?
                      && r.value.processes == Processes(rs.processes, rs.processesAgain).value
    ensures r.Ok? ==> CpuThrottling(rs.periods, rs.throttled).Ok?
                      && r.value.cpuThrottling == CpuThrottling(rs.periods, rs.throttled).value
  {
    var cpu :- CpuUsage(rs.cpu);
    var memory :- Memory(rs.memoryUsage, rs.memoryLimit);
    var disk :- Disk(rs.disk);
    var network :- Network(rs.receive, rs.transmit);
    var io :- Io(rs.read, rs.write);
    var processes :- Processes(rs.processes, rs.processesAgain);
    var throttling :- CpuThrottling(rs.periods, rs.throttled);
    Ok(ContainerMetrics(cpu, memory, disk, network, io, processes, throttling))
  }

  /** `get_container_metrics(name)` against a server: each field comes from the queries
      for `name` its getter asks, the processes count from the second asking of the
      processes query (guarded by the first), and the CPU query's error, asked first,
      leaves the call before any other. */
  function GetContainerMetrics(prom: string -> Response, again: string -> Response, name: string)
    : (r: Result<ContainerMetrics, MetricError>)
    ensures CpuUsage(prom(CpuQuery(name))).Err? ==> r == Err(CpuUsage(prom(CpuQuery(name))).error)
    ensures r.Ok? ==> CpuUsage(prom(CpuQuery(name))).Ok?
                      && r.value.cpuUsage == CpuUsage(prom(CpuQuery(name))).value
    ensures r.Ok? ==> Memory(prom(MemoryUsageQuery(name)), prom(MemoryLimitQuery(name))).Ok?
                      && r.value.memoryUsage == Memory(prom(MemoryUsageQuery(name)), prom(MemoryLimitQuery(name))).value
    ensures r.Ok? ==> Disk(prom(DiskQuery(name))).Ok? && r.value.diskUsage == Disk(prom(DiskQuery(name))).value
    ensures r.Ok? ==> Network(prom(ReceiveQuery(name)), prom(TransmitQuery(name))).Ok?
                      && r.value.networkTraffic == Network(prom(ReceiveQuery(name)), prom(TransmitQuery(name))).value
    ensures r.Ok? ==> Io(prom(ReadQuery(name)), prom(WriteQuery(name))).Ok?
                      && r.value.ioUsage == Io(prom(ReadQuery(name)), prom(WriteQuery(name))).value
    ensures r.Ok? ==> Processes(prom(ProcessesQuery(name)), again(ProcessesQuery(name))).Ok?
                      && r.value.processes == Processes(prom(ProcessesQuery(name)), again(ProcessesQuery(name))).value
    ensures r.Ok? ==> CpuThrottling(prom(PeriodsQuery(name)), prom(ThrottledQuery(name))).Ok?
                      && r.value.cpuThrottling == CpuThrottling(prom(PeriodsQuery(name)), prom(ThrottledQuery(name))).value
  {
    Assemble(RepliesFor(prom, again, name))
  }

  /** The record is produced exactly when every reply decodes and the processes query, when
      its first reply has a number, has one the second time too. */
  lemma MetricsSucceedIff(rs: Replies)
    ensures Assemble(rs).Ok? <==>
              Decodes(rs.cpu) && Decodes(rs.memoryUsage) && Decodes(rs.memoryLimit) && Decodes(rs.disk)
              && Decodes(rs.receive) && Decodes(rs.transmit) && Decodes(rs.read) && Decodes(rs.write)
              && Decodes(rs.processes) && (HasValue(rs.processes) ==> HasValue(rs.processesAgain))
              && Decodes(rs.periods) && Decodes(rs.throttled)
  {
  }

  /** An absent sample never turns into a number: each derived field is absent exactly when
      its raw value is, and the throttling ratio needs both counters. */
  lemma AbsentStaysAbsent(rs: Replies)
    requires Assemble(rs).Ok?
    ensures var m := Assemble(rs).value;
            (m.cpuUsage.None? <==> !HasValue(rs.cpu))
            && (m.memoryUsage.usageMb.None? <==> !HasValue(rs.memoryUsage))
            && (m.memoryUsage.limitMb.None? <==> !HasValue(rs.memoryLimit))
            && (m.diskUsage.None? <==> !HasValue(rs.disk))
            && (m.networkTraffic.receive.None? <==> !HasValue(rs.receive))
            && (m.networkTraffic.transmit.None? <==> !HasValue(rs.transmit))
            && (m.ioUsage.read.None? <==> !HasValue(rs.read))
            && (m.ioUsage.write.None? <==> !HasValue(rs.write))
            && (m.processes.None? <==> !HasValue(rs.processes))
            && (m.cpuThrottling.throttlingRatio.Some? ==> HasValue(rs.periods) && HasValue(rs.throttled))
  {
  }
}
