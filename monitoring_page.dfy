/** The rolling history of the monitoring page (interface/src/pages/monitoring.py): eight
    per-metric series kept in the session state, each poll appending one reading to every
    series and then cutting every series back to its last 60 readings. */
module MonitoringPage {
  import opened Wrappers
  import Prometheus

  /** The eight keys of `st.session_state.history`. */
  datatype Series = Cpu | Memory | Disk | NetworkReceive | NetworkTransmit | IoRead | IoWrite | ProcessCount

  /** The key each series is stored under. */
  function Name(k: Series): string {
    match k
    case Cpu => "cpu_usage"
    case Memory => "memory_usage"
    case Disk => "disk_usage"
    case NetworkReceive => "network_receive"
    case NetworkTransmit => "network_transmit"
    case IoRead => "io_read"
    case IoWrite => "io_write"
    case ProcessCount => "processes"
  }

  /** The keys in the order the history dict is built with. */
  const HistoryKeys: seq<Series> := [Cpu, Memory, Disk, NetworkReceive, NetworkTransmit, IoRead, IoWrite, ProcessCount]

  /** The keys the first loop of `update_history` appends to. */
  const ScalarKeys: seq<Series> := [Cpu, Memory, Disk, ProcessCount]

  /** Where each series sits in the history's key order. */
  function Position(k: Series): (i: nat)
    ensures i < |HistoryKeys| && HistoryKeys[i] == k
  {
    match k
    case Cpu => 0
    case Memory => 1
    case Disk => 2
    case NetworkReceive => 3
    case NetworkTransmit => 4
    case IoRead => 5
    case IoWrite => 6
    case ProcessCount => 7
  }

  /** Every series is listed, once. */
  lemma HistoryKeysComplete()
    ensures |HistoryKeys| == 8
    ensures forall k: Series :: k in HistoryKeys
    ensures forall i, j :: 0 <= i < j < |HistoryKeys| ==> HistoryKeys[i] != HistoryKeys[j]
  {
    forall k: Series ensures k in HistoryKeys {
      assert HistoryKeys[Position(k)] == k;
    }
  }

  /** A reading is a number or None (an absent metric). */
  type History = map<Series, seq<Option<real>>>

  /** The history `initialize_app` creates: every key, every series empty. */
  function Fresh(): (h: History)
    ensures forall k: Series :: k in h && h[k] == []
  {
    HistoryKeysComplete();
    map k | k in HistoryKeys :: []
  }

  /** The `[-60:]` slice: the last 60 readings, or all of them when there are fewer. */
  function Last60<T>(s: seq<T>): (r: seq<T>)
    ensures |r| == if |s| < 60 then |s| else 60
    ensures r == s[|s| - |r|..]
  {
    if |s| <= 60 then s else s[|s| - 60..]
  }

  /** The reading of one poll for key `k`: the memory dict contributes its `percentage`, the
      process count is stored as a number, everything else as read. */
  function Reading(m: Prometheus.ContainerMetrics, k: Series): Option<real> {
    match k
    case Cpu => m.cpuUsage
    case Memory => m.memoryUsage.percentage
    case Disk => m.diskUsage
    case ProcessCount => if m.processes.Some? then Some(m.processes.value as real) else None
    case NetworkReceive => m.networkTraffic.receive
    case NetworkTransmit => m.networkTraffic.transmit
    case IoRead => m.ioUsage.read
    case IoWrite => m.ioUsage.write
  }

  /** The history after one poll, as the specification of `UpdateHistory`. */
  function Updated(h: History, m: Prometheus.ContainerMetrics): History {
    map k | k in h :: Last60(h[k] + [Reading(m, k)])
  }

  /** One poll keeps the keys, bounds every series by 60, keeps the latest readings in their
      order and ends every series with the reading just taken. */
  lemma UpdatedSeries(h: History, m: Prometheus.ContainerMetrics, k: Series)
    requires k in h
    ensures Updated(h, m).Keys == h.Keys
    ensures var s := Updated(h, m)[k];
            |s| <= 60
            && |s| == (if |h[k]| + 1 < 60 then |h[k]| + 1 else 60)
            && s == (h[k] + [Reading(m, k)])[|h[k]| + 1 - |s|..]
            && s[|s| - 1] == Reading(m, k)
            && (|h[k]| < 60 ==> s == h[k] + [Reading(m, k)])
  {
    var s := Updated(h, m)[k];
    assert s == Last60(h[k] + [Reading(m, k)]);
  }

  /** A series ends with the reading of the poll. */
  lemma EndsWithReading(h: History, m: Prometheus.ContainerMetrics, k: Series)
    requires k in h
    ensures k in Updated(h, m) && Updated(h, m)[k] != [] && Last(Updated(h, m)[k]) == Reading(m, k)
  {
    UpdatedSeries(h, m, k);
  }

  /** The readings the first loop records: the memory dict's percentage, the other three raw. */
  lemma RecordedReadings(h: History, m: Prometheus.ContainerMetrics)
    requires forall k: Series :: k in h
    ensures var u := Updated(h, m);
            && Cpu in u && u[Cpu] != [] && Last(u[Cpu]) == m.cpuUsage
            && Memory in u && u[Memory] != [] && Last(u[Memory]) == m.memoryUsage.percentage
            && Disk in u && u[Disk] != [] && Last(u[Disk]) == m.diskUsage
            && ProcessCount in u && u[ProcessCount] != []
            && (m.processes.None? ==> Last(u[ProcessCount]).None?)
            && (m.processes.Some? ==> Last(u[ProcessCount]) == Some(m.processes.value as real))
  {
    EndsWithReading(h, m, Cpu);
    EndsWithReading(h, m, Memory);
    EndsWithReading(h, m, Disk);
    EndsWithReading(h, m, ProcessCount);
  }

  /** The network and I/O readings the poll records. */
  lemma RecordedRates(h: History, m: Prometheus.ContainerMetrics)
    requires forall k: Series :: k in h
    ensures var u := Updated(h, m);
            && NetworkReceive in u && u[NetworkReceive] != [] && Last(u[NetworkReceive]) == m.networkTraffic.receive
            && NetworkTransmit in u && u[NetworkTransmit] != [] && Last(u[NetworkTransmit]) == m.networkTraffic.transmit
            && IoRead in u && u[IoRead] != [] && Last(u[IoRead]) == m.ioUsage.read
            && IoWrite in u && u[IoWrite] != [] && Last(u[IoWrite]) == m.ioUsage.write
  {
    EndsWithReading(h, m, NetworkReceive);
    EndsWithReading(h, m, NetworkTransmit);
    EndsWithReading(h, m, IoRead);
    EndsWithReading(h, m, IoWrite);
  }

  function Last<T>(s: seq<T>): T
    requires s != []
  {
    s[|s| - 1]
  }

  /** The first loop of `update_history`: one reading appended to each scalar series. */
  method AppendScalars(h0: History, m: Prometheus.ContainerMetrics) returns (h: History)
    requires forall k: Series :: k in h0
    ensures h.Keys == h0.Keys
    ensures forall k :: k in h0 ==> h[k] == if k in ScalarKeys then h0[k] + [Reading(m, k)] else h0[k]
  {
    h := h0;
    for i := 0 to |ScalarKeys|
      invariant h.Keys == h0.Keys
      invariant forall k :: k in h0 ==> h[k] == if k in ScalarKeys[..i] then h0[k] + [Reading(m, k)] else h0[k]
    {
      var key := ScalarKeys[i];
      assert ScalarKeys[..i + 1] == ScalarKeys[..i] + [key];
      h := h[key := h[key] + [Reading(m, key)]];
    }
    assert ScalarKeys[..|ScalarKeys|] == ScalarKeys;
  }

  /** The second loop of `update_history`: every series cut to its last 60 readings. */
  method TruncateAll(a: History) returns (h: History)
    requires forall k: Series :: k in a
    ensures h.Keys == a.Keys
    ensures forall k :: k in a ==> h[k] == Last60(a[k])
  {
    h := a;
    for j := 0 to |HistoryKeys|
      invariant h.Keys == a.Keys
      invariant forall k :: k in a ==> h[k] == if k in HistoryKeys[..j] then Last60(a[k]) else a[k]
    {
      var key := HistoryKeys[j];
      assert HistoryKeys[..j + 1] == HistoryKeys[..j] + [key];
      h := h[key := Last60(h[key])];
    }
    assert HistoryKeys[..|HistoryKeys|] == HistoryKeys;
    HistoryKeysComplete();
  }

  /** `st.session_state`, reduced to its `history` entry (None while it is not set). */
  class SessionState {
    var history: Option<History>

    constructor()
      ensures history.None?
    {
      history := None;
    }

    /** The history holds all eight keys. */
    predicate Valid()
      reads this
    {
      history.Some? && forall k: Series :: k in history.value
    }

    /** `initialize_app`: create the fresh history, unless one is already there. */
    method InitializeApp()
      modifies this
      ensures old(history).None? ==> history == Some(Fresh())
      ensures old(history).Some? ==> history == old(history)
      ensures old(history).None? || old(Valid()) ==> Valid()
    {
      if history.None? {
        history := Some(Fresh());
      }
    }

    /** `update_history(metrics)`: append the memory percentage and the raw CPU, disk and
        process readings in a loop, then the four network and I/O readings, then cut every
        series to its last 60 readings in a second loop. */
    method UpdateHistory(m: Prometheus.ContainerMetrics)
      requires Valid()
      modifies this
      ensures Valid()
      ensures history == Some(Updated(old(history).value, m))
    {
      var h0 := history.value;
      var h := AppendScalars(h0, m);
      h := h[NetworkReceive := h[NetworkReceive] + [m.networkTraffic.receive]];
      h := h[NetworkTransmit := h[NetworkTransmit] + [m.networkTraffic.transmit]];
      h := h[IoRead := h[IoRead] + [m.ioUsage.read]];
      h := h[IoWrite := h[IoWrite] + [m.ioUsage.write]];
      forall k | k in h0 ensures h[k] == h0[k] + [Reading(m, k)] {
        assert k in ScalarKeys <==> k.Cpu? || k.Memory? || k.Disk? || k.ProcessCount?;
      }
      h := TruncateAll(h);
      assert h == Updated(h0, m);
      history := Some(h);
    }
  }
}
