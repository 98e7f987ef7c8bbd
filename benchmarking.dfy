/** The container benchmarks (interface/src/utils/benchmarking.py): sampling loops that
    run until the duration has elapsed and reduce their samples to average, maximum and
    minimum, an HTTP phase that counts the successful responses among a batch of
    requests, and the `results` dict the three phases fill. */
module Benchmarking {
  import opened Wrappers

  /** The only exception the reductions raise here: a division by zero. */
  datatype BenchError = ZeroDivisionError

  /** The CPU counters of one stats reading: the container's total usage now and at the
      previous reading, the system's usage now and then, and the number of per-CPU
      counters. */
  datatype CpuReading = CpuReading(totalUsage: int, preTotalUsage: int, systemUsage: int,
                                   preSystemUsage: int, cpuCount: nat)

  /** `(cpu_delta / system_delta) * len(percpu_usage) * 100.0`; true division by a zero
      system delta raises. */
  function CpuPercent(s: CpuReading): (r: Result<real, BenchError>)
    ensures r.Err? <==> s.systemUsage == s.preSystemUsage
    ensures r.Ok? ==> r.value * (s.systemUsage - s.preSystemUsage) as real
                      == (s.totalUsage - s.preTotalUsage) as real * s.cpuCount as real * 100.0
  {
    var systemDelta := s.systemUsage - s.preSystemUsage;
    if systemDelta == 0 then Err(ZeroDivisionError)
    else Ok(((s.totalUsage - s.preTotalUsage) as real / systemDelta as real) * s.cpuCount as real * 100.0)
  }

  /** `usage / (1024 * 1024)`: bytes as mebibytes. */
  function MemoryMb(usage: int): (mb: real)
    ensures mb * 1048576.0 == usage as real
    ensures usage >= 0 ==> mb >= 0.0
  {
    usage as real / 1048576.0
  }

  /** `sum(s)`. */
  function Sum(s: seq<real>): real {
    if s == [] then 0.0 else s[0] + Sum(s[1..])
  }

  /** `max(s)`: the first sample not smaller than any other. */
  function MaxOf(s: seq<real>): real
    requires s != []
  {
    if |s| == 1 then s[0]
    else
      var m := MaxOf(s[1..]);
      if s[0] >= m then s[0] else m
  }

  /** `min(s)`: the first sample not larger than any other. */
  function MinOf(s: seq<real>): real
    requires s != []
  {
    if |s| == 1 then s[0]
    else
      var m := MinOf(s[1..]);
      if s[0] <= m then s[0] else m
  }

  /** The `{'average', 'max', 'min'}` dict of a sampling phase. */
  datatype Summary = Summary(average: real, maximum: real, minimum: real)

  /** The reduction of a sampling phase. With no samples, `sum(s) / len(s)`, evaluated
      first, raises. */
  function Summarize(s: seq<real>): (r: Result<Summary, BenchError>)
    ensures r.Err? <==> s == []
  {
    if s == [] then Err(ZeroDivisionError)
    else Ok(Summary(Sum(s) / |s| as real, MaxOf(s), MinOf(s)))
  }

  /** The maximum is a sample and bounds every sample from above. */
  lemma {:induction false} MaxOfBounds(s: seq<real>)
    requires s != []
    ensures MaxOf(s) in s
    ensures forall i :: 0 <= i < |s| ==> s[i] <= MaxOf(s)
  {
    if |s| > 1 {
      MaxOfBounds(s[1..]);
      forall i | 1 <= i < |s| ensures s[i] <= MaxOf(s) {
        assert s[i] == s[1..][i - 1];
      }
    }
  }

  /** The minimum is a sample and bounds every sample from below. */
  lemma {:induction false} MinOfBounds(s: seq<real>)
    requires s != []
    ensures MinOf(s) in s
    ensures forall i :: 0 <= i < |s| ==> MinOf(s) <= s[i]
  {
    if |s| > 1 {
      MinOfBounds(s[1..]);
      forall i | 1 <= i < |s| ensures MinOf(s) <= s[i] {
        assert s[i] == s[1..][i - 1];
      }
    }
  }

  /** If every sample lies in [lo, hi], the sum lies in [n * lo, n * hi]. */
  lemma {:induction false} SumBetween(s: seq<real>, lo: real, hi: real)
    requires forall i :: 0 <= i < |s| ==> lo <= s[i] <= hi
    ensures |s| as real * lo <= Sum(s) <= |s| as real * hi
  {
    if s != [] {
      forall i | 0 <= i < |s| - 1 ensures lo <= s[1..][i] <= hi {
        assert s[1..][i] == s[i + 1];
      }
      SumBetween(s[1..], lo, hi);
      assert |s| as real * lo == lo + (|s| - 1) as real * lo;
      assert |s| as real * hi == hi + (|s| - 1) as real * hi;
    }
  }

  /** A total between n * lo and n * hi has its n-th part between lo and hi, and the part
      taken n times is the total. */
  lemma AverageBetween(total: real, n: real, lo: real, hi: real)
    requires n > 0.0 && n * lo <= total <= n * hi
    ensures lo <= total / n <= hi
  {
  }

  /** Dividing by a non-zero number and multiplying back gives the number divided. */
  lemma TimesBack(total: real, n: real)
    requires n != 0.0
    ensures (total / n) * n == total
  {
  }

  /** The mean of the samples lies between their minimum and maximum, and taken once per
      sample it gives back their sum. */
  lemma MeanBounds(s: seq<real>)
    requires s != []
    ensures MinOf(s) <= Sum(s) / |s| as real <= MaxOf(s)
  {
    MaxOfBounds(s);
    MinOfBounds(s);
    SumBetween(s, MinOf(s), MaxOf(s));
    AverageBetween(Sum(s), |s| as real, MinOf(s), MaxOf(s));
  }

  /** For samples, `min <= average <= max`, and the maximum and the minimum are samples
      that bound all the others. */
  lemma SummaryBounds(s: seq<real>)
    requires s != []
    ensures var m := Summarize(s).value;
            m.minimum <= m.average <= m.maximum
            && m.maximum in s && m.minimum in s
            && forall i :: 0 <= i < |s| ==> m.minimum <= s[i] <= m.maximum
  {
    MaxOfBounds(s);
    MinOfBounds(s);
    MeanBounds(s);
  }

  /** The average, taken once per sample, is the sum of the samples. */
  lemma SummaryAverage(s: seq<real>)
    requires s != []
    ensures Summarize(s).value.average * |s| as real == Sum(s)
  {
    TimesBack(Sum(s), |s| as real);
  }

  /** How many passes the sampling loop makes: it checks the elapsed time before each
      pass and stops at the first check that finds at least `duration` seconds gone (or
      when the given clock readings run out). */
  function Rounds(elapsed: seq<real>, duration: int): (n: nat)
    ensures n <= |elapsed|
    ensures forall j :: 0 <= j < n ==> elapsed[j] < duration as real
    ensures n == |elapsed| || elapsed[n] >= duration as real
  {
    if elapsed == [] || elapsed[0] >= duration as real then 0
    else 1 + Rounds(elapsed[1..], duration)
  }

  /** The CPU samples of the passes made, in order; a pass that divides by zero raises
      and ends the phase. */
  function CpuSamples(readings: seq<CpuReading>): Result<seq<real>, BenchError> {
    if readings == [] then Ok([])
    else
      var before :- CpuSamples(readings[..|readings| - 1]);
      var sample :- CpuPercent(readings[|readings| - 1]);
      Ok(before + [sample])
  }

  /** The CPU phase fails exactly when one of its readings has no system delta; otherwise
      it has one sample per reading, each that reading's percentage. */
  lemma {:induction false} CpuSamplesOutcome(readings: seq<CpuReading>)
    ensures CpuSamples(readings).Err? <==>
              exists i :: 0 <= i < |readings| && readings[i].systemUsage == readings[i].preSystemUsage
    ensures CpuSamples(readings).Ok? ==>
              |CpuSamples(readings).value| == |readings|
              && forall i :: 0 <= i < |readings| ==> Ok(CpuSamples(readings).value[i]) == CpuPercent(readings[i])
  {
    if readings != [] {
      var n := |readings|;
      var init := readings[..n - 1];
      CpuSamplesOutcome(init);
      forall i | 0 <= i < n - 1 ensures init[i] == readings[i] { }
      if CpuSamples(init).Ok? && CpuPercent(readings[n - 1]).Ok? {
        var r := CpuSamples(readings).value;
        assert r == CpuSamples(init).value + [CpuPercent(readings[n - 1]).value];
        forall i | 0 <= i < n ensures Ok(r[i]) == CpuPercent(readings[i]) {
          if i < n - 1 {
            assert r[i] == CpuSamples(init).value[i];
          }
        }
      }
      if CpuSamples(init).Err? {
        var i :| 0 <= i < n - 1 && init[i].systemUsage == init[i].preSystemUsage;
        assert readings[i] == init[i];
      }
    }
  }

  /** The memory samples of the passes made, in mebibytes, in order. */
  function MemorySamples(usages: seq<int>): (s: seq<real>)
    ensures |s| == |usages|
    ensures forall i :: 0 <= i < |s| ==> s[i] == MemoryMb(usages[i])
  {
    if usages == [] then [] else MemorySamples(usages[..|usages| - 1]) + [MemoryMb(usages[|usages| - 1])]
  }

  /** The reduction of a CPU phase over the readings of its passes. */
  function CpuSummary(readings: seq<CpuReading>): Result<Summary, BenchError> {
    var samples :- CpuSamples(readings);
    Summarize(samples)
  }

  /** What one HTTP request gave: a response with its status, or a raised exception
      (`asyncio.gather(..., return_exceptions=True)` keeps both). */
  datatype HttpOutcome = Response(status: int) | Raised

  /** `sum(1 for r in responses if isinstance(r, ClientResponse) and r.status == 200)`. */
  function CountSuccessful(outcomes: seq<HttpOutcome>): nat {
    if outcomes == [] then 0
    else (if outcomes[0] == Response(200) then 1 else 0) + CountSuccessful(outcomes[1..])
  }

  /** The count lies between 0 and the number of outcomes; it is the number of outcomes
      exactly when every request got a 200 response, and 0 exactly when none did. */
  lemma {:induction false} CountSuccessfulBounds(outcomes: seq<HttpOutcome>)
    ensures CountSuccessful(outcomes) <= |outcomes|
    ensures CountSuccessful(outcomes) == |outcomes| <==>
              forall i :: 0 <= i < |outcomes| ==> outcomes[i] == Response(200)
    ensures CountSuccessful(outcomes) == 0 <==>
              forall i :: 0 <= i < |outcomes| ==> outcomes[i] != Response(200)
  {
    if outcomes != [] {
      var rest := outcomes[1..];
      CountSuccessfulBounds(rest);
      forall i | 1 <= i < |outcomes| ensures outcomes[i] == rest[i - 1] { }
      if forall i :: 0 <= i < |rest| ==> rest[i] == Response(200) {
        forall i | 1 <= i < |outcomes| ensures outcomes[i] == Response(200) {
          assert outcomes[i] == rest[i - 1];
        }
      }
      if forall i :: 0 <= i < |rest| ==> rest[i] != Response(200) {
        forall i | 1 <= i < |outcomes| ensures outcomes[i] != Response(200) {
          assert outcomes[i] == rest[i - 1];
        }
      }
    }
  }

  /** The `http` dict: the requests asked for, the successful ones, the time taken and
      the rate. */
  datatype HttpReport = HttpReport(totalRequests: int, successfulRequests: nat, totalTime: real,
                                   requestsPerSecond: real)

  /** The number of requests `range(num_requests)` issues. */
  function Issued(numRequests: int): nat {
    if numRequests < 0 then 0 else numRequests
  }

  /** The `http` dict for the outcomes of the issued requests, sent at `start` and all
      answered at `end`: `total_requests` is the number asked for even when requests
      raised, and `num_requests / total_time` raises when no time passed. */
  function HttpReportOf(numRequests: int, outcomes: seq<HttpOutcome>, start: real, end: real): (r: Result<HttpReport, BenchError>)
    requires |outcomes| == Issued(numRequests)
    ensures r.Err? <==> end - start == 0.0
    ensures r.Ok? ==>
              r.value.totalRequests == numRequests
              && r.value.successfulRequests == CountSuccessful(outcomes)
              && r.value.totalTime == end - start
              && r.value.requestsPerSecond * r.value.totalTime == numRequests as real
  {
    var totalTime := end - start;
    if totalTime == 0.0 then Err(ZeroDivisionError)
    else Ok(HttpReport(numRequests, CountSuccessful(outcomes), totalTime, numRequests as real / totalTime))
  }

  /** The keys of `results`: 'cpu', 'memory' and 'http'. */
  datatype Phase = Cpu | Memory | Http

  /** A value of `results`. */
  datatype PhaseResult = Stats(summary: Summary) | Requests(report: HttpReport)

  /** `ContainerBenchmark`, reduced to its `results` dict. */
  class ContainerBenchmark {
    var results: map<Phase, PhaseResult>

    constructor()
      ensures results == map[]
    {
      results := map[];
    }

    /** `cpu_benchmark`: sample while the duration has not elapsed (pass `i` checks the
        clock at `elapsed[i]` and reads `readings[i]`), then store the reduction under
        'cpu'. An exception leaves `results` as it was. */
    method CpuBenchmark(duration: int, elapsed: seq<real>, readings: seq<CpuReading>) returns (r: Result<Summary, BenchError>)
      requires |readings| == |elapsed|
      modifies this
      ensures r == CpuSummary(readings[..Rounds(elapsed, duration)])
      ensures r.Ok? ==> results == old(results)[Cpu := Stats(r.value)]
      ensures r.Err? ==> results == old(results)
    {
      var n := Rounds(elapsed, duration);
      var samples: seq<real> := [];
      var i := 0;
      while i < |elapsed| && elapsed[i] < duration as real
        invariant 0 <= i <= n
        invariant CpuSamples(readings[..i]) == Ok(samples)
      {
        assert readings[..i + 1][..i] == readings[..i];
        var sample := CpuPercent(readings[i]);
        if sample.Err? {
          assert i < n;
          assert readings[..n][i].systemUsage == readings[..n][i].preSystemUsage;
          CpuSamplesOutcome(readings[..n]);
          var failed := CpuSamples(readings[..n]);
          assert failed.Err? && failed.error.ZeroDivisionError?;
          assert CpuSummary(readings[..n]) == failed.PropagateFailure();
          return Err(ZeroDivisionError);
        }
        samples := samples + [sample.value];
        i := i + 1;
      }
      var summary := Summarize(samples);
      if summary.Err? {
        return Err(summary.error);
      }
      results := results[Cpu := Stats(summary.value)];
      r := summary;
    }

    /** `memory_benchmark`: sample the memory usage in mebibytes while the duration has not
        elapsed, then store the reduction under 'memory'. */
    method MemoryBenchmark(duration: int, elapsed: seq<real>, usages: seq<int>) returns (r: Result<Summary, BenchError>)
      requires |usages| == |elapsed|
      modifies this
      ensures r == Summarize(MemorySamples(usages[..Rounds(elapsed, duration)]))
      ensures r.Ok? ==> results == old(results)[Memory := Stats(r.value)]
      ensures r.Err? ==> results == old(results)
    {
      var n := Rounds(elapsed, duration);
      var samples: seq<real> := [];
      var i := 0;
      while i < |elapsed| && elapsed[i] < duration as real
        invariant 0 <= i <= n
        invariant samples == MemorySamples(usages[..i])
      {
        assert usages[..i + 1][..i] == usages[..i];
        samples := samples + [MemoryMb(usages[i])];
        i := i + 1;
      }
      var summary := Summarize(samples);
      if summary.Err? {
        return Err(summary.error);
      }
      results := results[Memory := Stats(summary.value)];
      r := summary;
    }

    /** `http_benchmark`: store the report of the batch under 'http'. */
    method HttpBenchmark(numRequests: int, outcomes: seq<HttpOutcome>, start: real, end: real) returns (r: Result<HttpReport, BenchError>)
      requires |outcomes| == Issued(numRequests)
      modifies this
      ensures r == HttpReportOf(numRequests, outcomes, start, end)
      ensures r.Ok? ==> results == old(results)[Http := Requests(r.value)]
      ensures r.Err? ==> results == old(results)
    {
      r := HttpReportOf(numRequests, outcomes, start, end);
      if r.Ok? {
        results := results[Http := Requests(r.value)];
      }
    }

    /** `run_all_benchmarks`: the three phases in order; an exception ends the run and
        keeps what the earlier phases stored. A complete run has stored all three
        entries, each its own phase's result, and changed no other entry. */
    method RunAllBenchmarks(duration: int, cpuElapsed: seq<real>, readings: seq<CpuReading>,
                            memoryElapsed: seq<real>, usages: seq<int>,
                            numRequests: int, outcomes: seq<HttpOutcome>, start: real, end: real)
      returns (r: Result<map<Phase, PhaseResult>, BenchError>)
      requires |readings| == |cpuElapsed| && |usages| == |memoryElapsed|
      requires |outcomes| == Issued(numRequests)
      modifies this
      ensures var cpu := CpuSummary(readings[..Rounds(cpuElapsed, duration)]);
              var memory := Summarize(MemorySamples(usages[..Rounds(memoryElapsed, duration)]));
              var http := HttpReportOf(numRequests, outcomes, start, end);
              (r.Ok? <==> cpu.Ok? && memory.Ok? && http.Ok?)
              && (r.Ok? ==>
                    (r.value == results
                     && results == old(results)[Cpu := Stats(cpu.value)][Memory := Stats(memory.value)][Http := Requests(http.value)]))
              && (cpu.Err? ==> results == old(results))
              && (cpu.Ok? && memory.Err? ==> results == old(results)[Cpu := Stats(cpu.value)])
              && (cpu.Ok? && memory.Ok? && http.Err? ==>
                    results == old(results)[Cpu := Stats(cpu.value)][Memory := Stats(memory.value)])
    {
      var cpu := CpuBenchmark(duration, cpuElapsed, readings);
      if cpu.Err? {
        return Err(cpu.error);
      }
      var memory := MemoryBenchmark(duration, memoryElapsed, usages);
      if memory.Err? {
        return Err(memory.error);
      }
      var http := HttpBenchmark(numRequests, outcomes, start, end);
      if http.Err? {
        return Err(http.error);
      }
      r := Ok(results);
    }
  }
}
