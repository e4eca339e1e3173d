/**
 * The framework's telemetry API: a mock OpenTelemetry metric log (a dict of
 * append-only lists), a mock hardware monitor whose Gaussian draws are passed
 * in, and the API that records five epistemic and four hardware metrics per
 * update and keeps a coherence-flux history. `time.time()` is a `now`
 * parameter shared by all records of one call.
 */
module TelemetryLog {
  import opened Wrappers

  /** A recorded value: a number, an integer count, or a list of numbers. */
  datatype Value = Num(x: real) | Count(n: int) | Spectrum(xs: seq<real>)

  /** `{"value": v, "labels": labels, "timestamp": t}`; the API never passes labels. */
  datatype Entry = Entry(value: Value, labels: Option<map<string, string>>, timestamp: real)

  type Metrics = map<string, seq<Entry>>

  /** The entries logged under `name`, empty when it was never recorded. */
  function LogOf(metrics: Metrics, name: string): seq<Entry> {
    if name in metrics then metrics[name] else []
  }

  /** Appending one entry under `name`, creating its list if absent. */
  function Record(metrics: Metrics, name: string, e: Entry): (r: Metrics)
    ensures LogOf(r, name) == LogOf(metrics, name) + [e]
    ensures forall n :: n != name ==> LogOf(r, n) == LogOf(metrics, n)
    ensures r.Keys == metrics.Keys + {name}
  {
    metrics[name := LogOf(metrics, name) + [e]]
  }

  /** A run of `record_metric` calls, in order, all at time `now` and without labels. */
  function RecordAll(metrics: Metrics, records: seq<(string, Value)>, now: real): Metrics
    decreases |records|
  {
    if |records| == 0 then metrics
    else
      var last := records[|records| - 1];
      Record(RecordAll(metrics, records[..|records| - 1], now), last.0, Entry(last.1, None, now))
  }

  /** The entries a run of records adds under `name`, in order. */
  function EntriesFor(records: seq<(string, Value)>, name: string, now: real): seq<Entry>
    decreases |records|
  {
    if |records| == 0 then []
    else
      var last := records[|records| - 1];
      EntriesFor(records[..|records| - 1], name, now) + (if last.0 == name then [Entry(last.1, None, now)] else [])
  }

  /** Each list only grows, by exactly the entries recorded under its name, in order. */
  lemma {:induction false} RecordAllLog(metrics: Metrics, records: seq<(string, Value)>, now: real, name: string)
    ensures LogOf(RecordAll(metrics, records, now), name) == LogOf(metrics, name) + EntriesFor(records, name, now)
    decreases |records|
  {
    if |records| > 0 {
      RecordAllLog(metrics, records[..|records| - 1], now, name);
    }
  }

  predicate DistinctNames(records: seq<(string, Value)>) {
    forall i, j :: 0 <= i < j < |records| ==> records[i].0 != records[j].0
  }

  /** With distinct names, a run adds exactly one entry under each name it records... */
  lemma {:induction false} EntriesForUnique(records: seq<(string, Value)>, k: nat, now: real)
    requires DistinctNames(records) && k < |records|
    ensures EntriesFor(records, records[k].0, now) == [Entry(records[k].1, None, now)]
    decreases |records|
  {
    var init := records[..|records| - 1];
    if k == |records| - 1 {
      EntriesForAbsent(init, records[k].0, now);
    } else {
      EntriesForUnique(init, k, now);
    }
  }

  /** ...and nothing under any other name. */
  lemma {:induction false} EntriesForAbsent(records: seq<(string, Value)>, name: string, now: real)
    requires forall i :: 0 <= i < |records| ==> records[i].0 != name
    ensures EntriesFor(records, name, now) == []
    decreases |records|
  {
    if |records| > 0 {
      EntriesForAbsent(records[..|records| - 1], name, now);
    }
  }

  class MockOpenTelemetry {
    var metrics: Metrics

    constructor()
      ensures metrics == map[]
    {
      metrics := map[];
    }

    /** `record_metric`: appends one entry to `name`'s list, creating it if absent. */
    method RecordMetric(name: string, value: Value, labels: Option<map<string, string>>, now: real)
      modifies this
      ensures metrics == Record(old(metrics), name, Entry(value, labels, now))
    {
      if name !in metrics {
        metrics := metrics[name := []];
      }
      metrics := metrics[name := metrics[name] + [Entry(value, labels, now)]];
    }

    /** `metrics.get(name, [{}])[-1].get("value", default)`. */
    function Latest(name: string, default: Value): (v: Value)
      reads this
      ensures |LogOf(metrics, name)| == 0 ==> v == default
      ensures |LogOf(metrics, name)| > 0 ==> v == LogOf(metrics, name)[|LogOf(metrics, name)| - 1].value
    {
      if name in metrics && |metrics[name]| > 0 then metrics[name][|metrics[name]| - 1].value else default
    }
  }

  /** `int(x)`: truncation toward zero. */
  function TruncateTowardZero(x: real): (n: int)
    ensures x >= 0.0 ==> n as real <= x < n as real + 1.0
    ensures x < 0.0 ==> n as real - 1.0 < x <= n as real
  {
    if x >= 0.0 then x.Floor else -((-x).Floor)
  }

  datatype HardwareData = HardwareData(ipcStalls: int, cacheMissRate: real, jitter: real, timestamp: real)

  /** The reading after `simulate_hardware_metrics` with the given Gaussian draws:
      stalls truncated then floored at 0, miss rate clamped into [0, 1], jitter
      floored at 0. */
  function Sampled(stallsDraw: real, missDraw: real, jitterDraw: real, now: real): (d: HardwareData)
    ensures d.ipcStalls >= 0 && 0.0 <= d.cacheMissRate <= 1.0 && d.jitter >= 0.0
    ensures stallsDraw >= 0.0 ==> d.ipcStalls == stallsDraw.Floor
    ensures 0.0 <= missDraw <= 1.0 ==> d.cacheMissRate == missDraw
    ensures jitterDraw >= 0.0 ==> d.jitter == jitterDraw
    ensures d.timestamp == now
  {
    var t := TruncateTowardZero(stallsDraw);
    HardwareData(if t < 0 then 0 else t,
                 if missDraw < 0.0 then 0.0 else if missDraw > 1.0 then 1.0 else missDraw,
                 if jitterDraw < 0.0 then 0.0 else jitterDraw, now)
  }

  class MockHardwareMonitor {
    var ipcStalls: int
    var cacheMisses: real
    var jitter: real

    ghost predicate Valid()
      reads this
    {
      ipcStalls >= 0 && 0.0 <= cacheMisses <= 1.0 && jitter >= 0.0
    }

    constructor()
      ensures Valid() && ipcStalls == 0 && cacheMisses == 0.0 && jitter == 0.0
    {
      ipcStalls := 0;
      cacheMisses := 0.0;
      jitter := 0.0;
    }

    /** `simulate_hardware_metrics`; the load intensity only shapes the draws, which are parameters. */
    method SimulateHardwareMetrics(stallsDraw: real, missDraw: real, jitterDraw: real)
      modifies this
      ensures Valid()
      ensures forall now :: GetHardwareData(now) == Sampled(stallsDraw, missDraw, jitterDraw, now)
    {
      ipcStalls := TruncateTowardZero(stallsDraw);
      cacheMisses := missDraw;
      jitter := jitterDraw;
      ipcStalls := if ipcStalls < 0 then 0 else ipcStalls;
      cacheMisses := if cacheMisses > 1.0 then 1.0 else cacheMisses;
      cacheMisses := if cacheMisses < 0.0 then 0.0 else cacheMisses;
      jitter := if jitter < 0.0 then 0.0 else jitter;
    }

    /** `get_hardware_data`. */
    function GetHardwareData(now: real): HardwareData
      reads this
    {
      HardwareData(ipcStalls, cacheMisses, jitter, now)
    }
  }

  const ChecksumMetric: string := "epistemic.checksum"
  const DecoherenceMetric: string := "epistemic.gradient_decoherence_spectra"
  const ViscosityMetric: string := "epistemic.semantic_viscosity_map"
  const LatencyMetric: string := "epistemic.conscience_latency_index"
  const FluxMetric: string := "epistemic.incoherence_flux"
  const StallsMetric: string := "hardware.ipc_stalls_per_sec"
  const MissMetric: string := "hardware.cache_miss_rate"
  const JitterMetric: string := "hardware.attention_pipeline_jitter"
  const TimestampMetric: string := "hardware.timestamp"

  function EpistemicRecords(checksum: real, spectra: seq<real>, viscosity: real, latency: real, flux: real)
    : seq<(string, Value)>
  {
    [(ChecksumMetric, Num(checksum)), (DecoherenceMetric, Spectrum(spectra)), (ViscosityMetric, Num(viscosity)),
     (LatencyMetric, Num(latency)), (FluxMetric, Num(flux))]
  }

  /** One record per key of `get_hardware_data()`, in its key order. */
  function HardwareRecords(d: HardwareData): seq<(string, Value)> {
    [(StallsMetric, Count(d.ipcStalls)), (MissMetric, Num(d.cacheMissRate)), (JitterMetric, Num(d.jitter)),
     (TimestampMetric, Num(d.timestamp))]
  }

  /** The nine records of one update: five epistemic metrics, then the four hardware ones. */
  function UpdateRecords(checksum: real, spectra: seq<real>, viscosity: real, latency: real, flux: real,
                         d: HardwareData): seq<(string, Value)>
  {
    EpistemicRecords(checksum, spectra, viscosity, latency, flux) + HardwareRecords(d)
  }

  /** Two runs of records one after the other are one run of their concatenation. */
  /** The run up to record `k` is the run up to record `k - 1`, then record `k`. */
  lemma RecordAllPrefix(m: Metrics, rs: seq<(string, Value)>, k: nat, now: real)
    requires 0 < k <= |rs|
    ensures RecordAll(m, rs[..k], now) == Record(RecordAll(m, rs[..k - 1], now), rs[k - 1].0, Entry(rs[k - 1].1, None, now))
  {
    assert rs[..k][..k - 1] == rs[..k - 1];
  }

  lemma {:induction false} RecordAllConcat(m: Metrics, r1: seq<(string, Value)>, r2: seq<(string, Value)>, now: real)
    ensures RecordAll(RecordAll(m, r1, now), r2, now) == RecordAll(m, r1 + r2, now)
    decreases |r2|
  {
    if |r2| > 0 {
      RecordAllConcat(m, r1, r2[..|r2| - 1], now);
      assert (r1 + r2)[..|r1 + r2| - 1] == r1 + r2[..|r2| - 1];
    } else {
      assert r1 + r2 == r1;
    }
  }

  predicate IsUpdateMetric(n: string) {
    n in [ChecksumMetric, DecoherenceMetric, ViscosityMetric, LatencyMetric, FluxMetric,
          StallsMetric, MissMetric, JitterMetric, TimestampMetric]
  }

  /** The number of history entries `get_realtime_telemetry` reports. */
  const HistoryWindow: nat := 10

  /** `history[-10:]`: the last min(10, n) entries, in order. */
  function LastWindow(history: seq<real>): (w: seq<real>)
    ensures |w| == if |history| < HistoryWindow then |history| else HistoryWindow
    ensures forall k :: 0 <= k < |w| ==> w[k] == history[|history| - |w| + k]
  {
    if |history| <= HistoryWindow then history else history[|history| - HistoryWindow..]
  }

  /** Extending the history by one entry slides the window by one. */
  lemma LastWindowSlides(history: seq<real>, x: real)
    ensures LastWindow(history + [x]) ==
            (if |history| < HistoryWindow then LastWindow(history) else LastWindow(history)[1..]) + [x]
  {
    var h := history + [x];
    if |history| >= HistoryWindow {
      assert LastWindow(h) == LastWindow(history)[1..] + [x];
    }
  }

  datatype Realtime = Realtime(latency: Value, decoherence: Value, viscosity: Value, flux: Value,
                               checksum: Value, fluxHistory: seq<real>, hardware: HardwareData)

  class EpistemicTelemetryApi {
    const otel: MockOpenTelemetry
    const hw: MockHardwareMonitor
    var fluxHistory: seq<real>
    var lastChecksum: real

    ghost predicate Valid()
      reads this, hw
    {
      hw.Valid()
    }

    constructor()
      ensures Valid() && fresh(otel) && fresh(hw)
      ensures otel.metrics == map[] && fluxHistory == [] && lastChecksum == 0.0
      ensures hw.ipcStalls == 0 && hw.cacheMisses == 0.0 && hw.jitter == 0.0
    {
      otel := new MockOpenTelemetry();
      hw := new MockHardwareMonitor();
      fluxHistory := [];
      lastChecksum := 0.0;
    }

    /** `update_epistemic_metrics`: the five epistemic records, the flux appended to
        the history, the checksum remembered, a fresh hardware sample, and the four
        hardware records. */
    method UpdateEpistemicMetrics(checksum: real, spectra: seq<real>, viscosity: real,
                                  latency: real, flux: real,
                                  stallsDraw: real, missDraw: real, jitterDraw: real, now: real)
      requires Valid()
      modifies this, otel, hw
      ensures Valid()
      ensures fluxHistory == old(fluxHistory) + [flux]
      ensures lastChecksum == checksum
      ensures hw.GetHardwareData(now) == Sampled(stallsDraw, missDraw, jitterDraw, now)
      ensures otel.metrics == RecordAll(old(otel.metrics),
                UpdateRecords(checksum, spectra, viscosity, latency, flux,
                              Sampled(stallsDraw, missDraw, jitterDraw, now)), now)
    {
      ghost var start := otel.metrics;
      RecordEpistemic(checksum, spectra, viscosity, latency, flux, now);
      fluxHistory := fluxHistory + [flux];
      lastChecksum := checksum;
      hw.SimulateHardwareMetrics(stallsDraw, missDraw, jitterDraw);
      var data := hw.GetHardwareData(now);
      ghost var mid := otel.metrics;
      RecordHardware(data, now);
      RecordAllConcat(start, EpistemicRecords(checksum, spectra, viscosity, latency, flux), HardwareRecords(data), now);
    }

    /** The five epistemic `record_metric` calls of an update. */
    method RecordEpistemic(checksum: real, spectra: seq<real>, viscosity: real, latency: real, flux: real, now: real)
      modifies otel
      ensures otel.metrics == RecordAll(old(otel.metrics), EpistemicRecords(checksum, spectra, viscosity, latency, flux), now)
    {
      ghost var start := otel.metrics;
      otel.RecordMetric(ChecksumMetric, Num(checksum), None, now);
      otel.RecordMetric(DecoherenceMetric, Spectrum(spectra), None, now);
      otel.RecordMetric(ViscosityMetric, Num(viscosity), None, now);
      otel.RecordMetric(LatencyMetric, Num(latency), None, now);
      otel.RecordMetric(FluxMetric, Num(flux), None, now);
      ghost var rs := EpistemicRecords(checksum, spectra, viscosity, latency, flux);
      assert rs[..0] == [] && rs[..5] == rs;
      RecordAllPrefix(start, rs, 1, now);
      RecordAllPrefix(start, rs, 2, now);
      RecordAllPrefix(start, rs, 3, now);
      RecordAllPrefix(start, rs, 4, now);
      RecordAllPrefix(start, rs, 5, now);
    }

    /** The four hardware `record_metric` calls, one per key of the reading. */
    method RecordHardware(data: HardwareData, now: real)
      modifies otel
      ensures otel.metrics == RecordAll(old(otel.metrics), HardwareRecords(data), now)
    {
      ghost var start := otel.metrics;
      ghost var done: seq<(string, Value)> := [];
      otel.RecordMetric(StallsMetric, Count(data.ipcStalls), None, now);
      done := done + [(StallsMetric, Count(data.ipcStalls))];
      assert otel.metrics == RecordAll(start, done, now);
      otel.RecordMetric(MissMetric, Num(data.cacheMissRate), None, now);
      done := done + [(MissMetric, Num(data.cacheMissRate))];
      assert otel.metrics == RecordAll(start, done, now);
      otel.RecordMetric(JitterMetric, Num(data.jitter), None, now);
      done := done + [(JitterMetric, Num(data.jitter))];
      assert otel.metrics == RecordAll(start, done, now);
      otel.RecordMetric(TimestampMetric, Num(data.timestamp), None, now);
      done := done + [(TimestampMetric, Num(data.timestamp))];
      assert otel.metrics == RecordAll(start, done, now);
      assert done == HardwareRecords(data);
    }

    /** `get_realtime_telemetry`: the last recorded value of each epistemic metric
        (0.0, or [] for the spectra, when none was recorded), the last ten flux
        history entries and a fresh hardware reading. */
    function GetRealtimeTelemetry(now: real): (r: Realtime)
      reads this, otel, hw
      ensures r.latency == otel.Latest(LatencyMetric, Num(0.0))
      ensures r.decoherence == otel.Latest(DecoherenceMetric, Spectrum([]))
      ensures r.viscosity == otel.Latest(ViscosityMetric, Num(0.0))
      ensures r.flux == otel.Latest(FluxMetric, Num(0.0))
      ensures r.checksum == otel.Latest(ChecksumMetric, Num(0.0))
      ensures r.fluxHistory == LastWindow(fluxHistory)
      ensures r.hardware == hw.GetHardwareData(now)
    {
      Realtime(otel.Latest(LatencyMetric, Num(0.0)), otel.Latest(DecoherenceMetric, Spectrum([])),
               otel.Latest(ViscosityMetric, Num(0.0)), otel.Latest(FluxMetric, Num(0.0)),
               otel.Latest(ChecksumMetric, Num(0.0)), LastWindow(fluxHistory), hw.GetHardwareData(now))
    }
  }

  lemma UpdateNamesDistinct(checksum: real, spectra: seq<real>, viscosity: real, latency: real, flux: real,
                            d: HardwareData)
    ensures DistinctNames(UpdateRecords(checksum, spectra, viscosity, latency, flux, d))
  {
    var recs := UpdateRecords(checksum, spectra, viscosity, latency, flux, d);
    assert ChecksumMetric[0] != TimestampMetric[0];
    assert LatencyMetric[0] != JitterMetric[0];
  }

  /** One update adds exactly one entry to each of the nine logs it touches, and
      leaves every other log as it was. */
  lemma UpdateLogs(m: Metrics, checksum: real, spectra: seq<real>, viscosity: real,
                   latency: real, flux: real, d: HardwareData, now: real)
    ensures var recs := UpdateRecords(checksum, spectra, viscosity, latency, flux, d);
      forall k :: 0 <= k < |recs| ==>
        LogOf(RecordAll(m, recs, now), recs[k].0) == LogOf(m, recs[k].0) + [Entry(recs[k].1, None, now)]
    ensures forall n :: !IsUpdateMetric(n) ==>
      LogOf(RecordAll(m, UpdateRecords(checksum, spectra, viscosity, latency, flux, d), now), n) == LogOf(m, n)
  {
    var recs := UpdateRecords(checksum, spectra, viscosity, latency, flux, d);
    UpdateNamesDistinct(checksum, spectra, viscosity, latency, flux, d);
    forall k | 0 <= k < |recs|
      ensures LogOf(RecordAll(m, recs, now), recs[k].0) == LogOf(m, recs[k].0) + [Entry(recs[k].1, None, now)]
    {
      RecordAllLog(m, recs, now, recs[k].0);
      EntriesForUnique(recs, k, now);
    }
    forall n | !IsUpdateMetric(n) ensures LogOf(RecordAll(m, recs, now), n) == LogOf(m, n) {
      RecordAllLog(m, recs, now, n);
      EntriesForAbsent(recs, n, now);
    }
  }

  /** The value of the last entry of a log, or `default` when it is empty. */
  function LastValue(log: seq<Entry>, default: Value): Value {
    if |log| > 0 then log[|log| - 1].value else default
  }

  /** With distinct names, the last entry under the k-th name is the k-th record's value. */
  lemma LatestAfterRecords(m: Metrics, recs: seq<(string, Value)>, k: nat, now: real, default: Value)
    requires DistinctNames(recs) && k < |recs|
    ensures LastValue(LogOf(RecordAll(m, recs, now), recs[k].0), default) == recs[k].1
  {
    RecordAllLog(m, recs, now, recs[k].0);
    EntriesForUnique(recs, k, now);
  }

  /** After an update, the realtime report shows exactly the values just passed in,
      the sampled hardware reading, and a history window ending with the new flux. */
  method UpdateThenReport(api: EpistemicTelemetryApi, checksum: real, spectra: seq<real>, viscosity: real,
                          latency: real, flux: real, stallsDraw: real, missDraw: real, jitterDraw: real,
                          now: real)
    returns (r: Realtime)
    requires api.Valid()
    modifies api, api.otel, api.hw
    ensures api.Valid()
    ensures r.checksum == Num(checksum) && r.decoherence == Spectrum(spectra)
    ensures r.viscosity == Num(viscosity) && r.latency == Num(latency) && r.flux == Num(flux)
    ensures |r.fluxHistory| > 0 && r.fluxHistory[|r.fluxHistory| - 1] == flux
    ensures r.hardware == Sampled(stallsDraw, missDraw, jitterDraw, now)
  {
    ghost var before := api.otel.metrics;
    api.UpdateEpistemicMetrics(checksum, spectra, viscosity, latency, flux, stallsDraw, missDraw, jitterDraw, now);
    ghost var recs := UpdateRecords(checksum, spectra, viscosity, latency, flux,
                                    Sampled(stallsDraw, missDraw, jitterDraw, now));
    UpdateNamesDistinct(checksum, spectra, viscosity, latency, flux, Sampled(stallsDraw, missDraw, jitterDraw, now));
    LatestAfterRecords(before, recs, 0, now, Num(0.0));
    LatestAfterRecords(before, recs, 1, now, Spectrum([]));
    LatestAfterRecords(before, recs, 2, now, Num(0.0));
    LatestAfterRecords(before, recs, 3, now, Num(0.0));
    LatestAfterRecords(before, recs, 4, now, Num(0.0));
    r := api.GetRealtimeTelemetry(now);
  }
}
