/**
 * `EpistemicTelemetry` of the core package: conscience latency stored as
 * given, gradient decoherence and semantic viscosity clamped into [0, 1],
 * and a fixed coherence-flux label.
 */
module Telemetry {

  const CoherenceFluxLabel: string := "AXIΩM v1.0 - Ethical Epistemology as a Service"

  /** `max(0.0, min(1.0, v))`. */
  function Clamp01(v: real): (r: real)
    ensures 0.0 <= r <= 1.0
    ensures 0.0 <= v <= 1.0 ==> r == v
    ensures v < 0.0 ==> r == 0.0
    ensures v > 1.0 ==> r == 1.0
  {
    if v < 0.0 then 0.0 else if v > 1.0 then 1.0 else v
  }

  /** A value of the metrics dictionary: a number or the label. */
  datatype Reading = Number(x: real) | Label(s: string)

  class EpistemicTelemetry {
    var latency: real
    var decoherence: real
    var viscosity: real
    /** There is no setter: the label never changes. */
    const coherenceFlux: string

    /** Decoherence and viscosity stay in [0, 1] through every setter and update. */
    ghost predicate Valid()
      reads this
    {
      0.0 <= decoherence <= 1.0 && 0.0 <= viscosity <= 1.0
    }

    constructor()
      ensures Valid()
      ensures latency == 0.0 && decoherence == 0.0 && viscosity == 0.0
      ensures coherenceFlux == CoherenceFluxLabel
    {
      latency := 0.0;
      decoherence := 0.0;
      viscosity := 0.0;
      coherenceFlux := CoherenceFluxLabel;
    }

    /** The `conscience_latency` setter stores the value unclamped. */
    method SetLatency(v: real)
      requires Valid()
      modifies this
      ensures Valid()
      ensures latency == v && decoherence == old(decoherence) && viscosity == old(viscosity)
    {
      latency := v;
    }

    /** The `gradient_decoherence` setter. */
    method SetDecoherence(v: real)
      requires Valid()
      modifies this
      ensures Valid()
      ensures decoherence == Clamp01(v) && latency == old(latency) && viscosity == old(viscosity)
    {
      decoherence := Clamp01(v);
    }

    /** The `semantic_viscosity` setter. */
    method SetViscosity(v: real)
      requires Valid()
      modifies this
      ensures Valid()
      ensures viscosity == Clamp01(v) && latency == old(latency) && decoherence == old(decoherence)
    {
      viscosity := Clamp01(v);
    }

    /** `update_metrics`: the three setters in turn. */
    method UpdateMetrics(cli: real, gds: real, svm: real)
      requires Valid()
      modifies this
      ensures Valid()
      ensures latency == cli && decoherence == Clamp01(gds) && viscosity == Clamp01(svm)
    {
      SetLatency(cli);
      SetDecoherence(gds);
      SetViscosity(svm);
    }

    /** `simulate_introspection`: the latency becomes the measured duration of the
        sleep, which is passed in since the clock is not modelled. */
    method SimulateIntrospection(measuredMs: real)
      requires Valid()
      modifies this
      ensures Valid()
      ensures latency == measuredMs && decoherence == old(decoherence) && viscosity == old(viscosity)
    {
      SetLatency(measuredMs);
    }

    /** `get_all_metrics`: four entries mirroring the current fields, in order. */
    function GetAllMetrics(): (m: seq<(string, Reading)>)
      reads this
      ensures |m| == 4
      ensures m[0] == ("Conscience Latency (CLI)", Number(latency))
      ensures m[1] == ("Gradient Decoherence (GDS)", Number(decoherence))
      ensures m[2] == ("Semantic Viscosity (SVM)", Number(viscosity))
      ensures m[3] == ("Coherence Flux", Label(coherenceFlux))
    {
      [("Conscience Latency (CLI)", Number(latency)),
       ("Gradient Decoherence (GDS)", Number(decoherence)),
       ("Semantic Viscosity (SVM)", Number(viscosity)),
       ("Coherence Flux", Label(coherenceFlux))]
    }
  }

  /** One call on the telemetry object. */
  datatype Call = Latency(v: real) | Decoherence(v: real) | Viscosity(v: real)
                | Update(cli: real, gds: real, svm: real) | Introspect(ms: real)

  /** Any sequence of calls, starting from a fresh object, keeps decoherence and
      viscosity in [0, 1] and the label unchanged. */
  method RunCalls(calls: seq<Call>) returns (t: EpistemicTelemetry)
    ensures fresh(t) && t.Valid()
    ensures 0.0 <= t.decoherence <= 1.0 && 0.0 <= t.viscosity <= 1.0
    ensures t.coherenceFlux == CoherenceFluxLabel
  {
    t := new EpistemicTelemetry();
    var i := 0;
    while i < |calls|
      invariant 0 <= i <= |calls|
      invariant t.Valid() && t.coherenceFlux == CoherenceFluxLabel
    {
      match calls[i] {
        case Latency(v) => t.SetLatency(v);
        case Decoherence(v) => t.SetDecoherence(v);
        case Viscosity(v) => t.SetViscosity(v);
        case Update(c, g, s) => t.UpdateMetrics(c, g, s);
        case Introspect(ms) => t.SimulateIntrospection(ms);
      }
      i := i + 1;
    }
  }
}
