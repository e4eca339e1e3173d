/**
 * The legacy `EpistemicTelemetryAPI`: five numeric metrics updated through
 * optional arguments (an absent argument leaves its field alone), with
 * decoherence and viscosity clamped, plus a fixed status label.
 */
module TelemetryApi {
  import opened Wrappers
  import opened Telemetry

  class EpistemicTelemetryApi {
    var latency: real
    var decoherence: real
    var viscosity: real
    var checksum: real
    var incoherenceFlux: real
    /** Never modified after construction. */
    const coherenceFlux: string

    ghost predicate Valid()
      reads this
    {
      0.0 <= decoherence <= 1.0 && 0.0 <= viscosity <= 1.0
    }

    constructor()
      ensures Valid()
      ensures latency == 0.0 && decoherence == 0.0 && viscosity == 0.0
      ensures checksum == 0.0 && incoherenceFlux == 0.0
      ensures coherenceFlux == CoherenceFluxLabel
    {
      latency := 0.0;
      decoherence := 0.0;
      viscosity := 0.0;
      checksum := 0.0;
      incoherenceFlux := 0.0;
      coherenceFlux := CoherenceFluxLabel;
    }

    /** `update_epistemic_metrics`: each present argument overwrites its field,
        decoherence and viscosity through `Clamp01`; absent ones change nothing. */
    method UpdateEpistemicMetrics(cli: Option<real>, gds: Option<real>, svm: Option<real>,
                                  newChecksum: Option<real>, flux: Option<real>)
      requires Valid()
      modifies this
      ensures Valid()
      ensures latency == (if cli.Some? then cli.value else old(latency))
      ensures decoherence == (if gds.Some? then Clamp01(gds.value) else old(decoherence))
      ensures viscosity == (if svm.Some? then Clamp01(svm.value) else old(viscosity))
      ensures checksum == (if newChecksum.Some? then newChecksum.value else old(checksum))
      ensures incoherenceFlux == (if flux.Some? then flux.value else old(incoherenceFlux))
    {
      if cli.Some? {
        latency := cli.value;
      }
      if gds.Some? {
        decoherence := Clamp01(gds.value);
      }
      if svm.Some? {
        viscosity := Clamp01(svm.value);
      }
      if newChecksum.Some? {
        checksum := newChecksum.value;
      }
      if flux.Some? {
        incoherenceFlux := flux.value;
      }
    }

    /** `simulate_introspection_delay(d)`: after the (unmodelled) sleep the latency is
        set to the requested duration itself, not to a measured time. */
    method SimulateIntrospectionDelay(durationMs: real)
      requires Valid()
      modifies this
      ensures Valid()
      ensures latency == durationMs
      ensures decoherence == old(decoherence) && viscosity == old(viscosity)
      ensures checksum == old(checksum) && incoherenceFlux == old(incoherenceFlux)
    {
      UpdateEpistemicMetrics(Some(durationMs), None, None, None, None);
    }

    /** `get_all_metrics`: six entries mirroring the fields, in order. */
    function GetAllMetrics(): (m: seq<(string, Reading)>)
      reads this
      ensures |m| == 6
      ensures m[0] == ("Conscience Latency (CLI)", Number(latency))
      ensures m[1] == ("Gradient Decoherence (GDS)", Number(decoherence))
      ensures m[2] == ("Semantic Viscosity (SVM)", Number(viscosity))
      ensures m[3] == ("Epistemic Checksum", Number(checksum))
      ensures m[4] == ("Incoherence Flux", Number(incoherenceFlux))
      ensures m[5] == ("Coherence Flux Status", Label(coherenceFlux))
    {
      [("Conscience Latency (CLI)", Number(latency)),
       ("Gradient Decoherence (GDS)", Number(decoherence)),
       ("Semantic Viscosity (SVM)", Number(viscosity)),
       ("Epistemic Checksum", Number(checksum)),
       ("Incoherence Flux", Number(incoherenceFlux)),
       ("Coherence Flux Status", Label(coherenceFlux))]
    }
  }
}
