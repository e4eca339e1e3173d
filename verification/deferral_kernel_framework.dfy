/**
 * The Epistemic Deferral Kernel of the AXIOM_Ontological_Framework copy.
 * It runs the full-scan singularity detector; both answers move the running
 * checksum to `sum of gradient norms + 10 * epsilon` and report the flux.
 * Without a singularity the latent is inflated once and decoded; with one,
 * each listed basin gives a noisy mode, every partition gets plausibility
 * 1/n and a moral weight, the delay grows with the KL term when there are at
 * least two partitions, and every partition gets the introspection note iff
 * the flux exceeds the threshold. Noise, the KL term, the norm and the
 * random telemetry readings are parameters.
 */
module DeferralKernelFramework {
  import opened Wrappers
  import opened Vectors
  import opened AxiomPairs
  import opened KernelInputs
  import SingularityFull
  import UncertaintyNoisy
  import MoralEvaluation

  const Coherent := "coherent"
  const NoteHead := "This output is bounded by axiomatic contradiction (flux: "
  const NoteTail := "): The input simultaneously yields diverging valid inferences with moral implications, neither reducible to the other."

  /** The uniform draws behind `_get_current_telemetry`. */
  datatype TelemetryDraws = TelemetryDraws(cli: real, gds: Vector, svm: real, ipcStalls: int, cacheMiss: real, jitter: real)

  datatype KernelTelemetry = KernelTelemetry(cli: real, gds: Vector, svm: real, fluxHistory: seq<real>,
                                             ipcStalls: int, cacheMissRate: real, jitter: real)

  /** `_get_current_telemetry`: scaled draws, and the running checksum as the only history entry. */
  function CurrentTelemetry(d: TelemetryDraws, checksum: real): (t: KernelTelemetry)
    ensures t.fluxHistory == [checksum]
  {
    KernelTelemetry(d.cli * 100.0, d.gds, d.svm * 10.0, [checksum], d.ipcStalls, d.cacheMiss * 0.05, d.jitter * 0.2)
  }

  datatype PartitionOut = PartitionOut(key: string, output: string, plausibility: real, moralWeight: Vector,
                                       introspectionNote: Option<string>)

  datatype Response =
    | Unified(output: string, moralWeight: Vector, epistemicState: string, checksum: real, flux: real,
              telemetry: KernelTelemetry)
    | Structured(bifurcationNode: string, partitions: seq<PartitionOut>, delayMs: real, checksum: real,
                 flux: real, telemetry: KernelTelemetry)

  function Note(fluxText: string): string {
    NoteHead + fluxText + NoteTail
  }

  /** A supply of Gaussian draws large enough for either answer. */
  predicate NoiseSupply(latent: Vector, axioms: seq<string>, noise: seq<Vector>) {
    |noise| > |axioms| && forall k :: 0 <= k < |noise| ==> |noise[k]| == |latent|
  }

  /** How many modes the structured answer has. */
  function ModeCount(axioms: seq<string>, basins: map<string, Vector>): nat {
    var c := |WithBasins(axioms, basins)|;
    if c == 0 then 1 else c
  }

  function OutputOf(entry: (string, UncertaintyNoisy.Mode), n: nat): PartitionOut
    requires n > 0
  {
    PartitionOut(entry.0, entry.1.decodedOutput, 1.0 / (n as real), MoralEvaluation.Weigh(entry.1.representation), None)
  }

  /** `final_outputs` before any note is attached. */
  function Outputs(parts: seq<(string, UncertaintyNoisy.Mode)>): (outs: seq<PartitionOut>)
    ensures |outs| == |parts|
  {
    seq(|parts|, i requires 0 <= i < |parts| => OutputOf(parts[i], |parts|))
  }

  function WithNote(outs: seq<PartitionOut>, note: string): (r: seq<PartitionOut>)
    ensures |r| == |outs|
  {
    seq(|outs|, i requires 0 <= i < |outs| => outs[i].(introspectionNote := Some(note)))
  }

  /** `token_delay_ms`; `kl` stands for the KL-divergence term. */
  function Delay(base: int, klScale: real, kl: real, n: nat): real {
    if n >= 2 then (base as real) * (1.0 + klScale * kl) else base as real
  }

  /** The structured partitions for the given inputs, before any note. */
  function StructuredOutputs(gamma: real, latent: Vector, basins: map<string, Vector>, axioms: seq<string>,
                             decode: Vector -> string, noise: seq<Vector>): seq<PartitionOut>
    requires forall a :: a in basins ==> |basins[a]| == |latent|
    requires NoiseSupply(latent, axioms, noise)
  {
    var centers := ConflictingBasins(axioms, basins);
    var n := ModeCount(axioms, basins);
    Outputs(UncertaintyNoisy.Keyed(UncertaintyNoisy.Inflated(gamma, latent, centers, noise[..n]), decode))
  }

  method BuildOutputs(parts: seq<(string, UncertaintyNoisy.Mode)>) returns (outputs: seq<PartitionOut>)
    ensures outputs == Outputs(parts)
  {
    outputs := [];
    for i := 0 to |parts|
      invariant |outputs| == i
      invariant forall t :: 0 <= t < i ==> outputs[t] == OutputOf(parts[t], |parts|)
    {
      var plausibility := 1.0 / (|parts| as real);
      var weight := MoralEvaluation.Weigh(parts[i].1.representation);
      outputs := outputs + [PartitionOut(parts[i].0, parts[i].1.decodedOutput, plausibility, weight, None)];
    }
  }

  method AttachNote(outputs: seq<PartitionOut>, note: string) returns (r: seq<PartitionOut>)
    ensures r == WithNote(outputs, note)
  {
    r := outputs;
    for i := 0 to |r|
      invariant |r| == |outputs|
      invariant forall t :: 0 <= t < i ==> r[t] == outputs[t].(introspectionNote := Some(note))
      invariant forall t :: i <= t < |outputs| ==> r[t] == outputs[t]
    {
      r := r[i := r[i].(introspectionNote := Some(note))];
    }
  }

  class EpistemicDeferralKernel {
    const detector: SingularityFull.AxiomaticSingularityDetector
    const manifold: UncertaintyNoisy.UncertaintyManifold
    const baseDelayMs: int
    const klScale: real
    const threshold: real
    var checksum: real

    constructor(detector: SingularityFull.AxiomaticSingularityDetector, manifold: UncertaintyNoisy.UncertaintyManifold,
                baseDelayMs: int, klScale: real, threshold: real)
      ensures this.detector == detector && this.manifold == manifold
      ensures this.baseDelayMs == baseDelayMs && this.klScale == klScale && this.threshold == threshold
      ensures checksum == 0.0
    {
      this.detector := detector;
      this.manifold := manifold;
      this.baseDelayMs := baseDelayMs;
      this.klScale := klScale;
      this.threshold := threshold;
      checksum := 0.0;
    }

    /** The answer's shape, given its flux: without detection one coherent mode,
        decoded and weighed; with detection the structured partitions under the
        detection id, each carrying the note iff the flux exceeds the threshold. */
    ghost predicate Answers(resp: Response, latent: Vector, grads: Entries, basins: map<string, Vector>,
                            axioms: seq<string>, decode: Vector -> string, hash: string, noise: seq<Vector>,
                            kl: real, format2: real -> string)
      requires WellShaped(Field(latent, AsMap(grads), basins))
      requires NoiseSupply(latent, axioms, noise)
    {
      var f := Field(latent, AsMap(grads), basins);
      if !SingularityFull.Detected(detector.epsilon, f, axioms) then
        var u := UncertaintyNoisy.Inflated(manifold.gamma, latent, [latent], noise[..1])[0];
        resp.Unified? && resp.output == decode(u) && resp.moralWeight == MoralEvaluation.Weigh(u)
        && resp.epistemicState == Coherent
      else
        var base := StructuredOutputs(manifold.gamma, latent, basins, axioms, decode, noise);
        var high := resp.flux > threshold;
        && resp.Structured?
        && resp.bifurcationNode == SingularityFull.DetectionId(detector.epsilon, f, axioms, hash)
        && resp.partitions == (if high then WithNote(base, Note(format2(resp.flux))) else base)
        && resp.delayMs == Delay(baseDelayMs, klScale, kl, |base|)
    }

    /** `process_query`. `hash` stands for the hash in the bifurcation id, `noise` for the
        Gaussian draws, `norm` for `np.linalg.norm`, `kl` for the KL term, `format2` for the
        two-decimal rendering and `draws` for the random telemetry readings. */
    method ProcessQuery(latent: Vector, grads: Entries, basins: map<string, Vector>, axioms: seq<string>,
                        decode: Vector -> string, hash: string, noise: seq<Vector>, norm: Vector -> real,
                        kl: real, format2: real -> string, draws: TelemetryDraws)
      returns (resp: Response)
      requires DistinctKeys(grads)
      requires WellShaped(Field(latent, AsMap(grads), basins))
      requires NoiseSupply(latent, axioms, noise)
      modifies this
      ensures var newChecksum := NewChecksum(norm, grads, detector.epsilon);
        && checksum == newChecksum
        && resp.checksum == newChecksum
        && resp.flux == newChecksum - old(checksum)
        && resp.telemetry == CurrentTelemetry(draws, newChecksum)
      ensures Answers(resp, latent, grads, basins, axioms, decode, hash, noise, kl, format2)
    {
      var detected, id := detector.Detect(latent, AsMap(grads), basins, axioms, hash);
      var newChecksum := SumNorms(norm, grads) + detector.epsilon * 10.0;
      if !detected {
        var unifiedManifold := manifold.InflateBoundary(latent, [latent], noise[..1]);
        var output := decode(unifiedManifold[0]);
        var weight := MoralEvaluation.Weigh(unifiedManifold[0]);
        var flux := newChecksum - checksum;
        checksum := newChecksum;
        return Unified(output, weight, Coherent, checksum, flux, CurrentTelemetry(draws, checksum));
      }
      resp := Defer(latent, basins, axioms, decode, id, noise, kl, format2, draws, newChecksum);
    }

    /** The deferral branch. */
    method Defer(latent: Vector, basins: map<string, Vector>, axioms: seq<string>, decode: Vector -> string,
                 id: string, noise: seq<Vector>, kl: real, format2: real -> string, draws: TelemetryDraws,
                 newChecksum: real)
      returns (resp: Response)
      requires forall a :: a in basins ==> |basins[a]| == |latent|
      requires NoiseSupply(latent, axioms, noise)
      modifies this
      ensures checksum == newChecksum
      ensures resp.checksum == newChecksum && resp.flux == newChecksum - old(checksum)
      ensures resp.telemetry == CurrentTelemetry(draws, newChecksum)
      ensures var base := StructuredOutputs(manifold.gamma, latent, basins, axioms, decode, noise);
        var high := resp.flux > threshold;
        && resp.Structured? && resp.bifurcationNode == id
        && resp.partitions == (if high then WithNote(base, Note(format2(resp.flux))) else base)
        && resp.delayMs == Delay(baseDelayMs, klScale, kl, |base|)
    {
      var centers := ConflictingBasins(axioms, basins);
      var n := if |centers| == 0 then 1 else |centers|;
      var inflated := manifold.InflateBoundary(latent, centers, noise[..n]);
      var parts := manifold.PartitionModes(inflated, decode);
      var outputs := BuildOutputs(parts);
      var delayMs: real;
      if |outputs| >= 2 {
        delayMs := (baseDelayMs as real) * (1.0 + klScale * kl);
      } else {
        delayMs := baseDelayMs as real;
      }
      var flux := newChecksum - checksum;
      checksum := newChecksum;
      if flux > threshold {
        outputs := AttachNote(outputs, Note(format2(flux)));
      }
      resp := Structured(id, outputs, delayMs, checksum, flux, CurrentTelemetry(draws, checksum));
    }
  }

  // ---------------------------------------------------------------------
  // Properties of the structured answer and of the running checksum.

  function TotalPlausibility(outs: seq<PartitionOut>): real {
    if |outs| == 0 then 0.0 else TotalPlausibility(outs[..|outs| - 1]) + outs[|outs| - 1].plausibility
  }

  lemma {:induction false} UniformTotal(outs: seq<PartitionOut>, p: real)
    requires forall i :: 0 <= i < |outs| ==> outs[i].plausibility == p
    ensures TotalPlausibility(outs) == (|outs| as real) * p
  {
    if |outs| > 0 {
      UniformTotal(outs[..|outs| - 1], p);
    }
  }

  /** The plausibilities of the partitions add up to 1. */
  lemma PlausibilitiesSumToOne(parts: seq<(string, UncertaintyNoisy.Mode)>)
    requires |parts| > 0
    ensures TotalPlausibility(Outputs(parts)) == 1.0
  {
    var n := |parts| as real;
    UniformTotal(Outputs(parts), 1.0 / n);
    assert n * (1.0 / n) == 1.0;
  }

  /** The structured partitions: one per listed axiom with a basin (at least one), keyed
      mode_1, mode_2, ... in order, with plausibilities adding up to 1; fewer than two
      partitions give the base delay. */
  lemma StructuredShape(gamma: real, latent: Vector, basins: map<string, Vector>, axioms: seq<string>,
                        decode: Vector -> string, noise: seq<Vector>, base: int, klScale: real, kl: real)
    requires forall a :: a in basins ==> |basins[a]| == |latent|
    requires NoiseSupply(latent, axioms, noise)
    ensures var outs := StructuredOutputs(gamma, latent, basins, axioms, decode, noise);
      && |outs| == ModeCount(axioms, basins)
      && TotalPlausibility(outs) == 1.0
      && (|outs| < 2 ==> Delay(base, klScale, kl, |outs|) == base as real)
      && forall i :: 0 <= i < |outs| ==> outs[i].key == UncertaintyNoisy.ModeKey(i) && outs[i].introspectionNote == None
  {
    var centers := ConflictingBasins(axioms, basins);
    var n := ModeCount(axioms, basins);
    var parts := UncertaintyNoisy.Keyed(UncertaintyNoisy.Inflated(gamma, latent, centers, noise[..n]), decode);
    PlausibilitiesSumToOne(parts);
  }

  /** Every structured partition carries a moral weight in [-2/3, 2/3]. */
  lemma StructuredWeights(gamma: real, latent: Vector, basins: map<string, Vector>, axioms: seq<string>,
                          decode: Vector -> string, noise: seq<Vector>)
    requires forall a :: a in basins ==> |basins[a]| == |latent|
    requires NoiseSupply(latent, axioms, noise)
    ensures var outs := StructuredOutputs(gamma, latent, basins, axioms, decode, noise);
      forall i :: 0 <= i < |outs| ==> forall k :: 0 <= k < 3 ==> -2.0 / 3.0 <= outs[i].moralWeight[k] <= 2.0 / 3.0
  {
    var centers := ConflictingBasins(axioms, basins);
    var n := ModeCount(axioms, basins);
    var parts := UncertaintyNoisy.Keyed(UncertaintyNoisy.Inflated(gamma, latent, centers, noise[..n]), decode);
    forall i | 0 <= i < |parts|
      ensures forall k :: 0 <= k < 3 ==> -2.0 / 3.0 <= Outputs(parts)[i].moralWeight[k] <= 2.0 / 3.0
    {
      MoralEvaluation.WeighBounded(parts[i].1.representation);
    }
  }

  /** The running checksum after a sequence of calls, each given by its new checksum:
      every call, singular or not, replaces it. */
  function Run(checksum: real, calls: seq<real>): real
    decreases |calls|
  {
    if |calls| == 0 then checksum else Run(calls[0], calls[1..])
  }

  function TotalFlux(checksum: real, calls: seq<real>): real
    decreases |calls|
  {
    if |calls| == 0 then 0.0 else (calls[0] - checksum) + TotalFlux(calls[0], calls[1..])
  }

  /** After any non-empty run the checksum is the last call's value, and the reported
      fluxes add up to its distance from the start. */
  lemma {:induction false} FluxTelescopes(checksum: real, calls: seq<real>)
    ensures |calls| > 0 ==> Run(checksum, calls) == calls[|calls| - 1]
    ensures Run(checksum, calls) == checksum + TotalFlux(checksum, calls)
    decreases |calls|
  {
    if |calls| > 0 {
      FluxTelescopes(calls[0], calls[1..]);
    }
  }
}
