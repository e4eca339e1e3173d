/**
 * `ConscienceQuery`: a thin front end to the Epistemic Deferral Kernel. It
 * forwards a query to `process_query` and, when modal disjunctions are not
 * requested and the answer is structured, keeps only the first partition and
 * adds a summary note. The ethical constraints are only announced.
 */
module ConscienceQuery {
  import opened Wrappers
  import opened Vectors
  import opened AxiomPairs
  import opened KernelInputs
  import K = DeferralKernelFramework
  import SingularityFull

  const SummaryNote := "Response summarized due to 'request_modal_disjunctions=False'."

  /** The kernel's response dict, with the `summary_note` key this front end may add. */
  datatype Answer = Answer(response: K.Response, summaryNote: Option<string>)

  /** The answer returned for the kernel's response `resp`. */
  function Summarize(resp: K.Response, requestDisjunctions: bool): (a: Answer)
    ensures requestDisjunctions || resp.Unified? ==> a == Answer(resp, None)
    ensures !requestDisjunctions && resp.Structured? ==>
      && a.summaryNote == Some(SummaryNote)
      && a.response.Structured?
      && |a.response.partitions| == (if |resp.partitions| == 0 then 0 else 1)
      && resp.partitions[..|a.response.partitions|] == a.response.partitions
      && a.response.(partitions := resp.partitions) == resp
  {
    if !requestDisjunctions && resp.Structured? then
      Answer(resp.(partitions := Take(resp.partitions, 1)), Some(SummaryNote))
    else Answer(resp, None)
  }

  /** The in-place edit of the response dict: `summary_note` set and the
      partition list cut to its first element. */
  method Trim(response: K.Response, requestDisjunctions: bool) returns (answer: Answer)
    ensures answer == Summarize(response, requestDisjunctions)
  {
    answer := Answer(response, None);
    if !requestDisjunctions && response.Structured? {
      var kept := if |response.partitions| > 0 then [response.partitions[0]] else [];
      assert kept == Take(response.partitions, 1);
      answer := Answer(response.(partitions := kept), Some(SummaryNote));
    }
  }

  class ConscienceQuery {
    const edk: K.EpistemicDeferralKernel

    constructor(edk: K.EpistemicDeferralKernel)
      ensures this.edk == edk
    {
      this.edk := edk;
    }

    /** `invoke_conscience`: the kernel's answer to the query, summarized when
        disjunctions are not requested; `ethicalConstraints` plays no part.
        `raw` is the kernel's response before the summary. */
    method InvokeConscience(latent: Vector, grads: Entries, basins: map<string, Vector>, axioms: seq<string>,
                            decode: Vector -> string, ethicalConstraints: Option<seq<string>>,
                            requestDisjunctions: bool,
                            hash: string, noise: seq<Vector>, norm: Vector -> real, kl: real,
                            format2: real -> string, draws: K.TelemetryDraws)
      returns (answer: Answer, ghost raw: K.Response)
      requires DistinctKeys(grads)
      requires WellShaped(Field(latent, AsMap(grads), basins))
      requires K.NoiseSupply(latent, axioms, noise)
      modifies edk
      ensures answer == Summarize(raw, requestDisjunctions)
      ensures raw.Structured? <==> SingularityFull.Detected(edk.detector.epsilon, Field(latent, AsMap(grads), basins), axioms)
      ensures edk.checksum == NewChecksum(norm, grads, edk.detector.epsilon)
      ensures raw.checksum == edk.checksum && raw.flux == edk.checksum - old(edk.checksum)
      ensures edk.Answers(raw, latent, grads, basins, axioms, decode, hash, noise, kl, format2)
    {
      var response := edk.ProcessQuery(latent, grads, basins, axioms, decode, hash, noise, norm, kl, format2, draws);
      raw := response;
      answer := Trim(response, requestDisjunctions);
    }

    /** `get_telemetry_snapshot`: the kernel's current telemetry, whose flux
        history is the running checksum alone. */
    method GetTelemetrySnapshot(draws: K.TelemetryDraws) returns (t: K.KernelTelemetry)
      ensures t == K.CurrentTelemetry(draws, edk.checksum)
      ensures t.fluxHistory == [edk.checksum]
    {
      t := K.CurrentTelemetry(draws, edk.checksum);
    }
  }

  /** Summarizing an answer that is already summarized changes nothing more. */
  lemma SummarizeIdempotent(resp: K.Response, requestDisjunctions: bool)
    ensures Summarize(Summarize(resp, requestDisjunctions).response, requestDisjunctions) ==
      Summarize(resp, requestDisjunctions)
  {
    if !requestDisjunctions && resp.Structured? {
      var once := Summarize(resp, false).response;
      assert Take(once.partitions, 1) == once.partitions;
    }
  }

  /** The summary keeps everything but the later partitions: checksum, flux,
      node, delay and telemetry are the kernel's. */
  lemma SummaryKeepsReadings(resp: K.Response, requestDisjunctions: bool)
    ensures var a := Summarize(resp, requestDisjunctions);
      && a.response.checksum == resp.checksum
      && a.response.flux == resp.flux
      && a.response.telemetry == resp.telemetry
      && a.response.Structured? == resp.Structured?
      && (a.summaryNote.Some? <==> !requestDisjunctions && resp.Structured?)
  {
  }
}
