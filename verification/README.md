# AXIΩM core, modelled in Dafny

AXIΩM (also spelled AXIOMM) simulates an AI that weighs competing philosophical
frameworks and answers with "structured uncertainty" when a query looks contradictory.
This project models its decision logic and proves properties of it.

- **Ethical manifolds** are keyword scorers. Each one lower-cases a principle and adds a
  fixed delta for every keyword group it contains. A group counts at most once. The sum
  is banded into "highly", "moderately" or "less aligned". Scores are kept in tenths, as
  integers. There are nine legacy manifolds and three framework manifolds.
- **The singularity → uncertainty → deferral pipeline.**
  - The axiomatic singularity detector compares, for each pair of axioms, their gradient
    vectors and the sign of the latent vector's projection on their attractor basins.
    The early copy stops at the first pair whose signs disagree. The full copy sweeps
    every pair and has guards for missing data.
  - The uncertainty manifold blends the latent vector toward each conflicting basin and
    decodes every mode. One copy blends linearly. The other copy uses the midpoint plus
    caller-supplied noise.
  - The epistemic deferral kernel runs detector → manifold → decode. It computes a
    checksum from the gradient norms, and the incoherence flux is the checksum's change
    since the last call. It answers either "unified" or "structured uncertainty". A
    narrative note is attached to every partition when the flux exceeds a threshold, and
    the kernel writes its telemetry.
- **Telemetry:**
  - a small metric object whose decoherence and viscosity are clamped to [0, 1];
  - an API object with five optional overwrites;
  - an OpenTelemetry-style log of per-metric entry lists, with a hardware monitor and a
    sliding flux-history window.
- **The meta-constraint:**
  - symmetry propagation copies every `constraint_*` policy entry to
    `invariant_constraint_*`;
  - temporal-authority decoupling refuses any `retroactive_override_<axiom>` key (a bare `override_<axiom>` key is permitted);
  - corrigibility holds only under the disagreement protocol;
  - it builds the reflection trail.
- **Two axiom systems** tie these together:
  - `src/axiom_core` classifies entropy from contradiction and dilemma words and damps
    confidence through a checksum check;
  - `axiomm-project` builds conflicting vector fields for the kernel and records trails
    whose justifications follow the kernel's answer.
- **Around the core:**
  - the conscience query, which trims a structured answer to its first partition;
  - the conscience audit, with its NBM, IFT and MIF metrics and notes;
  - the resonant inference bus: an MCU registry, routing, and pairwise logit divergence;
  - the agent's deontological veto;
  - the user registry: the `User.update` setattr loop, a singleton in-memory repository,
    and a management service with create, get, update and deactivate.

Python dicts whose order can be observed are ordered association lists (`OrderedDict`).
Vectors are sequences of reals, and norms are compared through squared distances.
Randomness, clocks, hashes, `np.linalg.norm`, float-to-text formatting and the
caller's decode function are all parameters.

Behaviour worth knowing:

- The linear uncertainty manifold returns one mode more than there are conflicting
  basins, with the latent vector itself first.
- The full detector's gradient maximum and its sign test can come from different pairs.
- The root kernel's unified branch leaves the checksum untouched and reports a flux of 0.
- The checksum is the sum of gradient norms plus ten times epsilon.

## Model

| member | source | states |
|---|---|---|
| ManifoldScoring.Band | docs/legacy/axiomm-project-root/src/axiomm/core/ethical_manifolds.py:69 | each band word holds exactly on its side of the 6 and 3 (tenths 0.6, 0.3) thresholds |
| ManifoldScoring.Evaluate | docs/legacy/axiomm-project-root/src/axiomm/core/ethical_manifolds.py:40-70 | the assessment names the manifold, carries the band summary of its own score, and gives at most one reason per keyword group |
| ManifoldScoring.AccumulateIsMatched | docs/legacy/axiomm-project-root/src/axiomm/core/ethical_manifolds.py:47-67 | the score is the sum of the matched groups' deltas and the reasoning lists the matched reasons in group order |
| ManifoldScoring.MatchedSubsequence | docs/legacy/axiomm-project-root/src/axiomm/core/ethical_manifolds.py:47-67 | a group is matched iff it is one of the manifold's groups and one of its keywords occurs in the principle |
| ManifoldScoring.ScoreBounds | docs/legacy/axiomm-project-root/src/axiomm/core/ethical_manifolds.py:47-67 | every score lies between the sum of the negative deltas and the sum of the positive ones |
| ManifoldScoring.CaseInsensitive | docs/legacy/axiomm-project-root/src/axiomm/core/ethical_manifolds.py:48-67 | evaluating a principle or its lower-cased form gives the same assessment |
| ManifoldScoring.SameGroupsSameAccumulate | docs/legacy/axiomm-project-root/src/axiomm/core/ethical_manifolds.py:48-67 | two texts that match the same groups get the same score and reasons |
| ManifoldScoring.SameGroupsSameAssessment | docs/legacy/axiomm-project-root/src/axiomm/core/ethical_manifolds.py:48-67 | two principles that match the same groups get the same assessment |
| ManifoldScoring.NoKeywordsAccumulate | docs/legacy/axiomm-project-root/src/axiomm/core/ethical_manifolds.py:41-70 | with no group matched the score is 0 and there are no reasons |
| ManifoldScoring.NoKeywordsNeutral | docs/legacy/axiomm-project-root/src/axiomm/core/ethical_manifolds.py:41-70 | a principle with no keyword scores 0, has no reasoning and is "less aligned" |
| ManifoldScoring.OnlyGroupAccumulate | docs/legacy/axiomm-project-root/src/axiomm/core/ethical_manifolds.py:47-67 | when exactly one group matches, the score is its delta and the reasoning its reason |
| ManifoldScoring.NoPenaltyNonNegative | docs/legacy/axiomm-project-root/src/axiomm/core/ethical_manifolds.py:47-67 | when no penalising group matches the score is never negative |
| ManifoldScoring.FirstGroupLeads | docs/legacy/axiomm-project-root/src/axiomm/core/ethical_manifolds.py:47-67 | a matched first group with no penalty matched gives at least its delta and its reason comes first |
| LegacyManifolds.KantianBounds | docs/legacy/axiomm-project-root/src/axiomm/core/ethical_manifolds.py:40-70 | the Kantian score is always within [-0.8, 1.0] |
| LegacyManifolds.HobbesianBounds | docs/legacy/axiomm-project-root/src/axiomm/core/ethical_manifolds.py:80-110 | the Hobbesian score is always within [-0.8, 1.0] |
| LegacyManifolds.UtilitarianBounds | docs/legacy/axiomm-project-root/src/axiomm/core/ethical_manifolds.py:120-150 | the utilitarian score is always within [-0.8, 1.0] |
| LegacyManifolds.MetaDeontologicalBounds | docs/legacy/axiomm-project-root/src/axiomm/core/ethical_manifolds.py:160-185 | the meta-deontological score is always within [-0.4, 1.0] |
| LegacyManifolds.PragmaticConsequentialistBounds | docs/legacy/axiomm-project-root/src/axiomm/core/ethical_manifolds.py:195-220 | the pragmatic-consequentialist score is always within [-0.4, 1.0] |
| LegacyManifolds.VirtueEpistemologyBounds | docs/legacy/axiomm-project-root/src/axiomm/core/ethical_manifolds.py:230-255 | the virtue-epistemology score is always within [-0.4, 1.0] |
| LegacyManifolds.OntologicalMorphologyBounds | docs/legacy/axiomm-project-root/src/axiomm/core/ethical_manifolds.py:266-288 | the ontological-morphology score is always within [-0.4, 0.9] |
| LegacyManifolds.AgenticVirtueBounds | docs/legacy/axiomm-project-root/src/axiomm/core/ethical_manifolds.py:299-324 | the agentic-virtue score is always within [-0.4, 1.0] |
| LegacyManifolds.ConsequentialistUtilityBounds | docs/legacy/axiomm-project-root/src/axiomm/core/ethical_manifolds.py:335-360 | the consequentialist-utility score is always within [-0.4, 1.0] |
| LegacyManifolds.KantianDignity | docs/legacy/axiomm-project-root/src/axiomm/core/ethical_manifolds.py:48-69 | a principle naming dignity, without a utility or means keyword, scores at least 0.4 and the dignity reason comes first |
| LegacyManifolds.ClarityGroupCountsOnce | docs/legacy/axiomm-project-root/src/axiomm/core/ethical_manifolds.py:342-360 | the clarity group adds 0.4 once however many of its keywords occur, landing "moderately aligned" |
| FrameworkManifolds.SingleKeywordGroup | AXIOM_Ontological_Framework/axiom_core/ethical_manifolds.py:40 | a one-keyword `any()` group matches iff the keyword occurs |
| FrameworkManifolds.KantianBounds | AXIOM_Ontological_Framework/axiom_core/ethical_manifolds.py:22-49 | the Kantian score is always within [-0.8, 1.0] |
| FrameworkManifolds.HobbesianBounds | AXIOM_Ontological_Framework/axiom_core/ethical_manifolds.py:58-85 | the Hobbesian score is always within [-0.8, 1.0] |
| FrameworkManifolds.UtilitarianBounds | AXIOM_Ontological_Framework/axiom_core/ethical_manifolds.py:94-120 | the utilitarian score is always within [-0.8, 1.0] |
| FrameworkManifolds.KantianDignity | AXIOM_Ontological_Framework/axiom_core/ethical_manifolds.py:22-48 | dignity without a utility or means keyword scores at least 0.4 with the dignity reason first |
| FrameworkManifolds.HobbesianUnrelated | AXIOM_Ontological_Framework/axiom_core/ethical_manifolds.py:58-84 | a principle with no Hobbesian keyword scores 0, has no reasons and is "less aligned" |
| MoralEvaluation.RawScores | AXIOM_Ontological_Framework/axiomm-project/src/axiomm/utils/moral_evaluation.py:24-28 | there are exactly three raw axis scores |
| MoralEvaluation.Rescale | AXIOM_Ontological_Framework/axiomm-project/src/axiomm/utils/moral_evaluation.py:30-32 | rescaling keeps the three axes |
| MoralEvaluation.Weigh | AXIOM_Ontological_Framework/axiomm-project/src/axiomm/utils/moral_evaluation.py:24-34 | a moral weight always has three components |
| MoralEvaluation.Evaluate | AXIOM_Ontological_Framework/axiomm-project/src/axiomm/utils/moral_evaluation.py:20-34 | fails with the not-1-D error exactly when the representation is not one-dimensional, otherwise returns three scores |
| MoralEvaluation.RawScoreIsComponent | AXIOM_Ontological_Framework/axiomm-project/src/axiomm/utils/moral_evaluation.py:25-28 | the dot product with a unit axis picks that component, 0 beyond the vector's length |
| MoralEvaluation.SmallScoresUnchanged | AXIOM_Ontological_Framework/axiomm-project/src/axiomm/utils/moral_evaluation.py:30-31 | scores whose largest magnitude is within the threshold are returned unchanged |
| MoralEvaluation.RescaledBounds | AXIOM_Ontological_Framework/axiomm-project/src/axiomm/utils/moral_evaluation.py:30-32 | after rescaling every score is within [-2/3, 2/3] and the largest reaches 2/3 in magnitude |
| MoralEvaluation.WeighBounded | AXIOM_Ontological_Framework/axiomm-project/src/axiomm/utils/moral_evaluation.py:24-34 | every moral weight component lies within [-2/3, 2/3] |
| MoralEvaluation.RescaleKeepsSignAndOrder | AXIOM_Ontological_Framework/axiomm-project/src/axiomm/utils/moral_evaluation.py:30-32 | rescaling keeps each score's sign and the order between any two scores |
| AxiomPairs.Gap | axiomm-project/src/axiomm/core/axiomatic_singularity.py:85 | a squared gradient gap is never negative |
| AxiomPairs.ZeroAgainstPositiveDiverges | axiomm-project/src/axiomm/core/axiomatic_singularity.py:93 | a zero projection against a positive one counts as a sign divergence (numpy's sign of 0 is 0) |
| KernelInputs.WithBasins | AXIOM_Ontological_Framework/axiomm-project/src/axiomm/core/epistemic_deferral_kernel.py:89-91 | keeps exactly the axioms that have a basin, in order, and all of them when every axiom has one |
| KernelInputs.ConflictingBasins | AXIOM_Ontological_Framework/axiomm-project/src/axiomm/core/epistemic_deferral_kernel.py:89-91 | the k-th conflicting basin is the basin of the k-th axiom that has one |
| KernelInputs.ConflictingBasinsShaped | AXIOM_Ontological_Framework/axiomm-project/src/axiomm/core/epistemic_deferral_kernel.py:89-95 | conflicting basins have the latent vector's dimension when all basins do |
| KernelInputs.SumNormsRotate | AXIOM_Ontological_Framework/axiomm-project/src/axiomm/core/epistemic_deferral_kernel.py:137 | the checksum's sum of norms does not depend on where an entry sits |
| SingularityEarly.Scan | axiomm-project/src/axiomm/core/axiomatic_singularity.py:70-98 | a stopping point is a valid pair of indices, and the running maximum only grows |
| SingularityEarly.FullScan | axiomm-project/src/axiomm/core/axiomatic_singularity.py:63-98 | the whole scan stops, if at all, on a valid pair i < j |
| SingularityEarly.AxiomaticSingularityDetector.constructor | axiomm-project/src/axiomm/core/axiomatic_singularity.py:15-24 | the detector keeps the epsilon it was given |
| SingularityEarly.AxiomaticSingularityDetector.Detect | axiomm-project/src/axiomm/core/axiomatic_singularity.py:26-109 | stores the fields it was given, returns no singularity for fewer than two axioms, and otherwise reports singular and node as the scan specifies |
| SingularityEarly.ScanStopsAtFirstConflict | axiomm-project/src/axiomm/core/axiomatic_singularity.py:70-98 | the scan stops exactly at the first pair (in loop order) whose gradients and basins exist and whose projections differ in sign |
| SingularityEarly.ScanBoundsGaps | axiomm-project/src/axiomm/core/axiomatic_singularity.py:83-87 | the maximum bounds every measured gap visited up to the stop |
| SingularityEarly.ScanAttains | axiomm-project/src/axiomm/core/axiomatic_singularity.py:83-87 | the maximum is the start value or the gap of some measured visited pair |
| SingularityEarly.DetectFindsFirstConflict | axiomm-project/src/axiomm/core/axiomatic_singularity.py:89-98 | no node iff no pair conflicts, otherwise the node is the first conflicting pair |
| SingularityEarly.DetectMaximum | axiomm-project/src/axiomm/core/axiomatic_singularity.py:63-98 | the maximum gap is the largest over the pairs visited before the break, 0 if none |
| SingularityEarly.NodeWithoutSingularity | axiomm-project/src/axiomm/core/axiomatic_singularity.py:93-101 | a bifurcation node can be named while the singularity flag stays down (opposite basins, equal gradients) |
| SingularityFull.Restrict | AXIOM_Ontological_Framework/axiomm-project/src/axiomm/core/axiomatic_singularity.py:36-41 | the filtered dict holds exactly the listed axioms present in the input, with their values |
| SingularityFull.AxiomaticSingularityDetector.constructor | AXIOM_Ontological_Framework/axiomm-project/src/axiomm/core/axiomatic_singularity.py:10-15 | the detector keeps the epsilon it was given |
| SingularityFull.AxiomaticSingularityDetector.Detect | AXIOM_Ontological_Framework/axiomm-project/src/axiomm/core/axiomatic_singularity.py:17-76 | both guards answer with their messages and no detection; otherwise detection and id follow the full sweep |
| SingularityFull.SweepDivergence | AXIOM_Ontological_Framework/axiomm-project/src/axiomm/core/axiomatic_singularity.py:50-70 | the divergence flag ends up set iff it was set or some later pair conflicts |
| SingularityFull.SweepBoundsGaps | AXIOM_Ontological_Framework/axiomm-project/src/axiomm/core/axiomatic_singularity.py:62-65 | the sweep maximum bounds every measured gap from the start pair on |
| SingularityFull.SweepAttains | AXIOM_Ontological_Framework/axiomm-project/src/axiomm/core/axiomatic_singularity.py:62-65 | the sweep maximum is the start value or some measured pair's gap |
| SingularityFull.SweepFindsAnyConflict | AXIOM_Ontological_Framework/axiomm-project/src/axiomm/core/axiomatic_singularity.py:67-70 | the sweep flags divergence iff some pair conflicts |
| SingularityFull.SweepFindsLargestGap | AXIOM_Ontological_Framework/axiomm-project/src/axiomm/core/axiomatic_singularity.py:46-65 | the sweep maximum is the largest measured gap over all pairs, 0 if none |
| SingularityFull.DetectionCondition | AXIOM_Ontological_Framework/axiomm-project/src/axiomm/core/axiomatic_singularity.py:72-76 | detection holds iff some pair conflicts and some, possibly other, pair's gap exceeds epsilon |
| SingularityFull.DataGuardLosesNothing | AXIOM_Ontological_Framework/axiomm-project/src/axiomm/core/axiomatic_singularity.py:43-44 | when fewer than two axioms have gradients or basins no pair can conflict, so the guard loses nothing |
| UncertaintyBlend.Blend | docs/legacy/axiomm-project-root/src/axiomm/core/uncertainty_manifold.py:59 | each coordinate is latent + gamma * (basin - latent) |
| UncertaintyBlend.Inflated | docs/legacy/axiomm-project-root/src/axiomm/core/uncertainty_manifold.py:48-67 | one mode per basin plus one, all of the latent dimension |
| UncertaintyBlend.Partitioned | docs/legacy/axiomm-project-root/src/axiomm/core/uncertainty_manifold.py:86-104 | one partition per manifold |
| UncertaintyBlend.UncertaintyManifold.constructor | docs/legacy/axiomm-project-root/src/axiomm/core/uncertainty_manifold.py:17-26 | keeps gamma |
| UncertaintyBlend.UncertaintyManifold.InflateBoundary | docs/legacy/axiomm-project-root/src/axiomm/core/uncertainty_manifold.py:28-67 | the latent vector first, then each basin's blend in order |
| UncertaintyBlend.UncertaintyManifold.PartitionModes | docs/legacy/axiomm-project-root/src/axiomm/core/uncertainty_manifold.py:69-104 | the i-th partition is named "Mode i+1" and carries its decoded text, the first five components of its vector and its doubt note |
| UncertaintyBlend.BlendZero | docs/legacy/axiomm-project-root/src/axiomm/core/uncertainty_manifold.py:59 | gamma 0 leaves the latent vector |
| UncertaintyBlend.BlendOne | docs/legacy/axiomm-project-root/src/axiomm/core/uncertainty_manifold.py:59 | gamma 1 reaches the basin |
| UncertaintyBlend.BlendBetween | docs/legacy/axiomm-project-root/src/axiomm/core/uncertainty_manifold.py:54-60 | for gamma in [0, 1] each coordinate lies between latent and basin |
| UncertaintyBlend.ModeNamesDistinct | docs/legacy/axiomm-project-root/src/axiomm/core/uncertainty_manifold.py:90 | different indices give different mode names |
| UncertaintyNoisy.Midpoint | docs/legacy/axiomm-project/src/axiomm/core/uncertainty_manifold.py:35 | each coordinate is the mean of latent and center |
| UncertaintyNoisy.Inflated | docs/legacy/axiomm-project/src/axiomm/core/uncertainty_manifold.py:28-56 | one mode per noise vector, all of the latent dimension |
| UncertaintyNoisy.Keyed | docs/legacy/axiomm-project/src/axiomm/core/uncertainty_manifold.py:69-86 | one keyed mode per manifold |
| UncertaintyNoisy.UncertaintyManifold.constructor | docs/legacy/axiomm-project/src/axiomm/core/uncertainty_manifold.py:9-14 | keeps gamma |
| UncertaintyNoisy.UncertaintyManifold.InflateBoundary | docs/legacy/axiomm-project/src/axiomm/core/uncertainty_manifold.py:16-56 | minus its noise, mode k is gamma times the midpoint toward center k, or gamma times latent when there are no centers |
| UncertaintyNoisy.UncertaintyManifold.PartitionModes | docs/legacy/axiomm-project/src/axiomm/core/uncertainty_manifold.py:58-86 | the i-th entry is keyed mode_i with its decoded text, vector and doubt note |
| UncertaintyNoisy.ModeKeysDistinct | docs/legacy/axiomm-project/src/axiomm/core/uncertainty_manifold.py:79 | different indices give different mode keys |
| DeferralKernelFramework.CurrentTelemetry | AXIOM_Ontological_Framework/axiomm-project/src/axiomm/core/epistemic_deferral_kernel.py:164-179 | the flux history holds just the current checksum |
| DeferralKernelFramework.BuildOutputs | AXIOM_Ontological_Framework/axiomm-project/src/axiomm/core/epistemic_deferral_kernel.py:102-123 | each partition gets its key, text, uniform plausibility and moral weight |
| DeferralKernelFramework.AttachNote | AXIOM_Ontological_Framework/axiomm-project/src/axiomm/core/epistemic_deferral_kernel.py:149-150 | every partition gets the note and nothing else changes |
| DeferralKernelFramework.EpistemicDeferralKernel.constructor | AXIOM_Ontological_Framework/axiomm-project/src/axiomm/core/epistemic_deferral_kernel.py:15-38 | keeps its parts and settings, checksum 0 |
| DeferralKernelFramework.EpistemicDeferralKernel.ProcessQuery | AXIOM_Ontological_Framework/axiomm-project/src/axiomm/core/epistemic_deferral_kernel.py:40-162 | the checksum is replaced on both paths; without detection one coherent mode, with detection the structured partitions, noted iff flux exceeds the threshold, with the KL delay |
| DeferralKernelFramework.EpistemicDeferralKernel.Defer | AXIOM_Ontological_Framework/axiomm-project/src/axiomm/core/epistemic_deferral_kernel.py:85-162 | the structured answer: flux is the checksum delta, partitions noted iff the flux exceeds the threshold |
| DeferralKernelFramework.PlausibilitiesSumToOne | AXIOM_Ontological_Framework/axiomm-project/src/axiomm/core/epistemic_deferral_kernel.py:111 | uniform plausibilities over at least one partition sum to 1 |
| DeferralKernelFramework.StructuredShape | AXIOM_Ontological_Framework/axiomm-project/src/axiomm/core/epistemic_deferral_kernel.py:89-133 | one partition per conflicting basin (at least one), keys mode_i, plausibilities summing to 1, base delay below two partitions |
| DeferralKernelFramework.StructuredWeights | AXIOM_Ontological_Framework/axiomm-project/src/axiomm/core/epistemic_deferral_kernel.py:115-116 | every structured partition's moral weight is within [-2/3, 2/3] |
| DeferralKernelFramework.FluxTelescopes | AXIOM_Ontological_Framework/axiomm-project/src/axiomm/core/epistemic_deferral_kernel.py:136-139 | over a run of calls the fluxes add up to the last checksum minus the first |
| DeferralKernelRoot.BuildOutputs | docs/legacy/axiomm-project-root/src/axiomm/core/epistemic_deferral_kernel.py:134-149 | mode i carries its decoded content and confidence 0.5 - 0.1 i |
| DeferralKernelRoot.AttachNote | docs/legacy/axiomm-project-root/src/axiomm/core/epistemic_deferral_kernel.py:176-177 | every mode gets the narrative note and nothing else changes |
| DeferralKernelRoot.EpistemicDeferralKernel.constructor | docs/legacy/axiomm-project-root/src/axiomm/core/epistemic_deferral_kernel.py:22-41 | a detector with epsilon, a manifold with gamma, the shared telemetry, checksum 0, no query |
| DeferralKernelRoot.EpistemicDeferralKernel.ProcessQuery | docs/legacy/axiomm-project-root/src/axiomm/core/epistemic_deferral_kernel.py:66-206 | records the query; unified answer and untouched checksum without a singularity, otherwise the structured answer with flux-driven note, delay and telemetry |
| DeferralKernelRoot.EpistemicDeferralKernel.Respond | docs/legacy/axiomm-project-root/src/axiomm/core/epistemic_deferral_kernel.py:101-206 | chooses unified or deferred by the singularity flag, with the matching checksum step |
| DeferralKernelRoot.EpistemicDeferralKernel.Detect | docs/legacy/axiomm-project-root/src/axiomm/core/epistemic_deferral_kernel.py:97-99 | the detector's verdict on the query's field |
| DeferralKernelRoot.EpistemicDeferralKernel.Unify | docs/legacy/axiomm-project-root/src/axiomm/core/epistemic_deferral_kernel.py:101-117 | the unified answer at flux 0, telemetry 0.35/0.25, checksum and flux readings unchanged |
| DeferralKernelRoot.EpistemicDeferralKernel.DecodeModes | docs/legacy/axiomm-project-root/src/axiomm/core/epistemic_deferral_kernel.py:123-149 | the mode outputs of the inflated, partitioned conflicting basins |
| DeferralKernelRoot.EpistemicDeferralKernel.Defer | docs/legacy/axiomm-project-root/src/axiomm/core/epistemic_deferral_kernel.py:119-206 | checksum replaced; above threshold: note on every mode, 79 ms delay, telemetry 0.68/0.88; otherwise no delay, 0.65/0.70 |
| DeferralKernelRoot.StructuredPartitions | docs/legacy/axiomm-project-root/src/axiomm/core/epistemic_deferral_kernel.py:123-149 | one output per basin plus one, named in order, confidence 0.5 - 0.1 i, no note |
| DeferralKernelRoot.NoteOnEveryPartition | docs/legacy/axiomm-project-root/src/axiomm/core/epistemic_deferral_kernel.py:176-177 | every output after attaching carries the note and keeps its content |
| DeferralKernelRoot.FluxTelescopes | docs/legacy/axiomm-project-root/src/axiomm/core/epistemic_deferral_kernel.py:154-156 | over a run of calls the reported fluxes add up to the final checksum minus the first |
| DeferralKernelRoot.UnifiedCallsKeepChecksum | docs/legacy/axiomm-project-root/src/axiomm/core/epistemic_deferral_kernel.py:101-117 | a run of unified answers never moves the checksum |
| DeferralKernelRoot.EthicalQueryIgnoresCase | docs/legacy/axiomm-project-root/src/axiomm/core/epistemic_deferral_kernel.py:146 | the ethical-query test ignores letter case |
| Telemetry.Clamp01 | src/axiom_core/epistemic_telemetry.py:28 | the result is in [0, 1], equal to the input inside, 0 below and 1 above |
| Telemetry.EpistemicTelemetry.constructor | src/axiom_core/epistemic_telemetry.py:8-12 | all metrics 0, flux label set |
| Telemetry.EpistemicTelemetry.SetLatency | src/axiom_core/epistemic_telemetry.py:18-20 | latency replaced unclamped, others kept |
| Telemetry.EpistemicTelemetry.SetDecoherence | src/axiom_core/epistemic_telemetry.py:26-28 | decoherence becomes the clamped value, others kept |
| Telemetry.EpistemicTelemetry.SetViscosity | src/axiom_core/epistemic_telemetry.py:34-36 | viscosity becomes the clamped value, others kept |
| Telemetry.EpistemicTelemetry.UpdateMetrics | src/axiom_core/epistemic_telemetry.py:42-45 | all three metrics set through their setters |
| Telemetry.EpistemicTelemetry.SimulateIntrospection | src/axiom_core/epistemic_telemetry.py:55-59 | latency becomes the measured duration, others kept |
| Telemetry.EpistemicTelemetry.GetAllMetrics | src/axiom_core/epistemic_telemetry.py:47-53 | the four named readings in order |
| Telemetry.RunCalls | src/axiom_core/epistemic_telemetry.py:8-59 | after any sequence of calls decoherence and viscosity stay in [0, 1] |
| TelemetryApi.EpistemicTelemetryApi.constructor | docs/legacy/axiomm-project-root/src/axiomm/telemetry/epistemic_telemetry_api.py:16-22 | all five readings 0, flux label set |
| TelemetryApi.EpistemicTelemetryApi.UpdateEpistemicMetrics | docs/legacy/axiomm-project-root/src/axiomm/telemetry/epistemic_telemetry_api.py:54-73 | each given value overwrites its reading (decoherence and viscosity clamped), each missing one keeps it |
| TelemetryApi.EpistemicTelemetryApi.SimulateIntrospectionDelay | docs/legacy/axiomm-project-root/src/axiomm/telemetry/epistemic_telemetry_api.py:86-92 | only the latency changes |
| TelemetryApi.EpistemicTelemetryApi.GetAllMetrics | docs/legacy/axiomm-project-root/src/axiomm/telemetry/epistemic_telemetry_api.py:75-84 | the six named readings in order |
| TelemetryLog.Record | AXIOM_Ontological_Framework/axiomm-project/src/axiomm/telemetry/epistemic_telemetry_api.py:10-13 | appends to that metric's log only, creating it if needed |
| TelemetryLog.RecordAllLog | AXIOM_Ontological_Framework/axiomm-project/src/axiomm/telemetry/epistemic_telemetry_api.py:55-67 | recording a batch appends to each log exactly the batch's entries for that name |
| TelemetryLog.EntriesForUnique | AXIOM_Ontological_Framework/axiomm-project/src/axiomm/telemetry/epistemic_telemetry_api.py:55-67 | with distinct names a batch adds one entry per name |
| TelemetryLog.EntriesForAbsent | AXIOM_Ontological_Framework/axiomm-project/src/axiomm/telemetry/epistemic_telemetry_api.py:55-67 | a name not in the batch gets nothing |
| TelemetryLog.MockOpenTelemetry.constructor | AXIOM_Ontological_Framework/axiomm-project/src/axiomm/telemetry/epistemic_telemetry_api.py:7-8 | starts with no metrics |
| TelemetryLog.MockOpenTelemetry.RecordMetric | AXIOM_Ontological_Framework/axiomm-project/src/axiomm/telemetry/epistemic_telemetry_api.py:10-13 | the metric log gains the entry at its end |
| TelemetryLog.MockOpenTelemetry.Latest | AXIOM_Ontological_Framework/axiomm-project/src/axiomm/telemetry/epistemic_telemetry_api.py:71-75 | the last value logged, or the default for an empty log |
| TelemetryLog.TruncateTowardZero | AXIOM_Ontological_Framework/axiomm-project/src/axiomm/telemetry/epistemic_telemetry_api.py:25 | Python's int() of a float: the integer next to x toward zero |
| TelemetryLog.Sampled | AXIOM_Ontological_Framework/axiomm-project/src/axiomm/telemetry/epistemic_telemetry_api.py:24-30 | stalls at least 0, miss rate in [0, 1], jitter at least 0, each equal to the draw when it is in range |
| TelemetryLog.MockHardwareMonitor.constructor | AXIOM_Ontological_Framework/axiomm-project/src/axiomm/telemetry/epistemic_telemetry_api.py:19-22 | starts at zero readings |
| TelemetryLog.MockHardwareMonitor.SimulateHardwareMetrics | AXIOM_Ontological_Framework/axiomm-project/src/axiomm/telemetry/epistemic_telemetry_api.py:24-30 | subsequent readings are the clipped draws |
| TelemetryLog.RecordAllConcat | AXIOM_Ontological_Framework/axiomm-project/src/axiomm/telemetry/epistemic_telemetry_api.py:55-67 | recording two batches equals recording their concatenation |
| TelemetryLog.LastWindow | AXIOM_Ontological_Framework/axiomm-project/src/axiomm/telemetry/epistemic_telemetry_api.py:82 | the last (at most) ten flux values, in order |
| TelemetryLog.LastWindowSlides | AXIOM_Ontological_Framework/axiomm-project/src/axiomm/telemetry/epistemic_telemetry_api.py:82 | appending a value slides the window by one |
| TelemetryLog.EpistemicTelemetryApi.constructor | AXIOM_Ontological_Framework/axiomm-project/src/axiomm/telemetry/epistemic_telemetry_api.py:41-46 | fresh logger and monitor, empty history, checksum 0 |
| TelemetryLog.EpistemicTelemetryApi.UpdateEpistemicMetrics | AXIOM_Ontological_Framework/axiomm-project/src/axiomm/telemetry/epistemic_telemetry_api.py:48-67 | flux appended to the history, checksum kept, metrics and hardware records logged, monitor resampled |
| TelemetryLog.EpistemicTelemetryApi.RecordEpistemic | AXIOM_Ontological_Framework/axiomm-project/src/axiomm/telemetry/epistemic_telemetry_api.py:55-59 | the five epistemic records logged in order |
| TelemetryLog.EpistemicTelemetryApi.RecordHardware | AXIOM_Ontological_Framework/axiomm-project/src/axiomm/telemetry/epistemic_telemetry_api.py:64-67 | the four hardware records (stalls, miss rate, jitter, timestamp) logged in order |
| TelemetryLog.EpistemicTelemetryApi.GetRealtimeTelemetry | AXIOM_Ontological_Framework/axiomm-project/src/axiomm/telemetry/epistemic_telemetry_api.py:69-84 | each field is the metric's latest value or default, the last window of the history and the hardware data |
| TelemetryLog.UpdateNamesDistinct | AXIOM_Ontological_Framework/axiomm-project/src/axiomm/telemetry/epistemic_telemetry_api.py:55-67 | one update logs nine distinct metric names: five epistemic and four hardware |
| TelemetryLog.UpdateLogs | AXIOM_Ontological_Framework/axiomm-project/src/axiomm/telemetry/epistemic_telemetry_api.py:48-67 | one update appends exactly one entry to each of its metrics and leaves the others |
| TelemetryLog.LatestAfterRecords | AXIOM_Ontological_Framework/axiomm-project/src/axiomm/telemetry/epistemic_telemetry_api.py:71-75 | after a batch with distinct names each metric's latest value is the one just recorded |
| TelemetryLog.UpdateThenReport | AXIOM_Ontological_Framework/axiomm-project/src/axiomm/telemetry/epistemic_telemetry_api.py:48-84 | a report straight after an update returns the values just given and ends the history with the flux |
| ConscienceQuery.Summarize | docs/legacy/axiomm-project/src/axiomm/api/conscience_query.py:42-45 | unified or disjunction-requesting answers pass untouched; otherwise only the first partition and a summary note |
| ConscienceQuery.Trim | docs/legacy/axiomm-project/src/axiomm/api/conscience_query.py:42-45 | the in-place trimming gives the summary |
| ConscienceQuery.ConscienceQuery.constructor | docs/legacy/axiomm-project/src/axiomm/api/conscience_query.py:11-16 | keeps the kernel |
| ConscienceQuery.ConscienceQuery.InvokeConscience | docs/legacy/axiomm-project/src/axiomm/api/conscience_query.py:18-48 | the raw answer meets the kernel's promise (structured iff the detector fires, its partitions, node and delay), checksum and flux from the kernel, and the answer is its summary |
| ConscienceQuery.ConscienceQuery.GetTelemetrySnapshot | docs/legacy/axiomm-project/src/axiomm/api/conscience_query.py:50-54 | the kernel's telemetry at its current checksum |
| ConscienceQuery.SummarizeIdempotent | docs/legacy/axiomm-project/src/axiomm/api/conscience_query.py:42-45 | summarizing a summary changes nothing |
| ConscienceQuery.SummaryKeepsReadings | docs/legacy/axiomm-project/src/axiomm/api/conscience_query.py:42-45 | checksum, flux, telemetry and answer type survive; a note iff trimmed |
| ConscienceAudit.Weights | docs/legacy/axiomm-project/scripts/run_conscience_audit.py:58 | at most one weight per partition |
| ConscienceAudit.EvaluateResponse | docs/legacy/axiomm-project/scripts/run_conscience_audit.py:45-76 | the step-by-step metrics equal the audit's evaluation |
| ConscienceAudit.WeightsCount | docs/legacy/axiomm-project/scripts/run_conscience_audit.py:58-59 | the weights gathered are exactly the partitions carrying one |
| ConscienceAudit.NbmRule | docs/legacy/axiomm-project/scripts/run_conscience_audit.py:53-72 | NBM is 1 iff the answer is not structured or has more than one partition, else 0 |
| ConscienceAudit.IftRule | docs/legacy/axiomm-project/scripts/run_conscience_audit.py:62-73 | IFT passes iff not structured, flux (missing = 0) at most the threshold, or some note present |
| ConscienceAudit.MifRule | docs/legacy/axiomm-project/scripts/run_conscience_audit.py:46-61 | MIF 0 below two weights, otherwise their spread; raw type mirrored |
| ConscienceAudit.NotesFollowChecks | docs/legacy/axiomm-project/scripts/run_conscience_audit.py:52-75 | one to three notes, the flux note last, the partition and diversity notes iff their checks fired |
| ConscienceAudit.KernelPassesFluxTest | docs/legacy/axiomm-project/scripts/run_conscience_audit.py:62-73 | a kernel response always passes IFT; a unified one scores NBM 1 |
| InferenceBus.ReplyOf | AXIOM_Ontological_Framework/axiomm-project/src/axiomm/infra/resonant_inference_bus.py:41-48 | an MCU that raises yields an error reply with its message |
| InferenceBus.Replies | AXIOM_Ontological_Framework/axiomm-project/src/axiomm/infra/resonant_inference_bus.py:38-49 | one reply per routed MCU, same keys in order |
| InferenceBus.Select | AXIOM_Ontological_Framework/axiomm-project/src/axiomm/infra/resonant_inference_bus.py:29-34 | the loop picks the registered targets |
| InferenceBus.ReplyEach | AXIOM_Ontological_Framework/axiomm-project/src/axiomm/infra/resonant_inference_bus.py:38-49 | the loop fills one reply per MCU |
| InferenceBus.ResonantInferenceBus.constructor | AXIOM_Ontological_Framework/axiomm-project/src/axiomm/infra/resonant_inference_bus.py:11-13 | an empty registry |
| InferenceBus.ResonantInferenceBus.RegisterMcu | AXIOM_Ontological_Framework/axiomm-project/src/axiomm/infra/resonant_inference_bus.py:15-19 | the MCU is stored under its id, replacing any earlier one in place |
| InferenceBus.ResonantInferenceBus.RouteInference | AXIOM_Ontological_Framework/axiomm-project/src/axiomm/infra/resonant_inference_bus.py:21-49 | the replies of the selected MCUs |
| InferenceBus.ResonantInferenceBus.InspectLogitDivergence | AXIOM_Ontological_Framework/axiomm-project/src/axiomm/infra/resonant_inference_bus.py:51-65 | the pairwise confidence gaps |
| InferenceBus.SelectedFacts | AXIOM_Ontological_Framework/axiomm-project/src/axiomm/infra/resonant_inference_bus.py:29-34 | selection keeps exactly the registered targets, once each, with their MCUs |
| InferenceBus.RouteKeys | AXIOM_Ontological_Framework/axiomm-project/src/axiomm/infra/resonant_inference_bus.py:24-36 | a reply exists iff the MCU is registered and targeted (all when no targets) |
| InferenceBus.RouteReplies | AXIOM_Ontological_Framework/axiomm-project/src/axiomm/infra/resonant_inference_bus.py:38-49 | each reply is the registered MCU's reply |
| InferenceBus.RouteDistinct | AXIOM_Ontological_Framework/axiomm-project/src/axiomm/infra/resonant_inference_bus.py:38-49 | reply keys are distinct |
| InferenceBus.PairAt | AXIOM_Ontological_Framework/axiomm-project/src/axiomm/infra/resonant_inference_bus.py:54-63 | the pair (a, b) sits at its row-major position |
| InferenceBus.DivergencesBounds | AXIOM_Ontological_Framework/axiomm-project/src/axiomm/infra/resonant_inference_bus.py:51-65 | scores are non-negative and at most n(n-1)/2 |
| InferenceBus.DivergencesOfEveryPair | AXIOM_Ontological_Framework/axiomm-project/src/axiomm/infra/resonant_inference_bus.py:51-65 | with distinct pair keys there are n(n-1)/2 scores, each pair's being its confidence gap |
| InferenceBus.PairKeysCanCollide | AXIOM_Ontological_Framework/axiomm-project/src/axiomm/infra/resonant_inference_bus.py:63 | ids containing "_vs_" can make two pairs share a key, losing a score |
| MetaConstraints.MetaConstraint.ApplyConstraintSymmetryPropagation | src/axiom_core/meta_constraint.py:22-31 | the loop's copied dict is the propagated policy |
| MetaConstraints.MetaConstraint.DecoupleTemporalAuthority | src/axiom_core/meta_constraint.py:33-42 | permitted iff the proposal has no `retroactive_override_<axiom>` key for any axiom |
| MetaConstraints.MetaConstraint.VerifyCorrigibility | src/axiom_core/meta_constraint.py:61-65 | holds iff the disagreement protocol is an axiom and the prediction is the challenging one |
| MetaConstraints.MetaConstraint.ReflectionTrail | src/axiom_core/meta_constraint.py:44-59 | the trail carries the trace id, time, context, axioms, dependencies and justifications given |
| MetaConstraints.SelfDescription | docs/legacy/axiomm-project-root/src/axiomm/core/meta_constraint.py:104 | the self description opens with the trace prefix |
| MetaConstraints.PropagatedCopiesConstraints | src/axiom_core/meta_constraint.py:28-30 | each constraint_ key appears again under the invariant_ prefix with its value |
| MetaConstraints.PropagatedFrame | src/axiom_core/meta_constraint.py:27-31 | the result's keys are the internal ones plus the promoted ones, the others unchanged |
| MetaConstraints.OtherKeysNotCopied | src/axiom_core/meta_constraint.py:29 | a key without the constraint_ prefix is never promoted |
| MetaConstraints.PropagationIdempotent | src/axiom_core/meta_constraint.py:22-31 | propagating twice equals propagating once |
| AxiomSystemCore.ChecksumCheck | src/axiom_core/axiom_system.py:99-110 | entropy at most 0.6 keeps the certainty; above, damped to certainty*(1-e) floored at 0.1 |
| AxiomSystemCore.Dependencies | src/axiom_core/axiom_system.py:191-195 | one dependency per matched index |
| AxiomSystemCore.AxiomSystem.constructor | src/axiom_core/axiom_system.py:23-40 | empty stores, entropy 0, the three framework manifolds |
| AxiomSystemCore.AxiomSystem.Evaluations | src/axiom_core/axiom_system.py:209-222 | the three manifolds' assessments under their names |
| AxiomSystemCore.AxiomSystem.UpdateInternalMechanisms | src/axiom_core/axiom_system.py:51-58 | policies become the propagated ones, other stores kept |
| AxiomSystemCore.AxiomSystem.AddKnowledge | src/axiom_core/axiom_system.py:234-239 | the item is appended, other stores kept |
| AxiomSystemCore.AxiomSystem.ProposeAction | src/axiom_core/axiom_system.py:60-83 | permissible iff no `retroactive_override_<axiom>` key, evaluated on the description |
| AxiomSystemCore.AxiomSystem.DetectSemanticEntropy | src/axiom_core/axiom_system.py:85-97 | records the classified entropy |
| AxiomSystemCore.AxiomSystem.RecordTrail | src/axiom_core/axiom_system.py:191-205 | one trail appended |
| AxiomSystemCore.AxiomSystem.PerformInference | src/axiom_core/axiom_system.py:112-207 | the result for the classified entropy, the trail with its dependencies and justifications, telemetry by entropy class |
| AxiomSystemCore.BuildResult | src/axiom_core/axiom_system.py:120-179 | the step-by-step result equals the specified inference |
| AxiomSystemCore.LogicalDependencies | src/axiom_core/axiom_system.py:191-195 | the loop gives the specified dependencies |
| AxiomSystemCore.EntropyClasses | src/axiom_core/axiom_system.py:85-97 | contradiction words give 0.9, dilemma words 0.7, and entropy exceeds 0.5 iff either occurs |
| AxiomSystemCore.ResultTypeRule | src/axiom_core/axiom_system.py:120-137 | structured iff entropy exceeds 0.5, else declarative at 0.95 with no flags |
| AxiomSystemCore.FlagRule | src/axiom_core/axiom_system.py:125-176 | each flag and interpretation set holds exactly in its entropy band |
| AxiomSystemCore.InertiaThroughClassifier | src/axiom_core/axiom_system.py:85-176 | inertia iff dilemma words without contradiction words |
| AxiomSystemCore.ConfidenceByClass | src/axiom_core/axiom_system.py:99-137 | confidence 0.1, 0.285 or 0.95 by word class |
| AxiomSystemCore.DampingBounds | src/axiom_core/axiom_system.py:99-110 | damping keeps a confidence in [0.1, certainty] |
| AxiomSystemCore.JustificationRule | src/axiom_core/axiom_system.py:196-199 | two base justifications, plus deferral and checksum iff structured |
| AxiomSystemCore.DependencyIndicesSpec | src/axiom_core/axiom_system.py:191-195 | ascending indices below n, exactly those whose fact name occurs |
| AxiomSystemCore.DependenciesSpec | src/axiom_core/axiom_system.py:191-195 | fact_i is a dependency iff i < facts and it occurs in the query |
| AxiommSystem.FieldOf | axiomm-project/src/axiomm/core/axiom_system.py:85-100 | a well-shaped field holding every axiom |
| AxiommSystem.EvaluationsOf | axiomm-project/src/axiomm/core/axiom_system.py:140-149 | keyed by the manifold names in order |
| AxiommSystem.EvaluateEach | axiomm-project/src/axiomm/core/axiom_system.py:143-145 | the loop fills the dict in order |
| AxiommSystem.SetUp | axiomm-project/src/axiomm/core/axiom_system.py:85-100 | the gradient and basin dicts for the query |
| AxiommSystem.AxiomSystem.constructor | axiomm-project/src/axiomm/core/axiom_system.py:27-49 | empty stores, fresh kernel at checksum 0, the nine manifolds |
| AxiommSystem.AxiomSystem.ReasonThroughEthicalManifolds | axiomm-project/src/axiomm/core/axiom_system.py:140-149 | every manifold's assessment under its name |
| AxiommSystem.AxiomSystem.UpdateInternalMechanisms | axiomm-project/src/axiomm/core/axiom_system.py:54-58 | policies become the propagated ones |
| AxiommSystem.AxiomSystem.AddKnowledge | axiomm-project/src/axiomm/core/axiom_system.py:158-160 | the item is appended |
| AxiommSystem.AxiomSystem.ProposeAction | axiomm-project/src/axiomm/core/axiom_system.py:60-81 | permissible iff no `retroactive_override_<axiom>` key, evaluated on the description |
| AxiommSystem.AxiomSystem.RecordTrail | axiomm-project/src/axiomm/core/axiom_system.py:110-135 | one trail appended |
| AxiommSystem.AxiomSystem.Consult | axiomm-project/src/axiomm/core/axiom_system.py:85-108 | the kernel's answer to the query's field |
| AxiommSystem.AxiomSystem.PerformInference | axiomm-project/src/axiomm/core/axiom_system.py:83-138 | the kernel's answer, its trail and the evaluations |
| AxiommSystem.ReadAnswer | axiomm-project/src/axiomm/core/axiom_system.py:102-108 | the kernel's promise restated over the draws |
| AxiommSystem.DrawnFacts | axiomm-project/src/axiomm/core/axiom_system.py:87-92 | drawn dicts have distinct keys of the latent dimension, one per axiom |
| AxiommSystem.FieldShaped | axiomm-project/src/axiomm/core/axiom_system.py:85-100 | the prepared dicts are ready for the kernel |
| AxiommSystem.ConflictVectors | axiomm-project/src/axiomm/core/axiom_system.py:93-100 | on a conflict query the first two axioms get the shifted gradients and opposite basins |
| AxiommSystem.ParadoxIsSingular | axiomm-project/src/axiomm/core/axiom_system.py:93-108 | a paradox query with uniform draws and positive latent sum is singular at the first two axioms |
| AxiommSystem.OppositeProjections | axiomm-project/src/axiomm/core/axiom_system.py:99-100 | the all-ones and all-minus-ones basins project with opposite signs |
| AxiommSystem.GapAboveOne | axiomm-project/src/axiomm/core/axiom_system.py:97-98 | the shifted gradients differ by more than 1 in squared norm |
| AxiommSystem.JustificationRule | axiomm-project/src/axiomm/core/axiom_system.py:115-121 | base justifications always, deferral iff structured, notes iff a note is present |
| AxiommSystem.NotesFollowFlux | axiomm-project/src/axiomm/core/axiom_system.py:120-121 | the notes justification appears iff the flux exceeds the threshold |
| AxiommSystem.NamesDistinct | axiomm-project/src/axiomm/core/axiom_system.py:39-49 | the manifold names are distinct |
| AxiommSystem.DeferredNotes | axiomm-project/src/axiomm/core/axiom_system.py:116-121 | for a deferred kernel answer, notes iff flux above threshold |
| AxiommSystem.EvaluationsKeyed | axiomm-project/src/axiomm/core/axiom_system.py:140-149 | each manifold's name maps to its own assessment |
| AgentEthics.EvaluateFailsIff | docs/legacy/root-project/agent/ethics.py:33-36 | the loop raises iff some rule refuses, always with the violation message |
| AgentEthics.EvaluateActionFailsIff | docs/legacy/root-project/agent/ethics.py:11-36 | aborted iff an unconfirmed destructive type, unconsented SHARE_DATA or IMPERSONATE_HUMAN |
| AgentEthics.ContextIgnored | docs/legacy/root-project/agent/ethics.py:17-36 | the verdict does not depend on the context |
| AgentEthics.MissingTypePasses | docs/legacy/root-project/agent/ethics.py:18-29 | an action without a type passes |
| AgentEthics.NoHarmIgnoresCase | docs/legacy/root-project/agent/ethics.py:18-19 | the no-harm rule ignores the type's letter case |
| AgentEthics.PrivacyIsCaseSensitive | docs/legacy/root-project/agent/ethics.py:23-26 | the privacy rule is case-sensitive; consent lifts it |
| AgentEthics.ConfirmationLiftsNoHarm | docs/legacy/root-project/agent/ethics.py:17-21 | a truthy confirmation lifts the no-harm veto |
| UserRegistry.AssignedKeepsIdentity | docs/legacy/root-project/core/domain/models.py:13-18 | the setattr loop never changes the id or the timestamps |
| UserRegistry.AssignedNothing | docs/legacy/root-project/core/domain/models.py:15-17 | all-None or unknown arguments change nothing |
| UserRegistry.ServiceAssignment | docs/legacy/root-project/core/services/engine.py:39 | None keeps a field, any other value (False included) replaces it |
| UserRegistry.User.constructor | docs/legacy/root-project/core/domain/models.py:5-11 | active, both timestamps set to now |
| UserRegistry.User.Update | docs/legacy/root-project/core/domain/models.py:13-18 | the assigned fields with updated_at refreshed |
| UserRegistry.ValidateRefusesTakenEmail | docs/legacy/root-project/core/domain/rules.py:6-8 | refused iff some existing user has the email; only the email matters |
| UserRegistry.PutProfiles | AXIOM_Ontological_Framework/root-project/data/repositories/user_repository.py:17-18 | storing a user adds or replaces its profile |
| UserRegistry.PutKeepsUnique | docs/legacy/root-project/core/services/engine.py:18-22 | storing a user with a fresh email keeps emails unique |
| UserRegistry.InMemoryUserRepository.constructor | AXIOM_Ontological_Framework/root-project/data/repositories/user_repository.py:8-9 | an empty store |
| UserRegistry.InMemoryUserRepository.ListAll | AXIOM_Ontological_Framework/root-project/data/repositories/user_repository.py:23-24 | the stored users in order |
| UserRegistry.InMemoryUserRepository.Add | AXIOM_Ontological_Framework/root-project/data/repositories/user_repository.py:17-18 | the user is found by its id, the others unchanged |
| UserRegistry.ListAllIsStored | AXIOM_Ontological_Framework/root-project/data/repositories/user_repository.py:20-24 | listed users are exactly the stored ones, ids distinct |
| UserRegistry.SharedRepository.constructor | AXIOM_Ontological_Framework/root-project/data/repositories/user_repository.py:6 | no instance yet |
| UserRegistry.SharedRepository.GetInstance | AXIOM_Ontological_Framework/root-project/data/repositories/user_repository.py:11-15 | the first call creates the empty store, later calls return the same one |
| UserRegistry.UserManagementService.constructor | docs/legacy/root-project/core/services/engine.py:15-16 | keeps the repository |
| UserRegistry.UserManagementService.CreateUser | docs/legacy/root-project/core/services/engine.py:18-22 | refused iff the email is taken, otherwise stored, keeping emails unique |
| UserRegistry.UserManagementService.GetUser | docs/legacy/root-project/core/services/engine.py:24-28 | not-found iff no stored user has the id |
| UserRegistry.UserManagementService.UpdateStored | docs/legacy/root-project/core/services/engine.py:38-39 | only the k-th profile is revised |
| UserRegistry.UserManagementService.UpdateUser | docs/legacy/root-project/core/services/engine.py:30-40 | not-found iff absent, otherwise the stored user revised in place |
| UserRegistry.UserManagementService.UpdateUserChecked | docs/legacy/root-project/core/services/engine.py:30-40 | not-found iff absent; otherwise a conflict iff the new email is held by another user, and on success the stored user is revised exactly as update_user does; unique emails stay unique |
| UserRegistry.UserManagementService.DeactivateUser | docs/legacy/root-project/core/services/engine.py:42-46 | not-found iff absent, otherwise marked inactive with name and email kept |
| UserRegistry.RevisedKeepsUnique | docs/legacy/root-project/core/services/engine.py:30-40 | an update to an email nobody else holds keeps emails unique |
| UserRegistry.UpdateCanDuplicateEmail | docs/legacy/root-project/core/services/engine.py:30-40 | as written, update_user can give two users one email |

## Left out

- Floating point: reals are exact, so band edges that Python floats round differently are not modelled.
- `np.linalg.norm` is an uninterpreted function and norms are compared squared.
- Float-to-text formatting (`:.2f`) is a parameter.
- Randomness is a parameter: `np.random`, Gaussian noise, `random.uniform` entropy, `random.gauss` hardware readings and random kernel telemetry.
- The clock (`time.perf_counter`, `datetime.now`), `time.sleep`, `hash()` and `uuid` are parameters or no-ops.
- Logging and printing are not modelled.
- The KL divergence (`np.log`) of the framework kernel is a parameter `kl` (AXIOM_Ontological_Framework/axiomm-project/src/axiomm/core/epistemic_deferral_kernel.py:126-131).
- The standard deviation behind the audit's MIF is a parameter `spread`.
- The sigmoid in `modal_cortex_unit.py`: that file is not part of this model.
- Lower-casing handles ASCII letters only; Unicode case folding is not modelled.
- Telemetry context values are kept as text.
- src/axiom_core/ethical_manifolds.py is not part of this model; the framework copy of those manifolds is.
- The `axiomm-project` system is modelled against the root deferral kernel, telemetry API and legacy manifolds.
- The pure delegations `evolve_system`, `get_telemetry` and `get_reflection_trails` are not modelled separately.
- AxiommSystem.JustificationRule: the guard on the first partition is never the deciding test, because the kernel never answers with an empty partition list.
- AxiommSystem.ParadoxIsSingular: requires the first two axioms to differ; duplicate axiom names collapse their dict entries.
- AgentEthics.EvaluateActionFailsIff: a non-string action type or non-dict details (an AttributeError in Python) is not modelled.
- UserRegistry.User.Update: only name, email and is_active are assignable. Setting id, created_at or updated_at through kwargs is not modelled, and unknown names are skipped.
- UserRegistry.User.Update: `updated_at` is the clock value passed in, so "strictly increases" holds only for a later clock.
- AxiomPairs.WellShaped: the detectors (SingularityEarly.AxiomaticSingularityDetector.Detect, SingularityFull.AxiomaticSingularityDetector.Detect) and both kernels' ProcessQuery require every gradient to have one common length and every basin the latent vector's length. numpy broadcasting (a length-1 gradient subtracted from a longer one) and numpy shape errors (`np.dot` on mismatched vectors) are not modelled, even for entries of axioms not listed; every caller in the model builds uniform fields.
- TelemetryLog: the metric log is a map from names to entry lists, so the insertion order of metric names that Python's dict keeps is not modelled; no modelled operation reads that order (`get_full_metric_log` is not modelled).
- UserRegistry.User.constructor: takes one clock reading for both created_at and updated_at, while the source reads the clock twice, so the two may differ there by the time between the readings.
- Pydantic's email-format validation and the FastAPI routes are not modelled.
- MoralEvaluation.Evaluate: an array of rank other than one is an `Input` case, not a numpy shape.
- ConscienceQuery.ConscienceQuery.InvokeConscience: the ethical constraints argument is only printed in the source and is not modelled.
- MetaConstraints.SelfDescription: the legacy trail's `self_description` is modelled on its own, not inside the newer trail.
- AxiomSystemCore.InertiaThroughClassifier: ethical inertia is reachable only in the 0.6 < e <= 0.8 band, which the proof makes explicit.

## Findings

| source | as written | input that shows it | evidently intended | confidence | as-written member | corrected member |
|---|---|---|---|---|---|---|
| docs/legacy/root-project/core/services/engine.py:30-40 | `update_user` sets a new email without checking whether another user holds it | users u1 (ada@example.org) and u2 (bob@example.org); update u2's email to ada@example.org | refuse an email another user holds, as `create_user` refuses a taken email (there with the validator's ValueError, rules.py:8); ConflictError is imported at line 7 and never used, so a conflict error is the evident choice | not executed | UserRegistry.UpdateCanDuplicateEmail | UserRegistry.UserManagementService.UpdateUserChecked |
