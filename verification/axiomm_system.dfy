/**
 * The `AxiomSystem` of the axiomm project. An inference draws a random
 * latent vector and, per listed axiom, a random gradient and attractor basin.
 * A query that mentions a paradox, a contradiction or a dilemma, with at
 * least two axioms, sets the first two axioms against each other: basins of
 * all +1 and all -1, gradients shifted up and down by 1. The Epistemic
 * Deferral Kernel (epsilon 0.1, flux threshold 5.0, gamma 0.5) answers with
 * the full axiom list; one reflection trail is appended whose justifications
 * follow the answer's shape; and the nine ethical manifolds evaluate the
 * query. Every random draw and clock reading is a parameter.
 */
module AxiommSystem {
  import opened Wrappers
  import opened Text
  import opened Vectors
  import opened OrderedDict
  import opened AxiomPairs
  import KernelInputs
  import opened MetaConstraints
  import opened ManifoldScoring
  import LegacyManifolds
  import TelemetryApi
  import K = DeferralKernelRoot
  import SingularityEarly
  import UncertaintyBlend
  import AxiomSystemCore

  const LatentDim: nat := 10
  const Epsilon := 0.1
  const FluxThreshold := 5.0
  const Gamma := 0.5

  const StructuredType := "structured_uncertainty_response"
  const UnifiedType := "unified_response"
  const NotesGenerated := "introspection_notes_generated"

  const ManifoldNames: seq<string> := [
    "kantian", "hobbesian", "utilitarian", "meta_deontological", "pragmatic_consequentialist",
    "virtue_epistemology", "ontological_morphology", "agentic_virtue_ethics", "consequentialist_utility"]

  /** The scorer registered under `ManifoldNames[i]`. */
  function Scorer(i: nat): Manifold {
    match i
    case 0 => LegacyManifolds.Kantian(())
    case 1 => LegacyManifolds.Hobbesian(())
    case 2 => LegacyManifolds.Utilitarian(())
    case 3 => LegacyManifolds.MetaDeontological(())
    case 4 => LegacyManifolds.PragmaticConsequentialist(())
    case 5 => LegacyManifolds.VirtueEpistemology(())
    case 6 => LegacyManifolds.OntologicalMorphology(())
    case 7 => LegacyManifolds.AgenticVirtue(())
    case _ => LegacyManifolds.ConsequentialistUtility(())
  }

  /** The scorers of the `ethical_manifolds` dict, in the order of `ManifoldNames`. */
  const Scorers: seq<Manifold> := seq(|ManifoldNames|, i requires 0 <= i < |ManifoldNames| => Scorer(i))

  /** The values `np.random.rand(10)` supplies to one inference: the latent,
      one gradient and one basin per listed axiom, and the two gradients drawn
      again for the axioms set in conflict. */
  datatype Draws = Draws(latent: Vector, grads: seq<Vector>, basins: seq<Vector>, high: Vector, low: Vector)

  /** Every draw has the latent dimension; one gradient and one basin per listed axiom. */
  predicate Shaped(axioms: seq<string>, d: Draws) {
    && |d.latent| == LatentDim && |d.high| == LatentDim && |d.low| == LatentDim
    && |d.grads| == |axioms| && |d.basins| == |axioms|
    && (forall i :: 0 <= i < |axioms| ==> |d.grads[i]| == LatentDim && |d.basins[i]| == LatentDim)
  }

  /** The range of `np.random.rand`: every component in [0, 1). */
  predicate Uniform(v: Vector) {
    forall i :: 0 <= i < |v| ==> 0.0 <= v[i] < 1.0
  }

  /** The dict comprehension `{ax: draw for ax in axioms}`: one assignment per
      listed axiom, in order, a repeated axiom keeping its last draw. */
  function Drawn(axioms: seq<string>, vs: seq<Vector>): Dict<Vector>
    requires |vs| == |axioms|
  {
    PutAll([], seq(|axioms|, i requires 0 <= i < |axioms| => (axioms[i], vs[i])))
  }

  /** The lower-cased query mentions a paradox, a contradiction or a dilemma. */
  predicate ConflictQuery(query: string) {
    var q := Lower(query);
    Contains(q, "paradox") || Contains(q, "contradict") || Contains(q, "dilemma")
  }

  /** The first two axioms are set in conflict. */
  predicate SetsConflict(query: string, axioms: seq<string>) {
    ConflictQuery(query) && |axioms| >= 2
  }

  /** The gradient field handed to the kernel. */
  function Gradients(query: string, axioms: seq<string>, d: Draws): Dict<Vector>
    requires Shaped(axioms, d)
  {
    var g := Drawn(axioms, d.grads);
    if SetsConflict(query, axioms) then
      Put(Put(g, axioms[0], Add(d.high, Filled(LatentDim, 1.0))), axioms[1], Add(d.low, Filled(LatentDim, -1.0)))
    else g
  }

  /** The attractor basins handed to the kernel. */
  function Basins(query: string, axioms: seq<string>, d: Draws): Dict<Vector>
    requires Shaped(axioms, d)
  {
    var b := Drawn(axioms, d.basins);
    if SetsConflict(query, axioms) then
      Put(Put(b, axioms[0], Filled(LatentDim, 1.0)), axioms[1], Filled(LatentDim, -1.0))
    else b
  }

  /** What the kernel's singularity detector sees: shaped as numpy needs, with
      a gradient and a basin for every listed axiom. */
  function FieldOf(query: string, axioms: seq<string>, d: Draws): (f: Field)
    requires Shaped(axioms, d)
    ensures WellShaped(f)
    ensures forall a :: a in axioms ==> a in f.grads && a in f.basins
  {
    FieldShaped(query, axioms, d);
    Field(d.latent, KernelInputs.AsMap(Gradients(query, axioms, d)), KernelInputs.AsMap(Basins(query, axioms, d)))
  }

  /** The response's `type` entry. */
  function TypeOf(resp: K.Response): string {
    if resp.Structured? then StructuredType else UnifiedType
  }

  /** `existential_justs`. The kernel never answers with an empty partition
      list, so the guard on the first partition never decides. */
  function Justifications(resp: K.Response): seq<string> {
    [AxiomSystemCore.Adherence]
    + (if resp.Structured? then
         [AxiomSystemCore.CollapseDeferral, AxiomSystemCore.ChecksumApplied]
         + (if |resp.partitions| > 0 && resp.partitions[0].introspectionNote.Some? then [NotesGenerated] else [])
       else [])
  }

  /** The trail's `inference_context`; context values are kept as text. */
  datatype TrailContext = TrailContext(query: string, context: map<string, string>, responseType: string,
                                       checksum: real, flux: real)

  /** A reflection trail of this meta-constraint, with its `self_description`. */
  datatype AuditTrail = AuditTrail(trail: Trail<TrailContext>, selfDescription: string)

  /** The trail one inference appends; its context has no "query_id" entry. */
  function TrailOf(meta: MetaConstraint, clockDigits: string, isoTime: string, query: string,
                   context: map<string, string>, resp: K.Response, facts: nat): AuditTrail
  {
    var deps := AxiomSystemCore.Dependencies(query, facts);
    var justs := Justifications(resp);
    AuditTrail(meta.ReflectionTrail(clockDigits, isoTime,
                                    TrailContext(query, context, TypeOf(resp), resp.checksum, resp.flux), deps, justs),
               SelfDescription(None, |deps|, |justs|))
  }

  /** Each scorer's assessment of `principle` under its name. */
  function EvaluationsOf(names: seq<string>, scorers: seq<Manifold>, principle: string): (e: Dict<Assessment>)
    requires |names| == |scorers|
    ensures Keys(e) == names
  {
    seq(|names|, i requires 0 <= i < |names| => (names[i], Evaluate(scorers[i], principle)))
  }

  /** The answer of `perform_inference`: the kernel's response with the evaluations added. */
  datatype Inference = Inference(response: K.Response, evaluations: Dict<Assessment>)

  datatype Proposal = Proposal(permissible: bool, evaluations: Dict<Assessment>, action: map<string, string>)

  /** The loop of `reason_through_ethical_manifolds`: one assignment per scorer. */
  method EvaluateEach(names: seq<string>, scorers: seq<Manifold>, principle: string) returns (evals: Dict<Assessment>)
    requires |names| == |scorers|
    ensures evals == PutAll([], EvaluationsOf(names, scorers, principle))
  {
    ghost var all := EvaluationsOf(names, scorers, principle);
    evals := [];
    for i := 0 to |names|
      invariant evals == PutAll([], all[..i])
    {
      assert all[..i + 1][..i] == all[..i];
      evals := Put(evals, names[i], Evaluate(scorers[i], principle));
    }
    assert all[..|names|] == all;
  }

  /** The vectors of `perform_inference`: one draw per listed axiom, and the
      conflict imposed on the first two axioms when the query calls for it. */
  method SetUp(query: string, axioms: seq<string>, d: Draws) returns (grads: Dict<Vector>, basins: Dict<Vector>)
    requires Shaped(axioms, d)
    ensures grads == Gradients(query, axioms, d) && basins == Basins(query, axioms, d)
  {
    grads := Drawn(axioms, d.grads);
    basins := Drawn(axioms, d.basins);
    var q := Lower(query);
    if Contains(q, "paradox") || Contains(q, "contradict") || Contains(q, "dilemma") {
      if |axioms| >= 2 {
        grads := Put(grads, axioms[0], Add(d.high, Filled(LatentDim, 1.0)));
        grads := Put(grads, axioms[1], Add(d.low, Filled(LatentDim, -1.0)));
        basins := Put(basins, axioms[0], Filled(LatentDim, 1.0));
        basins := Put(basins, axioms[1], Filled(LatentDim, -1.0));
      }
    }
  }

  class AxiomSystem {
    const name: string
    const meta: MetaConstraint
    const telemetry: TelemetryApi.EpistemicTelemetryApi
    const kernel: K.EpistemicDeferralKernel
    /** The scorers of the `ethical_manifolds` dict, in the order of `ManifoldNames`. */
    const manifolds: seq<Manifold>
    var knowledgeBase: seq<string>
    var policies: map<string, string>
    var reflectionTrails: seq<AuditTrail>

    /** The kernel reports to this system's telemetry, with the fixed settings. */
    ghost predicate Valid()
      reads kernel, telemetry
    {
      && |manifolds| == |ManifoldNames|
      && kernel.telemetry == telemetry && kernel.Valid()
      && kernel.detector.epsilon == Epsilon && kernel.threshold == FluxThreshold && kernel.manifold.gamma == Gamma
    }

    constructor(name: string, axioms: seq<string>)
      ensures Valid() && fresh(kernel) && fresh(telemetry)
      ensures this.name == name && meta == MetaConstraint(axioms)
      ensures knowledgeBase == [] && policies == map[] && reflectionTrails == []
      ensures kernel.checksum == 0.0 && manifolds == Scorers
    {
      this.name := name;
      meta := MetaConstraint(axioms);
      var api := new TelemetryApi.EpistemicTelemetryApi();
      telemetry := api;
      kernel := new K.EpistemicDeferralKernel(api, Epsilon, FluxThreshold, Gamma);
      manifolds := Scorers;
      knowledgeBase := [];
      policies := map[];
      reflectionTrails := [];
    }

    /** What `reason_through_ethical_manifolds` returns. */
    function Evaluations(principle: string): Dict<Assessment>
      requires |manifolds| == |ManifoldNames|
    {
      EvaluationsOf(ManifoldNames, manifolds, principle)
    }

    /** `reason_through_ethical_manifolds`: the names are distinct, so every
        assignment adds a new entry. */
    method ReasonThroughEthicalManifolds(principle: string) returns (evals: Dict<Assessment>)
      requires |manifolds| == |ManifoldNames|
      ensures evals == Evaluations(principle)
    {
      evals := EvaluateEach(ManifoldNames, manifolds, principle);
      EvaluationsKeyed(manifolds, principle);
      PutAllFresh(Evaluations(principle));
    }

    /** `update_internal_mechanisms`: the policies become their propagation by `policy`. */
    method UpdateInternalMechanisms(policy: map<string, string>)
      modifies this
      ensures policies == Propagated(policy, old(policies))
      ensures knowledgeBase == old(knowledgeBase) && reflectionTrails == old(reflectionTrails)
    {
      policies := meta.ApplyConstraintSymmetryPropagation(policy, policies);
    }

    /** `add_knowledge`: appends one fact at the end. */
    method AddKnowledge(item: string)
      modifies this
      ensures knowledgeBase == old(knowledgeBase) + [item]
      ensures policies == old(policies) && reflectionTrails == old(reflectionTrails)
    {
      knowledgeBase := knowledgeBase + [item];
    }

    /** `propose_action`: permissible iff no axiom is retroactively overridden by
        the action's keys; the evaluations are of its "description", or of
        "unspecified action". */
    method ProposeAction(action: map<string, string>) returns (p: Proposal)
      requires Valid()
      ensures p.permissible <==> forall a :: a in meta.axioms ==> OverridePrefix + a !in action
      ensures p.evaluations == Evaluations(if "description" in action then action["description"] else "unspecified action")
      ensures p.action == action
    {
      var permissible := meta.DecoupleTemporalAuthority(action);
      var description := if "description" in action then action["description"] else "unspecified action";
      var evals := ReasonThroughEthicalManifolds(description);
      p := Proposal(permissible, evals, action);
    }

    /** The tail of `perform_inference`: dependencies and justifications are
        gathered and one trail is appended. */
    method RecordTrail(query: string, context: map<string, string>, resp: K.Response,
                       clockDigits: string, isoTime: string)
      modifies this
      ensures reflectionTrails == old(reflectionTrails) + [TrailOf(meta, clockDigits, isoTime, query, context, resp, |knowledgeBase|)]
      ensures knowledgeBase == old(knowledgeBase) && policies == old(policies)
    {
      var deps := AxiomSystemCore.LogicalDependencies(query, |knowledgeBase|);
      var justs := [AxiomSystemCore.Adherence];
      if resp.Structured? {
        justs := justs + [AxiomSystemCore.CollapseDeferral, AxiomSystemCore.ChecksumApplied];
        if |resp.partitions| > 0 && resp.partitions[0].introspectionNote.Some? {
          justs := justs + [NotesGenerated];
        }
      }
      assert justs == Justifications(resp);
      var responseType := if resp.Structured? then StructuredType else UnifiedType;
      var trail := meta.ReflectionTrail(clockDigits, isoTime,
                                        TrailContext(query, context, responseType, resp.checksum, resp.flux), deps, justs);
      reflectionTrails := reflectionTrails + [AuditTrail(trail, SelfDescription(None, |deps|, |justs|))];
    }

    /** The head of `perform_inference`: the vectors are set up, the conflict
        imposed when the query calls for it, and the kernel consulted with the
        full axiom list. */
    method Consult(query: string, d: Draws, norm: Vector -> real, format2: real -> string)
      returns (resp: K.Response)
      requires Valid() && Shaped(meta.axioms, d)
      modifies kernel, telemetry, kernel.detector
      ensures Valid()
      ensures Answered(kernel, meta.axioms, resp, query, d, norm, old(kernel.checksum))
    {
      var axioms := meta.axioms;
      ghost var oldChecksum := kernel.checksum;
      var grads, basins := SetUp(query, axioms, d);
      FieldShaped(query, axioms, d);
      var basinMap := KernelInputs.AsMap(basins);
      assert FieldOf(query, axioms, d) == Field(d.latent, KernelInputs.AsMap(grads), basinMap);
      resp := kernel.ProcessQuery(d.latent, grads, basinMap, axioms, Some(query), norm, format2);
      if resp.Structured? {
        DeferredNotes(kernel, resp, d.latent, basinMap, axioms, Some(query), format2);
      }
      ReadAnswer(kernel, resp, query, axioms, d, norm, format2, oldChecksum);
    }

    /** `perform_inference`. `d` holds the random draws, `norm` and `format2`
        are the kernel's norm and two-decimal rendering, and
        `clockDigits`/`isoTime` the clock reading stamped on the trail. */
    method PerformInference(query: string, context: map<string, string>, d: Draws,
                            norm: Vector -> real, format2: real -> string, clockDigits: string, isoTime: string)
      returns (r: Inference)
      requires Valid() && Shaped(meta.axioms, d)
      modifies this, kernel, telemetry, kernel.detector
      ensures Valid()
      ensures Answered(kernel, meta.axioms, r.response, query, d, norm, old(kernel.checksum))
      ensures reflectionTrails == old(reflectionTrails) + [TrailOf(meta, clockDigits, isoTime, query, context, r.response, |knowledgeBase|)]
      ensures r.evaluations == Evaluations(query)
      ensures knowledgeBase == old(knowledgeBase) && policies == old(policies)
    {
      var resp := Consult(query, d, norm, format2);
      RecordTrail(query, context, resp, clockDigits, isoTime);
      var evals := ReasonThroughEthicalManifolds(query);
      r := Inference(resp, evals);
    }
  }

  /** The kernel's answer for the drawn vectors: what the detector decides,
      the checksum and flux, and the notes the deferral branch attaches. */
  ghost predicate Answered(kernel: K.EpistemicDeferralKernel, axioms: seq<string>, resp: K.Response,
                           query: string, d: Draws, norm: Vector -> real, oldChecksum: real)
    requires Shaped(axioms, d)
    reads kernel
  {
    var f := FieldOf(query, axioms, d);
    && (resp.Structured? <==> SingularityEarly.Singular(Epsilon, f, axioms))
    && (resp.Structured? ==> resp.bifurcationNode == SingularityEarly.Node(f, axioms))
    && resp.checksum == KernelInputs.NewChecksum(norm, Gradients(query, axioms, d), Epsilon)
    && resp.flux == (if resp.Structured? then resp.checksum - oldChecksum else 0.0)
    && kernel.checksum == (if resp.Structured? then resp.checksum else oldChecksum)
    && kernel.currentQuery == Some(query)
    && (resp.Structured? ==> (NotesGenerated in Justifications(resp) <==> resp.flux > FluxThreshold))
  }

  /** What the kernel promises for one query, read back in terms of the draws. */
  lemma ReadAnswer(kernel: K.EpistemicDeferralKernel, resp: K.Response, query: string, axioms: seq<string>,
                   d: Draws, norm: Vector -> real, format2: real -> string, oldChecksum: real)
    requires Shaped(axioms, d)
    requires kernel.detector.epsilon == Epsilon && kernel.threshold == FluxThreshold
    requires kernel.currentQuery == Some(query)
    requires var f := FieldOf(query, axioms, d);
      var singular := SingularityEarly.Singular(kernel.detector.epsilon, f, axioms);
      var newChecksum := KernelInputs.NewChecksum(norm, Gradients(query, axioms, d), kernel.detector.epsilon);
      var step := K.Step(oldChecksum, singular, newChecksum);
      && kernel.checksum == step.0
      && resp.checksum == newChecksum
      && resp.flux == step.1
      && (!singular ==> resp.Unified?)
      && (singular ==> resp.Structured? && resp.bifurcationNode == SingularityEarly.Node(f, axioms)
                       && (NotesGenerated in Justifications(resp) <==> resp.flux > kernel.threshold))
    ensures Answered(kernel, axioms, resp, query, d, norm, oldChecksum)
  {
  }

  // ---------------------------------------------------------------------
  // The dicts handed to the kernel.

  /** The kernel's view of a dict without repeated keys agrees with lookup. */
  lemma {:induction false} AsMapIsGet(d: Dict<Vector>, k: string)
    requires DistinctKeys(d) && k in KernelInputs.AsMap(d)
    ensures Get(d, k) == Some(KernelInputs.AsMap(d)[k])
  {
    var init := d[..|d| - 1];
    var last := d[|d| - 1];
    assert Find(init, last.0).None?;
    assert d == Put(init, last.0, last.1);
    if k == last.0 {
      PutGet(init, last.0, last.1);
    } else {
      PutOther(init, last.0, last.1, k);
      AsMapIsGet(init, k);
    }
  }

  /** Every value of a dict of drawn vectors has the latent dimension. */
  predicate AllDim(d: Dict<Vector>) {
    forall i :: 0 <= i < |d| ==> |d[i].1| == LatentDim
  }

  /** `Drawn` holds each listed axiom once, with a drawn value. */
  lemma DrawnFacts(axioms: seq<string>, vs: seq<Vector>)
    requires |vs| == |axioms| && forall i :: 0 <= i < |vs| ==> |vs[i]| == LatentDim
    ensures DistinctKeys(Drawn(axioms, vs)) && AllDim(Drawn(axioms, vs))
    ensures forall a :: a in axioms ==> Find(Drawn(axioms, vs), a).Some?
  {
    var es := seq(|axioms|, i requires 0 <= i < |axioms| => (axioms[i], vs[i]));
    PutAllDistinct([], es);
    forall i | 0 <= i < |PutAll([], es)|
      ensures |PutAll([], es)[i].1| == LatentDim
    {
      PutAllFrom(es, i);
    }
    forall a | a in axioms
      ensures Find(Drawn(axioms, vs), a).Some?
    {
      var j :| 0 <= j < |axioms| && axioms[j] == a;
      PutAllHolds(es, j);
    }
  }

  /** Every key assigned is present afterwards. */
  lemma {:induction false} PutAllHolds<V>(es: seq<(string, V)>, j: nat)
    requires j < |es|
    ensures Find(PutAll([], es), es[j].0).Some?
  {
    var init := es[..|es| - 1];
    var last := es[|es| - 1];
    PutGet(PutAll([], init), last.0, last.1);
    if j < |es| - 1 && es[j].0 != last.0 {
      PutAllHolds(init, j);
      PutOther(PutAll([], init), last.0, last.1, es[j].0);
    }
  }

  /** Assigning a key of the latent dimension keeps every value of that dimension
      and every key present. */
  lemma PutKeepsShape(d: Dict<Vector>, k: string, v: Vector)
    requires DistinctKeys(d) && AllDim(d) && |v| == LatentDim
    ensures DistinctKeys(Put(d, k, v)) && AllDim(Put(d, k, v))
    ensures Find(Put(d, k, v), k).Some?
    ensures forall a :: Find(d, a).Some? ==> Find(Put(d, k, v), a).Some?
  {
    PutDistinct(d, k, v);
    PutGet(d, k, v);
    forall a | Find(d, a).Some?
      ensures Find(Put(d, k, v), a).Some?
    {
      if a != k {
        PutOther(d, k, v, a);
      }
    }
  }

  /** The values of a dict without repeated keys, all of the latent dimension,
      keep that dimension in the kernel's view. */
  lemma AsMapShaped(d: Dict<Vector>)
    requires DistinctKeys(d) && AllDim(d)
    ensures forall a :: a in KernelInputs.AsMap(d) ==> |KernelInputs.AsMap(d)[a]| == LatentDim
  {
    forall a | a in KernelInputs.AsMap(d)
      ensures |KernelInputs.AsMap(d)[a]| == LatentDim
    {
      AsMapIsGet(d, a);
    }
  }

  /** What the kernel needs of the two dicts: no key twice, every vector of
      the latent dimension, and every listed axiom present in both. */
  predicate Ready(axioms: seq<string>, g: Dict<Vector>, b: Dict<Vector>) {
    && DistinctKeys(g) && DistinctKeys(b)
    && (forall a :: a in KernelInputs.AsMap(g) ==> |KernelInputs.AsMap(g)[a]| == LatentDim)
    && (forall a :: a in KernelInputs.AsMap(b) ==> |KernelInputs.AsMap(b)[a]| == LatentDim)
    && (forall a :: a in axioms ==> a in KernelInputs.AsMap(g) && a in KernelInputs.AsMap(b))
  }

  /** The kernel can take the dicts: no gradient key twice, all vectors of the
      latent dimension, and every listed axiom with a gradient and a basin. */
  lemma FieldShaped(query: string, axioms: seq<string>, d: Draws)
    requires Shaped(axioms, d)
    ensures Ready(axioms, Gradients(query, axioms, d), Basins(query, axioms, d))
  {
    DrawnFacts(axioms, d.grads);
    DrawnFacts(axioms, d.basins);
    var g0 := Drawn(axioms, d.grads);
    var b0 := Drawn(axioms, d.basins);
    if SetsConflict(query, axioms) {
      var g1 := Put(g0, axioms[0], Add(d.high, Filled(LatentDim, 1.0)));
      var b1 := Put(b0, axioms[0], Filled(LatentDim, 1.0));
      PutKeepsShape(g0, axioms[0], Add(d.high, Filled(LatentDim, 1.0)));
      PutKeepsShape(g1, axioms[1], Add(d.low, Filled(LatentDim, -1.0)));
      PutKeepsShape(b0, axioms[0], Filled(LatentDim, 1.0));
      PutKeepsShape(b1, axioms[1], Filled(LatentDim, -1.0));
    }
    var g := Gradients(query, axioms, d);
    var b := Basins(query, axioms, d);
    AsMapShaped(g);
    AsMapShaped(b);
    forall a | a in axioms
      ensures a in KernelInputs.AsMap(g) && a in KernelInputs.AsMap(b)
    {
      var i := Find(g, a).value;
      var j := Find(b, a).value;
      assert g[i].0 == a && b[j].0 == a;
    }
  }

  /** For a conflict query the first two (different) axioms get the shifted
      gradients and the basins all +1 and all -1; with draws from [0, 1) the
      gradients lie componentwise in [1, 2) and [-1, 0). */
  lemma ConflictVectors(query: string, axioms: seq<string>, d: Draws)
    requires Shaped(axioms, d) && SetsConflict(query, axioms) && axioms[0] != axioms[1]
    ensures var f := FieldOf(query, axioms, d);
      && Complete(f, axioms[0], axioms[1])
      && f.grads[axioms[0]] == Add(d.high, Filled(LatentDim, 1.0))
      && f.grads[axioms[1]] == Add(d.low, Filled(LatentDim, -1.0))
      && f.basins[axioms[0]] == Filled(LatentDim, 1.0)
      && f.basins[axioms[1]] == Filled(LatentDim, -1.0)
      && (Uniform(d.high) ==> forall i :: 0 <= i < LatentDim ==> 1.0 <= f.grads[axioms[0]][i] < 2.0)
      && (Uniform(d.low) ==> forall i :: 0 <= i < LatentDim ==> -1.0 <= f.grads[axioms[1]][i] < 0.0)
  {
    FieldShaped(query, axioms, d);
    var a0, a1 := axioms[0], axioms[1];
    var f := FieldOf(query, axioms, d);
    var g0 := Drawn(axioms, d.grads);
    var b0 := Drawn(axioms, d.basins);
    var up, down := Add(d.high, Filled(LatentDim, 1.0)), Add(d.low, Filled(LatentDim, -1.0));
    var g1 := Put(g0, a0, up);
    var b1 := Put(b0, a0, Filled(LatentDim, 1.0));
    DrawnFacts(axioms, d.grads);
    DrawnFacts(axioms, d.basins);
    PutDistinct(g0, a0, up);
    PutDistinct(b0, a0, Filled(LatentDim, 1.0));
    PutGet(g0, a0, up);
    PutOther(g1, a1, down, a0);
    PutGet(g1, a1, down);
    PutGet(b0, a0, Filled(LatentDim, 1.0));
    PutOther(b1, a1, Filled(LatentDim, -1.0), a0);
    PutGet(b1, a1, Filled(LatentDim, -1.0));
    AsMapIsGet(Gradients(query, axioms, d), a0);
    AsMapIsGet(Gradients(query, axioms, d), a1);
    AsMapIsGet(Basins(query, axioms, d), a0);
    AsMapIsGet(Basins(query, axioms, d), a1);
  }

  // ---------------------------------------------------------------------
  // The paradox case.

  /** With epsilon 0.1, a paradox query over two different leading axioms and a
      latent of positive sum makes the detector stop at the very first pair
      with a singularity: the projections on the +1 and -1 basins differ in
      sign, and the gradients are more than 1 apart in every component. */
  lemma ParadoxIsSingular(query: string, axioms: seq<string>, d: Draws)
    requires Shaped(axioms, d) && SetsConflict(query, axioms) && axioms[0] != axioms[1]
    requires Uniform(d.high) && Uniform(d.low) && Sum(d.latent) > 0.0
    ensures SingularityEarly.Singular(Epsilon, FieldOf(query, axioms, d), axioms)
    ensures SingularityEarly.Node(FieldOf(query, axioms, d), axioms) ==
      Some(SingularityEarly.ConflictNode(axioms[0], axioms[1]))
  {
    ConflictVectors(query, axioms, d);
    var f := FieldOf(query, axioms, d);
    var a0, a1 := axioms[0], axioms[1];
    OppositeProjections(d.latent);
    assert Divergent(f, a0, a1);
    GapAboveOne(d.high, d.low);
    assert Gap(f, a0, a1) > 1.0;
    assert SingularityEarly.FullScan(f, axioms) == SingularityEarly.ScanResult(Gap(f, a0, a1), Some((0, 1)));
  }

  /** A latent of positive sum projects positively on the all +1 basin and
      negatively on the all -1 basin. */
  lemma OppositeProjections(latent: Vector)
    requires Sum(latent) > 0.0
    ensures Sign(Dot(latent, Filled(|latent|, 1.0))) == 1
    ensures Sign(Dot(latent, Filled(|latent|, -1.0))) == -1
  {
    DotFilled(latent, 1.0);
    DotFilled(latent, -1.0);
  }

  /** Gradients shifted up and down by 1 from draws in [0, 1) are more than 1 apart. */
  lemma GapAboveOne(high: Vector, low: Vector)
    requires |high| == LatentDim && |low| == LatentDim && Uniform(high) && Uniform(low)
    ensures SqDist(Add(high, Filled(LatentDim, 1.0)), Add(low, Filled(LatentDim, -1.0))) > 1.0
  {
    var diff := Sub(Add(high, Filled(LatentDim, 1.0)), Add(low, Filled(LatentDim, -1.0)));
    var x := diff[0];
    assert x > 1.0;
    assert x * x > 1.0 by {
      assert x * x - 1.0 == (x - 1.0) * (x + 1.0);
    }
    SqNormAtLeast(diff, 0);
  }

  // ---------------------------------------------------------------------
  // Justifications and evaluations.

  /** Adherence always comes first; deferral and checksum are added iff the
      answer is structured; the note entry iff the first partition has a note. */
  lemma JustificationRule(resp: K.Response)
    ensures var js := Justifications(resp);
      && js[0] == AxiomSystemCore.Adherence
      && (AxiomSystemCore.CollapseDeferral in js <==> resp.Structured?)
      && (AxiomSystemCore.ChecksumApplied in js <==> resp.Structured?)
      && (NotesGenerated in js <==> resp.Structured? && |resp.partitions| > 0 && resp.partitions[0].introspectionNote.Some?)
      && |js| == if !resp.Structured? then 1 else if NotesGenerated in js then 4 else 3
  {
  }

  /** Under the root kernel the note entry is there exactly when the flux
      exceeds the threshold: the note goes on every partition then, and on
      none otherwise. */
  lemma NotesFollowFlux(resp: K.Response, base: seq<K.ModeOutput>, note: string, threshold: real)
    requires resp.Structured? && |base| > 0 && base[0].introspectionNote == None
    requires resp.partitions == if resp.flux > threshold then K.WithNote(base, note) else base
    ensures NotesGenerated in Justifications(resp) <==> resp.flux > threshold
  {
    if resp.flux > threshold {
      assert resp.partitions[0].introspectionNote == Some(note);
    }
  }

  /** The nine names differ already in their first letters. */
  lemma NamesDistinct()
    ensures forall i, j :: 0 <= i < j < |ManifoldNames| ==> ManifoldNames[i] != ManifoldNames[j]
  {
    var initials := "khumpvoac";
    forall i | 0 <= i < |ManifoldNames|
      ensures |ManifoldNames[i]| > 0 && ManifoldNames[i][0] == initials[i]
    {
    }
  }

  /** What the kernel's deferral branch leaves in the partitions decides the
      note entry: it is there iff the flux exceeds the kernel's threshold. */
  lemma DeferredNotes(kernel: K.EpistemicDeferralKernel, resp: K.Response, latent: Vector,
                      basins: map<string, Vector>, axioms: seq<string>, query: Option<string>,
                      format2: real -> string)
    requires forall a :: a in basins ==> |basins[a]| == |latent|
    requires kernel.Deferred(resp, latent, basins, axioms, query, format2)
    ensures NotesGenerated in Justifications(resp) <==> resp.flux > kernel.threshold
  {
    K.StructuredPartitions(kernel.manifold.gamma, latent, basins, axioms, query, format2);
    var base := K.Outputs(UncertaintyBlend.Partitioned(
                            UncertaintyBlend.Inflated(kernel.manifold.gamma, latent, KernelInputs.ConflictingBasins(axioms, basins)),
                            K.Decoder(format2, query)), query);
    NotesFollowFlux(resp, base, K.Narrative(format2(resp.flux)), kernel.threshold);
  }

  /** The evaluations are keyed by exactly the nine manifold names, once each,
      and each name gives its scorer's assessment. */
  lemma EvaluationsKeyed(scorers: seq<Manifold>, principle: string)
    requires |scorers| == |ManifoldNames|
    ensures Keys(EvaluationsOf(ManifoldNames, scorers, principle)) == ManifoldNames
    ensures DistinctKeys(EvaluationsOf(ManifoldNames, scorers, principle))
    ensures forall i :: 0 <= i < |ManifoldNames| ==>
      Get(EvaluationsOf(ManifoldNames, scorers, principle), ManifoldNames[i]) == Some(Evaluate(scorers[i], principle))
  {
    var e := EvaluationsOf(ManifoldNames, scorers, principle);
    NamesDistinct();
    forall i | 0 <= i < |ManifoldNames|
      ensures Get(e, ManifoldNames[i]) == Some(Evaluate(scorers[i], principle))
    {
      var j := Find(e, ManifoldNames[i]).value;
      assert e[j].0 == e[i].0;
    }
  }
}
