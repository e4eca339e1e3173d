/**
 * `MetaConstraint`: copies `constraint_*` policy entries into a mechanism as
 * `invariant_*` entries, vetoes proposals that retroactively override an
 * axiom, checks corrigibility, and builds reflection-trail records.
 * Dictionaries whose order is never observed are Dafny maps.
 */
module MetaConstraints {
  import opened Wrappers
  import opened Text

  const ConstraintPrefix: string := "constraint_"
  const InvariantPrefix: string := "invariant_"
  const OverridePrefix: string := "retroactive_override_"
  const DisagreementProtocol: string := "disagreement_protocol_enabled"
  const ChallengingAlignment: string := "challenging_alignment"

  /** The keys propagation writes: "invariant_" + k for each "constraint_" key k of the policy. */
  function Promoted<V>(policy: map<string, V>): set<string> {
    set k | k in policy && StartsWith(k, ConstraintPrefix) :: InvariantPrefix + k
  }

  lemma PromotedKey<V>(policy: map<string, V>, key: string)
    requires key in Promoted(policy)
    ensures key[|InvariantPrefix|..] in policy
    ensures StartsWith(key[|InvariantPrefix|..], ConstraintPrefix)
    ensures key == InvariantPrefix + key[|InvariantPrefix|..]
  {
    var k :| k in policy && StartsWith(k, ConstraintPrefix) && key == InvariantPrefix + k;
    assert key[|InvariantPrefix|..] == k;
  }

  /** Reference definition of the propagated mechanism. */
  function Propagated<V>(policy: map<string, V>, internal: map<string, V>): map<string, V> {
    map key | key in internal.Keys + Promoted(policy) ::
      if key in Promoted(policy) then
        PromotedKey(policy, key);
        policy[key[|InvariantPrefix|..]]
      else internal[key]
  }

  datatype MetaConstraint = MetaConstraint(axioms: seq<string>) {

    /** `apply_constraint_symmetry_propagation`: a fresh copy of `internal` extended with
        the promoted policy entries. Maps are values, so `internal` itself is untouched. */
    method ApplyConstraintSymmetryPropagation<V>(policy: map<string, V>, internal: map<string, V>)
      returns (updated: map<string, V>)
      ensures updated == Propagated(policy, internal)
    {
      updated := internal;
      var todo := policy.Keys;
      while todo != {}
        invariant todo <= policy.Keys
        invariant updated == Propagated(policy - todo, internal)
        decreases todo
      {
        var key :| key in todo;
        if StartsWith(key, ConstraintPrefix) {
          updated := updated[InvariantPrefix + key := policy[key]];
        }
        PropagateOneMore(policy, internal, todo, key);
        todo := todo - {key};
      }
      assert policy - {} == policy;
    }

    /** `decouple_temporal_authority`: false as soon as some axiom has a
        "retroactive_override_" key in the proposal. The current assumptions are never read. */
    method DecoupleTemporalAuthority<V>(proposed: map<string, V>) returns (permitted: bool)
      ensures permitted <==> forall a :: a in axioms ==> OverridePrefix + a !in proposed
    {
      var i := 0;
      while i < |axioms|
        invariant 0 <= i <= |axioms|
        invariant forall j :: 0 <= j < i ==> OverridePrefix + axioms[j] !in proposed
      {
        if OverridePrefix + axioms[i] in proposed {
          return false;
        }
        i := i + 1;
      }
      return true;
    }

    /** `verify_corrigibility`. */
    function VerifyCorrigibility(prediction: string): (ok: bool)
      ensures ok <==> DisagreementProtocol in axioms && prediction == ChallengingAlignment
    {
      DisagreementProtocol in axioms && prediction == ChallengingAlignment
    }

    /** `generate_auditable_reflection_trail`; the clock reading is passed in as its
        two renderings (compact digits for the id, ISO form for the timestamp). */
    function ReflectionTrail<C>(clockDigits: string, isoTime: string, context: C,
                                dependencies: seq<string>, justifications: seq<string>): (t: Trail<C>)
      ensures t.traceId == "trace_" + clockDigits && t.timestamp == isoTime
      ensures t.context == context && t.axiomaticBase == axioms
      ensures t.dependencies == dependencies && t.justifications == justifications
    {
      Trail("trace_" + clockDigits, isoTime, context, dependencies, justifications, axioms)
    }
  }

  datatype Trail<C> = Trail(traceId: string, timestamp: string, context: C,
                            dependencies: seq<string>, justifications: seq<string>,
                            axiomaticBase: seq<string>)

  /** The legacy trail's extra `self_description`; `queryId` is the context's
      "query_id" entry already rendered as text, when present. */
  function SelfDescription(queryId: Option<string>, dependencyCount: nat, justificationCount: nat): (d: string)
    ensures StartsWith(d, "Trace for inference in context ")
  {
    var prefix := "Trace for inference in context ";
    var rest := queryId.GetOr("N/A") + ". Derived from " + NatToString(dependencyCount)
      + " dependencies and " + NatToString(justificationCount) + " justifications.";
    assert (prefix + rest)[..|prefix|] == prefix;
    prefix + rest
  }

  // ---------------------------------------------------------------------
  // Properties of propagation.

  lemma PropagateOneMore<V>(policy: map<string, V>, internal: map<string, V>, todo: set<string>, key: string)
    requires key in todo && todo <= policy.Keys
    ensures Propagated(policy - (todo - {key}), internal) ==
            if StartsWith(key, ConstraintPrefix)
            then Propagated(policy - todo, internal)[InvariantPrefix + key := policy[key]]
            else Propagated(policy - todo, internal)
  {
    var before := policy - todo;
    var after := policy - (todo - {key});
    if StartsWith(key, ConstraintPrefix) {
      assert Promoted(after) == Promoted(before) + {InvariantPrefix + key} by {
        forall k | k in Promoted(after) ensures k in Promoted(before) + {InvariantPrefix + k[|InvariantPrefix|..]} {
          PromotedKey(after, k);
        }
      }
      forall k | k in Promoted(before) ensures k[|InvariantPrefix|..] != key {
        PromotedKey(before, k);
      }
    } else {
      assert Promoted(after) == Promoted(before) by {
        forall k | k in Promoted(after) ensures k in Promoted(before) {
          PromotedKey(after, k);
          var p := k[|InvariantPrefix|..];
          assert p != key;
          assert p in before;
        }
      }
    }
  }

  /** Every "constraint_" policy entry appears under its "invariant_" name with the same value. */
  lemma PropagatedCopiesConstraints<V>(policy: map<string, V>, internal: map<string, V>, k: string)
    requires k in policy && StartsWith(k, ConstraintPrefix)
    ensures InvariantPrefix + k in Propagated(policy, internal)
    ensures Propagated(policy, internal)[InvariantPrefix + k] == policy[k]
  {
    assert InvariantPrefix + k in Promoted(policy);
    PromotedKey(policy, InvariantPrefix + k);
  }

  /** Nothing else changes: the keys are the old ones plus the promoted ones, and every
      key that is not a promoted one keeps its old value. */
  lemma PropagatedFrame<V>(policy: map<string, V>, internal: map<string, V>)
    ensures Propagated(policy, internal).Keys == internal.Keys + Promoted(policy)
    ensures forall k :: k in internal && k !in Promoted(policy) ==> Propagated(policy, internal)[k] == internal[k]
  {
  }

  /** A policy key without the "constraint_" prefix (such as "name") is never copied. */
  lemma OtherKeysNotCopied<V>(policy: map<string, V>, internal: map<string, V>, k: string)
    requires !StartsWith(k, ConstraintPrefix)
    ensures InvariantPrefix + k !in Promoted(policy)
  {
    forall p | p in policy && StartsWith(p, ConstraintPrefix) ensures InvariantPrefix + p != InvariantPrefix + k {
      assert (InvariantPrefix + p)[|InvariantPrefix|..] == p;
      assert (InvariantPrefix + k)[|InvariantPrefix|..] == k;
    }
  }

  /** Applying the same policy twice is the same as applying it once. */
  lemma PropagationIdempotent<V>(policy: map<string, V>, internal: map<string, V>)
    ensures Propagated(policy, Propagated(policy, internal)) == Propagated(policy, internal)
  {
    var once := Propagated(policy, internal);
    var twice := Propagated(policy, once);
    forall k | k in twice ensures k in once && twice[k] == once[k] {
      if k in Promoted(policy) {
        PromotedKey(policy, k);
      }
    }
  }
}
