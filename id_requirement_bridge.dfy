/**
 * The rule shared by parameters and serializations: a key whose output carries a prefix
 * has a numeric id, and a key without a prefix has none.
 */
module IdRequirementBridge {
  import opened Wrappers
  import Mac
  import Internal

  /** The output prefix type a serialization uses for the parameters' variant: RAW exactly for NO_PREFIX. */
  predicate PrefixTypeMatches(p: Mac.AesCmacParameters, t: Internal.OutputPrefixType) {
    t.Raw? <==> p.variant.NoPrefix?
  }

  /**
   * A serialization of a key with parameters `p` can be created exactly when an id is
   * given precisely if `p` has an id requirement.
   */
  lemma CreateAgreesWithHasIdRequirement(
    p: Mac.AesCmacParameters, typeUrl: string, value: seq<uint8>,
    kmt: Internal.KeyMaterialType, t: Internal.OutputPrefixType, id: Option<int32>)
    requires PrefixTypeMatches(p, t)
    ensures Internal.Create(typeUrl, value, kmt, t, id).Success? <==> (id.Some? <==> p.HasIdRequirement())
  {
  }
}
