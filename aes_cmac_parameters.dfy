/**
 * The parameters of an AES-CMAC key: key size, cryptographic tag size and output-prefix
 * variant, built through a validating builder.
 */
module Mac {
  import opened Wrappers

  /** How the MAC is computed and whether a key-dependent prefix precedes every tag. */
  datatype Variant = Tink | Crunchy | Legacy | NoPrefix

  /** The bytes of the key-dependent output prefix of the TINK, CRUNCHY and LEGACY variants. */
  const OutputPrefixSizeBytes: nat := 5

  /** The length of the prefix a variant puts before every tag. */
  function PrefixSizeBytes(v: Variant): nat {
    if v == NoPrefix then 0 else OutputPrefixSizeBytes
  }

  /** The exceptions the builder throws. */
  datatype Error =
    | InvalidKeySize(keySizeBytes: int32)   // InvalidAlgorithmParameterException
    | InvalidTagSize(tagSizeBytes: int32)   // GeneralSecurityException
    | SizesNotSet                           // GeneralSecurityException

  /** Only 128-bit and 256-bit AES keys are supported. */
  predicate ValidKeySize(n: int32) {
    n == 16 || n == 32
  }

  /** Cryptographic tags are 10 to 16 bytes long. */
  predicate ValidTagSize(n: int32) {
    10 <= n <= 16
  }

  /** A built parameter object; its fields never change. */
  datatype AesCmacParameters = AesCmacParameters(keySizeBytes: int32, tagSizeBytes: int32, variant: Variant) {

    /** Every parameter object the builder returns satisfies this. */
    predicate Valid(): (r: bool)
      ensures r ==> keySizeBytes as int * 8 in {128, 256}
      ensures r ==> 10 <= TotalTagSizeBytes() <= 21
    {
      ValidKeySize(keySizeBytes) && ValidTagSize(tagSizeBytes)
    }

    /** Keys with a prefix must carry a numeric id. */
    predicate HasIdRequirement(): (r: bool)
      ensures r <==> PrefixSizeBytes(variant) > 0
    {
      variant != NoPrefix
    }

    /** The security-relevant tag plus the output prefix that precedes it. */
    function TotalTagSizeBytes(): (r: int)
      ensures r == tagSizeBytes as int + PrefixSizeBytes(variant)
    {
      match variant
      case NoPrefix => tagSizeBytes as int
      case Tink => tagSizeBytes as int + 5
      case Crunchy => tagSizeBytes as int + 5
      case Legacy => tagSizeBytes as int + 5
    }

    /** Java's `equals`: same key size, same total tag size, same variant. */
    predicate Equals(that: AesCmacParameters): (r: bool)
      ensures r <==> that == this
    {
      && that.keySizeBytes == keySizeBytes
      && that.TotalTagSizeBytes() == TotalTagSizeBytes()
      && that.variant == variant
    }

    /**
     * The values Java's `hashCode` mixes with `Objects.hash`; the hash is a function of these.
     * They are read off the fields `equals` compares: the variant, and the total tag size
     * without the variant's prefix.
     */
    function HashCode(): (r: (int32, Variant))
      ensures r.1 == variant
      ensures r.0 as int == TotalTagSizeBytes() - PrefixSizeBytes(variant)
    {
      (tagSizeBytes, variant)
    }
  }

  /** The variant and the total tag size give back the cryptographic tag size. */
  lemma TotalTagSizeDeterminesTagSize(p: AesCmacParameters, q: AesCmacParameters)
    requires p.variant == q.variant
    ensures p.TotalTagSizeBytes() == q.TotalTagSizeBytes() <==> p.tagSizeBytes == q.tagSizeBytes
  {
  }

  /** A key requires an id exactly when its tags are longer than the cryptographic tag. */
  lemma HasIdRequirementIffPrefixed(p: AesCmacParameters)
    ensures p.HasIdRequirement() <==> p.TotalTagSizeBytes() > p.tagSizeBytes as int
    ensures !p.HasIdRequirement() <==> p.variant == NoPrefix
  {
  }

  /** `equals` holds exactly when the stored fields agree. */
  lemma EqualsIsFieldEquality(p: AesCmacParameters, q: AesCmacParameters)
    ensures p.Equals(q) <==> p == q
  {
    if p.Equals(q) {
      TotalTagSizeDeterminesTagSize(p, q);
    }
  }

  /** `equals` is an equivalence relation. */
  lemma EqualsIsEquivalence()
    ensures forall p: AesCmacParameters :: p.Equals(p)
    ensures forall p: AesCmacParameters, q: AesCmacParameters :: p.Equals(q) <==> q.Equals(p)
    ensures forall p: AesCmacParameters, q: AesCmacParameters, o: AesCmacParameters ::
      p.Equals(q) && q.Equals(o) ==> p.Equals(o)
  {
  }

  /** `hashCode` is consistent with `equals`. */
  lemma HashCodeConsistent(p: AesCmacParameters, q: AesCmacParameters)
    requires p.Equals(q)
    ensures p.HashCode() == q.HashCode()
  {
    TotalTagSizeDeterminesTagSize(p, q);
  }

  /**
   * The builder. Its key and tag sizes start out unset and are stored only after their
   * check passes; its variant starts out as NO_PREFIX.
   */
  class Builder {
    var keySizeBytes: Option<int32>
    var tagSizeBytes: Option<int32>
    var variant: Variant

    /** Every size a builder holds has passed its setter's check. */
    ghost predicate Valid(): (r: bool)
      reads this
      ensures r && keySizeBytes.Some? && tagSizeBytes.Some? ==>
        AesCmacParameters(keySizeBytes.value, tagSizeBytes.value, variant).Valid()
    {
      && (keySizeBytes.Some? ==> ValidKeySize(keySizeBytes.value))
      && (tagSizeBytes.Some? ==> ValidTagSize(tagSizeBytes.value))
    }

    /** `AesCmacParameters.builder()`. */
    constructor ()
      ensures Valid()
      ensures keySizeBytes == None && tagSizeBytes == None && variant == NoPrefix
    {
      keySizeBytes := None;
      tagSizeBytes := None;
      variant := NoPrefix;
    }

    method SetKeySizeBytes(n: int32) returns (r: Outcome<Error>)
      requires Valid()
      modifies this
      ensures Valid()
      ensures r.Pass? <==> ValidKeySize(n)
      ensures r.Fail? ==> r.error == InvalidKeySize(n)
      ensures keySizeBytes == if r.Pass? then Some(n) else old(keySizeBytes)
      ensures tagSizeBytes == old(tagSizeBytes) && variant == old(variant)
    {
      if n != 16 && n != 32 {
        return Fail(InvalidKeySize(n));
      }
      keySizeBytes := Some(n);
      return Pass;
    }

    method SetTagSizeBytes(n: int32) returns (r: Outcome<Error>)
      requires Valid()
      modifies this
      ensures Valid()
      ensures r.Pass? <==> ValidTagSize(n)
      ensures r.Fail? ==> r.error == InvalidTagSize(n)
      ensures tagSizeBytes == if r.Pass? then Some(n) else old(tagSizeBytes)
      ensures keySizeBytes == old(keySizeBytes) && variant == old(variant)
    {
      if n < 10 || 16 < n {
        return Fail(InvalidTagSize(n));
      }
      tagSizeBytes := Some(n);
      return Pass;
    }

    method SetVariant(v: Variant)
      requires Valid()
      modifies this
      ensures Valid()
      ensures variant == v
      ensures keySizeBytes == old(keySizeBytes) && tagSizeBytes == old(tagSizeBytes)
    {
      variant := v;
    }

    /** Fails unless both sizes are set; otherwise returns exactly what the builder holds. */
    method Build() returns (r: Result<AesCmacParameters, Error>)
      requires Valid()
      ensures r.Success? <==> keySizeBytes.Some? && tagSizeBytes.Some?
      ensures r.Failure? ==> r.error == SizesNotSet
      ensures r.Success? ==> r.value.Valid()
      ensures r.Success? ==>
        && r.value.keySizeBytes == keySizeBytes.value
        && r.value.tagSizeBytes == tagSizeBytes.value
        && r.value.variant == variant
    {
      if keySizeBytes.None? || tagSizeBytes.None? {
        return Failure(SizesNotSet);
      }
      return Success(AesCmacParameters(keySizeBytes.value, tagSizeBytes.value, variant));
    }
  }

  /**
   * The usual chain `builder().setKeySizeBytes(k).setTagSizeBytes(t).setVariant(v).build()`:
   * it stops at the first setter that throws, and otherwise yields exactly (k, t, v).
   */
  method BuildFrom(k: int32, t: int32, v: Variant) returns (r: Result<AesCmacParameters, Error>)
    ensures r.Success? <==> ValidKeySize(k) && ValidTagSize(t)
    ensures r.Success? ==> r.value == AesCmacParameters(k, t, v) && r.value.Valid()
    ensures r.Failure? ==> r.error == if !ValidKeySize(k) then InvalidKeySize(k) else InvalidTagSize(t)
  {
    var b := new Builder();
    var o := b.SetKeySizeBytes(k);
    if o.Fail? {
      return Failure(o.error);
    }
    o := b.SetTagSizeBytes(t);
    if o.Fail? {
      return Failure(o.error);
    }
    b.SetVariant(v);
    r := b.Build();
  }
}
