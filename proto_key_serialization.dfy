/**
 * The provider-independent serialization of a key: a type URL, the serialized key proto,
 * its key material type, its output prefix type and, when the prefix needs one, an id.
 */
module Internal {
  import opened Wrappers
  import Utf8

  /** The `OutputPrefixType` proto enumeration: which prefix precedes the primitive's output. */
  datatype OutputPrefixType = Tink | Legacy | Raw | Crunchy

  /** The `KeyData.KeyMaterialType` proto enumeration; carried through, never interpreted. */
  datatype KeyMaterialType = UnknownKeymaterial | Symmetric | AsymmetricPrivate | AsymmetricPublic | Remote

  /** The exception `create` throws when the id does not match the output prefix type. */
  datatype Error = IdRequirementMismatch(outputPrefixType: OutputPrefixType, idRequirement: Option<int32>)

  /** Whether keys with this output prefix type need a numeric id to build their prefix. */
  predicate PrefixNeedsId(t: OutputPrefixType) {
    t != Raw
  }

  /** A serialization as `create` returns it; its fields are its accessors. */
  datatype ProtoKeySerialization = ProtoKeySerialization(
    typeUrl: string,
    value: seq<uint8>,
    keyMaterialType: KeyMaterialType,
    outputPrefixType: OutputPrefixType,
    idRequirement: Option<int32>)
  {
    /** An id is present exactly when the output prefix type needs one. */
    predicate Valid(): (r: bool)
      ensures r <==> (outputPrefixType.Raw? <==> idRequirement.None?)
    {
      idRequirement.Some? <==> PrefixNeedsId(outputPrefixType)
    }
  }

  /** `ProtoKeySerialization.create`: rejects an id on a RAW key and a missing id on any other. */
  function Create(
    typeUrl: string,
    value: seq<uint8>,
    keyMaterialType: KeyMaterialType,
    outputPrefixType: OutputPrefixType,
    idRequirement: Option<int32>): (r: Result<ProtoKeySerialization, Error>)
    ensures r.Success? <==> ((outputPrefixType == Raw) <==> idRequirement.None?)
    ensures r.Success? ==> r.value.Valid()
    ensures r.Success? ==>
      && r.value.typeUrl == typeUrl
      && r.value.value == value
      && r.value.keyMaterialType == keyMaterialType
      && r.value.outputPrefixType == outputPrefixType
      && r.value.idRequirement == idRequirement
    ensures r.Failure? ==> r.error == IdRequirementMismatch(outputPrefixType, idRequirement)
  {
    var mismatch := Failure(IdRequirementMismatch(outputPrefixType, idRequirement));
    if outputPrefixType == Raw && idRequirement.Some? then mismatch
    else if outputPrefixType != Raw && idRequirement.None? then mismatch
    else Success(ProtoKeySerialization(typeUrl, value, keyMaterialType, outputPrefixType, idRequirement))
  }

  /** Every valid serialization is what `create` returns for its own fields. */
  lemma CreateReturnsEveryValidSerialization(s: ProtoKeySerialization)
    ensures Create(s.typeUrl, s.value, s.keyMaterialType, s.outputPrefixType, s.idRequirement)
      == if s.Valid() then Success(s) else Failure(IdRequirementMismatch(s.outputPrefixType, s.idRequirement))
  {
  }

  /**
   * `getObjectIdentifier`. Without an id it is the UTF-8 encoding of the type URL. With an
   * id it is whatever the registry's rule `withId` makes of the type URL and the id.
   */
  function ObjectIdentifier(s: ProtoKeySerialization, withId: (string, int32) -> seq<uint8>): (r: seq<uint8>)
    ensures s.idRequirement.None? ==> r == Utf8.Encode(s.typeUrl)
    ensures s.idRequirement.None? ==> |s.typeUrl| <= |r| <= 4 * |s.typeUrl|
    ensures s.idRequirement.Some? ==> r == withId(s.typeUrl, s.idRequirement.value)
  {
    match s.idRequirement
    case None => Utf8.Encode(s.typeUrl)
    case Some(id) => withId(s.typeUrl, id)
  }

  /** Without an id, the object identifier tells type URLs apart. */
  lemma ObjectIdentifierIdentifiesTypeUrl(
    s: ProtoKeySerialization, t: ProtoKeySerialization, withId: (string, int32) -> seq<uint8>)
    requires s.idRequirement.None? && t.idRequirement.None?
    ensures ObjectIdentifier(s, withId) == ObjectIdentifier(t, withId) <==> s.typeUrl == t.typeUrl
  {
    Utf8.EncodeInjective(s.typeUrl, t.typeUrl);
  }

  /** An ASCII type URL without an id is identified by its character codes. */
  lemma ObjectIdentifierOfAsciiTypeUrl(s: ProtoKeySerialization, withId: (string, int32) -> seq<uint8>)
    requires s.idRequirement.None?
    requires forall i :: 0 <= i < |s.typeUrl| ==> s.typeUrl[i] as int < 0x80
    ensures |ObjectIdentifier(s, withId)| == |s.typeUrl|
    ensures forall i :: 0 <= i < |s.typeUrl| ==> ObjectIdentifier(s, withId)[i] == s.typeUrl[i] as int as uint8
  {
    Utf8.EncodeAscii(s.typeUrl);
  }

  /** `create` passes through a RAW key without an id, and its accessors give back the inputs. */
  lemma CreationAndValuesBasic(withId: (string, int32) -> seq<uint8>)
    ensures var r := Create("myTypeUrl", [10, 11, 12], Symmetric, Raw, None);
      && r.Success?
      && r.value.value == [10, 11, 12]
      && r.value.keyMaterialType == Symmetric
      && r.value.outputPrefixType == Raw
      && r.value.typeUrl == "myTypeUrl"
      && r.value.idRequirement.None?
      && ObjectIdentifier(r.value, withId) == [109, 121, 84, 121, 112, 101, 85, 114, 108]
  {
    var s := ProtoKeySerialization("myTypeUrl", [10, 11, 12], Symmetric, Raw, None);
    ObjectIdentifierOfAsciiTypeUrl(s, withId);
  }

  /** A TINK key with id 123 is accepted and keeps exactly that id. */
  lemma IdRequirementPresent()
    ensures var r := Create("myTypeUrl", [10, 11, 12], Symmetric, Tink, Some(123));
      r.Success? && r.value.outputPrefixType == Tink && r.value.idRequirement == Some(123)
  {
  }

  /** Each prefixed type is accepted with an id and rejected without; RAW the other way round. */
  lemma IdRequirementMustMatchOutputPrefixType(url: string, value: seq<uint8>, kmt: KeyMaterialType)
    ensures Create(url, value, kmt, Raw, None).Success?
    ensures Create(url, value, kmt, Tink, Some(123)).Success?
    ensures Create(url, value, kmt, Crunchy, Some(123)).Success?
    ensures Create(url, value, kmt, Legacy, Some(123)).Success?
    ensures Create(url, value, kmt, Raw, Some(123)).Failure?
    ensures Create(url, value, kmt, Tink, None).Failure?
    ensures Create(url, value, kmt, Crunchy, None).Failure?
    ensures Create(url, value, kmt, Legacy, None).Failure?
  {
  }
}
