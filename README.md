# Tink key parameters and key serialization, modelled in Dafny

This project models two small value types from Tink's key-configuration layer.

- **AES-CMAC parameters** (module `Mac`). A key has a key size (16 or 32 bytes), a
  cryptographic tag size (10 to 16 bytes) and a variant (`TINK`, `CRUNCHY`, `LEGACY`,
  `NO_PREFIX`). The parameters are made by a mutable `Builder`. Each size setter checks its
  value before storing it; `setVariant` stores its argument unchecked. `build()` fails while a size is unset. The built object is an
  immutable value. It offers the total tag size (cryptographic tag plus a 5-byte prefix
  unless `NO_PREFIX`), `hasIdRequirement`, `equals` and `hashCode`.
- **Proto key serialization** (module `Internal`). This is the envelope that carries a
  serialized key: type URL, key bytes, key material type, output prefix type and an
  optional 32-bit id. `create` accepts the key exactly when an id is present for
  `TINK`, `CRUNCHY` and `LEGACY` and absent for `RAW`. The accessors return the
  inputs. Without an id, the object identifier is the UTF-8 encoding of the type URL.
- Module `Utf8` is the UTF-8 encoder used for that identifier. Its main lemma is that
  distinct strings have distinct encodings.
- Module `IdRequirementBridge` ties the two together. When a serialization uses `RAW`
  exactly for `NO_PREFIX` parameters, `create` accepts it exactly when an id is given
  precisely if the parameters have an id requirement.

The builder is a class whose setters change its fields. The built parameters and the
serialization are datatypes with pure functions and lemmas. Java's exceptions become
`Outcome` and `Result` values. Java `int` is the `int32` newtype. Key bytes are
`uint8` octets.

The source of `ProtoKeySerialization` itself is not part of this model. Its behaviour is
taken from the assertions of `ProtoKeySerializationTest.java`.

Two further points about the program:
- `Create` accepts an empty type URL; the tests never pass one, and no check for it is shown.
- Each `Error` constructor corresponds to one throw site. `AesCmacParameters.java` throws
  `InvalidAlgorithmParameterException` for a bad key size and `GeneralSecurityException`
  for a bad tag size and for unset sizes. Its unknown-variant branch throws
  `IllegalStateException`. That branch has no counterpart in the model (see "Left out").

## Model

| member | source | states |
|---|---|---|
| `Mac.Builder.constructor` | java_src/src/main/java/com/google/crypto/tink/mac/AesCmacParameters.java:56-61 | A fresh builder has no key size, no tag size and variant `NO_PREFIX` |
| `Mac.Builder.SetKeySizeBytes` | java_src/src/main/java/com/google/crypto/tink/mac/AesCmacParameters.java:64-73 | Succeeds iff the size is 16 or 32; fails with `InvalidKeySize(n)` otherwise; on failure the stored key size is unchanged; the other fields never change |
| `Mac.Builder.SetTagSizeBytes` | java_src/src/main/java/com/google/crypto/tink/mac/AesCmacParameters.java:76-83 | Succeeds iff 10 <= n <= 16; fails with `InvalidTagSize(n)` otherwise; on failure the stored tag size is unchanged; the other fields never change |
| `Mac.Builder.SetVariant` | java_src/src/main/java/com/google/crypto/tink/mac/AesCmacParameters.java:86-89 | Stores the variant and changes nothing else |
| `Mac.Builder.Build` | java_src/src/main/java/com/google/crypto/tink/mac/AesCmacParameters.java:91-96 | Fails with `SizesNotSet` iff a size is unset; otherwise returns exactly the stored key size, tag size and variant, and the result is valid |
| `Mac.BuildFrom` | java_src/src/main/java/com/google/crypto/tink/mac/AesCmacParameters.java:57-96 | The setter chain followed by `build()` succeeds iff the key size is in {16, 32} and the tag size is in [10, 16]; then it returns exactly those values; otherwise it fails with the error of the first setter that rejects its value |
| `Mac.AesCmacParameters.Valid` | java_src/src/main/java/com/google/crypto/tink/mac/AesCmacParameters.java:64-82 | The builder's two checks: key size 16 or 32 and tag size 10..16; a valid key is 128 or 256 bits and its total tag size lies in [10, 21] |
| `Mac.AesCmacParameters.TotalTagSizeBytes` | java_src/src/main/java/com/google/crypto/tink/mac/AesCmacParameters.java:131-145 | The total tag size is the cryptographic tag size plus the variant's prefix length: + 5 for `TINK`, `CRUNCHY`, `LEGACY`, + 0 for `NO_PREFIX` |
| `Mac.AesCmacParameters.HasIdRequirement` | java_src/src/main/java/com/google/crypto/tink/mac/AesCmacParameters.java:169-171 | A key requires an id exactly when its variant puts a prefix of non-zero length before its tags |
| `Mac.AesCmacParameters.Equals` | java_src/src/main/java/com/google/crypto/tink/mac/AesCmacParameters.java:153-161 | `equals` over key size, total tag size and variant holds exactly when the two parameter values are identical |
| `Mac.AesCmacParameters.HashCode` | java_src/src/main/java/com/google/crypto/tink/mac/AesCmacParameters.java:163-166 | The hashed values are the variant and the cryptographic tag size; both are read off what `equals` compares (variant, total tag size minus the prefix) |
| `Mac.Builder.Valid` | java_src/src/main/java/com/google/crypto/tink/mac/AesCmacParameters.java:57-89 | The builder invariant: every stored size passed its setter's check, so a builder with both sizes set holds valid parameters |
| `Mac.TotalTagSizeDeterminesTagSize` | java_src/src/main/java/com/google/crypto/tink/mac/AesCmacParameters.java:131-145 | For one variant, equal total tag sizes mean equal cryptographic tag sizes, and conversely |
| `Mac.HasIdRequirementIffPrefixed` | java_src/src/main/java/com/google/crypto/tink/mac/AesCmacParameters.java:169-171 | A key requires an id iff its variant is not `NO_PREFIX`, iff its total tag is longer than its cryptographic tag |
| `Mac.EqualsIsFieldEquality` | java_src/src/main/java/com/google/crypto/tink/mac/AesCmacParameters.java:153-161 | `equals` (key size, total tag size, variant) holds iff all three stored fields are equal |
| `Mac.EqualsIsEquivalence` | java_src/src/main/java/com/google/crypto/tink/mac/AesCmacParameters.java:153-161 | `equals` is reflexive, symmetric and transitive |
| `Mac.HashCodeConsistent` | java_src/src/main/java/com/google/crypto/tink/mac/AesCmacParameters.java:163-166 | Parameters that are `equals` have the same hashed values (tag size, variant) |
| `Internal.Create` | java_src/src/test/java/com/google/crypto/tink/internal/ProtoKeySerializationTest.java:73-101 | `create` succeeds iff (prefix type is `RAW`) <=> (no id); on success every accessor returns its input and the result is valid; on failure the error names the prefix type and the id |
| `Internal.ProtoKeySerialization.Valid` | java_src/src/test/java/com/google/crypto/tink/internal/ProtoKeySerializationTest.java:73-101 | The cross-field rule: the prefix type is `RAW` exactly when no id is present |
| `Internal.ObjectIdentifier` | java_src/src/test/java/com/google/crypto/tink/internal/ProtoKeySerializationTest.java:50-51 | Without an id: the UTF-8 encoding of the type URL, between 1 and 4 bytes per character; with an id: the registry's rule applied to the type URL and the id |
| `Utf8.Encode` | java_src/src/test/java/com/google/crypto/tink/internal/ProtoKeySerializationTest.java:51 | `String.getBytes(UTF_8)`: the encodings of the characters in order, 1 to 4 bytes each |
| `Internal.CreateReturnsEveryValidSerialization` | java_src/src/test/java/com/google/crypto/tink/internal/ProtoKeySerializationTest.java:36-49 | Applied to a serialization's own fields, `create` gives back that serialization iff it is valid, and fails otherwise |
| `Internal.CreationAndValuesBasic` | java_src/src/test/java/com/google/crypto/tink/internal/ProtoKeySerializationTest.java:36-52 | The basic test: a `RAW` key without an id is accepted, its accessors return the inputs, and its object identifier is the bytes of "myTypeUrl" |
| `Internal.IdRequirementPresent` | java_src/src/test/java/com/google/crypto/tink/internal/ProtoKeySerializationTest.java:55-65 | A `TINK` key with id 123 is accepted and its id is exactly 123 |
| `Internal.IdRequirementMustMatchOutputPrefixType` | java_src/src/test/java/com/google/crypto/tink/internal/ProtoKeySerializationTest.java:68-102 | The four accepted and the four rejected combinations of prefix type and id presence, for any type URL, value and key material type |
| `Internal.ObjectIdentifierIdentifiesTypeUrl` | java_src/src/test/java/com/google/crypto/tink/internal/ProtoKeySerializationTest.java:50-51 | Two serializations without an id have the same object identifier iff they have the same type URL |
| `Internal.ObjectIdentifierOfAsciiTypeUrl` | java_src/src/test/java/com/google/crypto/tink/internal/ProtoKeySerializationTest.java:50-51 | Without an id, an ASCII type URL's object identifier is one byte per character, the character's code |
| `Utf8.EncodeInjective` | java_src/src/test/java/com/google/crypto/tink/internal/ProtoKeySerializationTest.java:50-51 | UTF-8 encodings of two strings are equal iff the strings are equal |
| `Utf8.EncodeAscii` | java_src/src/test/java/com/google/crypto/tink/internal/ProtoKeySerializationTest.java:50-51 | An ASCII string encodes to its character codes, one byte each |
| `IdRequirementBridge.CreateAgreesWithHasIdRequirement` | java_src/src/main/java/com/google/crypto/tink/mac/AesCmacParameters.java:169-171 | When the prefix type is `RAW` exactly for `NO_PREFIX` parameters, `create` succeeds iff an id is present exactly when the parameters have an id requirement |

## Left out

- A `null` variant: Java's `setVariant(null)` is accepted. After it, `getTotalTagSizeBytes` reaches its "Unknown variant" throw and `hasIdRequirement` returns true. Dafny datatypes have no null, so the model's match has no such branch.
- The numeric value of `Objects.hash`: `HashCode` returns the hashed values, and any hash of them is consistent with `equals`.
- `toString` and the exception messages: errors are constructors that carry the rejected value.
- The object identifier of a serialization with an id: that source is not part of this model, so `Internal.ObjectIdentifier` takes the rule for that case as a parameter.
- Java strings that hold unpaired UTF-16 surrogates, which `getBytes(UTF_8)` replaces with `?`: a Dafny `char` is a Unicode scalar value and cannot be a surrogate.
- The `UNKNOWN_PREFIX` value of the output prefix proto enumeration: the tests never use it.
- The contents of `KeyMaterialType`: it is an enumeration that is passed through unchanged.
- The copying and aliasing of `ByteString` and `ByteArray`: key bytes are immutable sequences. Java's signed `byte` is read as an unsigned octet.
- Method chaining: Java setters return the builder. The model's setters return `Pass` or `Fail`, and `BuildFrom` models the chain.
- The AES-CMAC computation itself, and the gRPC test service (`SignatureServiceImpl.java`) and Go JWT registration (`jwt.go`): they contain no logic of these two types.
