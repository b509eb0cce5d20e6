# Builtin AES-GCM/GMAC key material and wire elements (DDS Security)

A Dafny model of two pure layers of the builtin cryptographic plugin of
RustDDS, the plugin of section 9.5 of OMG DDS Security 1.1:

- the **typed key-material layer** (`key_material.rs`): the
  `KeyMaterial_AES_GCM_GMAC` record with a validated transformation kind and
  its keys held as `BuiltinKey`s, the `One`/`Two` key-material sequence with its accessors and
  the receiver-key rewrite, the cardinality rule for building a sequence from
  a list, the receiver-specific matching check `receiver_key_material_for`,
  and the conversions to and from the CDR shape, bytes, `CryptoToken`s and
  lists of either;
- the **wire-element validators** (`builtin_types.rs`): the closed 4-byte
  transformation-kind codec (section 9.5.2.1.1), the `CryptoToken` shape
  check and its encoder (section 9.5.2.1), the key material with raw byte
  vectors, the `CryptoTransformIdentifier` lift (section 9.5.2.2) and the
  `CryptoHeader` split of its 12-byte "extra" field into session id and IV
  suffix (section 9.5.2.3).

Both files are pure in the source (matches, `if` chains, `map`/`collect`
into `Result`), so the model is datatypes, functions and lemmas.

Files:

- `security_errors.dfy` — `SecurityErrors`: the error variants, `Result`,
  and `Outcome` (a result or a panic).
- `security_types.dfy` — `SecurityTypes`: octets, key ids, the 4-byte kind
  code, `CryptoToken`/`DataHolder`, the submessage elements, the CDR shape of
  a key material, and the CDR library as the parameter `CdrCodec` with the
  assumption `Lossless`.
- `collect.dfy` — `Collect`: `collect::<Result<Vec<_>,_>>()`, first failure
  wins.
- `builtin_key.dfy` — `BuiltinKeys`: the interface of `BuiltinKey` and
  `KeyLength`.
- `builtin_types.dfy` — `BuiltinTypes`: the wire-element validators.
- `key_material.dfy` — `KeyMaterials`: the typed key-material layer.

The model follows the code where it departs from DDS Security 1.1: the
token decoder does not check that the binary property is named
`dds.cryp.keymat` (section 9.5.2.1 requires that name; the check survives
only in commented-out code); no conversion bounds the salt to the 32 octets
of the IDL `sequence<octet, 32>` (section 9.5.2.1.1), and the raw-vector
decoder of `builtin_types.rs` bounds neither the salt nor the keys, whereas
the typed decoder from the CDR shape fixes both keys to the length the kind
requires (0, 16 or 32 octets) and the typed `CryptoToken` path leaves key
lengths to the `From` conversions it delegates to; and a
header "extra" field shorter than 4 octets panics instead of giving the
length error (see Findings).

The two source structs `Serializable_KeyMaterial_AES_GCM_GMAC`
(`key_material.rs`) and `Serialized_KeyMaterial_AES_GCM_GMAC`
(`builtin_types.rs`) have identical fields and are both handed to the same
CDR library, so both are the one datatype `WireKeyMaterial`. The two
`KeyMaterial_AES_GCM_GMAC` records stay apart: `KeyMaterials.KeyMaterial`
(keys are `BuiltinKey`s) and `BuiltinTypes.RawKeyMaterial` (keys are byte
vectors), each with its own decoder.

## Model

| member | source | states |
|---|---|---|
| `BuiltinTypes.KindFromWire` | src/security/cryptographic/builtin_types.rs:197-211 | accepts exactly the codes `[0,0,0,0]`..`[0,0,0,4]`, the last octet selecting NONE, AES128_GMAC, AES128_GCM, AES256_GMAC, AES256_GCM in that order; every other code is `InvalidTransformationKind` |
| `BuiltinTypes.KindToWire` | src/security/cryptographic/builtin_types.rs:212-222 | encoding a kind and decoding the code gives the kind back |
| `BuiltinTypes.KindWireRoundTrip` | src/security/cryptographic/builtin_types.rs:197-222 | decoding an accepted code and encoding the kind gives the code back |
| `BuiltinTypes.KindToWireInjective` | src/security/cryptographic/builtin_types.rs:212-222 | distinct kinds have distinct codes |
| `BuiltinTypes.RawKeyMaterialFromBytes` | src/security/cryptographic/builtin_types.rs:109-145 | a CDR failure is a deserialization error; otherwise it succeeds iff the kind decodes, and copies salt, ids and both key vectors unchanged with no length check |
| `BuiltinTypes.RawKeyMaterialToWire` | src/security/cryptographic/builtin_types.rs:146-166 | the encoded kind decodes to the record's kind; salt, both key ids and both key vectors are carried over unchanged |
| `BuiltinTypes.RawKeyMaterialToBytes` | src/security/cryptographic/builtin_types.rs:146-173 | fails, with a serialization error, exactly when the CDR library fails |
| `BuiltinTypes.RawKeyMaterialBytesRoundTrip` | src/security/cryptographic/builtin_types.rs:109-173 | with a lossless CDR library, every raw key material decodes back from its bytes |
| `BuiltinTypes.BuiltinCryptoTokenFromToken` | src/security/cryptographic/builtin_types.rs:25-50 | wrong class id gives the class-id error whatever the rest; with the right class id non-empty properties give the properties error; then a binary-property count other than 1 gives the binary-properties error; success only on the accepting shape, with the sole value's decode |
| `BuiltinTypes.WellShapedTokenDecodesValue` | src/security/cryptographic/builtin_types.rs:31-32 | on the accepting shape the result is exactly what decoding the sole binary property's value gives, error included |
| `BuiltinTypes.TokenDecodeIgnoresBinaryPropertyName` | src/security/cryptographic/builtin_types.rs:29-32 | renaming the sole binary property or changing its propagate flag never changes the decode |
| `BuiltinTypes.BuiltinCryptoTokenToToken` | src/security/cryptographic/builtin_types.rs:81-95 | always class id `DDS:Crypto:AES_GCM_GMAC`, no properties, one binary property `dds.cryp.keymat` with `propagate = true` holding the encoded key material; fails only when serialization fails |
| `BuiltinTypes.BuiltinCryptoTokenRoundTrip` | src/security/cryptographic/builtin_types.rs:25-95 | with a lossless CDR library, every encoded token takes the decoder's accepting arm and decodes to the same key material |
| `BuiltinTypes.TransformIdentifierFromWire` | src/security/cryptographic/builtin_types.rs:230-241 | succeeds iff the kind decodes, with the decoded kind and the key id passed through unchanged |
| `BuiltinTypes.HeaderFromWireAsWritten` | src/security/cryptographic/builtin_types.rs:250-276 | panics exactly when the extra field is shorter than 4 octets, whatever the kind; otherwise agrees with `HeaderFromWire` |
| `BuiltinTypes.HeaderFromWire` | src/security/cryptographic/builtin_types.rs:250-276 | succeeds iff the kind decodes and the extra field has 12 octets, splitting it into session id (octets 0..4) and IV suffix (4..12); an invalid kind is reported before any length error; any other length is the length error with that length |
| `BuiltinTypes.HeaderShortExtraPanics` | src/security/cryptographic/builtin_types.rs:257-260 | an empty extra field with a valid kind, and a 3-octet one with an invalid kind, panic as written where the corrected parse reports the length or the kind |
| `Collect.CollectResults` | src/security/cryptographic/cryptographic_builtin/key_material.rs:195-202 | succeeds iff every element converts, then with the converted elements in order; otherwise with the error of a first failing element |
| `Collect.CollectReportsFirstFailure` | src/security/cryptographic/cryptographic_builtin/key_material.rs:283-286 | the reported error is that of the first failing element |
| `BuiltinKeys.FromBytes` | src/security/cryptographic/cryptographic_builtin/key_material.rs:339-341 | a key is built iff the byte count equals the key length, and then reads back as those bytes; otherwise the key-length error |
| `BuiltinKeys.KeyLength` | src/security/cryptographic/cryptographic_builtin/key_material.rs:333 | 0 octets for NONE, 16 for the AES-128 kinds, 32 for the AES-256 kinds |
| `BuiltinKeys.FromBytesOfAsBytes` | src/security/cryptographic/cryptographic_builtin/key_material.rs:361-363 | a key rebuilt from its own bytes is the same key |
| `BuiltinKeys.AsBytes` | src/security/cryptographic/cryptographic_builtin/key_material.rs:361-363 | the bytes the key was built from (tied to `FromBytes` by its second ensures and by `FromBytesOfAsBytes`) |
| `BuiltinKeys.Zero` | src/security/cryptographic/cryptographic_builtin/key_material.rs:153-155 | 32 zero octets, an assumed value of code outside this model |
| `KeyMaterials.SeqToList` | src/security/cryptographic/cryptographic_builtin/key_material.rs:165-174 | the list has 1 element for `One` and 2 for `Two`, never 0 |
| `KeyMaterials.KeyMaterialOf` | src/security/cryptographic/cryptographic_builtin/key_material.rs:89-94 | the first element of the sequence's list |
| `KeyMaterials.PayloadKeyMaterialOf` | src/security/cryptographic/cryptographic_builtin/key_material.rs:96-101 | the last element of the list: the second of `Two`, the same as `key_material()` for `One` |
| `KeyMaterials.ModifyKeyMaterial` | src/security/cryptographic/cryptographic_builtin/key_material.rs:103-113 | keeps `One`/`Two`, applies the function to the first element and leaves the payload element alone |
| `KeyMaterials.AddMasterReceiverSpecificKey` | src/security/cryptographic/cryptographic_builtin/key_material.rs:115-136 | keeps `One`/`Two` and the payload element; the first element gets the given receiver id and key and keeps kind, salt, sender id and sender key |
| `KeyMaterials.SeqFromList` | src/security/cryptographic/cryptographic_builtin/key_material.rs:139-163 | `[a]` gives `One(a)`, `[a,b]` gives `Two(a,b)`, `[]` gives `One` of the default key material, 3 or more give the count error with that count |
| `KeyMaterials.DefaultKeyMaterialFields` | src/security/cryptographic/cryptographic_builtin/key_material.rs:148-157 | the default key material has kind NONE, empty salt, ids 0 and both keys `ZERO` |
| `KeyMaterials.SeqListRoundTrip` | src/security/cryptographic/cryptographic_builtin/key_material.rs:139-174 | every sequence comes back from its list |
| `KeyMaterials.ListSeqRoundTrip` | src/security/cryptographic/cryptographic_builtin/key_material.rs:139-174 | every list of 1 or 2 key materials comes back, in order, from its sequence |
| `KeyMaterials.AccessorsOfRebuiltSeq` | src/security/cryptographic/cryptographic_builtin/key_material.rs:89-101 | on a sequence built from a list of 1 or 2, `key_material()` is the first element and `payload_key_material()` the last |
| `KeyMaterials.ReceiverKeyMaterialFor` | src/security/cryptographic/cryptographic_builtin/key_material.rs:229-271 | `Ok` iff sender key id, kind, sender key and salt equal those of `common`, then with this key material's receiver id and key; otherwise the first mismatching field in the order sender key id, kind, sender key, salt |
| `KeyMaterials.ReceiverKeyMaterialIgnoresCommonReceiverFields` | src/security/cryptographic/cryptographic_builtin/key_material.rs:231-237 | `common`'s receiver id and key never change the result |
| `KeyMaterials.AddedReceiverKeyIsRecovered` | src/security/cryptographic/cryptographic_builtin/key_material.rs:229-271 | after `add_master_receiver_specific_key(id, key)` the new first element matches the old one and yields `(id, key)` |
| `KeyMaterials.KeyMaterialToWire` | src/security/cryptographic/cryptographic_builtin/key_material.rs:346-366 | the kind encoded, salt and ids copied, keys as their bytes |
| `KeyMaterials.KeyMaterialFromWire` | src/security/cryptographic/cryptographic_builtin/key_material.rs:318-344 | fails on an invalid kind, then on a sender key of the wrong length, then on a receiver key of the wrong length (each with required and actual length); otherwise copies salt and ids verbatim, and its keys have the kind's length |
| `KeyMaterials.KeyMaterialWireRoundTrip` | src/security/cryptographic/cryptographic_builtin/key_material.rs:318-366 | typed to CDR shape and back is the identity on key materials whose keys have their kind's length |
| `KeyMaterials.WireKeyMaterialRoundTrip` | src/security/cryptographic/cryptographic_builtin/key_material.rs:318-366 | CDR shape to typed and back is the identity on every accepted value |
| `KeyMaterials.DefaultKeyMaterialDoesNotDecodeBack` | src/security/cryptographic/cryptographic_builtin/key_material.rs:148-157 | the default key material, once written out, is rejected with a key-length error; the figures (0 required, 32 found) come from two assumed values of code outside this model, `BuiltinKey::ZERO` as 32 octets and the key length of NONE as 0 (see Left out) |
| `KeyMaterials.KeyMaterialFromBytes` | src/security/cryptographic/cryptographic_builtin/key_material.rs:33-49 | a CDR failure is a deserialization error; otherwise the result of the CDR-shape conversion |
| `KeyMaterials.KeyMaterialToBytes` | src/security/cryptographic/cryptographic_builtin/key_material.rs:50-62 | fails, with a serialization error, exactly when the CDR library fails |
| `KeyMaterials.KeyMaterialBytesRoundTrip` | src/security/cryptographic/cryptographic_builtin/key_material.rs:33-62 | with a lossless CDR library, a key material with correct key lengths decodes back from its bytes |
| `KeyMaterials.AesGcm256KeyMaterialRoundTrip` | src/security/cryptographic/cryptographic_builtin/key_material.rs:33-62 | the AES-256-GCM example key material comes back field for field from its bytes |
| `KeyMaterials.KeyMaterialFromToken` | src/security/cryptographic/cryptographic_builtin/key_material.rs:65-70 | same error precedence as the token shape check (class id, properties, binary-property count) and the same errors; on success the bridged key material |
| `KeyMaterials.KeyMaterialToToken` | src/security/cryptographic/cryptographic_builtin/key_material.rs:71-76 | a token of the fixed builtin shape holding the raw encoding; succeeds exactly when that encoding succeeds, and otherwise fails with a serialization error |
| `KeyMaterials.KeyMaterialTokenRoundTrip` | src/security/cryptographic/cryptographic_builtin/key_material.rs:65-76 | with a lossless CDR library and a bridge that keeps the key material, it decodes back from its token |
| `KeyMaterials.SeqFromConverted` | src/security/cryptographic/cryptographic_builtin/key_material.rs:195-204 | any failing element fails the whole result with the first failing element's error, whatever the length; only when all convert does the 0/1/2/3+ cardinality rule apply |
| `KeyMaterials.BadElementBeatsCount` | src/security/cryptographic/cryptographic_builtin/key_material.rs:195-204 | in a list of 3 or more with a bad element, the error is an element's error, at or before the bad one, not the count error |
| `KeyMaterials.SeqFromBytes` | src/security/cryptographic/cryptographic_builtin/key_material.rs:177-206 | a CDR failure is a deserialization error; otherwise each wire element converted, then the cardinality rule |
| `KeyMaterials.SeqToWireList` | src/security/cryptographic/cryptographic_builtin/key_material.rs:212-215 | one CDR shape per element of the sequence's list, in order |
| `KeyMaterials.SeqToBytes` | src/security/cryptographic/cryptographic_builtin/key_material.rs:208-224 | fails, with a serialization error, exactly when the CDR library fails |
| `KeyMaterials.SeqBytesRoundTrip` | src/security/cryptographic/cryptographic_builtin/key_material.rs:177-224 | with a lossless CDR library, a sequence whose elements have correct key lengths decodes back from its bytes |
| `KeyMaterials.SeqFromTokens` | src/security/cryptographic/cryptographic_builtin/key_material.rs:280-290 | any failing token fails the result; success only for at most 2 tokens that all convert; `[]` gives the default, one or two good tokens give `One`/`Two` in order; a failing list reports the error of its first failing token; three or more good tokens give `WrongKeyMaterialCount` with their number |
| `KeyMaterials.SeqToTokens` | src/security/cryptographic/cryptographic_builtin/key_material.rs:291-299 | one token per element, in order, each the token of that element; succeeds exactly when every element's token encoding succeeds, and otherwise fails with a serialization error |
| `KeyMaterials.SeqTokensRoundTrip` | src/security/cryptographic/cryptographic_builtin/key_material.rs:280-299 | with a lossless CDR library and a bridge that keeps every element, a sequence decodes back from its tokens |

## Findings

| source | as written | input that shows it | evidently intended | confidence | as-written member | corrected member |
|---|---|---|---|---|---|---|
| src/security/cryptographic/builtin_types.rs:257-260 | all three tuple components are evaluated before the match, and `&crypto_header_extra[..4]` panics when the extra field has fewer than 4 octets, even when the transform identifier is invalid | an extra field of 0 to 3 octets, e.g. `[]` with kind `[0,0,0,2]`, or `[1,2,3]` with kind `[0,0,0,9]` | the error "plugin_crypto_header_extra was of length N. Expected 12." for every length other than 12, with the kind error first | high; not executed | `BuiltinTypes.HeaderFromWireAsWritten` (witness `BuiltinTypes.HeaderShortExtraPanics`) | `BuiltinTypes.HeaderFromWire` |

## Left out

- The CDR serializer and deserializer (`to_bytes`, `CdrDeserializer`) are an external library: the model takes them as the parameter `CdrCodec`, and the round-trip lemmas assume `Lossless` (whatever it serializes it deserializes back). Byte layout, alignment and the length prefixes are not modelled.
- `builtin_key` is not part of this model. `BuiltinKey` is modelled as its bytes, `from_bytes` succeeds iff the byte count equals the length, `as_bytes` gives those bytes back.
- BuiltinKeys.KeyLength: total (0 octets for NONE, 16 for AES-128, 32 for AES-256), so the failure that the `?` at key_material.rs:333 would propagate does not occur in the model.
- `BuiltinKey::ZERO` is taken as 32 zero octets (an all-zero AES-256 key); only `DefaultKeyMaterialDoesNotDecodeBack` depends on its content.
- `CryptoTransformKeyId` is taken as a 32-bit integer (the source writes the literal `0` for it); the generic types module is not part of this model.
- The conversions between `BuiltinCryptoToken` and the key-material layer's record (`From` impls used at key_material.rs:68 and :74) are not in the source: they are the parameter `TokenBridge`, and the token round trips assume it keeps the key material.
- KeyMaterials.ReceiverKeyMaterialFor: the mismatch error names the field but not the expected and received values the source prints.
- Error messages and `format!` text: every error is a tagged variant with only its count, length or field.
- `BuiltinCryptoContent` and `BuiltinCryptoFooter` conversions are `todo!()` in the source: the datatypes are declared, no conversion is modelled.
- `Bytes`, `Clone` and the `propagate` flag beyond its constant value are not modelled; the authentication placeholder types have no behaviour and are left out.
