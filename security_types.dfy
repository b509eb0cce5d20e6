/** The generic, plugin-independent types the builtin plugin converts from
    and to: octets, transform key ids, the 4-byte transformation kind, the
    property-bag `CryptoToken`, the submessage elements, the CDR shape of a
    key material, and the CDR (de)serializer itself, which is an external
    library and appears here only through its interface. */
module SecurityTypes {
  import opened SecurityErrors

  newtype uint8 = x: int | 0 <= x < 0x100

  newtype uint32 = x: int | 0 <= x < 0x1_0000_0000

  /** `[u8; 4]` */
  type Bytes4 = s: seq<uint8> | |s| == 4 witness [0, 0, 0, 0]

  /** `[u8; 8]` */
  type Bytes8 = s: seq<uint8> | |s| == 8 witness [0, 0, 0, 0, 0, 0, 0, 0]

  /** `CryptoTransformKind`: the 4-byte wire code of a transformation kind. */
  type CryptoTransformKind = Bytes4

  /** `CryptoTransformKeyId`, an integer in the source (it is initialised
      with the literal `0`). */
  type CryptoTransformKeyId = uint32

  /** A named string property of a `DataHolder`. */
  datatype Property = Property(name: string, value: string, propagate: bool)

  /** A named binary property of a `DataHolder`. */
  datatype BinaryProperty = BinaryProperty(name: string, value: seq<uint8>, propagate: bool)

  datatype DataHolder = DataHolder(
    classId: string,
    properties: seq<Property>,
    binaryProperties: seq<BinaryProperty>)

  datatype CryptoToken = CryptoToken(dataHolder: DataHolder)

  /** `CryptoTransformIdentifier` as it arrives on the wire: the kind is
      not yet validated. */
  datatype CryptoTransformIdentifier = CryptoTransformIdentifier(
    transformationKind: CryptoTransformKind,
    transformationKeyId: CryptoTransformKeyId)

  /** The `CryptoHeader` submessage element: an identifier followed by the
      opaque plugin-specific "extra" bytes. */
  datatype CryptoHeader = CryptoHeader(
    transformationId: CryptoTransformIdentifier,
    pluginCryptoHeaderExtra: seq<uint8>)

  /** The CDR shape of `KeyMaterial_AES_GCM_GMAC` (section 9.5.2.1.1 of
      DDS Security 1.1): the kind is an unchecked 4-byte code and the salt
      and keys are unchecked byte vectors. */
  datatype WireKeyMaterial = WireKeyMaterial(
    transformationKind: CryptoTransformKind,
    masterSalt: seq<uint8>,
    senderKeyId: CryptoTransformKeyId,
    masterSenderKey: seq<uint8>,
    receiverSpecificKeyId: CryptoTransformKeyId,
    masterReceiverSpecificKey: seq<uint8>)

  /** The big-endian CDR serializer (`to_bytes`) and deserializer
      (`CdrDeserializer`) for one key material and for a vector of them.
      `None` is a framing failure of the library. */
  datatype CdrCodec = CdrCodec(
    serialize: WireKeyMaterial -> Option<seq<uint8>>,
    deserialize: seq<uint8> -> Option<WireKeyMaterial>,
    serializeList: seq<WireKeyMaterial> -> Option<seq<uint8>>,
    deserializeList: seq<uint8> -> Option<seq<WireKeyMaterial>>)

  datatype Option<+T> = None | Some(value: T)

  /** What the model assumes of the external CDR library: whatever it
      serializes, it deserializes back to the same value. */
  ghost predicate Lossless(cdr: CdrCodec) {
    && (forall w :: cdr.serialize(w).Some? ==> cdr.deserialize(cdr.serialize(w).value) == Some(w))
    && (forall ws :: cdr.serializeList(ws).Some? ==> cdr.deserializeList(cdr.serializeList(ws).value) == Some(ws))
  }
}
