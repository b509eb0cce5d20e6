/** The wire-element validators of the builtin AES-GCM/GMAC plugin
    (section 9.5.2 of DDS Security 1.1): the closed transformation-kind
    codec, the `CryptoToken` shape check, the key material with raw byte
    vectors, the transform identifier lift and the `CryptoHeader` split. */
module BuiltinTypes {
  import opened SecurityErrors
  import opened SecurityTypes

  const CryptoTokenClassId: string := "DDS:Crypto:AES_GCM_GMAC"
  const CryptoTokenKeymatName: string := "dds.cryp.keymat"

  // ---------------------------------------------------------------------
  // Transformation kind (section 9.5.2.1.1)
  // ---------------------------------------------------------------------

  /** `BuiltinCryptoTransformationKind` */
  datatype BuiltinCryptoTransformationKind =
    | KindNone
    | KindAes128Gmac
    | KindAes128Gcm
    | KindAes256Gmac
    | KindAes256Gcm

  /** The five kinds in the order of their wire codes `0..4`. */
  const KindsInWireOrder: seq<BuiltinCryptoTransformationKind> :=
    [KindNone, KindAes128Gmac, KindAes128Gcm, KindAes256Gmac, KindAes256Gcm]

  /** `try_from(CryptoTransformKind)`: accepts exactly the codes
      `[0,0,0,0]` to `[0,0,0,4]`, the last octet selecting the kind. */
  function KindFromWire(code: CryptoTransformKind): (r: Result<BuiltinCryptoTransformationKind>)
    ensures r.Ok? <==> code[..3] == [0, 0, 0] && code[3] < 5
    ensures r.Ok? ==> r.value == KindsInWireOrder[code[3]]
    ensures r.Err? ==> r.error == InvalidTransformationKind
  {
    if code == [0, 0, 0, 0] then Ok(KindNone)
    else if code == [0, 0, 0, 1] then Ok(KindAes128Gmac)
    else if code == [0, 0, 0, 2] then Ok(KindAes128Gcm)
    else if code == [0, 0, 0, 3] then Ok(KindAes256Gmac)
    else if code == [0, 0, 0, 4] then Ok(KindAes256Gcm)
    else Err(InvalidTransformationKind)
  }

  /** `From<BuiltinCryptoTransformationKind> for CryptoTransformKind` */
  function KindToWire(kind: BuiltinCryptoTransformationKind): (code: CryptoTransformKind)
    ensures KindFromWire(code) == Ok(kind)
  {
    match kind
    case KindNone => [0, 0, 0, 0]
    case KindAes128Gmac => [0, 0, 0, 1]
    case KindAes128Gcm => [0, 0, 0, 2]
    case KindAes256Gmac => [0, 0, 0, 3]
    case KindAes256Gcm => [0, 0, 0, 4]
  }

  /** Decoding then encoding gives back every accepted code. */
  lemma KindWireRoundTrip(code: CryptoTransformKind)
    requires KindFromWire(code).Ok?
    ensures KindToWire(KindFromWire(code).value) == code
  {
    assert code == code[..3] + [code[3]];
  }

  /** Distinct kinds have distinct codes, so the codec is a bijection
      between the five kinds and the five accepted codes. */
  lemma KindToWireInjective(k1: BuiltinCryptoTransformationKind, k2: BuiltinCryptoTransformationKind)
    requires KindToWire(k1) == KindToWire(k2)
    ensures k1 == k2
  {
    assert Ok(k1) == KindFromWire(KindToWire(k1)) == KindFromWire(KindToWire(k2)) == Ok(k2);
  }

  // ---------------------------------------------------------------------
  // Key material with raw key vectors (section 9.5.2.1.1)
  // ---------------------------------------------------------------------

  /** The `KeyMaterial_AES_GCM_GMAC` of this file: the kind is validated,
      the salt and both keys are plain byte vectors. */
  datatype RawKeyMaterial = RawKeyMaterial(
    transformationKind: BuiltinCryptoTransformationKind,
    masterSalt: seq<uint8>,
    senderKeyId: CryptoTransformKeyId,
    masterSenderKey: seq<uint8>,
    receiverSpecificKeyId: CryptoTransformKeyId,
    masterReceiverSpecificKey: seq<uint8>)

  /** `TryFrom<Bytes> for KeyMaterial_AES_GCM_GMAC`: CDR-decode, then
      validate the kind and nothing else. */
  function RawKeyMaterialFromBytes(cdr: CdrCodec, bytes: seq<uint8>): (r: Result<RawKeyMaterial>)
    ensures cdr.deserialize(bytes).None? ==> r == Err(DeserializationError)
    ensures cdr.deserialize(bytes).Some? ==>
      var w := cdr.deserialize(bytes).value;
      && (r.Ok? <==> KindFromWire(w.transformationKind).Ok?)
      && (r.Err? ==> r.error == InvalidTransformationKind)
      && (r.Ok? ==>
            && KindFromWire(w.transformationKind) == Ok(r.value.transformationKind)
            && r.value.masterSalt == w.masterSalt
            && r.value.senderKeyId == w.senderKeyId
            && r.value.masterSenderKey == w.masterSenderKey
            && r.value.receiverSpecificKeyId == w.receiverSpecificKeyId
            && r.value.masterReceiverSpecificKey == w.masterReceiverSpecificKey)
  {
    match cdr.deserialize(bytes)
    case None => Err(DeserializationError)
    case Some(w) =>
      var kind :- KindFromWire(w.transformationKind);
      Ok(RawKeyMaterial(kind, w.masterSalt, w.senderKeyId, w.masterSenderKey,
                        w.receiverSpecificKeyId, w.masterReceiverSpecificKey))
  }

  /** The CDR shape of a raw key material: the kind encoded, everything
      else carried over unchanged. */
  function RawKeyMaterialToWire(km: RawKeyMaterial): (w: WireKeyMaterial)
    ensures KindFromWire(w.transformationKind) == Ok(km.transformationKind)
    ensures w.masterSalt == km.masterSalt
    ensures w.senderKeyId == km.senderKeyId && w.receiverSpecificKeyId == km.receiverSpecificKeyId
    ensures w.masterSenderKey == km.masterSenderKey
    ensures w.masterReceiverSpecificKey == km.masterReceiverSpecificKey
  {
    WireKeyMaterial(KindToWire(km.transformationKind), km.masterSalt, km.senderKeyId,
                    km.masterSenderKey, km.receiverSpecificKeyId, km.masterReceiverSpecificKey)
  }

  /** `TryFrom<KeyMaterial_AES_GCM_GMAC> for Bytes` */
  function RawKeyMaterialToBytes(cdr: CdrCodec, km: RawKeyMaterial): (r: Result<seq<uint8>>)
    ensures r.Ok? <==> cdr.serialize(RawKeyMaterialToWire(km)).Some?
    ensures r.Err? ==> r.error == SerializationError
  {
    match cdr.serialize(RawKeyMaterialToWire(km))
    case None => Err(SerializationError)
    case Some(bytes) => Ok(bytes)
  }

  /** Whatever the raw key material, encoding it to bytes and decoding
      those bytes gives it back (given a lossless CDR library). */
  lemma RawKeyMaterialBytesRoundTrip(cdr: CdrCodec, km: RawKeyMaterial)
    requires Lossless(cdr)
    requires RawKeyMaterialToBytes(cdr, km).Ok?
    ensures RawKeyMaterialFromBytes(cdr, RawKeyMaterialToBytes(cdr, km).value) == Ok(km)
  {
    var w := RawKeyMaterialToWire(km);
    assert cdr.deserialize(cdr.serialize(w).value) == Some(w);
  }

  // ---------------------------------------------------------------------
  // CryptoToken adapter (section 9.5.2.1)
  // ---------------------------------------------------------------------

  /** `BuiltinCryptoToken` */
  datatype BuiltinCryptoToken = BuiltinCryptoToken(keyMaterial: RawKeyMaterial)

  /** `TryFrom<CryptoToken> for BuiltinCryptoToken`: the match on
      `(class_id, properties, binary_properties)`; its arms are tried in
      order, so a wrong class id wins over everything, then non-empty
      properties, then a binary-property count other than one. The name of
      the sole binary property is not inspected. */
  function BuiltinCryptoTokenFromToken(cdr: CdrCodec, token: CryptoToken): (r: Result<BuiltinCryptoToken>)
    ensures token.dataHolder.classId != CryptoTokenClassId ==> r == Err(WrongClassId)
    ensures token.dataHolder.classId == CryptoTokenClassId && token.dataHolder.properties != [] ==>
      r == Err(UnexpectedProperties)
    ensures token.dataHolder.classId == CryptoTokenClassId && token.dataHolder.properties == []
            && |token.dataHolder.binaryProperties| != 1 ==>
      r == Err(WrongBinaryProperties)
    ensures r.Ok? ==>
      && token.dataHolder.classId == CryptoTokenClassId
      && token.dataHolder.properties == []
      && |token.dataHolder.binaryProperties| == 1
      && RawKeyMaterialFromBytes(cdr, token.dataHolder.binaryProperties[0].value) == Ok(r.value.keyMaterial)
  {
    var dh := token.dataHolder;
    if dh.classId == CryptoTokenClassId && dh.properties == [] && |dh.binaryProperties| == 1 then
      var km :- RawKeyMaterialFromBytes(cdr, dh.binaryProperties[0].value);
      Ok(BuiltinCryptoToken(km))
    else if dh.classId == CryptoTokenClassId && dh.properties == [] then
      Err(WrongBinaryProperties)
    else if dh.classId == CryptoTokenClassId then
      Err(UnexpectedProperties)
    else
      Err(WrongClassId)
  }

  /** A well-shaped token decodes to exactly what its sole binary
      property's value decodes to. */
  lemma WellShapedTokenDecodesValue(cdr: CdrCodec, token: CryptoToken)
    requires token.dataHolder.classId == CryptoTokenClassId
    requires token.dataHolder.properties == []
    requires |token.dataHolder.binaryProperties| == 1
    ensures
      var kr := RawKeyMaterialFromBytes(cdr, token.dataHolder.binaryProperties[0].value);
      BuiltinCryptoTokenFromToken(cdr, token) ==
        if kr.Ok? then Ok(BuiltinCryptoToken(kr.value)) else Err(kr.error)
  {
  }

  /** Renaming the sole binary property, or changing its `propagate` flag,
      never changes what the token decodes to. */
  lemma TokenDecodeIgnoresBinaryPropertyName(cdr: CdrCodec, token: CryptoToken, name: string, propagate: bool)
    requires |token.dataHolder.binaryProperties| == 1
    ensures
      var bp := token.dataHolder.binaryProperties[0];
      var renamed := CryptoToken(token.dataHolder.(binaryProperties := [BinaryProperty(name, bp.value, propagate)]));
      BuiltinCryptoTokenFromToken(cdr, renamed) == BuiltinCryptoTokenFromToken(cdr, token)
  {
  }

  /** `TryFrom<BuiltinCryptoToken> for CryptoToken`: always the fixed class
      id, no properties and one propagated binary property named
      `dds.cryp.keymat` holding the CDR-encoded key material; it fails only
      when the key material cannot be serialized. */
  function BuiltinCryptoTokenToToken(cdr: CdrCodec, bt: BuiltinCryptoToken): (r: Result<CryptoToken>)
    ensures r.Ok? <==> RawKeyMaterialToBytes(cdr, bt.keyMaterial).Ok?
    ensures r.Err? ==> r.error == SerializationError
    ensures r.Ok? ==>
      && r.value.dataHolder.classId == CryptoTokenClassId
      && r.value.dataHolder.properties == []
      && |r.value.dataHolder.binaryProperties| == 1
      && r.value.dataHolder.binaryProperties[0].name == CryptoTokenKeymatName
      && r.value.dataHolder.binaryProperties[0].propagate
      && r.value.dataHolder.binaryProperties[0].value == RawKeyMaterialToBytes(cdr, bt.keyMaterial).value
  {
    var value :- RawKeyMaterialToBytes(cdr, bt.keyMaterial);
    Ok(CryptoToken(DataHolder(CryptoTokenClassId, [], [BinaryProperty(CryptoTokenKeymatName, value, true)])))
  }

  /** Every token the encoder produces takes the accepting arm of the
      decoder, and decodes back to the same key material. */
  lemma BuiltinCryptoTokenRoundTrip(cdr: CdrCodec, bt: BuiltinCryptoToken)
    requires Lossless(cdr)
    requires BuiltinCryptoTokenToToken(cdr, bt).Ok?
    ensures BuiltinCryptoTokenFromToken(cdr, BuiltinCryptoTokenToToken(cdr, bt).value) == Ok(bt)
  {
    RawKeyMaterialBytesRoundTrip(cdr, bt.keyMaterial);
  }

  // ---------------------------------------------------------------------
  // CryptoTransformIdentifier (section 9.5.2.2)
  // ---------------------------------------------------------------------

  datatype BuiltinCryptoTransformIdentifier = BuiltinCryptoTransformIdentifier(
    transformationKind: BuiltinCryptoTransformationKind,
    transformationKeyId: CryptoTransformKeyId)

  /** `TryFrom<CryptoTransformIdentifier>`: succeeds iff the kind decodes;
      the key id passes through unchanged. */
  function TransformIdentifierFromWire(id: CryptoTransformIdentifier): (r: Result<BuiltinCryptoTransformIdentifier>)
    ensures r.Ok? <==> KindFromWire(id.transformationKind).Ok?
    ensures r.Err? ==> r.error == InvalidTransformationKind
    ensures r.Ok? ==>
      && KindFromWire(id.transformationKind) == Ok(r.value.transformationKind)
      && r.value.transformationKeyId == id.transformationKeyId
  {
    match KindFromWire(id.transformationKind)
    case Err(e) => Err(e)
    case Ok(kind) => Ok(BuiltinCryptoTransformIdentifier(kind, id.transformationKeyId))
  }

  // ---------------------------------------------------------------------
  // CryptoHeader (section 9.5.2.3)
  // ---------------------------------------------------------------------

  datatype BuiltinCryptoHeader = BuiltinCryptoHeader(
    transformIdentifier: BuiltinCryptoTransformIdentifier,
    sessionId: Bytes4,
    initializationVectorSuffix: Bytes8)

  /** `TryFrom<CryptoHeader> for BuiltinCryptoHeader` as written: the
      three components of the matched tuple are all evaluated first, and
      the slice `extra[..4]` panics when the extra field is shorter than
      4 bytes, before the transform identifier's error can be returned. */
  function HeaderFromWireAsWritten(header: CryptoHeader): (r: Outcome<BuiltinCryptoHeader>)
    ensures r.Panics? <==> |header.pluginCryptoHeaderExtra| < 4
    ensures |header.pluginCryptoHeaderExtra| >= 4 ==> r == Returns(HeaderFromWire(header))
  {
    var extra := header.pluginCryptoHeaderExtra;
    if |extra| < 4 then
      Panics
    else
      var id := TransformIdentifierFromWire(header.transformationId);
      // converting the 4-byte slice `extra[..4]` to `[u8; 4]` cannot fail
      var sessionId: Bytes4 := extra[..4];
      var ivSuffix: Option<Bytes8> := if |extra[4..]| == 8 then Some(extra[4..]) else None;
      match (id, ivSuffix)
      case (Err(e), _) => Returns(Err(e))
      case (Ok(tid), Some(iv)) => Returns(Ok(BuiltinCryptoHeader(tid, sessionId, iv)))
      case (Ok(_), None) => Returns(Err(MalformedHeaderExtra(|extra|)))
  }

  /** The header parse as the source's error message intends it, without
      panicking on malformed input: an invalid kind is reported first, then any extra field
      whose length is not 12, short ones included; a 12-byte field splits
      into a 4-byte session id and an 8-byte IV suffix. */
  function HeaderFromWire(header: CryptoHeader): (r: Result<BuiltinCryptoHeader>)
    ensures r.Ok? <==> KindFromWire(header.transformationId.transformationKind).Ok?
                       && |header.pluginCryptoHeaderExtra| == 12
    ensures TransformIdentifierFromWire(header.transformationId).Err? ==> r == Err(InvalidTransformationKind)
    ensures TransformIdentifierFromWire(header.transformationId).Ok? && |header.pluginCryptoHeaderExtra| != 12 ==>
      r == Err(MalformedHeaderExtra(|header.pluginCryptoHeaderExtra|))
    ensures r.Ok? ==>
      && r.value.transformIdentifier == TransformIdentifierFromWire(header.transformationId).value
      && r.value.sessionId + r.value.initializationVectorSuffix == header.pluginCryptoHeaderExtra
  {
    var extra := header.pluginCryptoHeaderExtra;
    var tid :- TransformIdentifierFromWire(header.transformationId);
    if |extra| != 12 then
      Err(MalformedHeaderExtra(|extra|))
    else
      Ok(BuiltinCryptoHeader(tid, extra[..4], extra[4..]))
  }

  /** The input that shows the discrepancy: a valid identifier and an
      empty extra field make the source panic, where a malformed-length
      error is intended; with an invalid kind it panics as well instead of
      reporting the kind. */
  lemma HeaderShortExtraPanics(keyId: CryptoTransformKeyId)
    ensures HeaderFromWireAsWritten(CryptoHeader(CryptoTransformIdentifier([0, 0, 0, 2], keyId), [])).Panics?
    ensures HeaderFromWire(CryptoHeader(CryptoTransformIdentifier([0, 0, 0, 2], keyId), [])) == Err(MalformedHeaderExtra(0))
    ensures HeaderFromWireAsWritten(CryptoHeader(CryptoTransformIdentifier([0, 0, 0, 9], keyId), [1, 2, 3])).Panics?
    ensures HeaderFromWire(CryptoHeader(CryptoTransformIdentifier([0, 0, 0, 9], keyId), [1, 2, 3])) == Err(InvalidTransformationKind)
  {
  }

  // ---------------------------------------------------------------------
  // CryptoContent and CryptoFooter (sections 9.5.2.4, 9.5.2.5)
  // ---------------------------------------------------------------------

  /** `BuiltinCryptoContent`; its conversion is not implemented in the source. */
  datatype BuiltinCryptoContent = BuiltinCryptoContent(cryptoContent: seq<uint8>)

  /** `ReceiverSpecificMAC`: a key id paired with a 16-byte MAC. */
  datatype ReceiverSpecificMac = ReceiverSpecificMac(
    receiverMacKeyId: CryptoTransformKeyId,
    receiverMac: Mac16)

  /** `BuiltinCryptoFooter`; its conversion is not implemented in the source. */
  datatype BuiltinCryptoFooter = BuiltinCryptoFooter(
    commonMac: Mac16,
    receiverSpecificMacs: seq<ReceiverSpecificMac>)

  /** `[u8; 16]` */
  type Mac16 = s: seq<uint8> | |s| == 16 witness seq(16, _ => 0)
}
