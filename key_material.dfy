/** The typed key-material layer of the builtin plugin: the
    `KeyMaterial_AES_GCM_GMAC` record with validated kind and bounded keys,
    the one-or-two element sequence of key materials, the receiver-specific
    matching check, and the conversions from and to the CDR shape, bytes and
    `CryptoToken`s. */
module KeyMaterials {
  import opened SecurityErrors
  import opened SecurityTypes
  import opened Collect
  import opened BuiltinTypes
  import opened BuiltinKeys

  /** `KeyMaterial_AES_GCM_GMAC` of the key-material layer. */
  datatype KeyMaterial = KeyMaterial(
    transformationKind: BuiltinCryptoTransformationKind,
    masterSalt: seq<uint8>,
    senderKeyId: CryptoTransformKeyId,
    masterSenderKey: BuiltinKey,
    receiverSpecificKeyId: CryptoTransformKeyId,
    masterReceiverSpecificKey: BuiltinKey)

  /** Both keys have the length the kind requires: what every key
      material decoded from the wire satisfies. */
  predicate HasKindKeyLengths(km: KeyMaterial) {
    && |AsBytes(km.masterSenderKey)| == KeyLength(km.transformationKind)
    && |AsBytes(km.masterReceiverSpecificKey)| == KeyLength(km.transformationKind)
  }

  // ---------------------------------------------------------------------
  // The sequence of one or two key materials
  // ---------------------------------------------------------------------

  /** `KeyMaterial_AES_GCM_GMAC_seq`: one key material protecting both
      submessage and payload, or a submessage and a payload key material. */
  datatype KeyMaterialSeq =
    | One(KeyMaterial)
    | Two(KeyMaterial, KeyMaterial)

  /** `From<KeyMaterial_AES_GCM_GMAC_seq> for Vec<_>`: never empty, never
      more than two elements, in order. */
  function SeqToList(s: KeyMaterialSeq): (v: seq<KeyMaterial>)
    ensures 1 <= |v| <= 2
    ensures |v| == 1 <==> s.One?
  {
    match s
    case One(km) => [km]
    case Two(km, payload) => [km, payload]
  }

  /** `key_material()`: the first element. */
  function KeyMaterialOf(s: KeyMaterialSeq): (km: KeyMaterial)
    ensures km == SeqToList(s)[0]
  {
    match s
    case One(km) => km
    case Two(km, _) => km
  }

  /** `payload_key_material()`: the second element of `Two`, the only
      element of `One`. */
  function PayloadKeyMaterialOf(s: KeyMaterialSeq): (km: KeyMaterial)
    ensures km == SeqToList(s)[|SeqToList(s)| - 1]
    ensures s.One? ==> km == KeyMaterialOf(s)
  {
    match s
    case One(km) => km
    case Two(_, payload) => payload
  }

  /** `modify_key_material(f)`: applies `f` to the first element only. */
  function ModifyKeyMaterial(s: KeyMaterialSeq, f: KeyMaterial -> KeyMaterial): (r: KeyMaterialSeq)
    ensures r.One? <==> s.One?
    ensures KeyMaterialOf(r) == f(KeyMaterialOf(s))
    ensures s.Two? ==> PayloadKeyMaterialOf(r) == PayloadKeyMaterialOf(s)
  {
    match s
    case One(km) => One(f(km))
    case Two(km, payload) => Two(f(km), payload)
  }

  /** `add_master_receiver_specific_key(id, key)`: the first element gets
      the given receiver-specific id and key and keeps its kind, salt,
      sender id and sender key; a payload element is left untouched. */
  function AddMasterReceiverSpecificKey(
    s: KeyMaterialSeq, receiverSpecificKeyId: CryptoTransformKeyId, masterReceiverSpecificKey: BuiltinKey)
    : (r: KeyMaterialSeq)
    ensures r.One? <==> s.One?
    ensures s.Two? ==> PayloadKeyMaterialOf(r) == PayloadKeyMaterialOf(s)
    ensures
      var before, after := KeyMaterialOf(s), KeyMaterialOf(r);
      && after.transformationKind == before.transformationKind
      && after.masterSalt == before.masterSalt
      && after.senderKeyId == before.senderKeyId
      && after.masterSenderKey == before.masterSenderKey
      && after.receiverSpecificKeyId == receiverSpecificKeyId
      && after.masterReceiverSpecificKey == masterReceiverSpecificKey
  {
    ModifyKeyMaterial(s, (km: KeyMaterial) =>
      KeyMaterial(km.transformationKind, km.masterSalt, km.senderKeyId, km.masterSenderKey,
                  receiverSpecificKeyId, masterReceiverSpecificKey))
  }

  /** The key material an empty wire list stands for: kind NONE, empty
      salt, zero ids and both keys `ZERO`. */
  const DefaultKeyMaterial: KeyMaterial :=
    KeyMaterial(KindNone, [], 0, Zero, 0, Zero)

  /** `TryFrom<Vec<KeyMaterial_AES_GCM_GMAC>>`: one element gives `One`,
      two give `Two` in order, none gives `One` of the default key material,
      and three or more are an error carrying the observed count. */
  function SeqFromList(v: seq<KeyMaterial>): (r: Result<KeyMaterialSeq>)
    ensures r.Ok? <==> |v| <= 2
    ensures |v| == 0 ==> r == Ok(One(DefaultKeyMaterial))
    ensures |v| == 1 ==> r == Ok(One(v[0]))
    ensures |v| == 2 ==> r == Ok(Two(v[0], v[1]))
    ensures |v| >= 3 ==> r == Err(WrongKeyMaterialCount(|v|))
  {
    if |v| == 1 then Ok(One(v[0]))
    else if |v| == 2 then Ok(Two(v[0], v[1]))
    else if |v| == 0 then Ok(One(DefaultKeyMaterial))
    else Err(WrongKeyMaterialCount(|v|))
  }

  /** The default key material has the documented fields. */
  lemma DefaultKeyMaterialFields()
    ensures SeqFromList([]) == Ok(One(DefaultKeyMaterial))
    ensures DefaultKeyMaterial.transformationKind == KindNone
    ensures DefaultKeyMaterial.masterSalt == []
    ensures DefaultKeyMaterial.senderKeyId == 0 && DefaultKeyMaterial.receiverSpecificKeyId == 0
    ensures DefaultKeyMaterial.masterSenderKey == Zero && DefaultKeyMaterial.masterReceiverSpecificKey == Zero
  {
  }

  /** Every sequence survives the trip to a list and back. */
  lemma SeqListRoundTrip(s: KeyMaterialSeq)
    ensures SeqFromList(SeqToList(s)) == Ok(s)
  {
    match s
    case One(km) =>
    case Two(km, payload) =>
  }

  /** Every list of one or two key materials survives the trip to a
      sequence and back, in order. */
  lemma ListSeqRoundTrip(v: seq<KeyMaterial>)
    requires 1 <= |v| <= 2
    ensures SeqFromList(v).Ok? && SeqToList(SeqFromList(v).value) == v
  {
    if |v| == 1 {
      assert SeqToList(One(v[0])) == [v[0]];
    } else {
      assert SeqToList(Two(v[0], v[1])) == [v[0], v[1]];
    }
  }

  /** `key_material()` and `payload_key_material()` select the elements
      of the list the sequence stands for, so a rebuilt sequence answers
      both the same way. */
  lemma AccessorsOfRebuiltSeq(v: seq<KeyMaterial>)
    requires 1 <= |v| <= 2
    ensures KeyMaterialOf(SeqFromList(v).value) == v[0]
    ensures PayloadKeyMaterialOf(SeqFromList(v).value) == v[|v| - 1]
  {
    ListSeqRoundTrip(v);
  }

  // ---------------------------------------------------------------------
  // Receiver-specific key material
  // ---------------------------------------------------------------------

  /** `ReceiverKeyMaterial` */
  datatype ReceiverKeyMaterial = ReceiverKeyMaterial(
    receiverSpecificKeyId: CryptoTransformKeyId,
    masterReceiverSpecificKey: BuiltinKey)

  /** The four fields `receiver_key_material_for` requires to agree. */
  predicate SameCommonFields(km: KeyMaterial, common: KeyMaterial) {
    && km.senderKeyId == common.senderKeyId
    && km.transformationKind == common.transformationKind
    && km.masterSenderKey == common.masterSenderKey
    && km.masterSalt == common.masterSalt
  }

  /** `receiver_key_material_for(common)`: succeeds exactly when sender
      key id, kind, sender key and salt agree with `common`, and then gives
      this key material's receiver-specific id and key; otherwise it names
      the first disagreeing field in the order sender key id, kind, sender
      key, salt. */
  function ReceiverKeyMaterialFor(km: KeyMaterial, common: KeyMaterial): (r: Result<ReceiverKeyMaterial>)
    ensures r.Ok? <==> SameCommonFields(km, common)
    ensures r.Ok? ==> r.value == ReceiverKeyMaterial(km.receiverSpecificKeyId, km.masterReceiverSpecificKey)
    ensures km.senderKeyId != common.senderKeyId ==> r == Err(KeyMaterialMismatch(SenderKeyId))
    ensures km.senderKeyId == common.senderKeyId && km.transformationKind != common.transformationKind ==>
      r == Err(KeyMaterialMismatch(TransformationKind))
    ensures km.senderKeyId == common.senderKeyId && km.transformationKind == common.transformationKind
            && km.masterSenderKey != common.masterSenderKey ==>
      r == Err(KeyMaterialMismatch(MasterSenderKey))
    ensures km.senderKeyId == common.senderKeyId && km.transformationKind == common.transformationKind
            && km.masterSenderKey == common.masterSenderKey && km.masterSalt != common.masterSalt ==>
      r == Err(KeyMaterialMismatch(MasterSalt))
  {
    if km.senderKeyId != common.senderKeyId then
      Err(KeyMaterialMismatch(SenderKeyId))
    else if km.transformationKind != common.transformationKind then
      Err(KeyMaterialMismatch(TransformationKind))
    else if km.masterSenderKey != common.masterSenderKey then
      Err(KeyMaterialMismatch(MasterSenderKey))
    else if km.masterSalt != common.masterSalt then
      Err(KeyMaterialMismatch(MasterSalt))
    else
      Ok(ReceiverKeyMaterial(km.receiverSpecificKeyId, km.masterReceiverSpecificKey))
  }

  /** The receiver-specific fields of `common` play no part in the check. */
  lemma ReceiverKeyMaterialIgnoresCommonReceiverFields(
    km: KeyMaterial, common: KeyMaterial, id: CryptoTransformKeyId, key: BuiltinKey)
    ensures ReceiverKeyMaterialFor(km, common.(receiverSpecificKeyId := id, masterReceiverSpecificKey := key))
         == ReceiverKeyMaterialFor(km, common)
  {
  }

  /** A receiver-specific key threaded into a sequence with
      `add_master_receiver_specific_key` is recovered by checking the new
      first element against the original one. */
  lemma AddedReceiverKeyIsRecovered(s: KeyMaterialSeq, id: CryptoTransformKeyId, key: BuiltinKey)
    ensures ReceiverKeyMaterialFor(KeyMaterialOf(AddMasterReceiverSpecificKey(s, id, key)), KeyMaterialOf(s))
         == Ok(ReceiverKeyMaterial(id, key))
  {
  }

  // ---------------------------------------------------------------------
  // Conversions from and to the CDR shape
  // ---------------------------------------------------------------------

  /** `From<KeyMaterial_AES_GCM_GMAC> for Serializable_KeyMaterial_AES_GCM_GMAC` */
  function KeyMaterialToWire(km: KeyMaterial): (w: WireKeyMaterial)
    ensures KindFromWire(w.transformationKind) == Ok(km.transformationKind)
    ensures w.masterSalt == km.masterSalt
    ensures w.senderKeyId == km.senderKeyId && w.receiverSpecificKeyId == km.receiverSpecificKeyId
    ensures w.masterSenderKey == AsBytes(km.masterSenderKey)
    ensures w.masterReceiverSpecificKey == AsBytes(km.masterReceiverSpecificKey)
  {
    WireKeyMaterial(KindToWire(km.transformationKind), km.masterSalt, km.senderKeyId,
                    AsBytes(km.masterSenderKey), km.receiverSpecificKeyId,
                    AsBytes(km.masterReceiverSpecificKey))
  }

  /** `TryFrom<Serializable_KeyMaterial_AES_GCM_GMAC>`: validates the kind,
      derives the key length from it and builds both keys with that length;
      the first failure in that order is reported. Salt and ids are copied
      verbatim. */
  function KeyMaterialFromWire(w: WireKeyMaterial): (r: Result<KeyMaterial>)
    ensures KindFromWire(w.transformationKind).Err? ==> r == Err(InvalidTransformationKind)
    ensures KindFromWire(w.transformationKind).Ok? ==>
      var len := KeyLength(KindFromWire(w.transformationKind).value);
      && (|w.masterSenderKey| != len ==> r == Err(KeyLengthMismatch(len, |w.masterSenderKey|)))
      && (|w.masterSenderKey| == len && |w.masterReceiverSpecificKey| != len ==>
            r == Err(KeyLengthMismatch(len, |w.masterReceiverSpecificKey|)))
      && (r.Ok? <==> |w.masterSenderKey| == len && |w.masterReceiverSpecificKey| == len)
    ensures r.Ok? ==>
      && HasKindKeyLengths(r.value)
      && KindFromWire(w.transformationKind) == Ok(r.value.transformationKind)
      && r.value.masterSalt == w.masterSalt
      && r.value.senderKeyId == w.senderKeyId
      && r.value.receiverSpecificKeyId == w.receiverSpecificKeyId
      && AsBytes(r.value.masterSenderKey) == w.masterSenderKey
      && AsBytes(r.value.masterReceiverSpecificKey) == w.masterReceiverSpecificKey
  {
    var kind :- KindFromWire(w.transformationKind);
    var keyLen := KeyLength(kind);
    var senderKey :- FromBytes(keyLen, w.masterSenderKey);
    var receiverKey :- FromBytes(keyLen, w.masterReceiverSpecificKey);
    Ok(KeyMaterial(kind, w.masterSalt, w.senderKeyId, senderKey, w.receiverSpecificKeyId, receiverKey))
  }

  /** Typed to CDR shape and back is the identity on every key material
      whose keys have the length its kind requires. */
  lemma KeyMaterialWireRoundTrip(km: KeyMaterial)
    requires HasKindKeyLengths(km)
    ensures KeyMaterialFromWire(KeyMaterialToWire(km)) == Ok(km)
  {
    FromBytesOfAsBytes(km.masterSenderKey);
    FromBytesOfAsBytes(km.masterReceiverSpecificKey);
  }

  /** CDR shape to typed and back is the identity on every accepted value. */
  lemma WireKeyMaterialRoundTrip(w: WireKeyMaterial)
    requires KeyMaterialFromWire(w).Ok?
    ensures KeyMaterialToWire(KeyMaterialFromWire(w).value) == w
  {
    KindWireRoundTrip(w.transformationKind);
  }

  /** The default key material of an empty list does not decode again once
      written out: its kind NONE requires keys of 0 octets, and `ZERO` (taken
      here as 32 octets) is not one. */
  lemma DefaultKeyMaterialDoesNotDecodeBack()
    ensures !HasKindKeyLengths(DefaultKeyMaterial)
    ensures KeyMaterialFromWire(KeyMaterialToWire(DefaultKeyMaterial)) == Err(KeyLengthMismatch(0, 32))
  {
  }

  // ---------------------------------------------------------------------
  // Conversions from and to bytes
  // ---------------------------------------------------------------------

  /** `TryFrom<Bytes> for KeyMaterial_AES_GCM_GMAC`: CDR-decode the wire
      shape, then convert it. */
  function KeyMaterialFromBytes(cdr: CdrCodec, bytes: seq<uint8>): (r: Result<KeyMaterial>)
    ensures cdr.deserialize(bytes).None? ==> r == Err(DeserializationError)
    ensures cdr.deserialize(bytes).Some? ==> r == KeyMaterialFromWire(cdr.deserialize(bytes).value)
  {
    match cdr.deserialize(bytes)
    case None => Err(DeserializationError)
    case Some(w) => KeyMaterialFromWire(w)
  }

  /** `TryFrom<KeyMaterial_AES_GCM_GMAC> for Bytes` */
  function KeyMaterialToBytes(cdr: CdrCodec, km: KeyMaterial): (r: Result<seq<uint8>>)
    ensures r.Ok? <==> cdr.serialize(KeyMaterialToWire(km)).Some?
    ensures r.Err? ==> r.error == SerializationError
  {
    match cdr.serialize(KeyMaterialToWire(km))
    case None => Err(SerializationError)
    case Some(bytes) => Ok(bytes)
  }

  lemma KeyMaterialBytesRoundTrip(cdr: CdrCodec, km: KeyMaterial)
    requires Lossless(cdr) && HasKindKeyLengths(km)
    requires KeyMaterialToBytes(cdr, km).Ok?
    ensures KeyMaterialFromBytes(cdr, KeyMaterialToBytes(cdr, km).value) == Ok(km)
  {
    var w := KeyMaterialToWire(km);
    assert cdr.deserialize(cdr.serialize(w).value) == Some(w);
    KeyMaterialWireRoundTrip(km);
  }

  // ---------------------------------------------------------------------
  // Conversions from and to CryptoToken
  // ---------------------------------------------------------------------

  /** The two conversions between this layer's key material and a
      `BuiltinCryptoToken`, whose source is not part of this model. */
  datatype TokenBridge = TokenBridge(
    toBuiltin: KeyMaterial -> BuiltinCryptoToken,
    ofBuiltin: BuiltinCryptoToken -> KeyMaterial)

  /** `TryFrom<CryptoToken> for KeyMaterial_AES_GCM_GMAC`: the token's
      shape check and key-material decode, then the bridge; it inherits the
      shape check's error precedence. */
  function KeyMaterialFromToken(cdr: CdrCodec, bridge: TokenBridge, token: CryptoToken): (r: Result<KeyMaterial>)
    ensures token.dataHolder.classId != CryptoTokenClassId ==> r == Err(WrongClassId)
    ensures token.dataHolder.classId == CryptoTokenClassId && token.dataHolder.properties != [] ==>
      r == Err(UnexpectedProperties)
    ensures token.dataHolder.classId == CryptoTokenClassId && token.dataHolder.properties == []
            && |token.dataHolder.binaryProperties| != 1 ==>
      r == Err(WrongBinaryProperties)
    ensures r.Err? <==> BuiltinCryptoTokenFromToken(cdr, token).Err?
    ensures r.Err? ==> r.error == BuiltinCryptoTokenFromToken(cdr, token).error
    ensures r.Ok? ==> r.value == bridge.ofBuiltin(BuiltinCryptoTokenFromToken(cdr, token).value)
  {
    var bt :- BuiltinCryptoTokenFromToken(cdr, token);
    Ok(bridge.ofBuiltin(bt))
  }

  /** `TryFrom<KeyMaterial_AES_GCM_GMAC> for CryptoToken`: a token of the
      fixed builtin shape whose one binary property holds the encoded key
      material; fails only when that cannot be serialized. */
  function KeyMaterialToToken(cdr: CdrCodec, bridge: TokenBridge, km: KeyMaterial): (r: Result<CryptoToken>)
    ensures r.Ok? <==> RawKeyMaterialToBytes(cdr, bridge.toBuiltin(km).keyMaterial).Ok?
    ensures r.Err? ==> r.error == SerializationError
    ensures r.Ok? ==>
      && r.value.dataHolder.classId == CryptoTokenClassId
      && r.value.dataHolder.properties == []
      && |r.value.dataHolder.binaryProperties| == 1
      && r.value.dataHolder.binaryProperties[0].name == CryptoTokenKeymatName
      && r.value.dataHolder.binaryProperties[0].propagate
      && RawKeyMaterialToBytes(cdr, bridge.toBuiltin(km).keyMaterial)
         == Ok(r.value.dataHolder.binaryProperties[0].value)
  {
    BuiltinCryptoTokenToToken(cdr, bridge.toBuiltin(km))
  }

  /** The bridge loses nothing on `km`. */
  predicate BridgeKeeps(bridge: TokenBridge, km: KeyMaterial) {
    bridge.ofBuiltin(bridge.toBuiltin(km)) == km
  }

  lemma KeyMaterialTokenRoundTrip(cdr: CdrCodec, bridge: TokenBridge, km: KeyMaterial)
    requires Lossless(cdr) && BridgeKeeps(bridge, km)
    requires KeyMaterialToToken(cdr, bridge, km).Ok?
    ensures KeyMaterialFromToken(cdr, bridge, KeyMaterialToToken(cdr, bridge, km).value) == Ok(km)
  {
    BuiltinCryptoTokenRoundTrip(cdr, bridge.toBuiltin(km));
  }

  // ---------------------------------------------------------------------
  // Lists of key materials: from bytes and from tokens
  // ---------------------------------------------------------------------

  /** Converts every element, then applies the cardinality rule: an
      element that fails fails the whole list, the first such element's
      error being reported, whatever the number of elements; only when all
      convert is the count checked. */
  function SeqFromConverted<A>(xs: seq<A>, convert: A -> Result<KeyMaterial>): (r: Result<KeyMaterialSeq>)
    ensures forall i :: 0 <= i < |xs| && convert(xs[i]).Err? ==> r.Err?
    ensures forall i :: FirstFailure(xs, convert, i) ==> r == Err(convert(xs[i]).error)
    ensures r.Ok? ==> AllOk(xs, convert)
    ensures AllOk(xs, convert) ==>
      && (|xs| == 0 ==> r == Ok(One(DefaultKeyMaterial)))
      && (|xs| == 1 ==> r == Ok(One(convert(xs[0]).value)))
      && (|xs| == 2 ==> r == Ok(Two(convert(xs[0]).value, convert(xs[1]).value)))
      && (|xs| >= 3 ==> r == Err(WrongKeyMaterialCount(|xs|)))
  {
    var kms :- CollectResults(xs, convert);
    SeqFromList(kms)
  }

  /** In a list of three or more, a bad element is reported rather than
      the count. */
  lemma BadElementBeatsCount<A>(xs: seq<A>, convert: A -> Result<KeyMaterial>, i: int)
    requires |xs| >= 3 && 0 <= i < |xs| && convert(xs[i]).Err?
    ensures exists k :: 0 <= k <= i && convert(xs[k]).Err? && SeqFromConverted(xs, convert) == Err(convert(xs[k]).error)
  {
    SomeFailureHasFirst(xs, convert, i);
    var k :| FirstFailure(xs, convert, k) && k <= i;
    assert SeqFromConverted(xs, convert) == Err(convert(xs[k]).error);
  }

  /** `TryFrom<Bytes> for KeyMaterial_AES_GCM_GMAC_seq`: CDR-decode a
      vector of wire key materials, convert each, apply the cardinality
      rule. */
  function SeqFromBytes(cdr: CdrCodec, bytes: seq<uint8>): (r: Result<KeyMaterialSeq>)
    ensures cdr.deserializeList(bytes).None? ==> r == Err(DeserializationError)
    ensures cdr.deserializeList(bytes).Some? ==>
      r == SeqFromConverted(cdr.deserializeList(bytes).value, KeyMaterialFromWire)
  {
    match cdr.deserializeList(bytes)
    case None => Err(DeserializationError)
    case Some(ws) => SeqFromConverted(ws, KeyMaterialFromWire)
  }

  /** The CDR shapes of the elements of a sequence, in order. */
  function SeqToWireList(s: KeyMaterialSeq): (ws: seq<WireKeyMaterial>)
    ensures |ws| == |SeqToList(s)|
    ensures forall i :: 0 <= i < |ws| ==> ws[i] == KeyMaterialToWire(SeqToList(s)[i])
  {
    seq(|SeqToList(s)|, i requires 0 <= i < |SeqToList(s)| => KeyMaterialToWire(SeqToList(s)[i]))
  }

  /** `TryFrom<KeyMaterial_AES_GCM_GMAC_seq> for Bytes` */
  function SeqToBytes(cdr: CdrCodec, s: KeyMaterialSeq): (r: Result<seq<uint8>>)
    ensures r.Ok? <==> cdr.serializeList(SeqToWireList(s)).Some?
    ensures r.Err? ==> r.error == SerializationError
  {
    match cdr.serializeList(SeqToWireList(s))
    case None => Err(SerializationError)
    case Some(bytes) => Ok(bytes)
  }

  /** Every element of the sequence has the key lengths its kind requires. */
  predicate SeqHasKindKeyLengths(s: KeyMaterialSeq) {
    forall km :: km in SeqToList(s) ==> HasKindKeyLengths(km)
  }

  lemma SeqBytesRoundTrip(cdr: CdrCodec, s: KeyMaterialSeq)
    requires Lossless(cdr) && SeqHasKindKeyLengths(s)
    requires SeqToBytes(cdr, s).Ok?
    ensures SeqFromBytes(cdr, SeqToBytes(cdr, s).value) == Ok(s)
  {
    var ws := SeqToWireList(s);
    var v := SeqToList(s);
    assert cdr.deserializeList(cdr.serializeList(ws).value) == Some(ws);
    forall i | 0 <= i < |ws| ensures KeyMaterialFromWire(ws[i]) == Ok(v[i]) {
      KeyMaterialWireRoundTrip(v[i]);
    }
    assert AllOk(ws, KeyMaterialFromWire);
  }

  /** `TryFrom<Vec<CryptoToken>> for KeyMaterial_AES_GCM_GMAC_seq`:
      convert each token, then apply the cardinality rule. */
  function SeqFromTokens(cdr: CdrCodec, bridge: TokenBridge, tokens: seq<CryptoToken>): (r: Result<KeyMaterialSeq>)
    ensures forall i :: 0 <= i < |tokens| && KeyMaterialFromToken(cdr, bridge, tokens[i]).Err? ==> r.Err?
    ensures r.Ok? ==> |tokens| <= 2
    ensures r.Ok? ==> forall i :: 0 <= i < |tokens| ==> KeyMaterialFromToken(cdr, bridge, tokens[i]).Ok?
    ensures tokens == [] ==> r == Ok(One(DefaultKeyMaterial))
    ensures |tokens| == 1 && KeyMaterialFromToken(cdr, bridge, tokens[0]).Ok? ==>
      r == Ok(One(KeyMaterialFromToken(cdr, bridge, tokens[0]).value))
    ensures |tokens| == 2 && KeyMaterialFromToken(cdr, bridge, tokens[0]).Ok?
            && KeyMaterialFromToken(cdr, bridge, tokens[1]).Ok? ==>
      r == Ok(Two(KeyMaterialFromToken(cdr, bridge, tokens[0]).value,
                  KeyMaterialFromToken(cdr, bridge, tokens[1]).value))
    ensures |tokens| >= 3 && (forall i :: 0 <= i < |tokens| ==> KeyMaterialFromToken(cdr, bridge, tokens[i]).Ok?) ==>
      r == Err(WrongKeyMaterialCount(|tokens|))
    ensures forall i ::
      && 0 <= i < |tokens|
      && KeyMaterialFromToken(cdr, bridge, tokens[i]).Err?
      && (forall j :: 0 <= j < i ==> KeyMaterialFromToken(cdr, bridge, tokens[j]).Ok?)
      ==> r == Err(KeyMaterialFromToken(cdr, bridge, tokens[i]).error)
  {
    SeqFromConverted(tokens, (t: CryptoToken) => KeyMaterialFromToken(cdr, bridge, t))
  }

  /** `TryFrom<KeyMaterial_AES_GCM_GMAC_seq> for Vec<CryptoToken>`: one
      token per element, in order; fails only if an element cannot be
      serialized. */
  function SeqToTokens(cdr: CdrCodec, bridge: TokenBridge, s: KeyMaterialSeq): (r: Result<seq<CryptoToken>>)
    ensures r.Ok? <==> forall i :: 0 <= i < |SeqToList(s)| ==>
      RawKeyMaterialToBytes(cdr, bridge.toBuiltin(SeqToList(s)[i]).keyMaterial).Ok?
    ensures r.Ok? ==> |r.value| == |SeqToList(s)|
    ensures r.Ok? ==> forall i :: 0 <= i < |r.value| ==>
      KeyMaterialToToken(cdr, bridge, SeqToList(s)[i]) == Ok(r.value[i])
    ensures r.Err? ==> r.error == SerializationError
  {
    CollectResults(SeqToList(s), (km: KeyMaterial) => KeyMaterialToToken(cdr, bridge, km))
  }

  lemma SeqTokensRoundTrip(cdr: CdrCodec, bridge: TokenBridge, s: KeyMaterialSeq)
    requires Lossless(cdr)
    requires forall km :: km in SeqToList(s) ==> BridgeKeeps(bridge, km)
    requires SeqToTokens(cdr, bridge, s).Ok?
    ensures SeqFromTokens(cdr, bridge, SeqToTokens(cdr, bridge, s).value) == Ok(s)
  {
    var tokens := SeqToTokens(cdr, bridge, s).value;
    var v := SeqToList(s);
    var decode := (t: CryptoToken) => KeyMaterialFromToken(cdr, bridge, t);
    forall i | 0 <= i < |tokens| ensures decode(tokens[i]) == Ok(v[i]) {
      KeyMaterialTokenRoundTrip(cdr, bridge, v[i]);
    }
    assert AllOk(tokens, decode);
  }

  /** An end-to-end example: an AES-256-GCM key material with
      a salt of 32 times 0x01, sender key id 7, a sender key of 32 times 0xAA
      and an all-zero receiver key comes back field for field from its bytes. */
  lemma AesGcm256KeyMaterialRoundTrip(cdr: CdrCodec)
    requires Lossless(cdr)
    requires KeyMaterialToBytes(cdr, ExampleKeyMaterial()).Ok?
    ensures KeyMaterialFromBytes(cdr, KeyMaterialToBytes(cdr, ExampleKeyMaterial()).value) == Ok(ExampleKeyMaterial())
  {
    KeyMaterialBytesRoundTrip(cdr, ExampleKeyMaterial());
  }

  function ExampleKeyMaterial(): (km: KeyMaterial)
    ensures HasKindKeyLengths(km) && km.transformationKind == KindAes256Gcm
  {
    KeyMaterial(KindAes256Gcm, seq(32, _ => 0x01), 7, BuiltinKey(seq(32, _ => 0xAA)), 0, BuiltinKey(seq(32, _ => 0x00)))
  }
}
