/** The bounded key container `BuiltinKey` and the key-length policy
    `KeyLength`. Their source is not part of this model; they appear here
    through the interface the key-material layer relies on: a key is built
    from bytes only when their number is the required length, and reading a
    key's bytes gives back the bytes it was built from. */
module BuiltinKeys {
  import opened SecurityErrors
  import opened SecurityTypes
  import opened BuiltinTypes

  /** A raw symmetric key. */
  datatype BuiltinKey = BuiltinKey(bytes: seq<uint8>)

  /** `BuiltinKey::as_bytes` */
  function AsBytes(key: BuiltinKey): seq<uint8> {
    key.bytes
  }

  /** `BuiltinKey::from_bytes`: succeeds exactly when the number of bytes
      is the required key length, and then keeps those bytes. */
  function FromBytes(length: nat, bytes: seq<uint8>): (r: Result<BuiltinKey>)
    ensures r.Ok? <==> |bytes| == length
    ensures r.Ok? ==> AsBytes(r.value) == bytes
    ensures r.Err? ==> r.error == KeyLengthMismatch(length, |bytes|)
  {
    if |bytes| == length then Ok(BuiltinKey(bytes)) else Err(KeyLengthMismatch(length, |bytes|))
  }

  /** Rebuilding a key from its own bytes gives back the same key. */
  lemma FromBytesOfAsBytes(key: BuiltinKey)
    ensures FromBytes(|AsBytes(key)|, AsBytes(key)) == Ok(key)
  {
  }

  /** `BuiltinKey::ZERO`, the key of the degenerate "no protection" key
      material: taken as 32 zero octets. */
  const Zero: BuiltinKey := BuiltinKey(
    [0, 0, 0, 0, 0, 0, 0, 0, 0, 0, 0, 0, 0, 0, 0, 0, 0, 0, 0, 0, 0, 0, 0, 0, 0, 0, 0, 0, 0, 0, 0, 0])

  /** `KeyLength::try_from(kind)`: the number of key octets the kind
      requires, 0 for NONE, 16 for the AES-128 modes and 32 for the AES-256
      modes. Total over the five kinds. */
  function KeyLength(kind: BuiltinCryptoTransformationKind): (n: nat)
    ensures n == 0 <==> kind == KindNone
    ensures n == 16 <==> kind == KindAes128Gmac || kind == KindAes128Gcm
    ensures n == 32 <==> kind == KindAes256Gmac || kind == KindAes256Gcm
  {
    match kind
    case KindNone => 0
    case KindAes128Gmac | KindAes128Gcm => 16
    case KindAes256Gmac | KindAes256Gcm => 32
  }
}
