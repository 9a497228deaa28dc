/** The symbolic view of the Noise IK handshake and of its transport ciphers (The Noise Protocol Framework,
    revision 34, sections 5.1, 5.2, 7.5 and 11.4).  An ephemeral is a name tagged with the node that drew it, a
    transport key is determined by the two ephemerals of the session and by its direction, and a sealed box
    remembers the key and the nonce it was produced with. */
module Symbolic {
  import opened Options
  import opened Bytes

  datatype Side = West | East
  {
    function Other(): Side {
      if West? then East else West
    }
  }

  type Payload = seq<Byte>

  /** A fresh Diffie-Hellman key pair, named by the node that generated it. */
  datatype Ephemeral = Ephemeral(owner: Side, index: nat)

  datatype Direction = ToResponder | ToInitiator

  /** One of the two keys that Split() yields. */
  datatype Key = Key(initiator: Ephemeral, responder: Ephemeral, direction: Direction)
  {
    /** The ephemeral contributed by the party that encrypts under this key. */
    function Own(): Ephemeral {
      if direction == ToResponder then initiator else responder
    }
  }

  /** The body of a handshake message: the first message of IK carries the initiator's ephemeral, the second one
      answers it. */
  datatype Body = Init(ei: Ephemeral) | Resp(ei: Ephemeral, er: Ephemeral)

  datatype Sealed = Sealed(key: Key, nonce: nat, payload: Payload)

  /** The largest nonce the cipher may use; the next one is reserved (section 5.1). */
  const MAX_NONCE: nat := 0xFFFF_FFFF_FFFF_FFFE

  datatype Cipher = Cipher(key: Key, nonce: nat)
  {
    function SetNonce(n: nat): Cipher {
      this.(nonce := n)
    }

    /** None when the nonces of this key are used up. */
    function Encrypt(plain: Payload): Option<Sealed> {
      if nonce > MAX_NONCE then None else Some(Sealed(key, nonce, plain))
    }

    function Decrypt(box: Sealed): Option<Payload> {
      if nonce <= MAX_NONCE && box.key == key && box.nonce == nonce then Some(box.payload) else None
    }

    function Next(): Cipher {
      this.(nonce := nonce + 1)
    }
  }
}
