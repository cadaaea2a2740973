/** The alphabet every stream, digest and signature of the model is written in.

    An octet is either a plain byte or the i-th octet of what an ideal primitive returned: a
    Diffie-Hellman secret, a SHA-256 digest, an AEAD ciphertext or the CBOR form of a message.
    The constructors are free, so the ideal laws (no collisions, decryption undoes encryption
    under the same key only) hold by construction and nothing has to be assumed about them. */
module Octets {

  datatype Option<+T> = None | Some(value: T)

  datatype Result<+T> = Ok(value: T) | Err(error: Error)

  datatype Error =
    | EndOfFile
    | BadKeyLength
    | WrongVersion
    | UnknownAlgorithm
    | BadServiceId
    | NoVerifyingKey
    | IdMismatch
    | BadSignature
    | FrameTooBig
    | BytesRemaining
    | ConnectionReset
    | Decryption
    | Deserialization
    | UnknownConnection

  type Byte = x: int | 0 <= x < 256

  /** An X25519 or Ed25519 public key. */
  type Key = s: seq<Byte> | |s| == 32 witness seq(32, _ => 0)

  /** The 56 base-32 characters of a version 3 onion address ([ONIONADDRESS] of rend-spec-v3). */
  type ServiceId = s: seq<Byte> | |s| == 56 witness seq(56, _ => 97)

  type Nonce = s: seq<Byte> | |s| == 12 witness seq(12, _ => 0)

  /** The Diffie-Hellman secret of two key pairs is the unordered pair of their public keys. */
  datatype SharedSecret = SharedSecret(pair: set<Key>)

  datatype SymmetricKey = Hkdf(secret: SharedSecret)

  datatype ChatMessage = ChatMessage(date: int, sender: ServiceId, recipient: ServiceId, message: string)

  datatype Signature = Signature(signer: Key, data: seq<Octet>)

  datatype MessageKind = AuthKind | AuthorizedKind | ChatKind

  /** The three types that are ever serialised on a connection. */
  datatype WireMessage =
    | Auth(serviceId: seq<Byte>, signature: Signature)
    | Authorized
    | Chat(chat: ChatMessage)
  {
    function Kind(): MessageKind {
      match this
      case Auth(_, _) => AuthKind
      case Authorized => AuthorizedKind
      case Chat(_) => ChatKind
    }
  }

  datatype Octet =
    | Plain(b: Byte)
    | SecretOctet(secret: SharedSecret, i: nat)
    | DigestOctet(input: seq<Octet>, i: nat)
    | CipherOctet(key: SymmetricKey, nonce: Nonce, plaintext: seq<Octet>, i: nat)
    | CborOctet(message: WireMessage, i: nat)

  type Valuation = f: Octet -> Byte | true witness _ => 0

  /** What an ideal output looks like as a number is left open. */
  const IDEAL_VALUE: Valuation

  function Value(o: Octet): Byte {
    if o.Plain? then o.b else IDEAL_VALUE(o)
  }

  function Values(s: seq<Octet>): (r: seq<Byte>)
    ensures |r| == |s|
  {
    seq(|s|, i requires 0 <= i < |s| => Value(s[i]))
  }

  function PlainOctets(s: seq<Byte>): (r: seq<Octet>)
    ensures |r| == |s|
  {
    seq(|s|, i requires 0 <= i < |s| => Plain(s[i]))
  }

  lemma ValuesOfPlain(s: seq<Byte>)
    ensures Values(PlainOctets(s)) == s
  {
  }

  lemma PlainOctetsInjective(s: seq<Byte>, t: seq<Byte>)
    requires PlainOctets(s) == PlainOctets(t)
    ensures s == t
  {
    ValuesOfPlain(s);
    ValuesOfPlain(t);
  }

  function Concat(chunks: seq<seq<Octet>>): seq<Octet> {
    if chunks == [] then [] else chunks[0] + Concat(chunks[1..])
  }

  /** How long the CBOR form of a message is: left open, except that no form is empty. */
  type Lengths = f: WireMessage -> nat | forall m :: f(m) > 0 witness _ => 1

  const CBOR_LENGTH: Lengths

  function Serialize(m: WireMessage): (s: seq<Octet>)
    ensures |s| == CBOR_LENGTH(m) > 0
  {
    seq(CBOR_LENGTH(m), i requires 0 <= i => CborOctet(m, i))
  }

  /** Decodes a message of the wanted type; a message of another type does not decode. */
  function Deserialize(kind: MessageKind, s: seq<Octet>): (r: Option<WireMessage>)
    ensures r.Some? ==> r.value.Kind() == kind && s == Serialize(r.value)
  {
    if |s| > 0 && s[0].CborOctet? && s[0].message.Kind() == kind && s == Serialize(s[0].message)
    then Some(s[0].message)
    else None
  }

  lemma DeserializeUndoesSerialize(kind: MessageKind, m: WireMessage)
    ensures Deserialize(kind, Serialize(m)) == if m.Kind() == kind then Some(m) else None
  {
  }
}
