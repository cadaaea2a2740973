/** src/crypto.rs: key packets, session hash, authentication data and their verification. */
module Crypto {
  import opened Octets

  const PROTOCOL_VERSION: Byte := 1
  const ALGORITHM_CHACHA20POLY1305: Byte := 0
  const KEY_LEN := 32
  const READ_LIMIT := 64

  type SessionHash = s: seq<Octet> | |s| == 32 witness seq(32, _ => Plain(0))

  /** An ephemeral secret is known by its public key, which is unique to it. */
  datatype EphemeralSecret = EphemeralSecret(publicKey: Key)

  function DiffieHellman(secret: EphemeralSecret, peer: Key): SharedSecret {
    SharedSecret({secret.publicKey, peer})
  }

  // ---------------------------------------------------------------- key packets

  function KeyPacket(key: Key): (p: seq<Octet>)
    ensures |p| == KEY_LEN + 2
  {
    [Plain(PROTOCOL_VERSION), Plain(ALGORITHM_CHACHA20POLY1305)] + PlainOctets(key)
  }

  /** What `read_peer_public_key` makes of the octets its one read returned; none means end of file. */
  function ParseKeyPacket(buffer: seq<Octet>): Result<Key> {
    if |buffer| == 0 then Err(EndOfFile)
    else if |buffer| != KEY_LEN + 2 then Err(BadKeyLength)
    else if Value(buffer[0]) != PROTOCOL_VERSION then Err(WrongVersion)
    else if Value(buffer[1]) != ALGORITHM_CHACHA20POLY1305 then Err(UnknownAlgorithm)
    else Ok(Values(buffer[2..]))
  }

  lemma KeyPacketRoundTrip(key: Key)
    ensures ParseKeyPacket(KeyPacket(key)) == Ok(key)
  {
    assert KeyPacket(key)[2..] == PlainOctets(key);
    ValuesOfPlain(key);
  }

  /** Every proper prefix and every extension of a key packet is refused. */
  lemma KeyPacketUnsplittable(key: Key, buffer: seq<Octet>)
    requires buffer <= KeyPacket(key) || KeyPacket(key) <= buffer
    ensures ParseKeyPacket(buffer).Ok? <==> buffer == KeyPacket(key)
  {
  }

  /** What is accepted as a key packet, of all octets a read can return: 34 of them, the version 1 and the
      algorithm 0 in front of the key; and what each refusal means. */
  lemma ParsesExactly(buffer: seq<Octet>)
    ensures forall key: Key ::
              ParseKeyPacket(buffer) == Ok(key) <==> Values(buffer) == [1, 0] + key
    ensures ParseKeyPacket(buffer) == Err(EndOfFile) <==> buffer == []
    ensures ParseKeyPacket(buffer) == Err(BadKeyLength) <==> |buffer| != 0 && |buffer| != 34
    ensures ParseKeyPacket(buffer) == Err(WrongVersion) <==> |buffer| == 34 && Value(buffer[0]) != 1
    ensures ParseKeyPacket(buffer) == Err(UnknownAlgorithm) <==>
            |buffer| == 34 && Value(buffer[0]) == 1 && Value(buffer[1]) != 0
    ensures ParseKeyPacket(buffer).Ok? <==> |buffer| == 34 && Value(buffer[0]) == 1 && Value(buffer[1]) == 0
  {
    forall key: Key ensures ParseKeyPacket(buffer) == Ok(key) <==> Values(buffer) == [1, 0] + key {
      if |buffer| == 34 {
        assert Values(buffer) == [Value(buffer[0]), Value(buffer[1])] + Values(buffer[2..]);
        assert ([1, 0] + key)[2..] == key;
        assert Values(buffer)[2..] == Values(buffer[2..]);
      }
    }
  }

  // ---------------------------------------------------------------- session hash and auth data

  type KeyDirectory = f: ServiceId -> Option<Key> | true witness _ => None

  /** The key a service id spells, if it spells one: left open. */
  const VERIFYING_KEYS: KeyDirectory

  /** `TorServiceId::from_str`, as far as the fixed length of an id goes. */
  function ParseServiceId(s: seq<Byte>): Option<ServiceId> {
    if |s| == 56 then Some(s) else None
  }

  function SecretOctets(secret: SharedSecret): (s: seq<Octet>)
    ensures |s| == 32
  {
    seq(32, i requires 0 <= i => SecretOctet(secret, i))
  }

  function Sha256(input: seq<Octet>): (h: SessionHash) {
    seq(32, i requires 0 <= i => DigestOctet(input, i))
  }

  function HashInput(client: ServiceId, server: ServiceId, clientKey: Key, serverKey: Key,
                     secret: SharedSecret): seq<Octet> {
    PlainOctets(client) + PlainOctets(server) + PlainOctets(clientKey) + PlainOctets(serverKey) + SecretOctets(secret)
  }

  /** The five hashed fields have fixed lengths, so the hashed octets determine all of them. */
  lemma HashInputInjective(c: ServiceId, s: ServiceId, ck: Key, sk: Key, x: SharedSecret,
                           c': ServiceId, s': ServiceId, ck': Key, sk': Key, x': SharedSecret)
    requires HashInput(c, s, ck, sk, x) == HashInput(c', s', ck', sk', x')
    ensures c == c' && s == s' && ck == ck' && sk == sk' && x == x'
  {
    var h, h' := HashInput(c, s, ck, sk, x), HashInput(c', s', ck', sk', x');
    assert h[..56] == PlainOctets(c) && h'[..56] == PlainOctets(c');
    assert h[56..112] == PlainOctets(s) && h'[56..112] == PlainOctets(s');
    assert h[112..144] == PlainOctets(ck) && h'[112..144] == PlainOctets(ck');
    assert h[144..176] == PlainOctets(sk) && h'[144..176] == PlainOctets(sk');
    assert h[176] == SecretOctet(x, 0) && h'[176] == SecretOctet(x', 0);
    PlainOctetsInjective(c, c');
    PlainOctetsInjective(s, s');
    PlainOctetsInjective(ck, ck');
    PlainOctetsInjective(sk, sk');
  }

  function GenerateSessionHash(client: ServiceId, server: ServiceId, secret: SharedSecret): Result<SessionHash> {
    var clientKey := VERIFYING_KEYS(client);
    var serverKey := VERIFYING_KEYS(server);
    if clientKey.None? || serverKey.None? then Err(NoVerifyingKey)
    else Ok(Sha256(HashInput(client, server, clientKey.value, serverKey.value, secret)))
  }

  /** Two sessions hash alike exactly when they have the same client, the same server and the same secret. */
  lemma SessionHashInjective(c: ServiceId, s: ServiceId, x: SharedSecret, c': ServiceId, s': ServiceId,
                             x': SharedSecret)
    requires GenerateSessionHash(c, s, x).Ok? && GenerateSessionHash(c', s', x').Ok?
    ensures GenerateSessionHash(c, s, x) == GenerateSessionHash(c', s', x') <==> c == c' && s == s' && x == x'
  {
    var h, h' := GenerateSessionHash(c, s, x).value, GenerateSessionHash(c', s', x').value;
    if h == h' {
      assert h[0] == h'[0];
      HashInputInjective(c, s, VERIFYING_KEYS(c).value, VERIFYING_KEYS(s).value, x,
                         c', s', VERIFYING_KEYS(c').value, VERIFYING_KEYS(s').value, x');
    }
  }

  function AuthData(id: ServiceId, hash: SessionHash): seq<Octet> {
    hash + PlainOctets(id)
  }

  lemma AuthDataInjective(id: ServiceId, hash: SessionHash, id': ServiceId, hash': SessionHash)
    requires AuthData(id, hash) == AuthData(id', hash')
    ensures id == id' && hash == hash'
  {
    assert AuthData(id, hash)[..32] == hash && AuthData(id', hash')[..32] == hash';
    assert AuthData(id, hash)[32..] == PlainOctets(id) && AuthData(id', hash')[32..] == PlainOctets(id');
    PlainOctetsInjective(id, id');
  }

  /** `verify_auth_message`: the key lookup comes first, then the id check, then the signature. */
  function VerifyAuthMessage(serviceId: seq<Byte>, signature: Signature, peer: ServiceId,
                             hash: SessionHash): Result<()> {
    var key := VERIFYING_KEYS(peer);
    if key.None? then Err(NoVerifyingKey)
    else if serviceId != peer then Err(IdMismatch)
    else if signature != Signature(key.value, AuthData(peer, hash)) then Err(BadSignature)
    else Ok(())
  }

  /** An authentication message is accepted exactly when it names the expected peer and carries that peer's
      signature over the hash followed by its id; and what each refusal means. */
  lemma VerifiesExactly(serviceId: seq<Byte>, signature: Signature, peer: ServiceId, hash: SessionHash)
    ensures var r := VerifyAuthMessage(serviceId, signature, peer, hash);
            && (r == Err(NoVerifyingKey) <==> VERIFYING_KEYS(peer).None?)
            && (r == Err(IdMismatch) <==> VERIFYING_KEYS(peer).Some? && serviceId != peer)
            && (r.Ok? <==> VERIFYING_KEYS(peer).Some? && serviceId == peer &&
                           signature == Signature(VERIFYING_KEYS(peer).value, hash + PlainOctets(peer)))
            && (r.Err? ==> r.error == NoVerifyingKey || r.error == IdMismatch || r.error == BadSignature)
  {
  }

  /** The session hash is the digest of both ids, both keys and the secret, in this order; there is none
      when one of the ids spells no key. */
  lemma HashesExactly(client: ServiceId, server: ServiceId, secret: SharedSecret)
    ensures var r, ck, sk := GenerateSessionHash(client, server, secret), VERIFYING_KEYS(client),
            VERIFYING_KEYS(server);
            if ck.Some? && sk.Some? then
              r == Ok(Sha256(PlainOctets(client) + PlainOctets(server) + PlainOctets(ck.value) + PlainOctets(sk.value) +
                             SecretOctets(secret)))
            else r == Err(NoVerifyingKey)
  {
  }

  // ---------------------------------------------------------------- the same, buffer by buffer

  method ReadPeerPublicKey(buffer: seq<Octet>) returns (r: Result<Key>)
    ensures r == ParseKeyPacket(buffer)
  {
    var bytesRead := |buffer|;
    if bytesRead > 0 {
      if bytesRead == KEY_LEN + 2 {
        if Value(buffer[0]) != PROTOCOL_VERSION {
          return Err(WrongVersion);
        }
        if Value(buffer[1]) != ALGORITHM_CHACHA20POLY1305 {
          return Err(UnknownAlgorithm);
        }
        var bytes := new Byte[KEY_LEN](_ => 0);
        for i := 0 to KEY_LEN
          invariant bytes[..i] == Values(buffer[2..2 + i])
        {
          bytes[i] := Value(buffer[2 + i]);
          assert bytes[..i + 1] == bytes[..i] + [bytes[i]];
        }
        assert bytes[..] == bytes[..KEY_LEN] && buffer[2..2 + KEY_LEN] == buffer[2..];
        return Ok(bytes[..]);
      }
      return Err(BadKeyLength);
    }
    return Err(EndOfFile);
  }

  method ComputeSessionHash(client: ServiceId, server: ServiceId, secret: SharedSecret) returns (r: Result<SessionHash>)
    ensures r == GenerateSessionHash(client, server, secret)
  {
    var clientKey := VERIFYING_KEYS(client);
    if clientKey.None? {
      return Err(NoVerifyingKey);
    }
    var serverKey := VERIFYING_KEYS(server);
    if serverKey.None? {
      return Err(NoVerifyingKey);
    }
    var hashed: seq<Octet> := [];
    hashed := hashed + PlainOctets(client);
    hashed := hashed + PlainOctets(server);
    hashed := hashed + PlainOctets(clientKey.value);
    hashed := hashed + PlainOctets(serverKey.value);
    hashed := hashed + SecretOctets(secret);
    assert hashed == HashInput(client, server, clientKey.value, serverKey.value, secret);
    return Ok(Sha256(hashed));
  }
}
