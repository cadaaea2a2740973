/** src/connection.rs: the two handshake programs, as a machine that moves from one await to the
    next, and as the straight-line programs of the source, each proved to be a run of the machine. */
module Handshake {
  import opened Octets
  import opened Crypto
  import opened Packets
  import opened Events

  datatype Role = Client | Server

  datatype Pc = AwaitKey | AwaitSignature | AwaitAuth | AwaitAuthorized | Established | Aborted

  /** The locals of one handshake. A client knows its peer from the address it dialled. */
  datatype Task = Task(
    role: Role,
    id: ServiceId,
    address: string,
    secret: EphemeralSecret,
    peer: Option<ServiceId>,
    shared: Option<SharedSecret>,
    hash: Option<SessionHash>,
    pc: Pc)

  /** What an await returned. `Failure` is a timeout, or a write that failed right after the await. */
  datatype Input =
    | KeyBytes(bytes: seq<Octet>)
    | Reply(response: Option<ConnectionEvent>)
    | Read(result: ReadResult)
    | Failure

  datatype Effect =
    | SendKey(packet: seq<Octet>)
    | SendMessage(message: WireMessage)
    | RequestSignature(data: seq<Octet>)
    | Announce(info: ConnectionInfo)

  function StartClient(id: ServiceId, address: string, peer: ServiceId, secret: EphemeralSecret): (Task, seq<Effect>) {
    (Task(Client, id, address, secret, Some(peer), None, None, AwaitKey), [SendKey(KeyPacket(secret.publicKey))])
  }

  function StartServer(id: ServiceId, address: string, secret: EphemeralSecret): (Task, seq<Effect>) {
    (Task(Server, id, address, secret, None, None, None, AwaitKey), [])
  }

  function Abort(t: Task): (Task, seq<Effect>) {
    (t.(pc := Aborted), [])
  }

  function Step(t: Task, input: Input): (Task, seq<Effect>) {
    match t.pc
    case AwaitKey =>
      if input.KeyBytes? then OnKey(t, input.bytes) else if input.Failure? then Abort(t) else (t, [])
    case AwaitSignature =>
      if input.Reply? then OnReply(t, input.response) else if input.Failure? then Abort(t) else (t, [])
    case AwaitAuth =>
      if input.Read? then OnAuth(t, input.result) else if input.Failure? then Abort(t) else (t, [])
    case AwaitAuthorized =>
      if input.Read? then OnAuthorized(t, input.result) else (t, [])
    case Established => (t, [])
    case Aborted => (t, [])
  }

  function OnKey(t: Task, bytes: seq<Octet>): (Task, seq<Effect>) {
    var key := ParseKeyPacket(bytes);
    if key.Err? then Abort(t)
    else
      var shared := DiffieHellman(t.secret, key.value);
      if t.role.Server? then
        (t.(shared := Some(shared), pc := AwaitAuth), [SendKey(KeyPacket(t.secret.publicKey))])
      else if t.peer.None? then Abort(t)
      else
        var hash := GenerateSessionHash(t.id, t.peer.value, shared);
        if hash.Err? then Abort(t)
        else (t.(shared := Some(shared), hash := Some(hash.value), pc := AwaitSignature),
              [RequestSignature(AuthData(t.id, hash.value))])
  }

  function OnReply(t: Task, response: Option<ConnectionEvent>): (Task, seq<Effect>) {
    if response.None? || !response.value.SignatureResponse? || t.peer.None? then Abort(t)
    else
      var send := SendMessage(Auth(t.id, response.value.signature));
      if t.role.Client? then (t.(pc := AwaitAuth), [send])
      else (t.(pc := Established), [send, Announce(ConnectionInfo(t.address, t.peer.value, Incoming))])
  }

  function OnAuth(t: Task, result: ReadResult): (Task, seq<Effect>) {
    if result.Pending? then (t, [])
    else if !result.Message? || !result.message.Auth? then Abort(t)
    else if t.role.Client? then
      if t.peer.None? || t.hash.None? ||
         VerifyAuthMessage(result.message.serviceId, result.message.signature, t.peer.value, t.hash.value).Err?
      then Abort(t)
      else (t.(pc := AwaitAuthorized), [])
    else
      var peer := ParseServiceId(result.message.serviceId);
      if peer.None? || t.shared.None? then Abort(t)
      else
        var hash := GenerateSessionHash(peer.value, t.id, t.shared.value);
        if hash.Err? ||
           VerifyAuthMessage(result.message.serviceId, result.message.signature, peer.value, hash.value).Err?
        then Abort(t)
        else (t.(peer := peer, hash := Some(hash.value), pc := AwaitSignature),
              [RequestSignature(AuthData(t.id, hash.value))])
  }

  /** The client looks at how the read ended, not at whether it brought a message. */
  function OnAuthorized(t: Task, result: ReadResult): (Task, seq<Effect>) {
    if result.Pending? then (t, [])
    else if result.Failed? || result.Panicked? || t.peer.None? then Abort(t)
    else (t.(pc := Established), [Announce(ConnectionInfo(t.address, t.peer.value, Outgoing))])
  }

  function Run(t: Task, effects: seq<Effect>, inputs: seq<Input>): (Task, seq<Effect>)
    decreases |inputs|
  {
    if inputs == [] then (t, effects)
    else
      var (t', more) := Step(t, inputs[0]);
      Run(t', effects + more, inputs[1..])
  }

  lemma {:induction false} RunAborted(t: Task, effects: seq<Effect>, inputs: seq<Input>)
    requires t.pc.Aborted?
    ensures Run(t, effects, inputs) == (t, effects)
  {
    if inputs != [] {
      assert effects + [] == effects;
      RunAborted(t, effects, inputs[1..]);
    }
  }

  /** An input that makes the program give up ends the run there. */
  lemma RunStops(t: Task, effects: seq<Effect>, inputs: seq<Input>)
    requires inputs != [] && Step(t, inputs[0]) == Abort(t)
    ensures Run(t, effects, inputs) == (Abort(t).0, effects)
  {
    assert effects + [] == effects;
    RunAborted(Abort(t).0, effects, inputs[1..]);
  }

  // ---------------------------------------------------------------- the programs of the source

  /** An await under a timeout. */
  datatype Awaited<+T> = Arrived(value: T) | TimedOut

  /** A read that has completed. */
  type Ready = r: ReadResult | !r.Pending? witness EndOfStream

  function KeyInput(read: Awaited<seq<Octet>>): Input {
    if read.Arrived? then KeyBytes(read.value) else Failure
  }

  function ReadInput(read: Awaited<Ready>): Input {
    if read.Arrived? then Read(read.value) else Failure
  }

  function ReplyInput(reply: Option<ConnectionEvent>, written: bool): Input {
    if written || reply.None? || !reply.value.SignatureResponse? then Reply(reply) else Failure
  }

  // ---------------------------------------------------------------- what the two programs come to

  /** The key in what the read of the key exchange returned, if it returned a key packet. */
  function KeyIn(read: Awaited<seq<Octet>>): Option<Key> {
    if read.Arrived? && |read.value| == 34 && Value(read.value[0]) == 1 && Value(read.value[1]) == 0
    then Some(Values(read.value)[2..]) else None
  }

  function HashedOctets(client: ServiceId, server: ServiceId, secret: SharedSecret): seq<Octet>
    requires VERIFYING_KEYS(client).Some? && VERIFYING_KEYS(server).Some?
  {
    PlainOctets(client) + PlainOctets(server) + PlainOctets(VERIFYING_KEYS(client).value) +
    PlainOctets(VERIFYING_KEYS(server).value) + SecretOctets(secret)
  }

  /** The hash of a session between two ids that both spell a key, over two ephemeral keys. */
  function HashOf(client: ServiceId, server: ServiceId, own: Key, theirs: Option<Key>): Option<SessionHash> {
    if theirs.Some? && VERIFYING_KEYS(client).Some? && VERIFYING_KEYS(server).Some?
    then Some(Sha256(HashedOctets(client, server, SharedSecret({own, theirs.value})))) else None
  }

  /** The message is an authentication that names `who` and carries its signature over the hash and its id. */
  predicate Proves(read: Awaited<Ready>, who: seq<Byte>, hash: SessionHash) {
    |who| == 56 && VERIFYING_KEYS(who).Some? && read.Arrived? &&
    read.value == Message(Auth(who, Signature(VERIFYING_KEYS(who).value, hash + PlainOctets(who))))
  }

  predicate Answered(reply: Option<ConnectionEvent>, written: bool) {
    reply.Some? && reply.value.SignatureResponse? && written
  }

  /** What a client program comes to. It connects exactly when it got a key packet, both ids spell keys, it
      got a signature and its message was written, its peer has proved its identity - in a message that
      names the very id that was dialled - and its last read brought a message or the end of the stream;
      and otherwise it gives up having said what it got to, in this order. */
  ghost predicate ClientOutcome(t: Task, effects: seq<Effect>, id: ServiceId, address: string, peer: ServiceId,
                                own: Key,
                                keyRead: Awaited<seq<Octet>>, reply: Option<ConnectionEvent>, written: bool,
                                authRead: Awaited<Ready>, authorizedRead: Ready) {
    var hash := HashOf(id, peer, own, KeyIn(keyRead));
    var asked := if hash.Some? then [RequestSignature(hash.value + PlainOctets(id))] else [];
    var signed := hash.Some? && Answered(reply, written);
    var said := if signed then [SendMessage(Auth(id, reply.value.signature))] else [];
    var done := signed && Proves(authRead, peer, hash.value) &&
      (authorizedRead.Message? || authorizedRead.EndOfStream?);
    var announced := if done then [Announce(ConnectionInfo(address, peer, Outgoing))] else [];
    && t.pc == (if done then Established else Aborted)
    && effects == [SendKey([Plain(1), Plain(0)] + PlainOctets(own))] + asked + said + announced
  }

  /** What a server program comes to. It connects exactly when it got a key packet, a peer has proved the
      identity its message names, it got a signature and its own message was written; and otherwise it
      gives up having said what it got to, in this order. */
  ghost predicate ServerOutcome(t: Task, effects: seq<Effect>, id: ServiceId, address: string, own: Key,
                                keyRead: Awaited<seq<Octet>>, authRead: Awaited<Ready>,
                                reply: Option<ConnectionEvent>, written: bool) {
    var theirs := KeyIn(keyRead);
    var packet := if theirs.Some? then [SendKey([Plain(1), Plain(0)] + PlainOctets(own))] else [];
    var who := NamedIn(authRead);
    var hash := if who.Some? then HashOf(who.value, id, own, theirs) else None;
    var verified := hash.Some? && Proves(authRead, who.value, hash.value);
    var asked := if verified then [RequestSignature(hash.value + PlainOctets(id))] else [];
    var done := verified && Answered(reply, written);
    var said := if done then [SendMessage(Auth(id, reply.value.signature)),
                              Announce(ConnectionInfo(address, who.value, Incoming))] else [];
    && t.pc == (if done then Established else Aborted)
    && effects == packet + asked + said
  }

  /** The id that an authentication message names. */
  function NamedIn(read: Awaited<Ready>): Option<ServiceId> {
    if read.Arrived? && read.value.Message? && read.value.message.Auth? && |read.value.message.serviceId| == 56
    then Some(read.value.message.serviceId) else None
  }

  lemma KeyStepOfClient(t: Task, read: Awaited<seq<Octet>>)
    requires t.pc.AwaitKey? && t.role.Client? && t.peer.Some?
    ensures var hash := HashOf(t.id, t.peer.value, t.secret.publicKey, KeyIn(read));
            Step(t, KeyInput(read)) ==
            if hash.None? then Abort(t)
            else (t.(shared := Some(SharedSecret({t.secret.publicKey, KeyIn(read).value})), hash := hash,
              pc := AwaitSignature),
                  [RequestSignature(hash.value + PlainOctets(t.id))])
  {
    if read.Arrived? {
      ParsesExactly(read.value);
      if KeyIn(read).Some? {
        assert Values(read.value) == [1, 0] + KeyIn(read).value;
        HashesExactly(t.id, t.peer.value, DiffieHellman(t.secret, KeyIn(read).value));
      }
    }
    hide ParseKeyPacket, GenerateSessionHash, Sha256;
  }

  lemma KeyStepOfServer(t: Task, read: Awaited<seq<Octet>>)
    requires t.pc.AwaitKey? && t.role.Server?
    ensures Step(t, KeyInput(read)) ==
            if KeyIn(read).None? then Abort(t)
            else (t.(shared := Some(SharedSecret({t.secret.publicKey, KeyIn(read).value})), pc := AwaitAuth),
                  [SendKey([Plain(1), Plain(0)] + PlainOctets(t.secret.publicKey))])
  {
    if read.Arrived? {
      ParsesExactly(read.value);
      assert KeyIn(read).Some? ==> Values(read.value) == [1, 0] + KeyIn(read).value;
    }
    hide ParseKeyPacket;
  }

  lemma ReplyStep(t: Task, reply: Option<ConnectionEvent>, written: bool)
    requires t.pc.AwaitSignature? && t.peer.Some?
    ensures Step(t, ReplyInput(reply, written)) ==
            if !Answered(reply, written) then Abort(t)
            else if t.role.Client? then (t.(pc := AwaitAuth), [SendMessage(Auth(t.id, reply.value.signature))])
            else (t.(pc := Established), [SendMessage(Auth(t.id, reply.value.signature)),
                                          Announce(ConnectionInfo(t.address, t.peer.value, Incoming))])
  {
  }

  lemma AuthStepOfClient(t: Task, read: Awaited<Ready>)
    requires t.pc.AwaitAuth? && t.role.Client? && t.peer.Some? && t.hash.Some?
    ensures Step(t, ReadInput(read)) ==
            if Proves(read, t.peer.value, t.hash.value) then (t.(pc := AwaitAuthorized), []) else Abort(t)
  {
    if read.Arrived? && read.value.Message? && read.value.message.Auth? {
      VerifiesExactly(read.value.message.serviceId, read.value.message.signature, t.peer.value, t.hash.value);
    }
    hide VerifyAuthMessage;
  }

  lemma AuthStepOfServer(t: Task, read: Awaited<Ready>, theirs: Key)
    requires t.pc.AwaitAuth? && t.role.Server? && t.shared == Some(SharedSecret({t.secret.publicKey, theirs}))
    ensures var who := NamedIn(read);
            var hash := if who.Some? then HashOf(who.value, t.id, t.secret.publicKey, Some(theirs)) else None;
            Step(t, ReadInput(read)) ==
            if hash.Some? && Proves(read, who.value, hash.value)
            then (t.(peer := who, hash := hash, pc := AwaitSignature), [RequestSignature(hash.value +
              PlainOctets(t.id))])
            else Abort(t)
  {
    if NamedIn(read).Some? {
      var who := NamedIn(read).value;
      HashesExactly(who, t.id, t.shared.value);
      var hash := HashOf(who, t.id, t.secret.publicKey, Some(theirs));
      if hash.Some? {
        VerifiesExactly(who, read.value.message.signature, who, hash.value);
      }
    }
    hide VerifyAuthMessage, GenerateSessionHash, Sha256;
  }

  lemma LastStep(t: Task, read: Ready)
    requires t.pc.AwaitAuthorized? && t.peer.Some?
    ensures Step(t, Read(read)) ==
            if read.Message? || read.EndOfStream?
            then (t.(pc := Established), [Announce(ConnectionInfo(t.address, t.peer.value, Outgoing))]) else Abort(t)
  {
  }

  lemma RunTurn(t: Task, effects: seq<Effect>, input: Input, rest: seq<Input>)
    ensures var (t', more) := Step(t, input);
            Run(t, effects, [input] + rest) == if t'.pc.Aborted? then (t', effects + more) else Run(t', effects +
              more, rest)
  {
    assert ([input] + rest)[1..] == rest;
    var (t', more) := Step(t, input);
    if t'.pc.Aborted? {
      RunAborted(t', effects + more, rest);
    }
  }

  lemma ClientComesTo(id: ServiceId, address: string, peer: ServiceId, secret: EphemeralSecret,
                      keyRead: Awaited<seq<Octet>>, reply: Option<ConnectionEvent>, written: bool,
                      authRead: Awaited<Ready>, authorizedRead: Ready)
    ensures var (start, sent) := StartClient(id, address, peer, secret);
            var (t, effects) := Run(start, sent, [KeyInput(keyRead), ReplyInput(reply, written),
                                                  ReadInput(authRead), Read(authorizedRead)]);
            ClientOutcome(t, effects, id, address, peer, secret.publicKey, keyRead, reply, written, authRead,
              authorizedRead)
  {
    hide Step, HashOf, KeyIn, Proves, Run;
    var (t0, e0) := StartClient(id, address, peer, secret);
    var i0, i1, i2, i3 := KeyInput(keyRead), ReplyInput(reply, written), ReadInput(authRead), Read(authorizedRead);
    assert [i0, i1, i2, i3] == [i0] + [i1, i2, i3] && [i1, i2, i3] == [i1] + [i2, i3];
    assert [i2, i3] == [i2] + [i3] && [i3] == [i3] + [];
    assert e0 == [SendKey([Plain(1), Plain(0)] + PlainOctets(secret.publicKey))];
    KeyStepOfClient(t0, keyRead);
    RunTurn(t0, e0, i0, [i1, i2, i3]);
    var (t1, e1) := Step(t0, i0);
    if !t1.pc.Aborted? {
      ReplyStep(t1, reply, written);
      RunTurn(t1, e0 + e1, i1, [i2, i3]);
      var (t2, e2) := Step(t1, i1);
      if !t2.pc.Aborted? {
        AuthStepOfClient(t2, authRead);
        RunTurn(t2, e0 + e1 + e2, i2, [i3]);
        var (t3, e3) := Step(t2, i2);
        if !t3.pc.Aborted? {
          LastStep(t3, authorizedRead);
          RunTurn(t3, e0 + e1 + e2 + e3, i3, []);
          RunEmpty(Step(t3, i3).0, e0 + e1 + e2 + e3 + Step(t3, i3).1);
        }
      }
    }
  }

  lemma RunEmpty(t: Task, effects: seq<Effect>)
    ensures Run(t, effects, []) == (t, effects)
  {
  }

  lemma NoKeyNoHash(client: ServiceId, server: ServiceId, own: Key)
    ensures HashOf(client, server, own, None) == None
  {
  }

  /** The same from the read of the authentication on. */
  lemma ServerGoesOn(t: Task, effects: seq<Effect>, theirs: Key, authRead: Awaited<Ready>,
                     reply: Option<ConnectionEvent>, written: bool)
    requires t.pc.AwaitAuth? && t.role.Server? && t.shared == Some(SharedSecret({t.secret.publicKey, theirs}))
    ensures var (t', effects') := Run(t, effects, [ReadInput(authRead), ReplyInput(reply, written)]);
            var who := NamedIn(authRead);
            var hash := if who.Some? then HashOf(who.value, t.id, t.secret.publicKey, Some(theirs)) else None;
            var verified := hash.Some? && Proves(authRead, who.value, hash.value);
            var asked := if verified then [RequestSignature(hash.value + PlainOctets(t.id))] else [];
            var done := verified && Answered(reply, written);
            var said := if done then [SendMessage(Auth(t.id, reply.value.signature)),
                                      Announce(ConnectionInfo(t.address, who.value, Incoming))] else [];
            t'.pc == (if done then Established else Aborted) && effects' == effects + asked + said
  {
    hide Step, HashOf, Proves, NamedIn, Run, Answered;
    var i1, i2 := ReadInput(authRead), ReplyInput(reply, written);
    assert [i1, i2] == [i1] + [i2] && [i2] == [i2] + [];
    AuthStepOfServer(t, authRead, theirs);
    RunTurn(t, effects, i1, [i2]);
    var (t', more) := Step(t, i1);
    if !t'.pc.Aborted? {
      ReplyStep(t', reply, written);
      RunTurn(t', effects + more, i2, []);
      RunEmpty(Step(t', i2).0, effects + more + Step(t', i2).1);
    }
  }

  lemma ServerComesTo(id: ServiceId, address: string, secret: EphemeralSecret,
                      keyRead: Awaited<seq<Octet>>, authRead: Awaited<Ready>,
                      reply: Option<ConnectionEvent>, written: bool)
    ensures var (start, sent) := StartServer(id, address, secret);
            var (t, effects) := Run(start, sent, [KeyInput(keyRead), ReadInput(authRead), ReplyInput(reply, written)]);
            ServerOutcome(t, effects, id, address, secret.publicKey, keyRead, authRead, reply, written)
  {
    hide Step, HashOf, KeyIn, Proves, NamedIn, Run, Answered;
    var (t0, e0) := StartServer(id, address, secret);
    var i0, i1, i2 := KeyInput(keyRead), ReadInput(authRead), ReplyInput(reply, written);
    assert [i0, i1, i2] == [i0] + [i1, i2];
    KeyStepOfServer(t0, keyRead);
    RunTurn(t0, e0, i0, [i1, i2]);
    if KeyIn(keyRead).None? {
      ServerWithoutKey(id, address, secret.publicKey, keyRead, authRead, reply, written);
    } else {
      var (t1, e1) := Step(t0, i0);
      ServerGoesOn(t1, e0 + e1, KeyIn(keyRead).value, authRead, reply, written);
    }
  }

  lemma ServerWithoutKey(id: ServiceId, address: string, own: Key, keyRead: Awaited<seq<Octet>>,
                         authRead: Awaited<Ready>, reply: Option<ConnectionEvent>, written: bool)
    requires KeyIn(keyRead).None?
    ensures forall t: Task :: t.pc.Aborted? ==>
              ServerOutcome(t, [], id, address, own, keyRead, authRead, reply, written)
  {
    hide Proves, NamedIn, Answered, KeyIn;
    if NamedIn(authRead).Some? {
      NoKeyNoHash(NamedIn(authRead).value, id, own);
    }
  }

  // ---------------------------------------------------------------- whoever gets past the check

  /** A client gives up, and says nothing more, when its peer's message names another id than it dialled,
      whatever signature it carries. */
  lemma OtherNameAborts(t: Task, name: seq<Byte>, signature: Signature)
    requires t.pc.AwaitAuth? && t.role.Client? && t.peer.Some? && name != t.peer.value
    ensures Step(t, Read(Message(Auth(name, signature)))) == (t.(pc := Aborted), [])
  {
    if t.hash.Some? {
      VerifiesExactly(name, signature, t.peer.value, t.hash.value);
    }
  }

  /** One of the inputs was an authentication message that names the peer and carries its signature. */
  predicate ReadProof(t: Task, inputs: seq<Input>) {
    t.peer.Some? && t.hash.Some? &&
    exists i :: 0 <= i < |inputs| && inputs[i].Read? &&
      Proves(Arrived(Ended(inputs[i].result)), t.peer.value, t.hash.value)
  }

  /** A read that may still be pending, as a completed one. */
  function Ended(r: ReadResult): Ready {
    if r.Pending? then EndOfStream else r
  }

  /** Whatever a client program is given, in whatever order and however often: when it has got past its
      check, one of its reads was a message that names the peer it dialled, signed by that peer. */
  lemma {:induction false} PastTheCheckWasProved(t: Task, effects: seq<Effect>, inputs: seq<Input>)
    requires t.role.Client? && !t.pc.AwaitAuthorized? && !t.pc.Established?
    requires Run(t, effects, inputs).0.pc.AwaitAuthorized? || Run(t, effects, inputs).0.pc.Established?
    ensures ReadProof(Run(t, effects, inputs).0, inputs)
    decreases |inputs|
  {
    var (t', more) := Step(t, inputs[0]);
    var rest := inputs[1..];
    if t'.pc.AwaitAuthorized? {
      var m := inputs[0].result.message;
      VerifiesExactly(m.serviceId, m.signature, t.peer.value, t.hash.value);
      KeepsProof(t', effects + more, rest);
      assert Proves(Arrived(Ended(inputs[0].result)), t.peer.value, t.hash.value);
    } else {
      PastTheCheckWasProved(t', effects + more, rest);
      var end := Run(t', effects + more, rest).0;
      var i :| 0 <= i < |rest| && rest[i].Read? &&
        Proves(Arrived(Ended(rest[i].result)), end.peer.value, end.hash.value);
      assert inputs[i + 1] == rest[i];
    }
  }

  lemma {:induction false} KeepsProof(t: Task, effects: seq<Effect>, inputs: seq<Input>)
    requires t.role.Client? && (t.pc.AwaitAuthorized? || t.pc.Established? || t.pc.Aborted?)
    ensures var end := Run(t, effects, inputs).0; end.peer == t.peer && end.hash == t.hash
    decreases |inputs|
  {
    if inputs != [] {
      var (t', more) := Step(t, inputs[0]);
      KeepsProof(t', effects + more, inputs[1..]);
    }
  }

  // ---------------------------------------------------------------- the programs themselves

  method Connect(id: ServiceId, address: string, peer: ServiceId, secret: EphemeralSecret,
                 keyRead: Awaited<seq<Octet>>, reply: Option<ConnectionEvent>, written: bool,
                 authRead: Awaited<Ready>, authorizedRead: Ready)
    returns (t: Task, effects: seq<Effect>)
    ensures var (start, sent) := StartClient(id, address, peer, secret);
            (t, effects) == Run(start, sent, [KeyInput(keyRead), ReplyInput(reply, written),
                                              ReadInput(authRead), Read(authorizedRead)])
    ensures ClientOutcome(t, effects, id, address, peer, secret.publicKey, keyRead, reply, written, authRead,
            authorizedRead)
  {
    ClientComesTo(id, address, peer, secret, keyRead, reply, written, authRead, authorizedRead);
    hide ClientOutcome;
    t := Task(Client, id, address, secret, Some(peer), None, None, AwaitKey);
    ghost var inputs := [KeyInput(keyRead), ReplyInput(reply, written), ReadInput(authRead), Read(authorizedRead)];
    effects := [SendKey(KeyPacket(secret.publicKey))];
    ghost var start, sent := t, effects;
    assert inputs[0..] == inputs;
    if keyRead.TimedOut? {
      RunStops(t, effects, inputs[0..]);
      return Abort(t).0, effects;
    }
    var key := ReadPeerPublicKey(keyRead.value);
    if key.Err? {
      RunStops(t, effects, inputs[0..]);
      return Abort(t).0, effects;
    }
    var shared := DiffieHellman(secret, key.value);
    var hash := ComputeSessionHash(id, peer, shared);
    if hash.Err? {
      RunStops(t, effects, inputs[0..]);
      return Abort(t).0, effects;
    }
    t := t.(shared := Some(shared), hash := Some(hash.value), pc := AwaitSignature);
    effects := effects + [RequestSignature(AuthData(id, hash.value))];
    assert Run(start, sent, inputs) == Run(t, effects, inputs[1..]);
    if reply.None? || !reply.value.SignatureResponse? || !written {
      RunStops(t, effects, inputs[1..]);
      return Abort(t).0, effects;
    }
    t := t.(pc := AwaitAuth);
    effects := effects + [SendMessage(Auth(id, reply.value.signature))];
    assert inputs[1..][1..] == inputs[2..];
    assert Run(start, sent, inputs) == Run(t, effects, inputs[2..]);
    assert inputs[2..][1..] == inputs[3..];
    if authRead.TimedOut? || !authRead.value.Message? || !authRead.value.message.Auth? {
      RunStops(t, effects, inputs[2..]);
      return Abort(t).0, effects;
    }
    var peerAuth := authRead.value.message;
    var verified := VerifyAuthMessage(peerAuth.serviceId, peerAuth.signature, peer, hash.value);
    if verified.Err? {
      RunStops(t, effects, inputs[2..]);
      return Abort(t).0, effects;
    }
    t := t.(pc := AwaitAuthorized);
    assert effects + [] == effects;
    assert Run(start, sent, inputs) == Run(t, effects, inputs[3..]);
    assert inputs[3..][1..] == [];
    if authorizedRead.Failed? || authorizedRead.Panicked? {
      RunStops(t, effects, inputs[3..]);
      return Abort(t).0, effects;
    }
    t := t.(pc := Established);
    effects := effects + [Announce(ConnectionInfo(address, peer, Outgoing))];
    assert Run(start, sent, inputs) == Run(t, effects, inputs[3..][1..]);
  }

  method HandleIncoming(id: ServiceId, address: string, secret: EphemeralSecret,
                        keyRead: Awaited<seq<Octet>>, authRead: Awaited<Ready>,
                        reply: Option<ConnectionEvent>, written: bool)
    returns (t: Task, effects: seq<Effect>)
    ensures var (start, sent) := StartServer(id, address, secret);
            (t, effects) == Run(start, sent, [KeyInput(keyRead), ReadInput(authRead), ReplyInput(reply, written)])
    ensures ServerOutcome(t, effects, id, address, secret.publicKey, keyRead, authRead, reply, written)
  {
    ServerComesTo(id, address, secret, keyRead, authRead, reply, written);
    hide ServerOutcome;
    t := Task(Server, id, address, secret, None, None, None, AwaitKey);
    ghost var inputs := [KeyInput(keyRead), ReadInput(authRead), ReplyInput(reply, written)];
    effects := [];
    ghost var start, sent := t, effects;
    assert inputs[0..] == inputs;
    if keyRead.TimedOut? {
      RunStops(t, effects, inputs[0..]);
      return Abort(t).0, effects;
    }
    var key := ReadPeerPublicKey(keyRead.value);
    if key.Err? {
      RunStops(t, effects, inputs[0..]);
      return Abort(t).0, effects;
    }
    effects := effects + [SendKey(KeyPacket(secret.publicKey))];
    var shared := DiffieHellman(secret, key.value);
    t := t.(shared := Some(shared), pc := AwaitAuth);
    assert Run(start, sent, inputs) == Run(t, effects, inputs[1..]);
    assert inputs[1..][1..] == inputs[2..];
    if authRead.TimedOut? || !authRead.value.Message? || !authRead.value.message.Auth? {
      RunStops(t, effects, inputs[1..]);
      return Abort(t).0, effects;
    }
    var peerAuth := authRead.value.message;
    var peer := ParseServiceId(peerAuth.serviceId);
    if peer.None? {
      RunStops(t, effects, inputs[1..]);
      return Abort(t).0, effects;
    }
    var hash := ComputeSessionHash(peer.value, id, shared);
    if hash.Err? {
      RunStops(t, effects, inputs[1..]);
      return Abort(t).0, effects;
    }
    var verified := VerifyAuthMessage(peerAuth.serviceId, peerAuth.signature, peer.value, hash.value);
    if verified.Err? {
      RunStops(t, effects, inputs[1..]);
      return Abort(t).0, effects;
    }
    t := t.(peer := peer, hash := Some(hash.value), pc := AwaitSignature);
    effects := effects + [RequestSignature(AuthData(id, hash.value))];
    assert Run(start, sent, inputs) == Run(t, effects, inputs[2..]);
    assert inputs[2..][1..] == [];
    if reply.None? || !reply.value.SignatureResponse? || !written {
      RunStops(t, effects, inputs[2..]);
      return Abort(t).0, effects;
    }
    t := t.(pc := Established);
    effects := effects + [SendMessage(Auth(id, reply.value.signature)),
                          Announce(ConnectionInfo(address, peer.value, Incoming))];
    assert Run(start, sent, inputs) == Run(t, effects, inputs[2..][1..]);
  }
}
