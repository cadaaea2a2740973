/** The handshake between honest endpoints gets done. Whatever the applications say, whatever else the
    engines serve and however the octets are portioned: as long as nothing times out or breaks the
    stream, neither side gives up, some step of the handshake can be taken until the client has announced
    its connection - unless it waits for a server application that has neither authorised nor closed -
    and only finitely many can be taken before that. */
module Termination {
  import opened Octets
  import opened Crypto
  import opened Packets
  import opened EncryptedChannel
  import opened Events
  import opened Handshake
  import opened EngineActor
  import opened Session
  import opened SessionInvariants
  import opened Delivery
  import opened Progress
  import EngineRuns

  /** Mutual authentication is done: the server is connected, the client awaits its authorisation. */
  predicate Authenticated(p: Pair) {
    p.server.task.pc.Established? && (p.client.task.pc.AwaitAuthorized? || p.client.task.pc.Established?)
  }

  /** The client has got through its authorisation read and has announced its connection. */
  predicate Announced(p: Pair) {
    p.client.task.pc.Established?
  }

  /** Neither task has given up and neither stream has broken; engines sign for their own ids and
      authentication messages fit into a frame. The server may have closed the connection. */
  ghost predicate Smooth(p: Pair) {
    && PairInv(p) && p.client.alive && (p.server.alive || HasLeft(p.server))
    && !p.c2s.cut && !p.s2c.cut && AuthMessagesFit()
  }

  /** An endpoint that has ended because its application closed the connection. */
  ghost predicate HasLeft(s: Side) {
    s.task.pc.Established? && !EngineRuns.NoClose(s.taken)
  }

  /** When the client awaits its authorisation, the applications keep to the order, and the authorisation
      fits into a frame. */
  ghost predicate Orderly(p: Pair) {
    p.client.task.pc.AwaitAuthorized? ==> Disciplined(p) && Fits(Authorized)
  }

  ghost predicate AuthMessagesFit() {
    forall m: WireMessage :: m.Auth? && |m.serviceId| == 56 ==> Fits(m)
  }

  /** A step of a handshake, with the key packet read in one piece: something arrives that is needed,
      something is read, a signature is made or taken, or the server takes its application's answer. */
  predicate HandshakeMove(p: Pair, a: Action) {
    var v := ViewOf(p, a.role);
    match a.move
    case KeyRead(n) => n == KEY_LEN + 2
    case Arrive(n) => AwaitsFrame(v.me) && Deframe(v.me.unread).Incomplete?
    case FrameRead(_, _) => AwaitsFrame(v.me)
    case TakeEvent(_, _) => a.role.Server? && p.client.task.pc.AwaitAuthorized? && |p.server.sent| < 2
    case TakeReply(_, _) => true
    case Poll => v.me.task.pc.AwaitSignature? && REPLY in v.me.engine.mail && v.me.engine.mail[REPLY] == []
    case _ => false
  }

  predicate AwaitsFrame(s: Side) {
    s.task.pc.AwaitAuth? || s.task.pc.AwaitAuthorized?
  }

  /** Anything but a time-out, a stream that breaks, and a key packet read in pieces. */
  predicate Undisturbed(p: Pair, a: Action) {
    var v := ViewOf(p, a.role);
    Enabled(v, a.move) &&
    match a.move
    case KeyRead(n) => n == KEY_LEN + 2
    case Timeout => false
    case Break(_) => false
    case Reset => false
    case _ => true
  }

  // ---------------------------------------------------------------- the distance to the end

  /** How many of its awaits a program has before it. The server verifies before it signs, the
      client after it. */
  function StepsLeft(t: Handshake.Task): nat {
    match t.pc
    case AwaitKey => 4
    case AwaitSignature => if t.role.Client? then 3 else 2
    case AwaitAuth => if t.role.Client? then 2 else 3
    case AwaitAuthorized => 1
    case Established => 0
    case Aborted => 0
  }

  function FrameLength(m: WireMessage): nat {
    LENGTH_SIZE + WireLength(CBOR_LENGTH(m))
  }

  /** The octets of the peer's authentication that an endpoint has not taken in, or the most there can be
      as long as it has not been written. */
  function OctetsMissing(me: Side, peer: Side): nat {
    if me.got > 0 then 0
    else if peer.sent == [] then LONGEST_FRAME
    else if FrameLength(peer.sent[0].message) <= |me.unread| then 0
    else FrameLength(peer.sent[0].message) - |me.unread|
  }

  const LONGEST_FRAME := LENGTH_SIZE + MAX_FRAME_LENGTH

  /** The octets of the server's answer that a client has not taken in; as long as it is not written,
      more than that; nothing when the server has left without one. */
  function AnswerMissing(me: Side, peer: Side): nat {
    if me.task.role.Server? || me.got >= 2 || me.task.pc.Established? then 0
    else if me.got == 0 then LONGEST_FRAME + 1
    else if |peer.sent| < 2 then (if peer.alive then LONGEST_FRAME + 1 else 0)
    else if FrameLength(peer.sent[1].message) <= |me.unread| then 0
    else FrameLength(peer.sent[1].message) - |me.unread|
  }

  function DistanceOf(me: Side, peer: Side): nat {
    StepsLeft(me.task) + StepsLeft(peer.task) + OctetsMissing(me, peer) + OctetsMissing(peer, me) +
    AnswerMissing(me, peer) + AnswerMissing(peer, me)
  }

  function Distance(p: Pair): nat {
    DistanceOf(p.client, p.server)
  }

  predicate IsOwnRequest(post: Post) {
    post.event.SignatureRequest? && post.event.tx == REPLY
  }

  /** How many events the engine has to handle before it has answered this endpoint's request. */
  function Ahead(rx: seq<Post>): nat {
    if rx == [] then 0 else if IsOwnRequest(rx[0]) then 1 else 1 + Ahead(rx[1..])
  }

  function QueueAhead(s: Side): nat {
    if s.task.pc.AwaitSignature? && REPLY in s.engine.mail && s.engine.mail[REPLY] == [] then Ahead(s.engine.rx) else 0
  }

  function QueuesAhead(p: Pair): nat {
    QueueAhead(p.client) + QueueAhead(p.server)
  }

  /** The measure: the distance of the programs, then the events in front of their signature requests. */
  predicate Less(p: Pair, q: Pair) {
    Distance(p) < Distance(q) || (Distance(p) == Distance(q) && QueuesAhead(p) < QueuesAhead(q))
  }

  predicate NotAbove(p: Pair, q: Pair) {
    Distance(p) < Distance(q) || (Distance(p) == Distance(q) && QueuesAhead(p) <= QueuesAhead(q))
  }

  function EventsQueued(p: Pair): nat {
    |p.client.engine.rx| + |p.server.engine.rx|
  }

  lemma {:induction false} AheadOfAppended(rx: seq<Post>, post: Post)
    requires exists i :: 0 <= i < |rx| && IsOwnRequest(rx[i])
    ensures Ahead(rx + [post]) == Ahead(rx)
  {
    if !IsOwnRequest(rx[0]) {
      assert (rx + [post])[1..] == rx[1..] + [post];
      var i :| 0 <= i < |rx| && IsOwnRequest(rx[i]);
      assert IsOwnRequest(rx[1..][i - 1]);
      AheadOfAppended(rx[1..], post);
    }
  }

  // ---------------------------------------------------------------- nothing goes wrong

  lemma SmoothEither(p: Pair, role: Role)
    requires Smooth(p)
    ensures var v, peer := ViewOf(p, role), PeerOf(p, role);
            && Around(v, peer) && v.me.task.role == role
            && (v.me.alive || (role.Server? && HasLeft(v.me))) && (peer.alive || (role.Client? && HasLeft(peer)))
            && !v.inbound.cut && !v.outbound.cut
            && VERIFYING_KEYS(v.me.task.id) == Some(v.me.engine.key) &&
              VERIFYING_KEYS(peer.task.id) == Some(peer.engine.key)
  {
  }

  lemma KeyReadGoesOn(p: Pair, role: Role)
    requires Smooth(p) && Enabled(ViewOf(p, role), KeyRead(KEY_LEN + 2))
    ensures var v := ViewOf(p, role);
            !Handshake.Step(v.me.task, KeyBytes(v.inbound.wire[..KEY_LEN + 2])).0.pc.Aborted?
  {
    hide ReadInv, SideInv;
    var v, peer := ViewOf(p, role), PeerOf(p, role);
    SmoothEither(p, role);
    OnlyTheKeyComes(v, peer);
    KeyPacketRoundTrip(peer.task.secret.publicKey);
    assert v.inbound.wire[..KEY_LEN + 2] == KeyPacket(peer.task.secret.publicKey);
  }

  /** What the two endpoints say of themselves is what they expect of each other. */
  lemma AuthIsAccepted(p: Pair, role: Role)
    requires Smooth(p) && Reading(ViewOf(p, role).me) && ViewOf(p, role).me.task.pc.AwaitAuth? &&
             PeerOf(p, role).sent != []
    ensures !Handshake.Step(ViewOf(p, role).me.task, Handshake.Read(Message(OwnAuth(PeerOf(p, role))))).0.pc.Aborted?
  {
    hide MailInv, ReadInv, StreamInv;
    SmoothEither(p, role);
    SameKey(ViewOf(p, role), PeerOf(p, role));
    if role.Client? {
      SameHash(p);
    }
  }

  lemma AuthReadGoesOn(p: Pair, role: Role)
    requires Smooth(p) && Reading(ViewOf(p, role).me) && ViewOf(p, role).me.task.pc.AwaitAuth?
    requires !CurrentRead(ViewOf(p, role)).0.Pending?
    ensures !Handshake.Step(ViewOf(p, role).me.task, Handshake.Read(CurrentRead(ViewOf(p, role)).0)).0.pc.Aborted?
  {
    var v, peer := ViewOf(p, role), PeerOf(p, role);
    SmoothEither(p, role);
    WhatReadSees(v, peer);
    ClosedMeansWritten(p, role);
    if peer.sent != [] {
      FirstIsOwnAuth(peer);
    }
    FailsOnlyWhenCut(v, peer);
    AuthIsAccepted(p, role);
  }

  /** Who has left has written its authentication before. */
  lemma ClosedMeansWritten(p: Pair, role: Role)
    requires Smooth(p)
    ensures ViewOf(p, role).inbound.closed ==> role.Client? && PeerOf(p, role).sent != [] && !p.server.alive
  {
    hide ReadInv, SentInv, MailInv, SigningInv, InFlight;
  }

  /** An endpoint goes on, or leaves because it was told to. */
  ghost predicate StaysOpen(v: View, v': View) {
    && (v'.me.alive || (v.me.task.role.Server? && HasLeft(v'.me)))
    && v'.inbound.cut == v.inbound.cut && v'.outbound.cut == v.outbound.cut
  }

  /** A program that goes on keeps its stream. */
  lemma GoingOnStaysOpen(v: View, u: View, input: Input, nonce: Nonce, random: nat -> Byte)
    requires v.me.alive && u.me.alive && u.me.task == v.me.task && u.inbound.cut == v.inbound.cut &&
             u.outbound == v.outbound
    requires !Handshake.Step(v.me.task, input).0.pc.Aborted?
    ensures StaysOpen(v, GoOn(u, input, nonce, random))
  {
  }

  lemma ReplyGoesOn(s: Side)
    requires SideInv(s) && s.alive && s.task.pc.AwaitSignature? && REPLY in s.engine.mail && s.engine.mail[REPLY] != []
    ensures var reply := s.engine.mail[REPLY][0];
            reply.SignatureResponse? && !Handshake.Step(s.task, Reply(Some(reply))).0.pc.Aborted?
  {
    AnswerIsOwnSignature(s);
    hide SentInv, MailInv, SigningInv;
  }

  lemma KeyReadStaysOpen(v: View, n: nat)
    requires Enabled(v, KeyRead(n)) && !Handshake.Step(v.me.task, KeyBytes(v.inbound.wire[..n])).0.pc.Aborted?
    ensures StaysOpen(v, Happen(v, KeyRead(n)))
  {
  }

  lemma ReplyStaysOpen(v: View, nonce: Nonce, random: nat -> Byte)
    requires Enabled(v, Move.TakeReply(nonce, random))
    requires var reply := v.me.engine.mail[REPLY][0];
             reply.SignatureResponse? && Fits(Auth(v.me.task.id, reply.signature)) &&
             !Handshake.Step(v.me.task, Reply(Some(reply))).0.pc.Aborted?
    ensures StaysOpen(v, Happen(v, Move.TakeReply(nonce, random)))
  {
  }

  /** Only a client awaits an authorisation. */
  lemma OnlyClientsAwait(p: Pair, role: Role)
    requires Smooth(p) && ViewOf(p, role).me.task.pc.AwaitAuthorized?
    ensures role.Client? && p.client.got == 1
  {
    hide ReadInv, StreamInv, SentInv, MailInv, SigningInv;
  }

  /** The answer that the client reads is an authorisation or the end of the stream. */
  lemma AnswerReadGoesOn(p: Pair)
    requires Smooth(p) && Orderly(p) && p.client.task.pc.AwaitAuthorized? && !CurrentRead(ViewOf(p, Client)).0.Pending?
    ensures !Handshake.Step(p.client.task, Handshake.Read(CurrentRead(ViewOf(p, Client)).0)).0.pc.Aborted?
  {
    hide CurrentRead, Link, SentInv, MailInv, SigningInv;
    FidelityHere(p, Client);
  }

  /** A loop that takes an event goes on, or leaves because it was told to. */
  lemma EventStaysOpen(v: View, peer: Side, nonce: Nonce, random: nat -> Byte)
    requires Around(v, peer) && Enabled(v, Move.TakeEvent(nonce, random)) && v.me.task.role.Server?
    ensures StaysOpen(v, Happen(v, Move.TakeEvent(nonce, random)))
  {
    hide Happen, Link, PcInv, SentInv, SigningInv, Frame;
    AtTheLoop(v, peer);
    TakeEventResult(v, nonce, random);
    var event, me := v.me.engine.mail[MINE][0], Happen(v, Move.TakeEvent(nonce, random)).me;
    assert event in v.me.pushed;
    assert me.taken[|v.me.taken|] == event;
  }

  lemma NobodyGivesUp(p: Pair, a: Action)
    requires Smooth(p) && Orderly(p) && Enabled(ViewOf(p, a.role), a.move) && HandshakeMove(p, a)
    ensures StaysOpen(ViewOf(p, a.role), Happen(ViewOf(p, a.role), a.move))
  {
    hide SigningInv, MailInv, StreamInv, Link, SideInv, PairInv;
    var v := ViewOf(p, a.role);
    SmoothEither(p, a.role);
    match a.move
    case KeyRead(n) =>
      hide Happen, Around;
      KeyReadGoesOn(p, a.role);
      KeyReadStaysOpen(v, n);
    case FrameRead(nonce, random) =>
      hide Happen, Around, GoOn, CurrentRead;
      if v.me.task.pc.AwaitAuth? {
        AuthReadGoesOn(p, a.role);
      } else {
        OnlyClientsAwait(p, a.role);
        AnswerReadGoesOn(p);
      }
      HandshakeReadIs(v, nonce, random);
      GoingOnStaysOpen(v, AfterRead(v), Handshake.Read(CurrentRead(v).0), nonce, random);
    case TakeReply(nonce, random) =>
      hide Happen;
      ReplyGoesOn(v.me);
      AuthFits(p, v.me.task.id, v.me.engine.mail[REPLY][0].signature);
      ReplyStaysOpen(v, nonce, random);
    case TakeEvent(nonce, random) =>
      hide Happen;
      EventStaysOpen(v, PeerOf(p, a.role), nonce, random);
    case _ =>
  }

  lemma AuthFits(p: Pair, id: ServiceId, signature: Signature)
    requires Smooth(p)
    ensures Fits(Auth(id, signature))
  {
  }

  /** No step of an undisturbed handshake makes either side give up. */
  lemma HandshakeGoesOn(p: Pair, a: Action)
    requires Smooth(p) && Orderly(p) && Enabled(ViewOf(p, a.role), a.move) && HandshakeMove(p, a)
    ensures Smooth(Apply(p, a))
  {
    ApplyKeeps(p, a);
    NobodyGivesUp(p, a);
    SmoothEither(p, a.role);
    hide PairInv, Around, Happen, Enabled, HandshakeMove;
  }

  // ---------------------------------------------------------------- every step of a handshake comes closer to its end

  /** What a step changes as far as the measure goes. */
  predicate Closer(me: Side, me': Side, peer: Side) {
    if DistanceOf(me', peer) < DistanceOf(me, peer) then |me'.engine.rx| <= |me.engine.rx| + 1
    else DistanceOf(me', peer) == DistanceOf(me, peer) && QueueAhead(me') < QueueAhead(me) &&
         |me'.engine.rx| + 1 == |me.engine.rx|
  }

  lemma KeyReadIsCloser(v: View, peer: Side)
    requires Around(v, peer) && Enabled(v, KeyRead(KEY_LEN + 2))
    requires !Handshake.Step(v.me.task, KeyBytes(v.inbound.wire[..KEY_LEN + 2])).0.pc.Aborted?
    ensures Closer(v.me, Happen(v, KeyRead(KEY_LEN + 2)).me, peer)
  {
    hide Around, Happen, Handshake.Step;
    KeyReadResult(v, peer, KEY_LEN + 2);
  }

  lemma ArriveIsCloser(v: View, peer: Side, n: nat)
    requires Around(v, peer) && Enabled(v, Move.Arrive(n)) && v.me.task.pc.AwaitAuth? &&
             Deframe(v.me.unread).Incomplete?
    ensures Closer(v.me, Happen(v, Move.Arrive(n)).me, peer)
  {
    hide Deframe, SideInv, ReadInv, Frame;
    var key := Hkdf(v.me.task.shared.value);
    ArrivedIsFrames(v, peer);
    AwaitingAuth(v, peer);
    var ss := peer.sent;
    assert ss[0..] == ss && ss != [];
    if |Frame(key, ss[0])| <= |v.me.unread| {
      assert Frame(key, ss[0]) <= v.me.unread;
      CompleteIsNotTheEnd(key, ss[0], v.me.unread);
    }
  }

  lemma AwaitingAuth(v: View, peer: Side)
    requires Around(v, peer) && v.me.task.pc.AwaitAuth?
    ensures v.me.got == 0
  {
    hide Link;
  }

  /** More of the server's answer comes in. */
  lemma AnswerArrives(v: View, peer: Side, n: nat)
    requires Around(v, peer) && Enabled(v, Move.Arrive(n)) && v.me.task.pc.AwaitAuthorized? &&
             Deframe(v.me.unread).Incomplete?
    ensures Closer(v.me, Happen(v, Move.Arrive(n)).me, peer)
  {
    hide Deframe, ReadInv, Frame, SentInv, MailInv, SigningInv;
    var key, ss := Hkdf(v.me.task.shared.value), peer.sent[v.me.got..];
    ArrivedIsFrames(v, peer);
    assert ss != [] && ss[0] == peer.sent[1];
    if |Frame(key, ss[0])| <= |v.me.unread| {
      assert Frame(key, ss[0]) <= v.me.unread;
      CompleteIsNotTheEnd(key, ss[0], v.me.unread);
    }
  }

  predicate AnnouncedLast(s: Side) {
    s.task.peer.Some? && s.engine.rx != [] && s.engine.rx[|s.engine.rx| - 1] == Post(MINE, NewConnection(Info(s), MINE))
  }

  /** What reading the answer comes to: the client announces its connection. */
  lemma AnswerReadResult(p: Pair, nonce: Nonce, random: nat -> Byte)
    requires Smooth(p) && Orderly(p) && p.client.task.pc.AwaitAuthorized? &&
             Enabled(ViewOf(p, Client), FrameRead(nonce, random))
    ensures var s, me := p.client, Happen(ViewOf(p, Client), FrameRead(nonce, random)).me;
            && me.task == s.task.(pc := Established) && me.alive && me.sent == s.sent && s.got == 1 && me.got >= 1
            && me.task.role.Client? && p.server.task.role.Server?
            && |me.engine.rx| == |s.engine.rx| + 1 && AnnouncedLast(me)
  {
    hide CurrentRead, Happen, PairInv, Around, GoOn;
    var v := ViewOf(p, Client);
    var input := Handshake.Read(CurrentRead(v).0);
    SmoothEither(p, Client);
    OnlyClientsAwait(p, Client);
    AnswerReadGoesOn(p);
    HandshakeReadIs(v, nonce, random);
    var (t, effects) := Handshake.Step(v.me.task, input);
    GoOnWithOne(AfterRead(v), input, nonce, random, t, effects[0]);
  }

  lemma AnswerReadIsCloser(p: Pair, nonce: Nonce, random: nat -> Byte)
    requires Smooth(p) && Orderly(p) && p.client.task.pc.AwaitAuthorized? &&
             Enabled(ViewOf(p, Client), FrameRead(nonce, random))
    ensures Closer(p.client, Happen(ViewOf(p, Client), FrameRead(nonce, random)).me, p.server)
  {
    hide Smooth, Orderly, Happen, Enabled;
    AnswerReadResult(p, nonce, random);
  }

  /** The first word of the server's application is an authorisation or a close. */
  lemma FirstWord(p: Pair)
    requires Smooth(p) && Orderly(p) && p.client.task.pc.AwaitAuthorized? && |p.server.sent| < 2
    requires p.server.alive && p.server.task.pc.Established? && p.server.engine.mail[MINE] != []
    ensures p.server.engine.mail[MINE][0].ConnectionAuthorized? || p.server.engine.mail[MINE][0].CloseConnection?
  {
    hide Link, PcInv, SigningInv;
    var server := p.server;
    AtTheLoop(ViewOf(p, Server), p.client);
    assert |Messages(server.sent)| == |[OwnAuth(server)] + EngineRuns.WritesOf(server.taken)|;
    assert server.taken == server.pushed[..|server.taken|];
    DisciplineOfPrefix(server.pushed, |server.taken|);
    AuthorisationThenChats(server.taken);
    var event := server.engine.mail[MINE][0];
    assert server.pushed[|server.taken|] == event && event in server.pushed;
  }

  /** The server takes its application's answer. */
  lemma AnswerIsCloser(p: Pair, nonce: Nonce, random: nat -> Byte)
    requires Smooth(p) && Orderly(p) && p.client.task.pc.AwaitAuthorized? && |p.server.sent| < 2
    requires Enabled(ViewOf(p, Server), Move.TakeEvent(nonce, random))
    ensures Closer(p.server, Happen(ViewOf(p, Server), Move.TakeEvent(nonce, random)).me, p.client)
  {
    hide Happen, Around, SideInv, Frame, Disciplined;
    var v := ViewOf(p, Server);
    SmoothEither(p, Server);
    OnlyClientsAwait(p, Client);
    AtTheLoop(v, p.client);
    FirstWord(p);
    TakeEventResult(v, nonce, random);
  }

  /** What reading and accepting the peer's authentication comes to. */
  lemma AuthReadResult(p: Pair, role: Role, nonce: Nonce, random: nat -> Byte)
    requires Smooth(p) && ViewOf(p, role).me.task.pc.AwaitAuth? && Enabled(ViewOf(p, role), FrameRead(nonce, random))
    ensures var s, me := ViewOf(p, role).me, Happen(ViewOf(p, role), FrameRead(nonce, random)).me;
            && me.task.role == s.task.role && s.alive && me.alive && me.sent == s.sent && me.pushed == s.pushed &&
              s.got == 0 && me.got == 1
            && (if s.task.role.Client? then me.task.pc.AwaitAuthorized? else me.task.pc.AwaitSignature?)
            && |me.engine.rx| <= |s.engine.rx| + 1
  {
    hide CurrentRead, Happen, PairInv, Around, GoOn;
    var v := ViewOf(p, role);
    var input := Handshake.Read(CurrentRead(v).0);
    SmoothEither(p, role);
    AwaitingAuth(v, PeerOf(p, role));
    AuthReadGoesOn(p, role);
    HandshakeReadIs(v, nonce, random);
    var u := AfterRead(v);
    var (t, effects) := Handshake.Step(v.me.task, input);
    if v.me.task.role.Client? {
      GoOnWithNone(u, input, nonce, random, t);
    } else {
      GoOnWithOne(u, input, nonce, random, t, effects[0]);
    }
  }

  lemma FramesAreShort(p: Pair, role: Role)
    requires Smooth(p)
    ensures forall i :: 0 <= i < |PeerOf(p, role).sent| ==>
            FrameLength(PeerOf(p, role).sent[i].message) <= LONGEST_FRAME
  {
    hide SideInv, ReadInv;
  }

  lemma AuthReadIsCloser(p: Pair, role: Role, nonce: Nonce, random: nat -> Byte)
    requires Smooth(p) && ViewOf(p, role).me.task.pc.AwaitAuth? && Enabled(ViewOf(p, role), FrameRead(nonce, random))
    ensures Closer(ViewOf(p, role).me, Happen(ViewOf(p, role), FrameRead(nonce, random)).me, PeerOf(p, role))
  {
    hide Smooth, Happen, Enabled;
    AuthReadResult(p, role, nonce, random);
    FramesAreShort(p, role);
  }

  lemma ReplyIsCloser(v: View, peer: Side, nonce: Nonce, random: nat -> Byte)
    requires Around(v, peer) && Enabled(v, Move.TakeReply(nonce, random)) && Fits(OwnAuth(v.me))
    ensures Closer(v.me, Happen(v, Move.TakeReply(nonce, random)).me, peer)
  {
    hide Link, Happen, SentInv, MailInv, SigningInv;
    TakeReplyResult(v, nonce, random);
  }

  /** Handling the event in front, in the engine of an endpoint that waits for its signature. */
  lemma PollIsCloser(v: View, peer: Side)
    requires SideInv(v.me) && v.me.alive && Enabled(v, Poll)
    requires v.me.task.pc.AwaitSignature? && REPLY in v.me.engine.mail && v.me.engine.mail[REPLY] == []
    ensures Closer(v.me, Happen(v, Poll).me, peer)
  {
    hide PcInv, SentInv, MailInv;
    hide GoOn, CurrentRead, DistanceOf;
    var me := Happen(v, Poll).me;
    SameDistance(v.me, me, peer);
    assert me.engine.rx == v.me.engine.rx[1..];
    if IsOwnRequest(v.me.engine.rx[0]) {
      assert me.engine.mail[REPLY] != [];
    } else {
      assert me.engine.mail[REPLY] == [];
    }
  }

  lemma HandshakeMoveIsCloser(p: Pair, a: Action)
    requires Smooth(p) && Orderly(p) && Enabled(ViewOf(p, a.role), a.move) && HandshakeMove(p, a)
    ensures Closer(ViewOf(p, a.role).me, Happen(ViewOf(p, a.role), a.move).me, PeerOf(p, a.role))
  {
    hide Happen, Around, Closer;
    var v, peer := ViewOf(p, a.role), PeerOf(p, a.role);
    SmoothEither(p, a.role);
    match a.move
    case KeyRead(n) =>
      KeyReadGoesOn(p, a.role);
      KeyReadIsCloser(v, peer);
    case Arrive(n) =>
      if v.me.task.pc.AwaitAuth? {
        ArriveIsCloser(v, peer, n);
      } else {
        AnswerArrives(v, peer, n);
      }
    case FrameRead(nonce, random) =>
      if v.me.task.pc.AwaitAuth? {
        AuthReadIsCloser(p, a.role, nonce, random);
      } else {
        OnlyClientsAwait(p, a.role);
        AnswerReadIsCloser(p, nonce, random);
      }
    case TakeEvent(nonce, random) => AnswerIsCloser(p, nonce, random);
    case TakeReply(nonce, random) =>
      OwnAuthFits(p, a.role);
      ReplyIsCloser(v, peer, nonce, random);
    case Poll =>
      EachSide(v, peer);
      PollIsCloser(v, peer);
    case _ =>
  }

  lemma EachSide(v: View, peer: Side)
    requires Around(v, peer)
    ensures SideInv(v.me) && SideInv(peer)
  {
  }

  lemma OwnAuthFits(p: Pair, role: Role)
    requires Smooth(p) && ViewOf(p, role).me.task.pc.AwaitSignature?
    ensures ViewOf(p, role).me.task.hash.Some? && Fits(OwnAuth(ViewOf(p, role).me))
  {
    hide Link, SentInv, MailInv, SigningInv;
    var s := ViewOf(p, role).me;
    AuthFits(p, s.task.id, Signature(s.engine.key, OwnData(s)));
  }

  /** Every step of an undisturbed handshake brings it closer to its end. */
  lemma HandshakeStepsRunOut(p: Pair, a: Action)
    requires Smooth(p) && Orderly(p) && Enabled(ViewOf(p, a.role), a.move) && HandshakeMove(p, a)
    ensures Less(Apply(p, a), p)
    ensures 2 * Distance(Apply(p, a)) + EventsQueued(Apply(p, a)) < 2 * Distance(p) + EventsQueued(p)
  {
    hide Smooth, Happen, Enabled, HandshakeMove, OctetsMissing, StepsLeft, QueueAhead;
    HandshakeMoveIsCloser(p, a);
  }

  // ---------------------------------------------------------------- no other step leads away from it

  predicate NoFarther(me: Side, me': Side, peer: Side, posts: nat) {
    DistanceOf(me', peer) <= DistanceOf(me, peer) && QueueAhead(me') <= QueueAhead(me) &&
    |me'.engine.rx| <= |me.engine.rx| + posts
  }

  lemma ArriveIsNoFarther(v: View, peer: Side, n: nat)
    requires Enabled(v, Move.Arrive(n))
    ensures NoFarther(v.me, Happen(v, Move.Arrive(n)).me, peer, 0)
  {
  }

  lemma EngineIsNoFarther(v: View, peer: Side, m: Move)
    requires SideInv(v.me) && (v.me.alive || !v.me.task.pc.AwaitSignature?) && Enabled(v, m) && OfEngine(m)
    requires m.Poll? ==> !(v.me.task.pc.AwaitSignature? && REPLY in v.me.engine.mail && v.me.engine.mail[REPLY] == [])
    ensures NoFarther(v.me, Happen(v, m).me, peer, if m.OtherPost? then 1 else 0)
  {
    hide Happen, DistanceOf;
    EngineOnly(v, m);
    EngineQueue(v, m);
    SameDistance(v.me, Happen(v, m).me, peer);
    hide Enabled;
    if m.OtherPost? && v.me.task.pc.AwaitSignature? && v.me.engine.mail[REPLY] == [] {
      RequestWaits(v.me);
      AheadOfAppended(v.me.engine.rx, m.post);
    }
  }

  /** The distance does not depend on an endpoint's engine. */
  lemma SameDistance(s: Side, s': Side, peer: Side)
    requires EngineApart(s, s')
    ensures DistanceOf(s', peer) == DistanceOf(s, peer)
  {
  }

  lemma RequestWaits(s: Side)
    requires SigningInv(s) && s.alive && s.task.pc.AwaitSignature? && REPLY in s.engine.mail &&
             s.engine.mail[REPLY] == []
    ensures exists i :: 0 <= i < |s.engine.rx| && IsOwnRequest(s.engine.rx[i])
  {
    var i :| 0 <= i < |s.engine.rx| && AsksFor(s.engine.rx[i], OwnData(s));
    assert IsOwnRequest(s.engine.rx[i]);
  }

  lemma EngineQueue(v: View, m: Move)
    requires SigningInv(v.me) && Enabled(v, m) && OfEngine(m)
    ensures var s, me := v.me.engine, Happen(v, m).me.engine;
            && (if m.Poll? then s.rx != [] && me.rx == s.rx[1..]
                else me.rx == if m.OtherPost? then s.rx + [m.post] else s.rx)
            && (REPLY in s.mail <==> REPLY in me.mail)
            && (REPLY in s.mail ==> s.mail[REPLY] <= me.mail[REPLY])
            && (REPLY in s.mail && !m.Poll? ==> s.mail[REPLY] == me.mail[REPLY])
  {
    hide Happen, Enabled, SigningInv;
    if m.Poll? {
      PollQueue(v);
    } else {
      AppQueue(v, m);
    }
  }

  lemma TakeEventIsNoFarther(v: View, peer: Side, nonce: Nonce, random: nat -> Byte)
    requires Around(v, peer) && Enabled(v, Move.TakeEvent(nonce, random))
    ensures NoFarther(v.me, Happen(v, Move.TakeEvent(nonce, random)).me, peer, 0)
  {
    hide Happen, Around, SideInv, Frame, EngineRuns.WritesOf, Messages, DistanceOf;
    AtTheLoop(v, peer);
    TakeEventResult(v, nonce, random);
    WritingIsNoFarther(v.me, Happen(v, Move.TakeEvent(nonce, random)).me, peer);
  }

  /** An endpoint that writes more frames, or leaves, is no farther from the end. */
  lemma WritingIsNoFarther(s: Side, s': Side, peer: Side)
    requires s'.task == s.task && s'.got == s.got && s'.unread == s.unread && s.alive
    requires s.sent <= s'.sent && AllWellSent(s'.sent)
    ensures DistanceOf(s', peer) <= DistanceOf(s, peer)
  {
    assert forall i :: 0 <= i < |s'.sent| ==> FrameLength(s'.sent[i].message) <= LONGEST_FRAME by {
      assert forall i :: 0 <= i < |s'.sent| ==> WellSent(s'.sent[i]);
    }
    hide FrameLength, AllWellSent;
  }

  /** Before the client has announced its connection no loop has anything to read. */
  lemma OnlyHandshakeReads(p: Pair, role: Role, nonce: Nonce, random: nat -> Byte)
    requires Smooth(p) && !Announced(p) && Enabled(ViewOf(p, role), FrameRead(nonce, random))
    ensures AwaitsFrame(ViewOf(p, role).me)
  {
    hide CurrentRead, SigningInv, MailInv;
    var v, peer := ViewOf(p, role), PeerOf(p, role);
    SmoothEither(p, role);
    if !AwaitsFrame(v.me) {
      NothingMoreWritten(p, role);
      ClosedMeansWritten(p, role);
      hide Smooth, Around;
      FailsOnlyWhenCut(v, peer);
      WhatReadSees(v, peer);
    }
  }

  lemma NothingMoreWritten(p: Pair, role: Role)
    requires Smooth(p) && !Announced(p) && Reading(ViewOf(p, role).me) && !AwaitsFrame(ViewOf(p, role).me)
    ensures role.Server? && ViewOf(p, role).me.got == |PeerOf(p, role).sent|
  {
    hide ReadInv, SigningInv, MailInv;
  }

  lemma OtherMoveIsNoFarther(p: Pair, a: Action)
    requires Smooth(p) && !Announced(p) && Undisturbed(p, a) && !HandshakeMove(p, a)
    ensures NoFarther(ViewOf(p, a.role).me, Happen(ViewOf(p, a.role), a.move).me, PeerOf(p, a.role),
                      if a.move.OtherPost? then 1 else 0)
  {
    hide Happen, Around, NoFarther, Announced, Enabled, SigningInv, MailInv, SentInv;
    var v, peer := ViewOf(p, a.role), PeerOf(p, a.role);
    SmoothEither(p, a.role);
    EachSide(v, peer);
    match a.move
    case Arrive(n) => ArriveIsNoFarther(v, peer, n);
    case FrameRead(nonce, random) => OnlyHandshakeReads(p, a.role, nonce, random);
    case TakeEvent(nonce, random) => TakeEventIsNoFarther(v, peer, nonce, random);
    case Poll => EngineIsNoFarther(v, peer, a.move);
    case Say(_) => EngineIsNoFarther(v, peer, a.move);
    case Tell(_, _) => EngineIsNoFarther(v, peer, a.move);
    case OtherPost(_) => EngineIsNoFarther(v, peer, a.move);
    case OtherMail(_) => EngineIsNoFarther(v, peer, a.move);
    case _ =>
  }

  /** Whatever else happens does not take the handshake away from its end. */
  lemma OtherStepsDoNotRaise(p: Pair, a: Action)
    requires Smooth(p) && !Announced(p) && Undisturbed(p, a) && !HandshakeMove(p, a)
    ensures NotAbove(Apply(p, a), p)
    ensures 2 * Distance(Apply(p, a)) + EventsQueued(Apply(p, a)) <=
            2 * Distance(p) + EventsQueued(p) + if a.move.OtherPost? then 1 else 0
  {
    hide Smooth, Happen, Enabled, HandshakeMove, OctetsMissing, StepsLeft, QueueAhead, Announced;
    OtherMoveIsNoFarther(p, a);
  }

  lemma OnlyServersTake(p: Pair, role: Role)
    requires Smooth(p) && !Announced(p) && ViewOf(p, role).me.task.pc.Established?
    ensures role.Server? && ViewOf(p, role).me.task.role.Server?
  {
    hide Around;
  }

  lemma OtherMoveStaysOpen(p: Pair, a: Action)
    requires Smooth(p) && !Announced(p) && Undisturbed(p, a) && !HandshakeMove(p, a)
    ensures StaysOpen(ViewOf(p, a.role), Happen(ViewOf(p, a.role), a.move))
  {
    hide Around, Announced, GoOn;
    var v, peer := ViewOf(p, a.role), PeerOf(p, a.role);
    SmoothEither(p, a.role);
    match a.move
    case Arrive(n) =>
    case FrameRead(nonce, random) => OnlyHandshakeReads(p, a.role, nonce, random);
    case TakeEvent(nonce, random) =>
      OnlyServersTake(p, a.role);
      EventStaysOpen(v, peer, nonce, random);
    case Poll => EngineOnly(v, a.move);
    case Say(_) => EngineOnly(v, a.move);
    case Tell(_, _) => EngineOnly(v, a.move);
    case OtherPost(_) => EngineOnly(v, a.move);
    case OtherMail(_) => EngineOnly(v, a.move);
    case _ =>
  }

  /** Until the client has announced its connection, nothing but a disturbance makes either side give up. */
  lemma UndisturbedStaysSmooth(p: Pair, a: Action)
    requires Smooth(p) && Orderly(p) && !Announced(p) && Undisturbed(p, a)
    ensures Smooth(Apply(p, a))
  {
    if HandshakeMove(p, a) {
      HandshakeGoesOn(p, a);
    } else {
      ApplyKeeps(p, a);
      OtherMoveStaysOpen(p, a);
      SmoothEither(p, a.role);
      hide PairInv, Around, Happen, Enabled, HandshakeMove, Announced;
    }
  }

  // ---------------------------------------------------------------- nothing gets stuck

  /** The next step of a handshake, wherever it stands. */
  function NextMove(p: Pair): Action {
    if p.server.task.pc.AwaitKey? then Action(Server, KeyRead(KEY_LEN + 2))
    else if p.client.task.pc.AwaitKey? then Action(Client, KeyRead(KEY_LEN + 2))
    else if p.client.task.pc.AwaitSignature? then Action(Client, SignMove(p.client))
    else if p.server.task.pc.AwaitSignature? then Action(Server, SignMove(p.server))
    else if p.server.task.pc.AwaitAuth? then Action(Server, ReadMove(ViewOf(p, Server)))
    else if p.client.task.pc.AwaitAuthorized? && p.server.alive && |p.server.sent| < 2 then Action(Server, TakeOne())
    else Action(Client, ReadMove(ViewOf(p, Client)))
  }

  function TakeOne(): Move {
    Move.TakeEvent(seq(12, _ => 0), NoBytes())
  }

  function SignMove(s: Side): Move {
    if REPLY in s.engine.mail && s.engine.mail[REPLY] != [] then Move.TakeReply(seq(12, _ => 0), NoBytes()) else Poll
  }

  lemma KeyExchangeNotStuck(p: Pair)
    requires Smooth(p) && (p.server.task.pc.AwaitKey? || p.client.task.pc.AwaitKey?)
    ensures Enabled(ViewOf(p, NextMove(p).role), NextMove(p).move) && HandshakeMove(p, NextMove(p))
  {
  }

  lemma SigningNotStuck(v: View, peer: Side)
    requires Around(v, peer) && v.me.alive && v.me.task.pc.AwaitSignature?
    ensures REPLY in v.me.engine.mail && Enabled(v, SignMove(v.me))
  {
    hide Link;
  }

  lemma ReadingNotStuck(v: View, peer: Side)
    requires Around(v, peer) && Reading(v.me) && !v.inbound.cut && v.me.got < |peer.sent|
    ensures Enabled(v, ReadMove(v))
  {
    hide CurrentRead, SigningInv;
    if !Deframe(v.me.unread).Incomplete? {
      WholeFrameIsReady(v);
    } else if v.inbound.wire == [] {
      ArriveOrRead(v, peer);
    }
  }

  /** After the key exchange the side to move awaits its signature, or a frame its peer has written. */
  lemma WhoMoves(p: Pair)
    requires Smooth(p) && !Authenticated(p) && !p.server.task.pc.AwaitKey? && !p.client.task.pc.AwaitKey?
    ensures var a := NextMove(p);
            var v := ViewOf(p, a.role);
            if v.me.task.pc.AwaitSignature? then a.move == SignMove(v.me)
            else v.me.task.pc.AwaitAuth? && Reading(v.me) && a.move == ReadMove(v) &&
                 v.me.got < |PeerOf(p, a.role).sent|
  {
  }

  lemma IsHandshakeMove(p: Pair, a: Action)
    requires var v := ViewOf(p, a.role);
             (v.me.task.pc.AwaitSignature? && REPLY in v.me.engine.mail && a.move == SignMove(v.me)) ||
             (AwaitsFrame(v.me) && a.move == ReadMove(v))
    ensures HandshakeMove(p, a)
  {
  }

  lemma AuthenticationNotStuck(p: Pair)
    requires Smooth(p) && !Authenticated(p) && !p.server.task.pc.AwaitKey? && !p.client.task.pc.AwaitKey?
    ensures Enabled(ViewOf(p, NextMove(p).role), NextMove(p).move) && HandshakeMove(p, NextMove(p))
  {
    var role := NextMove(p).role;
    var v, peer := ViewOf(p, role), PeerOf(p, role);
    WhoMoves(p);
    SmoothEither(p, role);
    hide Smooth, Around, Enabled, NextMove, HandshakeMove, SignMove, ReadMove, Authenticated;
    if v.me.task.pc.AwaitSignature? {
      SigningNotStuck(v, peer);
    } else {
      ReadingNotStuck(v, peer);
    }
    IsHandshakeMove(p, NextMove(p));
  }

  /** Until both sides have authenticated each other, some step of the handshake can be taken. */
  lemma HandshakeNeverStuck(p: Pair)
    requires Smooth(p) && !Authenticated(p)
    ensures Enabled(ViewOf(p, NextMove(p).role), NextMove(p).move) && HandshakeMove(p, NextMove(p))
  {
    if p.server.task.pc.AwaitKey? || p.client.task.pc.AwaitKey? {
      KeyExchangeNotStuck(p);
    } else {
      AuthenticationNotStuck(p);
    }
  }

  /** A client at its authorisation read: some step of the handshake can be taken, unless the server's
      application has neither authorised nor closed. */
  lemma AnswerNeverStuck(p: Pair)
    requires Smooth(p) && Orderly(p) && p.client.task.pc.AwaitAuthorized?
    ensures WaitsForServer(p) || (Enabled(ViewOf(p, NextMove(p).role), NextMove(p).move) &&
            HandshakeMove(p, NextMove(p)))
  {
    hide HandshakeMove, ReadMove, CurrentRead;
    var v := ViewOf(p, Client);
    ServerIsDone(p);
    SmoothEither(p, Client);
    if p.client.got < |p.server.sent| {
      ReadingNotStuck(v, p.server);
      IsHandshakeMove(p, NextMove(p));
    } else {
      AllIsRead(p);
      NothingToRead(p);
      if p.server.alive {
        WordOrWait(p);
      } else {
        EndNotStuck(p);
        IsHandshakeMove(p, NextMove(p));
      }
    }
  }

  /** The server has finished its handshake when the client has read its authentication. */
  lemma ServerIsDone(p: Pair)
    requires Smooth(p) && p.client.task.pc.AwaitAuthorized?
    ensures p.server.task.pc.Established? && p.client.got == 1 && Reading(p.client) && 1 <= |p.server.sent|
    ensures !p.client.alive || !p.client.task.pc.AwaitKey?
  {
    hide ReadInv, MailInv, SigningInv, InFlight;
  }

  lemma AllIsRead(p: Pair)
    requires Smooth(p) && p.client.task.pc.AwaitAuthorized? && p.client.got == |p.server.sent|
    ensures p.s2c.wire == [] && (!p.server.alive ==> p.s2c.closed)
  {
    hide SideInv, ReadInv;
    ServerIsDone(p);
    ArrivedIsFrames(ViewOf(p, Client), p.server);
    assert p.server.sent[p.client.got..] == [];
  }

  lemma WordOrWait(p: Pair)
    requires Smooth(p) && p.client.task.pc.AwaitAuthorized? && p.server.alive && p.server.task.pc.Established?
    requires p.s2c.wire == [] && p.client.unread == [] && p.server.taken == [] && |p.server.sent| == p.client.got == 1
    ensures WaitsForServer(p) || (Enabled(ViewOf(p, Server), TakeOne()) && HandshakeMove(p, Action(Server, TakeOne())))
  {
    hide Link, PcInv, SentInv, SigningInv;
  }

  lemma EndNotStuck(p: Pair)
    requires p.s2c.wire == [] && Reading(p.client) && CurrentRead(ViewOf(p, Client)).0.EndOfStream?
    ensures Enabled(ViewOf(p, Client), ReadMove(ViewOf(p, Client)))
  {
    hide CurrentRead;
  }

  /** Before the two sides are authenticated the client does not await its authorisation. */
  lemma ClientIsBehind(p: Pair)
    requires Smooth(p) && !Authenticated(p)
    ensures !Announced(p) && !p.client.task.pc.AwaitAuthorized?
  {
    hide ReadInv, MailInv, SigningInv, InFlight;
  }

  // ---------------------------------------------------------------- to mutual authentication

  /** Handshake steps alone, up to mutual authentication. */
  ghost predicate HandshakeRun(p: Pair, actions: seq<Action>)
    decreases |actions|
  {
    actions == [] ||
    (!Authenticated(p) && Enabled(ViewOf(p, actions[0].role), actions[0].move) && HandshakeMove(p, actions[0]) &&
     HandshakeRun(Apply(p, actions[0]), actions[1..]))
  }

  lemma {:induction false} HandshakeRunIsLegal(p: Pair, actions: seq<Action>)
    requires HandshakeRun(p, actions)
    ensures Legal(p, actions)
    decreases |actions|
  {
    if actions != [] {
      HandshakeRunIsLegal(Apply(p, actions[0]), actions[1..]);
    }
  }

  /** From any undisturbed state handshake steps alone lead to mutual authentication. */
  lemma {:induction false} HandshakeCompletes(p: Pair) returns (actions: seq<Action>)
    requires Smooth(p)
    ensures HandshakeRun(p, actions) && Legal(p, actions)
    ensures Smooth(Exec(p, actions)) && Authenticated(Exec(p, actions))
    decreases Distance(p), QueuesAhead(p)
  {
    hide Smooth, Apply, Enabled, HandshakeMove, Authenticated, Distance, QueuesAhead;
    if Authenticated(p) {
      actions := [];
    } else {
      var a := NextMove(p);
      ClientIsBehind(p);
      HandshakeNeverStuck(p);
      HandshakeGoesOn(p, a);
      HandshakeStepsRunOut(p, a);
      var rest := HandshakeCompletes(Apply(p, a));
      actions := [a] + rest;
      assert actions[1..] == rest;
    }
  }

  // ---------------------------------------------------------------- every run

  /** How far a run is followed: to mutual authentication, or on to the announcement at the client. */
  datatype Goal = Authentication | Announcement

  ghost predicate Reached(p: Pair, g: Goal) {
    if g.Authentication? then Authenticated(p) else Announced(p)
  }

  /** On the way to the announcement the applications keep to the order. */
  ghost predicate KeepsOrder(p: Pair, g: Goal) {
    g.Announcement? ==> Disciplined(p) && Fits(Authorized)
  }

  lemma OnTheWay(p: Pair, g: Goal)
    requires Smooth(p) && !Reached(p, g) && KeepsOrder(p, g)
    ensures !Announced(p) && Orderly(p)
  {
    hide Smooth, Authenticated, Disciplined;
    if g.Authentication? {
      ClientIsBehind(p);
    }
  }

  /** A run without disturbance, up to its goal. */
  ghost predicate UndisturbedRun(p: Pair, actions: seq<Action>, g: Goal)
    decreases |actions|
  {
    actions == [] ||
    (!Reached(p, g) && KeepsOrder(p, g) && Undisturbed(p, actions[0]) &&
     UndisturbedRun(Apply(p, actions[0]), actions[1..], g))
  }

  ghost function HandshakeMoves(p: Pair, actions: seq<Action>, g: Goal): nat
    requires UndisturbedRun(p, actions, g)
    decreases |actions|
  {
    if actions == [] then 0
    else (if HandshakeMove(p, actions[0]) then 1 else 0) + HandshakeMoves(Apply(p, actions[0]), actions[1..], g)
  }

  function OtherPosts(actions: seq<Action>): nat {
    if actions == [] then 0 else (if actions[0].move.OtherPost? then 1 else 0) + OtherPosts(actions[1..])
  }

  /** Every undisturbed run takes a bounded number of handshake steps: what other connections add to
      the engines' queues is all that adds to the bound. */
  lemma {:induction false} HandshakeMovesAreBounded(p: Pair, actions: seq<Action>, g: Goal)
    requires Smooth(p) && UndisturbedRun(p, actions, g)
    ensures Legal(p, actions) && Smooth(Exec(p, actions))
    ensures HandshakeMoves(p, actions, g) <= 2 * Distance(p) + EventsQueued(p) + OtherPosts(actions)
    decreases |actions|
  {
    hide Smooth, Apply, HandshakeMove, Reached, KeepsOrder, Orderly, Announced, Distance, EventsQueued;
    if actions != [] {
      OnTheWay(p, g);
      UndisturbedStaysSmooth(p, actions[0]);
      if HandshakeMove(p, actions[0]) {
        HandshakeStepsRunOut(p, actions[0]);
      } else {
        OtherStepsDoNotRaise(p, actions[0]);
      }
      HandshakeMovesAreBounded(Apply(p, actions[0]), actions[1..], g);
    }
  }

  /** One step of an unending run: undisturbed as long as its goal is not reached. */
  ghost predicate Continues(p: Pair, a: Action, p': Pair, g: Goal) {
    Reached(p, g) || (KeepsOrder(p, g) && Undisturbed(p, a) && p' == Apply(p, a))
  }

  ghost predicate StepAt(states: nat -> Pair, actions: nat -> Action, k: nat, g: Goal) {
    Continues(states(k), actions(k), states(k + 1), g)
  }

  /** Handshake steps are not put off for ever: after every point at which the client does not wait for
      the server's application one is taken, unless the goal is reached. One can be taken at every
      such point, see `HandshakeNeverStuck` and `AnswerNeverStuck`. */
  ghost predicate Fair(states: nat -> Pair, actions: nat -> Action, g: Goal) {
    forall i: nat :: GoesOnOrWaits(states, actions, i, g)
  }

  ghost predicate GoesOnOrWaits(states: nat -> Pair, actions: nat -> Action, i: nat, g: Goal) {
    (g.Announcement? && WaitsForServer(states(i))) || GoesOnAfter(states, actions, i, g)
  }

  ghost predicate GoesOnAfter(states: nat -> Pair, actions: nat -> Action, i: nat, g: Goal) {
    exists j: nat :: i <= j && (Reached(states(j), g) || HandshakeMove(states(j), actions(j)))
  }

  /** The server's application has spoken, if that is what the goal takes. */
  predicate Spoken(p: Pair, g: Goal) {
    g.Announcement? ==> p.server.pushed != []
  }

  lemma WordsRemain(p: Pair, a: Action)
    requires Enabled(ViewOf(p, a.role), a.move)
    ensures p.server.pushed <= Apply(p, a).server.pushed
  {
    hide GoOn;
  }

  /** No other step brings the client to its announcement. */
  lemma OtherStepsDoNotReach(p: Pair, a: Action, g: Goal)
    requires Smooth(p) && Orderly(p) && !Announced(p) && !Reached(p, g) && Undisturbed(p, a) && !HandshakeMove(p, a)
    ensures !Reached(Apply(p, a), g)
  {
    hide Smooth, GoOn, CurrentRead, Orderly;
    if a.move.FrameRead? {
      OnlyHandshakeReads(p, a.role, a.move.nonce, a.move.random);
    }
  }

  /** From one handshake step to the next. */
  lemma WalkOn(states: nat -> Pair, actions: nat -> Action, i: nat, g: Goal) returns (k: nat)
    requires forall n: nat :: StepAt(states, actions, n, g)
    requires Fair(states, actions, g) && Smooth(states(i)) && !Reached(states(i), g) && Spoken(states(i), g)
    ensures Smooth(states(k)) && NotAbove(states(k), states(i)) && !Reached(states(k), g) && Spoken(states(k), g)
    ensures HandshakeMove(states(k), actions(k)) && Undisturbed(states(k), actions(k)) && KeepsOrder(states(k), g)
  {
    hide Smooth, HandshakeMove, Reached, Announced, Undisturbed, Orderly, KeepsOrder, Distance, QueuesAhead, Apply;
    assert GoesOnOrWaits(states, actions, i, g);
    hide Fair;
    var j: nat :| i <= j && (Reached(states(j), g) || HandshakeMove(states(j), actions(j)));
    k := i;
    while k < j && !HandshakeMove(states(k), actions(k))
      invariant i <= k <= j && Smooth(states(k)) && NotAbove(states(k), states(i))
      invariant !Reached(states(k), g) && Spoken(states(k), g)
    {
      assert StepAt(states, actions, k, g);
      OneOtherStep(states(k), actions(k), g);
      k := k + 1;
    }
    assert StepAt(states, actions, k, g);
  }

  lemma OneOtherStep(p: Pair, a: Action, g: Goal)
    requires Smooth(p) && !Reached(p, g) && KeepsOrder(p, g) && Spoken(p, g) && Undisturbed(p, a) &&
             !HandshakeMove(p, a)
    ensures var p' := Apply(p, a);
            Smooth(p') && NotAbove(p', p) && !Reached(p', g) && Spoken(p', g)
  {
    hide Smooth, HandshakeMove, Reached, Announced, Orderly, KeepsOrder, Distance, QueuesAhead, Apply;
    OnTheWay(p, g);
    UndisturbedStaysSmooth(p, a);
    OtherStepsDoNotRaise(p, a);
    OtherStepsDoNotReach(p, a, g);
    WordsRemain(p, a);
  }

  /** The handshake step that reaches the announcement is the client's read, which has posted it. */
  lemma ReachingAnnounces(p: Pair, a: Action)
    requires Smooth(p) && Orderly(p) && !Announced(p) && Undisturbed(p, a) && HandshakeMove(p, a) &&
             Announced(Apply(p, a))
    ensures AnnouncedLast(Apply(p, a).client)
  {
    hide Smooth, Orderly, Around, GoOn, CurrentRead;
    var v, peer := ViewOf(p, a.role), PeerOf(p, a.role);
    SmoothEither(p, a.role);
    match a.move
    case KeyRead(n) =>
      KeyReadGoesOn(p, a.role);
      hide Happen, Handshake.Step;
      KeyReadResult(v, peer, n);
    case FrameRead(nonce, random) =>
      hide Happen;
      if v.me.task.pc.AwaitAuth? {
        AuthReadResult(p, a.role, nonce, random);
      } else {
        OnlyClientsAwait(p, a.role);
        AnswerReadResult(p, nonce, random);
      }
    case TakeReply(nonce, random) =>
      hide Happen;
      OwnAuthFits(p, a.role);
      EachSide(v, peer);
      TakeReplyResult(v, nonce, random);
    case _ =>
  }

  ghost predicate Arrived(p: Pair, g: Goal) {
    Smooth(p) && Reached(p, g) && (g.Announcement? ==> AnnouncedLast(p.client))
  }

  lemma {:induction false} FromHereOn(states: nat -> Pair, actions: nat -> Action, i: nat, g: Goal) returns (n: nat)
    requires forall k: nat :: StepAt(states, actions, k, g)
    requires Fair(states, actions, g) && Smooth(states(i)) && !Reached(states(i), g) && Spoken(states(i), g)
    ensures Arrived(states(n), g)
    decreases Distance(states(i)), QueuesAhead(states(i))
  {
    hide Smooth, HandshakeMove, Announced, Authenticated, Orderly, KeepsOrder, Distance, QueuesAhead, Apply, Fair;
    var k := WalkOn(states, actions, i, g);
    assert StepAt(states, actions, k, g);
    OnTheWay(states(k), g);
    UndisturbedStaysSmooth(states(k), actions(k));
    HandshakeStepsRunOut(states(k), actions(k));
    WordsRemain(states(k), actions(k));
    if Reached(states(k + 1), g) {
      if g.Announcement? {
        ReachingAnnounces(states(k), actions(k));
      }
      return k + 1;
    }
    n := FromHereOn(states, actions, k + 1, g);
  }

  /** Progress. Every unending run from a dialled connection that is not disturbed and does not put the
      handshake off for ever reaches a state where both sides are authenticated, under one hash of one
      secret - whatever the applications, the other connections and the network do in between. The
      server has not ended, unless it was told to. */
  lemma HandshakeTerminates(states: nat -> Pair, actions: nat -> Action) returns (n: nat)
    requires Init(states(0)) && AuthMessagesFit()
    requires forall k: nat :: StepAt(states, actions, k, Authentication)
    requires Fair(states, actions, Authentication)
    ensures Authenticated(states(n)) && states(n).client.alive
    ensures states(n).server.alive || !EngineRuns.NoClose(states(n).server.taken)
    ensures var p := states(n);
            p.client.task.hash == p.server.task.hash && p.client.task.hash.Some? &&
            p.client.task.shared == p.server.task.shared && p.server.task.peer == Some(p.client.task.id)
  {
    InitHolds(states(0));
    n := FromHereOn(states, actions, 0, Authentication);
    SameHash(states(n));
  }

  /** To the point where the server's application has spoken, or the goal is reached before. */
  lemma WalkTo(states: nat -> Pair, actions: nat -> Action, m: nat, g: Goal) returns (k: nat)
    requires forall n: nat :: StepAt(states, actions, n, g)
    requires Smooth(states(0)) && !Reached(states(0), g) && states(m).server.pushed != []
    ensures Arrived(states(k), g) || (Smooth(states(k)) && !Reached(states(k), g) && Spoken(states(k), g))
  {
    hide Smooth, HandshakeMove, Announced, Authenticated, Orderly, KeepsOrder, Apply;
    k := 0;
    while k < m
      invariant k <= m && Smooth(states(k)) && !Reached(states(k), g)
    {
      assert StepAt(states, actions, k, g);
      OnTheWay(states(k), g);
      UndisturbedStaysSmooth(states(k), actions(k));
      if Reached(states(k + 1), g) {
        if !HandshakeMove(states(k), actions(k)) {
          OtherStepsDoNotReach(states(k), actions(k), g);
        } else if g.Announcement? {
          ReachingAnnounces(states(k), actions(k));
        }
        return k + 1;
      }
      k := k + 1;
    }
  }

  /** Every unending run from a dialled connection that is not disturbed, does not put the handshake off
      for ever, and on which the server's application authorises the client or closes the connection at
      some time, reaches a state where the client has announced its connection; and it has read an
      authorisation if and only if the server took one from its application. */
  lemma ClientIsAnnounced(states: nat -> Pair, actions: nat -> Action, m: nat) returns (n: nat)
    requires Init(states(0)) && AuthMessagesFit() && states(m).server.pushed != []
    requires forall k: nat :: StepAt(states, actions, k, Announcement)
    requires Fair(states, actions, Announcement)
    ensures Announced(states(n)) && states(n).client.alive && AnnouncedLast(states(n).client)
    ensures var p := states(n);
            p.client.task.hash == p.server.task.hash && p.client.task.hash.Some? &&
            p.client.task.shared == p.server.task.shared && p.server.task.peer == Some(p.client.task.id)
    ensures states(n).client.got >= 2 <==> Authorises(states(n).server.taken)
  {
    InitHolds(states(0));
    assert StepAt(states, actions, 0, Announcement);
    n := WalkTo(states, actions, m, Announcement);
    if !Arrived(states(n), Announcement) {
      n := FromHereOn(states, actions, n, Announcement);
    }
    AnnouncedTogether(states(n));
    AuthorisedHere(states(n));
  }

  lemma AnnouncedTogether(p: Pair)
    requires Smooth(p) && Announced(p)
    ensures p.client.task.hash == p.server.task.hash && p.client.task.hash.Some?
    ensures p.client.task.shared == p.server.task.shared && p.server.task.peer == Some(p.client.task.id)
  {
    hide MailInv, SigningInv, ReadInv, InFlight;
    SameHash(p);
  }
}
