/** What every step of a connection keeps, whatever the applications, the engines' other
    connections and the network do. */
module SessionInvariants {
  import opened Octets
  import opened Crypto
  import opened Packets
  import opened EncryptedChannel
  import opened Events
  import opened Handshake
  import opened ConnectionLoop
  import opened EngineActor
  import opened Session
  import Agreement
  import EngineRuns

  // ---------------------------------------------------------------- one endpoint

  /** The endpoint's own authentication message and the signature in it. */
  function OwnData(s: Side): seq<Octet>
    requires s.task.hash.Some?
  {
    AuthData(s.task.id, s.task.hash.value)
  }

  function OwnAuth(s: Side): WireMessage
    requires s.task.hash.Some?
  {
    Auth(s.task.id, Signature(s.engine.key, OwnData(s)))
  }

  /** Where the program stands says what has been written and read. */
  ghost predicate PcInv(s: Side) {
    var t := s.task;
    && Agreement.LocalsInv(t)
    && (s.alive ==> !t.pc.Aborted?)
    && (t.pc.AwaitKey? ==> t.shared.None? && s.sent == [] && s.got == 0 && s.unread == [])
    && (t.pc.AwaitSignature? ==> s.sent == [] && s.got == if t.role.Client? then 0 else 1)
    && (t.pc.AwaitAuth? ==> t.shared.Some? && s.got == 0 && if t.role.Client? then |s.sent| == 1 else s.sent == [])
    && (t.pc.AwaitAuthorized? ==> |s.sent| == 1 && s.got == 1)
    && (t.pc.Established? ==> s.sent != [] && s.got >= 1 && (t.role.Client? ==> s.got >= 2 || s.sawEnd))
    && (t.peer.Some? && t.role.Server? ==> s.got >= 1)
    && (!t.pc.Established? ==> s.taken == [])
    && (s.sawEnd ==> t.role.Client? && (t.pc.Established? || t.pc.Aborted?))
  }

  ghost predicate SentInv(s: Side) {
    && AllWellSent(s.sent)
    && (s.sent != [] ==>
          s.task.hash.Some? && s.task.shared.Some? && Messages(s.sent) == [OwnAuth(s)] + EngineRuns.WritesOf(s.taken))
    && (s.sent == [] ==> s.taken == [])
    && (s.sent != [] && s.task.role.Server? ==> s.got >= 1)
    && (s.got >= 1 ==> s.task.shared.Some? && (s.task.role.Client? ==> s.sent != []))
  }

  ghost predicate MailInv(s: Side) {
    && s.taken <= s.pushed
    && (MINE in s.engine.mail ==> s.pushed == s.taken + s.engine.mail[MINE])
    && (s.alive ==> MINE in s.engine.mail && EngineRuns.NoClose(s.taken))
    && EngineRuns.NoSignature(s.pushed)
  }

  predicate AsksFor(p: Post, data: seq<Octet>) {
    p.event.SignatureRequest? && p.event.tx == REPLY && p.event.data == data
  }

  ghost predicate SigningInv(s: Side) {
    && (forall id :: id in s.engine.channels ==> s.engine.channels[id] != REPLY)
    && (forall i :: 0 <= i < |s.engine.rx| && s.engine.rx[i].event.NewConnection? ==> s.engine.rx[i].event.tx != REPLY)
    && (forall i :: 0 <= i < |s.engine.rx| && s.engine.rx[i].event.SignatureRequest? ==>
          s.engine.rx[i].event.tx != MINE)
    && (s.task.hash.None? ==>
          forall i :: 0 <= i < |s.engine.rx| && s.engine.rx[i].event.SignatureRequest? ==>
            s.engine.rx[i].event.tx != REPLY)
    && (s.task.hash.Some? ==>
          forall i ::
            0 <= i < |s.engine.rx| && s.engine.rx[i].event.SignatureRequest? && s.engine.rx[i].event.tx == REPLY ==>
              s.engine.rx[i].event.data == OwnData(s))
    && (s.alive && s.task.pc.AwaitSignature? ==>
          s.task.hash.Some? && REPLY in s.engine.mail && Waiting(s) &&
          forall e :: e in s.engine.mail[REPLY] ==> e == SignatureResponse(Signature(s.engine.key, OwnData(s))))
  }

  /** A signing task has its request in the queue or its answer in the mailbox. */
  ghost predicate Waiting(s: Side)
    requires REPLY in s.engine.mail && s.task.hash.Some?
  {
    s.engine.mail[REPLY] != [] || exists i :: 0 <= i < |s.engine.rx| && AsksFor(s.engine.rx[i], OwnData(s))
  }

  ghost predicate SideInv(s: Side) {
    PcInv(s) && SentInv(s) && MailInv(s) && SigningInv(s)
  }

  // ---------------------------------------------------------------- one direction

  function ChatsOf(ms: seq<WireMessage>): seq<ChatMessage> {
    if ms == [] then []
    else ChatsOf(ms[..|ms| - 1]) + if ms[|ms| - 1].Chat? then [ms[|ms| - 1].chat] else []
  }

  /** The connection's chats that wait in the engine's queue. */
  function QueuedChats(rx: seq<Post>): seq<ChatMessage> {
    if rx == [] then []
    else (if rx[0].source == MINE && rx[0].event.ChatArrived? then [rx[0].event.chat] else []) + QueuedChats(rx[1..])
  }

  /** What x has written and y has not read, as octets. */
  ghost function InFlight(x: Side, y: Side): seq<Octet>
    requires AllWellSent(x.sent) && y.got <= |x.sent| && (x.sent != [] ==> x.task.shared.Some?)
  {
    (if KeySent(x) && !KeyKnown(y) then KeyPacket(x.task.secret.publicKey) else []) +
    (if x.sent == [] then [] else Frames(Hkdf(x.task.shared.value), x.sent[y.got..]))
  }

  /** The stream from x to y: in flight is what was written and not read, or a beginning of it when
      octets were lost. */
  ghost predicate StreamInv(x: Side, y: Side, pipe: Pipe) {
    && AllWellSent(x.sent) && y.got <= |x.sent|
    && (x.sent != [] ==> x.task.shared.Some? && KeyKnown(y))
    && (KeyKnown(y) ==> KeySent(x))
    && (x.task.shared.Some? ==> x.task.shared.value == DiffieHellman(x.task.secret, y.task.secret.publicKey))
    && (pipe.cut ==> pipe.closed)
    && (!x.alive ==> pipe.closed) && (pipe.closed && !pipe.cut ==> !x.alive)
    && (y.alive ==> y.unread + pipe.wire <= InFlight(x, y))
    && (y.alive && !pipe.cut ==> y.unread + pipe.wire == InFlight(x, y))
  }

  ghost predicate ReadInv(x: Side, y: Side, pipe: Pipe)
    requires y.got <= |x.sent|
  {
    && ChatsOf(Messages(x.sent[..y.got])) == y.yielded + QueuedChats(y.engine.rx)
    && (y.sawEnd && y.alive ==> pipe.wire == [] && Deframe(y.unread).Incomplete?)
    && (y.sawEnd ==> pipe.closed && y.got == 1 && (!pipe.cut ==> |x.sent| == 1))
    && (y.task.role.Client? && y.got >= 2 ==> x.sent[1].message.Authorized?)
    && (y.task.role.Server? && y.task.peer.Some? ==> y.task.peer == Some(x.task.id))
  }

  ghost predicate Link(x: Side, y: Side, pipe: Pipe) {
    StreamInv(x, y, pipe) && ReadInv(x, y, pipe)
  }

  // ---------------------------------------------------------------- both

  ghost predicate Around(v: View, peer: Side) {
    && SideInv(v.me) && SideInv(peer)
    && Link(peer, v.me, v.inbound) && Link(v.me, peer, v.outbound)
    && v.me.task.role != peer.task.role
  }

  ghost predicate PairInv(p: Pair) {
    && p.client.task.role.Client? && p.server.task.role.Server?
    && Around(ViewOf(p, Client), p.server)
    && p.client.task.peer == Some(p.server.task.id)
    && VERIFYING_KEYS(p.client.task.id) == Some(p.client.engine.key)
    && VERIFYING_KEYS(p.server.task.id) == Some(p.server.engine.key)
  }

  lemma InitHolds(p: Pair)
    requires Init(p)
    ensures PairInv(p)
  {
    hide QueuedChats;
    NoChatsQueued(p.client.engine.rx);
    NoChatsQueued(p.server.engine.rx);
  }

  lemma {:induction false} NoChatsQueued(rx: seq<Post>)
    requires forall i :: 0 <= i < |rx| ==> rx[i].source != MINE
    ensures QueuedChats(rx) == []
  {
    if rx != [] {
      NoChatsQueued(rx[1..]);
    }
  }

  lemma {:induction false} QueuedChatsAppend(rx: seq<Post>, more: seq<Post>)
    ensures QueuedChats(rx + more) == QueuedChats(rx) + QueuedChats(more)
  {
    if rx == [] {
      assert rx + more == more;
    } else {
      assert (rx + more)[1..] == rx[1..] + more;
      QueuedChatsAppend(rx[1..], more);
    }
  }

  lemma ChatsOfAppend(ms: seq<WireMessage>, m: WireMessage)
    ensures ChatsOf(ms + [m]) == ChatsOf(ms) + if m.Chat? then [m.chat] else []
  {
  }

  // ---------------------------------------------------------------- steps of the engine

  predicate OfEngine(m: Move) {
    m.Poll? || m.Say? || m.Tell? || m.OtherPost? || m.OtherMail?
  }

  /** What belongs to an endpoint for good. */
  predicate SameEndpoint(a: Side, b: Side) {
    && a.task.role == b.task.role && a.task.id == b.task.id && a.task.secret == b.task.secret
    && a.engine.key == b.engine.key && (a.task.role.Client? ==> a.task.peer == b.task.peer)
  }

  /** The chats the engine has returned, followed by those it still has queued. */
  lemma PollMovesChats(v: View)
    requires Enabled(v, Poll)
    ensures var me := Happen(v, Poll).me;
            me.yielded + QueuedChats(me.engine.rx) == v.me.yielded + QueuedChats(v.me.engine.rx)
  {
    var me := Happen(v, Poll).me;
    var p := v.me.engine.rx[0];
    var mine := if p.source == MINE && p.event.ChatArrived? then [p.event.chat] else [];
    assert me.engine.rx == v.me.engine.rx[1..];
    assert me.yielded == v.me.yielded + mine;
    assert QueuedChats(v.me.engine.rx) == mine + QueuedChats(me.engine.rx);
  }

  lemma PollKeepsMail(v: View)
    requires MailInv(v.me) && SigningInv(v.me) && Enabled(v, Poll)
    ensures MailInv(Happen(v, Poll).me)
  {
    hide EngineRuns.NoClose, EngineRuns.NoSignature;
    assert MINE in v.me.engine.mail <==> MINE in Happen(v, Poll).me.engine.mail;
  }

  lemma PollKeepsSigning(v: View)
    requires SigningInv(v.me) && Enabled(v, Poll)
    ensures SigningInv(Happen(v, Poll).me)
  {
    var s, s' := v.me, Happen(v, Poll).me;
    assert s'.engine.rx == s.engine.rx[1..];
    if s.alive && s.task.pc.AwaitSignature? && s.engine.mail[REPLY] == [] && !AsksFor(s.engine.rx[0], OwnData(s)) {
      var i :| 0 <= i < |s.engine.rx| && AsksFor(s.engine.rx[i], OwnData(s));
      assert AsksFor(s'.engine.rx[i - 1], OwnData(s'));
    }
  }

  lemma PollKeepsSide(v: View)
    requires SideInv(v.me) && Enabled(v, Poll)
    ensures SideInv(Happen(v, Poll).me)
  {
    hide Happen, Enabled, MailInv, SigningInv;
    PollKeepsMail(v);
    PollKeepsSigning(v);
    EngineOnly(v, Poll);
  }

  lemma AppKeepsMail(v: View, m: Move)
    requires MailInv(v.me) && Enabled(v, m) && OfEngine(m) && !m.Poll?
    ensures MailInv(Happen(v, m).me)
  {
    hide SigningInv;
  }

  lemma PollQueue(v: View)
    requires Enabled(v, Poll)
    ensures var s, me := v.me.engine, Happen(v, Poll).me.engine;
            && s.rx != [] && me.rx == s.rx[1..]
            && (REPLY in s.mail <==> REPLY in me.mail) && (REPLY in s.mail ==> s.mail[REPLY] <= me.mail[REPLY])
  {
  }

  /** What the application and the other connections do does not reach the channel of `sign_data`. */
  lemma AppQueue(v: View, m: Move)
    requires SigningInv(v.me) && Enabled(v, m) && OfEngine(m) && !m.Poll?
    ensures var s, me := v.me.engine, Happen(v, m).me.engine;
            && me.rx == (if m.OtherPost? then s.rx + [m.post] else s.rx) && me.channels == s.channels
            && SameBox(me.mail, s.mail, REPLY)
    ensures m.OtherPost? && (m.post.event.SignatureRequest? || m.post.event.NewConnection?) ==>
              m.post.event.tx != MINE && m.post.event.tx != REPLY
  {
    hide GoOn, CurrentRead, Frame;
    assert forall id :: id in v.me.engine.channels ==> v.me.engine.channels[id] != REPLY;
    hide SigningInv;
  }

  lemma AppKeepsSigning(v: View, m: Move)
    requires SigningInv(v.me) && Enabled(v, m) && OfEngine(m) && !m.Poll?
    ensures SigningInv(Happen(v, m).me)
  {
    hide Happen, Enabled;
    var s, s' := v.me, Happen(v, m).me;
    EngineOnly(v, m);
    AppQueue(v, m);
    if s.alive && s.task.pc.AwaitSignature? && s.engine.mail[REPLY] == [] {
      var i :| 0 <= i < |s.engine.rx| && AsksFor(s.engine.rx[i], OwnData(s));
      assert AsksFor(s'.engine.rx[i], OwnData(s'));
    }
  }

  lemma AppKeepsSide(v: View, m: Move)
    requires SideInv(v.me) && Enabled(v, m) && OfEngine(m) && !m.Poll?
    ensures SideInv(Happen(v, m).me)
  {
    hide Happen, Enabled, MailInv, SigningInv;
    AppKeepsMail(v, m);
    AppKeepsSigning(v, m);
    EngineOnly(v, m);
  }

  lemma EngineKeepsChats(v: View, m: Move)
    requires Enabled(v, m) && OfEngine(m)
    ensures var me := Happen(v, m).me;
            me.yielded + QueuedChats(me.engine.rx) == v.me.yielded + QueuedChats(v.me.engine.rx)
  {
    if m.Poll? {
      PollMovesChats(v);
    } else if m.OtherPost? {
      QueuedChatsAppend(v.me.engine.rx, [m.post]);
      assert [m.post][1..] == [];
    }
  }

  lemma EngineKeeps(v: View, peer: Side, m: Move)
    requires Around(v, peer) && Enabled(v, m) && OfEngine(m)
    ensures Around(Happen(v, m), peer) && SameEndpoint(v.me, Happen(v, m).me)
  {
    if m.Poll? {
      PollKeepsSide(v);
    } else {
      AppKeepsSide(v, m);
    }
    EngineKeepsChats(v, m);
    EngineOnly(v, m);
    OnlyEngineDiffers(v, Happen(v, m).me, peer);
  }

  /** Two endpoints that differ in their engine at most. */
  predicate EngineApart(s: Side, s': Side) {
    s' == s.(engine := s'.engine, pushed := s'.pushed, yielded := s'.yielded)
  }

  lemma EngineOnly(v: View, m: Move)
    requires Enabled(v, m) && OfEngine(m)
    ensures var v' := Happen(v, m);
            v' == v.(me := v'.me) && EngineApart(v.me, v'.me) && v'.me.engine.key == v.me.engine.key
  {
    hide GoOn, CurrentRead, ReadFails, Turned, Session.Read, Session.Send, Session.End;
    match m
    case Poll =>
    case Say(_) =>
    case Tell(_, _) =>
    case OtherPost(_) =>
    case OtherMail(_) =>
  }

  lemma OnlyEngineDiffers(v: View, s: Side, peer: Side)
    requires Around(v, peer) && SideInv(s) && EngineApart(v.me, s)
    requires s.yielded + QueuedChats(s.engine.rx) == v.me.yielded + QueuedChats(v.me.engine.rx)
    ensures Around(v.(me := s), peer)
  {
    hide SideInv, Frames, ChatsOf;
    assert InFlight(peer, s) == InFlight(peer, v.me);
    assert InFlight(s, peer) == InFlight(v.me, peer);
  }

  // ---------------------------------------------------------------- octets move

  lemma UnreadKeepsSide(s: Side, unread: seq<Octet>)
    requires SideInv(s) && !s.task.pc.AwaitKey?
    ensures SideInv(s.(unread := unread))
  {
  }

  lemma ArriveKeepsStream(x: Side, y: Side, pipe: Pipe, n: nat)
    requires StreamInv(x, y, pipe) && n <= |pipe.wire|
    ensures StreamInv(x, y.(unread := y.unread + pipe.wire[..n]), pipe.(wire := pipe.wire[n..]))
  {
    assert y.unread + pipe.wire[..n] + pipe.wire[n..] == y.unread + pipe.wire;
    assert InFlight(x, y.(unread := y.unread + pipe.wire[..n])) == InFlight(x, y);
  }

  lemma ArriveKeeps(v: View, peer: Side, n: nat)
    requires Around(v, peer) && Enabled(v, Move.Arrive(n))
    ensures Around(Happen(v, Move.Arrive(n)), peer) && SameEndpoint(v.me, Happen(v, Move.Arrive(n)).me)
  {
    hide StreamInv, SideInv;
    var me := v.me.(unread := v.me.unread + v.inbound.wire[..n]);
    UnreadKeepsSide(v.me, me.unread);
    ArriveKeepsStream(peer, v.me, v.inbound, n);
    LinkForWriter(v.me, me, peer, v.outbound);
  }

  lemma BreakKeeps(v: View, peer: Side, keep: nat)
    requires Around(v, peer) && Enabled(v, Break(keep))
    ensures Around(Happen(v, Break(keep)), peer) && SameEndpoint(v.me, Happen(v, Break(keep)).me)
  {
    hide SideInv, Frames, ChatsOf, QueuedChats, Deframe;
    var v' := Happen(v, Break(keep));
    assert v'.me.unread + v'.inbound.wire <= v.me.unread + v.inbound.wire;
  }

  /** A task ends, with or without having read one more frame: nothing is lost on the way out. */
  lemma DeadKeeps(v: View, peer: Side, v': View)
    requires Around(v, peer)
    requires SideInv(v'.me) && !v'.me.alive && v'.me.sent == v.me.sent && v'.me.task == v.me.task.(pc := v'.me.task.pc)
    requires v'.me.got <= |peer.sent|
    requires ChatsOf(Messages(peer.sent[..v'.me.got])) == v'.me.yielded + QueuedChats(v'.me.engine.rx)
    requires v'.me.task.role.Client? && v'.me.got >= 2 ==> peer.sent[1].message.Authorized?
    requires v'.me.sawEnd ==> v.inbound.closed && v'.me.got == 1 && (!v.inbound.cut ==> |peer.sent| == 1)
    requires v'.outbound == v.outbound.(closed := true)
    requires v'.inbound == v.inbound.(wire := v'.inbound.wire)
    ensures Around(v', peer)
  {
    hide SideInv;
    WriterEnds(v.me, v'.me, peer, v.outbound);
    hide InFlight;
  }

  lemma WriterEnds(x: Side, x': Side, y: Side, pipe: Pipe)
    requires Link(x, y, pipe) && x'.sent == x.sent && !x'.alive && x'.task == x.task.(pc := x'.task.pc)
    ensures Link(x', y, pipe.(closed := true))
  {
  }

  lemma SameBytes(x: Side, y: Side, pipe: Pipe, octets: seq<Octet>, x': Side)
    requires StreamInv(x, y, pipe) && x.alive && x'.alive
    requires AllWellSent(x'.sent) && |x.sent| <= |x'.sent| && (x'.sent != [] ==> x'.task.shared.Some? && KeyKnown(y))
    requires x'.task.role == x.task.role && x'.task.secret == x.task.secret && (KeyKnown(y) ==> KeySent(x'))
    requires x'.task.shared.Some? ==> x'.task.shared.value == DiffieHellman(x'.task.secret, y.task.secret.publicKey)
    requires InFlight(x', y) == InFlight(x, y) + octets
    ensures StreamInv(x', y, Write(pipe, octets))
  {
    var pipe' := Write(pipe, octets);
    hide InFlight, AllWellSent;
    if y.alive {
      if pipe.closed {
        assert y.unread + pipe.wire <= InFlight(x', y);
      } else {
        assert y.unread + pipe'.wire == y.unread + pipe.wire + octets;
      }
    }
  }

  /** One more frame is written. */
  lemma SendKeeps(x: Side, y: Side, pipe: Pipe, s: Sent)
    requires Link(x, y, pipe) && x.alive && x.task.shared.Some? && KeyKnown(y) && WellSent(s)
    ensures Link(x.(sent := x.sent + [s]), y, Write(pipe, Frame(Hkdf(x.task.shared.value), s)))
  {
    hide Frame;
    var x' := x.(sent := x.sent + [s]);
    var key := Hkdf(x.task.shared.value);
    assert x'.sent[y.got..] == x.sent[y.got..] + [s];
    FramesAppend(key, x.sent[y.got..], s);
    assert x.sent == [] ==> x.sent[y.got..] == [];
    assert InFlight(x', y) == InFlight(x, y) + Frame(key, s);
    SameBytes(x, y, pipe, Frame(key, s), x');
    assert x'.sent[..y.got] == x.sent[..y.got];
  }

  // ---------------------------------------------------------------- reading a frame

  /** A read of what has arrived, when what has arrived and what is under way are the frames `ss`
      or, after a break, a beginning of them. */
  lemma ReadOfFrames(key: SymmetricKey, kind: MessageKind, ss: seq<Sent>, unread: seq<Octet>, wire: seq<Octet>,
                     closed: bool)
    requires AllWellSent(ss) && unread + wire <= Frames(key, ss)
    ensures var (result, rest) := ReadOne(key, kind, unread, closed);
            match result
            case Message(m) =>
              && ss != [] && ss[0].message == m && m.Kind() == kind
              && rest + wire <= Frames(key, ss[1..])
              && (unread + wire == Frames(key, ss) ==> rest + wire == Frames(key, ss[1..]))
            case EndOfStream => rest == unread && Deframe(rest).Incomplete? && closed &&
                                (unread == Frames(key, ss) ==> ss == [])
            case Pending => rest == unread
            case Failed(e) => e == Deserialization || e == BytesRemaining
            case Panicked => false
  {
    hide ReadOne, Deframe, Frame;
    assert unread == (unread + wire)[..|unread|];
    ReadHead(key, kind, ss, unread, closed);
    if ss != [] && Frame(key, ss[0]) <= unread {
      var f := Frame(key, ss[0]);
      assert Frames(key, ss)[|f|..] == Frames(key, ss[1..]);
      assert (unread + wire)[|f|..] == unread[|f|..] + wire;
    }
  }

  /** Both ends of the stream have the same key. */
  lemma SameKey(v: View, peer: Side)
    requires Around(v, peer) && v.me.task.shared.Some? && peer.task.shared.Some?
    ensures peer.task.shared == v.me.task.shared
  {
    assert peer.task.shared.value.pair == v.me.task.shared.value.pair;
  }

  lemma FlightIsFrames(v: View, peer: Side, got: nat)
    requires Around(v, peer) && v.me.task.shared.Some? && got <= |peer.sent|
    ensures InFlight(peer, v.me.(got := got)) == Frames(Hkdf(v.me.task.shared.value), peer.sent[got..])
  {
    hide Frame;
    if peer.sent != [] {
      SameKey(v, peer);
    }
  }

  /** What has arrived at a framed reader and what is under way to it are frames of its peer. */
  lemma ArrivedIsFrames(v: View, peer: Side)
    requires Around(v, peer) && v.me.alive && v.me.task.shared.Some?
    ensures var all := Frames(Hkdf(v.me.task.shared.value), peer.sent[v.me.got..]);
            && v.me.unread + v.inbound.wire <= all && v.me.unread <= all
            && (!v.inbound.cut ==> v.me.unread + v.inbound.wire == all)
            && (!v.inbound.cut && v.inbound.wire == [] ==> v.me.unread == all)
  {
    FlightIsFrames(v, peer, v.me.got);
    hide SideInv, ReadInv, Frames, InFlight;
    assert v.me.(got := v.me.got) == v.me;
    assert v.me.unread == (v.me.unread + v.inbound.wire)[..|v.me.unread|];
    assert v.inbound.wire == [] ==> v.me.unread + v.inbound.wire == v.me.unread;
  }

  lemma FlightAfterNext(v: View, peer: Side)
    requires Around(v, peer) && v.me.task.shared.Some? && v.me.got < |peer.sent|
    ensures InFlight(peer, v.me.(got := v.me.got + 1)) ==
            Frames(Hkdf(v.me.task.shared.value), peer.sent[v.me.got..][1..])
  {
    hide SideInv, ReadInv, Frames, InFlight;
    FlightIsFrames(v, peer, v.me.got + 1);
    assert peer.sent[v.me.got..][1..] == peer.sent[v.me.got + 1..];
  }

  /** What a read on a framed stream between the two endpoints can return. */
  lemma WhatReadSees(v: View, peer: Side)
    requires Around(v, peer) && Reading(v.me)
    ensures var (result, rest) := CurrentRead(v);
            match result
            case Message(m) =>
              && v.me.got < |peer.sent| && peer.sent[v.me.got].message == m && m.Kind() == Expected(v.me.task.pc)
              && rest + v.inbound.wire <= InFlight(peer, v.me.(got := v.me.got + 1))
              && (!v.inbound.cut ==> rest + v.inbound.wire == InFlight(peer, v.me.(got := v.me.got + 1)))
            case EndOfStream => rest == v.me.unread && Deframe(rest).Incomplete? && v.inbound.closed &&
                                v.inbound.wire == [] && (!v.inbound.cut ==> v.me.got == |peer.sent|)
            case Pending => rest == v.me.unread
            case Failed(e) => e == Deserialization || e == BytesRemaining
            case Panicked => false
  {
    hide ReadOne, Frames, InFlight, Deframe, SideInv, ReadInv;
    var ss := peer.sent[v.me.got..];
    ArrivedIsFrames(v, peer);
    if ss != [] {
      FlightAfterNext(v, peer);
    }
    assert AllWellSent(peer.sent) && v.me.got <= |peer.sent| && (peer.sent != [] ==> peer.task.shared.Some?);
    hide Around, AllWellSent;
    ReadOfFrames(Hkdf(v.me.task.shared.value), Expected(v.me.task.pc), ss, v.me.unread, v.inbound.wire,
                 v.inbound.closed && v.inbound.wire == []);
  }

  // ---------------------------------------------------------------- the handshake goes on

  /** Another signature request or announcement does not touch the chats. */
  lemma PostKeepsChats(rx: seq<Post>, event: EngineEvent)
    requires !event.ChatArrived?
    ensures QueuedChats(rx + [Post(MINE, event)]) == QueuedChats(rx)
  {
    QueuedChatsAppend(rx, [Post(MINE, event)]);
    assert [Post(MINE, event)][1..] == [];
  }

  lemma GoOnAborted(v: View, input: Input, nonce: Nonce, random: nat -> Byte)
    requires Handshake.Step(v.me.task, input) == Abort(v.me.task)
    ensures GoOn(v, input, nonce, random) == End(v.(me := v.me.(task := v.me.task.(pc := Aborted))))
  {
  }

  lemma GoOnWithNone(v: View, input: Input, nonce: Nonce, random: nat -> Byte, t: Handshake.Task)
    requires Handshake.Step(v.me.task, input) == (t, []) && !t.pc.Aborted?
    ensures GoOn(v, input, nonce, random) == v.(me := v.me.(task := t))
  {
  }

  lemma GoOnWithOne(v: View, input: Input, nonce: Nonce, random: nat -> Byte, t: Handshake.Task, effect: Effect)
    requires Handshake.Step(v.me.task, input) == (t, [effect]) && !t.pc.Aborted?
    ensures GoOn(v, input, nonce, random) == Perform(v.(me := v.me.(task := t)), effect, nonce, random)
  {
    var w := v.(me := v.me.(task := t));
    assert [effect][..0] == [];
    assert PerformAll(w, [effect][..0], nonce, random) == w;
    assert PerformAll(w, [effect], nonce, random) == Perform(w, effect, nonce, random);
  }

  lemma GoOnWithTwo(v: View, input: Input, nonce: Nonce, random: nat -> Byte, t: Handshake.Task, first: Effect,
                    second: Effect)
    requires Handshake.Step(v.me.task, input) == (t, [first, second]) && !t.pc.Aborted?
    ensures GoOn(v, input, nonce, random) ==
            Perform(Perform(v.(me := v.me.(task := t)), first, nonce, random), second, nonce, random)
  {
    var w := v.(me := v.me.(task := t));
    assert [first, second][..1] == [first] && [first][..0] == [];
    assert PerformAll(w, [first][..0], nonce, random) == w;
    assert PerformAll(w, [first], nonce, random) == Perform(w, first, nonce, random);
    assert PerformAll(w, [first, second], nonce, random) ==
           Perform(PerformAll(w, [first, second][..1], nonce, random), second, nonce, random);
  }

  /** The endpoint u as it is when its handshake has given up. */
  function GivenUp(u: View): View {
    End(u.(me := u.me.(task := u.me.task.(pc := Aborted))))
  }

  /** What may differ between an endpoint that awaits and one that has just read what it refuses. */
  ghost predicate JustRead(s: Side, u: Side) {
    && u == s.(unread := u.unread, got := u.got, sawEnd := u.sawEnd, engine := u.engine)
    && u.engine == s.engine.(mail := u.engine.mail)
    && SameBox(u.engine.mail, s.engine.mail, MINE)
    && (u.sawEnd ==> u.task.role.Client?)
    && s.got <= u.got
    && (u.got >= 1 ==> u.task.shared.Some? && (u.task.role.Client? ==> u.sent != []))
  }

  lemma AbortKeepsSide(s: Side, u: View)
    requires SideInv(s) && s.alive && !s.task.pc.Established? && JustRead(s, u.me)
    ensures SideInv(GivenUp(u).me)
  {
  }

  /** A handshake gives up, possibly after reading one frame that it refused. */
  lemma AbortKeeps(v: View, peer: Side, u: View)
    requires Around(v, peer) && v.me.alive && !v.me.task.pc.Established? && JustRead(v.me, u.me)
    requires u.me.got <= |peer.sent|
    requires ChatsOf(Messages(peer.sent[..u.me.got])) == ChatsOf(Messages(peer.sent[..v.me.got]))
    requires u.me.task.role.Client? && u.me.got >= 2 ==> peer.sent[1].message.Authorized?
    requires u.me.sawEnd ==> v.inbound.closed && u.me.got == 1 && (!v.inbound.cut ==> |peer.sent| == 1)
    requires u.outbound == v.outbound && u.inbound == v.inbound.(wire := u.inbound.wire)
    ensures Around(GivenUp(u), peer) && SameEndpoint(v.me, GivenUp(u).me)
  {
    AbortKeepsSide(v.me, u);
    DeadKeeps(v, peer, GivenUp(u));
  }

  lemma TimeoutKeeps(v: View, peer: Side)
    requires Around(v, peer) && Enabled(v, Timeout)
    ensures Around(Happen(v, Timeout), peer) && SameEndpoint(v.me, Happen(v, Timeout).me)
  {
    hide SigningInv, SentInv, ReadInv, StreamInv;
    GoOnAborted(v, Failure, seq(12, _ => 0), NoBytes());
    AbortKeeps(v, peer, v);
  }

  /** A direction does not depend on where its writer's program stands or on its engine. */
  lemma LinkForWriter(x: Side, x': Side, y: Side, pipe: Pipe)
    requires Link(x, y, pipe) && x'.sent == x.sent && x'.alive == x.alive
    requires x'.task.role == x.task.role && x'.task.id == x.task.id && x'.task.secret == x.task.secret &&
             x'.task.shared == x.task.shared
    ensures Link(x', y, pipe)
  {
  }

  /** Nor on where its reader's program stands, as long as what was read stays the same. */
  lemma StreamForReader(x: Side, y: Side, y': Side, pipe: Pipe)
    requires StreamInv(x, y, pipe) && y'.unread == y.unread && y'.got == y.got && y'.alive == y.alive
    requires y'.task.secret == y.task.secret && y'.task.shared == y.task.shared
    ensures StreamInv(x, y', pipe)
  {
  }

  // ---------------------------------------------------------------- the key exchange

  /** While an endpoint waits for its peer's key, nothing but that key can be on its way to it. */
  lemma OnlyTheKeyComes(v: View, peer: Side)
    requires Around(v, peer) && v.me.alive && v.me.task.pc.AwaitKey?
    ensures v.me.unread == [] && peer.sent == []
    ensures v.inbound.wire <= if KeySent(peer) then KeyPacket(peer.task.secret.publicKey) else []
    ensures !v.inbound.cut ==> v.inbound.wire == if KeySent(peer) then KeyPacket(peer.task.secret.publicKey) else []
  {
    assert v.me.unread + v.inbound.wire == v.inbound.wire;
  }

  lemma KeyReadKeepsStreams(v: View, peer: Side, t: Handshake.Task, me: Side)
    requires Around(v, peer) && v.me.alive && v.me.task.pc.AwaitKey?
    requires v.inbound.wire == KeyPacket(peer.task.secret.publicKey)
    requires t.shared == Some(DiffieHellman(v.me.task.secret, peer.task.secret.publicKey))
    requires t.role == v.me.task.role && t.secret == v.me.task.secret && t.id == v.me.task.id
    requires me == v.me.(task := t, engine := me.engine)
    ensures StreamInv(peer, me, v.inbound.(wire := []))
    ensures t.role.Client? ==> StreamInv(me, peer, v.outbound)
    ensures t.role.Server? ==> StreamInv(me, peer, Write(v.outbound, KeyPacket(t.secret.publicKey)))
  {
    OnlyTheKeyComes(v, peer);
    assert InFlight(peer, me) == [];
    if t.role.Client? {
      assert InFlight(me, peer) == InFlight(v.me, peer);
    } else {
      assert InFlight(me, peer) == InFlight(v.me, peer) + KeyPacket(t.secret.publicKey);
      SameBytes(v.me, peer, v.outbound, KeyPacket(t.secret.publicKey), me);
    }
  }

  lemma RequestKeepsSide(s: Side, t: Handshake.Task, got: nat, unread: seq<Octet>)
    requires SideInv(s) && s.alive && s.sent == [] && s.task.hash.None? && !s.sawEnd
    requires t.hash.Some? && t.pc.AwaitSignature? && Agreement.LocalsInv(t) && t.role == s.task.role
    requires got == if t.role.Client? then 0 else 1
    ensures var me := PostOne(View(s.(task := t, got := got, unread := unread,
                                           engine := s.engine.(mail := s.engine.mail[REPLY := []])),
                                   Pipe([], false, false), Pipe([], false, false)),
                              SignatureRequest(REPLY, AuthData(t.id, t.hash.value))).me;
            SideInv(me)
  {
    var event := SignatureRequest(REPLY, AuthData(t.id, t.hash.value));
    var me := s.(task := t, got := got, unread := unread,
                 engine := s.engine.(mail := s.engine.mail[REPLY := []], rx := s.engine.rx + [Post(MINE, event)]));
    assert AsksFor(me.engine.rx[|s.engine.rx|], OwnData(me));
  }

  /** The read of the key exchange returned something else than the peer's whole key packet, or the
      ids name no keys: the handshake is given up. */
  lemma KeyReadAborts(v: View, peer: Side, n: nat)
    requires Around(v, peer) && Enabled(v, KeyRead(n))
    requires Handshake.Step(v.me.task, KeyBytes(v.inbound.wire[..n])).0.pc.Aborted?
    ensures Around(Happen(v, KeyRead(n)), peer) && SameEndpoint(v.me, Happen(v, KeyRead(n)).me)
  {
    hide SigningInv, MailInv, ReadInv, StreamInv;
    var u := v.(inbound := v.inbound.(wire := v.inbound.wire[n..]));
    ReadSoFar(v, peer);
    GoOnAborted(u, KeyBytes(v.inbound.wire[..n]), seq(12, _ => 0), NoBytes());
    hide GoOn, Link, SideInv;
    AbortKeeps(v, peer, u);
  }

  /** What taking in the peer's key comes to. */
  lemma KeyReadResult(v: View, peer: Side, n: nat)
    requires Around(v, peer) && Enabled(v, KeyRead(n))
    requires !Handshake.Step(v.me.task, KeyBytes(v.inbound.wire[..n])).0.pc.Aborted?
    ensures var v', t := Happen(v, KeyRead(n)), Handshake.Step(v.me.task, KeyBytes(v.inbound.wire[..n])).0;
            && v.inbound.wire == KeyPacket(peer.task.secret.publicKey)
            && t.shared == Some(DiffieHellman(v.me.task.secret, peer.task.secret.publicKey))
            && t == v.me.task.(shared := t.shared, hash := t.hash, pc := t.pc)
            && if t.role.Server? then
                 t.pc.AwaitAuth? && t.hash.None? &&
                 v' == View(v.me.(task := t), v.inbound.(wire := []), Write(v.outbound, KeyPacket(t.secret.publicKey)))
               else
                 t.pc.AwaitSignature? && t.hash.Some? &&
                 v' == PostOne(View(v.me.(task := t, engine := v.me.engine.(mail := v.me.engine.mail[REPLY := []])),
                                    v.inbound.(wire := []), v.outbound),
                               SignatureRequest(REPLY, AuthData(t.id, t.hash.value)))
  {
    hide Link, SentInv, MailInv, SigningInv, GoOn, ParseKeyPacket;
    var bytes := v.inbound.wire[..n];
    OnlyTheKeyComes(v, peer);
    KeyPacketUnsplittable(peer.task.secret.publicKey, bytes);
    KeyPacketRoundTrip(peer.task.secret.publicKey);
    var (t, effects) := Handshake.Step(v.me.task, KeyBytes(bytes));
    assert bytes == KeyPacket(peer.task.secret.publicKey);
    assert v.inbound.wire == bytes && v.inbound.wire[n..] == [];
    GoOnWithOne(v.(inbound := v.inbound.(wire := v.inbound.wire[n..])), KeyBytes(bytes), seq(12, _ => 0), NoBytes(),
      t, effects[0]);
  }

  /** The states on both sides of a key read fit together, given that the reader's own is sound. */
  lemma KeyReadLinks(v: View, peer: Side, t: Handshake.Task, v': View)
    requires Around(v, peer) && v.me.alive && v.me.task.pc.AwaitKey? && SideInv(v'.me)
    requires v.inbound.wire == KeyPacket(peer.task.secret.publicKey)
    requires t.shared == Some(DiffieHellman(v.me.task.secret, peer.task.secret.publicKey))
    requires t == v.me.task.(shared := t.shared, hash := t.hash, pc := t.pc)
    requires v'.me == v.me.(task := t, engine := v'.me.engine) &&
             QueuedChats(v'.me.engine.rx) == QueuedChats(v.me.engine.rx)
    requires v'.inbound == v.inbound.(wire := [])
    requires v'.outbound == if t.role.Client? then v.outbound else Write(v.outbound, KeyPacket(t.secret.publicKey))
    ensures Around(v', peer)
  {
    KeyReadKeepsStreams(v, peer, t, v'.me);
    ReadSoFar(v, peer);
    hide StreamInv, InFlight;
  }

  lemma KeyReadKeepsSide(v: View, peer: Side, n: nat)
    requires Around(v, peer) && Enabled(v, KeyRead(n))
    requires !Handshake.Step(v.me.task, KeyBytes(v.inbound.wire[..n])).0.pc.Aborted?
    ensures SideInv(Happen(v, KeyRead(n)).me) && SameEndpoint(v.me, Happen(v, KeyRead(n)).me)
    ensures QueuedChats(Happen(v, KeyRead(n)).me.engine.rx) == QueuedChats(v.me.engine.rx)
  {
    hide Happen, Handshake.Step, Link;
    var t := Handshake.Step(v.me.task, KeyBytes(v.inbound.wire[..n])).0;
    KeyReadResult(v, peer, n);
    Agreement.StepKeepsLocals(v.me.task, KeyBytes(v.inbound.wire[..n]));
    if t.role.Client? {
      RequestKeepsSide(v.me, t, 0, v.me.unread);
      PostKeepsChats(v.me.engine.rx, SignatureRequest(REPLY, AuthData(t.id, t.hash.value)));
    }
  }

  lemma KeyReadGoesOnWell(v: View, peer: Side, n: nat)
    requires Around(v, peer) && Enabled(v, KeyRead(n))
    requires !Handshake.Step(v.me.task, KeyBytes(v.inbound.wire[..n])).0.pc.Aborted?
    ensures Around(Happen(v, KeyRead(n)), peer) && SameEndpoint(v.me, Happen(v, KeyRead(n)).me)
  {
    hide Happen, Handshake.Step, Around;
    KeyReadResult(v, peer, n);
    KeyReadKeepsSide(v, peer, n);
    var t := Handshake.Step(v.me.task, KeyBytes(v.inbound.wire[..n])).0;
    KeyReadLinks(v, peer, t, Happen(v, KeyRead(n)));
  }

  lemma KeyReadKeeps(v: View, peer: Side, n: nat)
    requires Around(v, peer) && Enabled(v, KeyRead(n))
    ensures Around(Happen(v, KeyRead(n)), peer) && SameEndpoint(v.me, Happen(v, KeyRead(n)).me)
  {
    hide Happen, Around;
    if Handshake.Step(v.me.task, KeyBytes(v.inbound.wire[..n])).0.pc.Aborted? {
      KeyReadAborts(v, peer, n);
    } else {
      KeyReadGoesOnWell(v, peer, n);
    }
  }

  // ---------------------------------------------------------------- writing frames

  /** A program past its key exchange has a peer that is past its own, or has just sent its key. */
  lemma PeerKnowsKey(v: View, peer: Side)
    requires Around(v, peer) && v.me.alive && v.me.task.shared.Some? && !v.me.task.pc.AwaitAuth?
    ensures KeyKnown(peer)
  {
  }

  lemma MessagesAppend(ss: seq<Sent>, s: Sent)
    ensures Messages(ss + [s]) == Messages(ss) + [s.message]
  {
  }

  /** What the engine has answered is the signature that was asked for. */
  lemma AnswerIsOwnSignature(s: Side)
    requires SigningInv(s) && s.alive && s.task.pc.AwaitSignature? && REPLY in s.engine.mail &&
             s.engine.mail[REPLY] != []
    ensures s.task.hash.Some? && s.engine.mail[REPLY][0] == SignatureResponse(Signature(s.engine.key, OwnData(s)))
  {
    assert s.engine.mail[REPLY][0] in s.engine.mail[REPLY];
  }

  lemma ReplyKeepsSide(s: Side, t: Handshake.Task, frame: Sent, rx: seq<Post>,
                       mail: map<Events.Channel, seq<ConnectionEvent>>)
    requires SideInv(s) && s.alive && s.task.pc.AwaitSignature? && WellSent(frame) && frame.message == OwnAuth(s)
    requires t == s.task.(pc := if s.task.role.Client? then AwaitAuth else Established)
    requires SameBox(mail, s.engine.mail, MINE)
    requires rx == s.engine.rx || (exists info :: rx == s.engine.rx + [Post(MINE, NewConnection(info, MINE))])
    ensures SideInv(s.(task := t, sent := s.sent + [frame], engine := s.engine.(rx := rx, mail := mail)))
  {
  }

  /** One endpoint has written one frame and gone on. */
  lemma WroteKeeps(v: View, peer: Side, frame: Sent, me: Side)
    requires Around(v, peer) && v.me.alive && v.me.task.shared.Some? && KeyKnown(peer) && WellSent(frame)
    requires SideInv(me) && me.sent == v.me.sent + [frame]
    requires me.task == v.me.task.(pc := me.task.pc)
    requires me.unread == v.me.unread && me.got == v.me.got && me.alive && me.sawEnd == v.me.sawEnd &&
             me.yielded == v.me.yielded
    requires QueuedChats(me.engine.rx) == QueuedChats(v.me.engine.rx)
    ensures Around(View(me, v.inbound, Write(v.outbound, Frame(Hkdf(v.me.task.shared.value), frame))), peer)
  {
    hide SideInv, Frame;
    SendKeeps(v.me, peer, v.outbound, frame);
    LinkForWriter(v.me.(sent := v.me.sent + [frame]), me, peer, Write(v.outbound,
      Frame(Hkdf(v.me.task.shared.value), frame)));
    StreamForReader(peer, v.me, me, v.inbound);
  }

  /** What taking the signature comes to when the authentication message fits into a frame. */
  lemma TakeReplyResult(v: View, nonce: Nonce, random: nat -> Byte)
    requires SideInv(v.me) && Enabled(v, Move.TakeReply(nonce, random)) && v.me.task.hash.Some? && Fits(OwnAuth(v.me))
    requires v.me.task.shared.Some? && v.me.task.peer.Some?
    ensures var s, v' := v.me, Happen(v, Move.TakeReply(nonce, random));
            var frame := Sent(OwnAuth(s), nonce, Filler(OwnAuth(s), random));
            && v' == View(s.(task := v'.me.task, sent := s.sent + [frame],
                             engine := s.engine.(rx := v'.me.engine.rx, mail := s.engine.mail - {REPLY})),
                          v.inbound, Write(v.outbound, Frame(Hkdf(s.task.shared.value), frame)))
            && v'.me.task == s.task.(pc := if s.task.role.Client? then AwaitAuth else Established)
            && v'.me.engine.rx == s.engine.rx +
               if s.task.role.Client? then [] else [Post(MINE, NewConnection(Info(s), MINE))]
  {
    hide SigningInv, SentInv, Frame;
    var s := v.me;
    var reply := s.engine.mail[REPLY][0];
    AnswerIsOwnSignature(s);
    var u := v.(me := s.(engine := s.engine.(mail := s.engine.mail - {REPLY})));
    var (t, effects) := Handshake.Step(s.task, Reply(Some(reply)));
    if s.task.role.Client? {
      GoOnWithOne(u, Reply(Some(reply)), nonce, random, t, effects[0]);
    } else {
      GoOnWithTwo(u, Reply(Some(reply)), nonce, random, t, effects[0], effects[1]);
    }
  }

  lemma TakeReplyKeeps(v: View, peer: Side, nonce: Nonce, random: nat -> Byte)
    requires Around(v, peer) && Enabled(v, Move.TakeReply(nonce, random)) && Fits(OwnAuth(v.me))
    ensures Around(Happen(v, Move.TakeReply(nonce, random)), peer)
    ensures SameEndpoint(v.me, Happen(v, Move.TakeReply(nonce, random)).me)
  {
    hide Happen, Frame, SigningInv, MailInv, SentInv, ReadInv;
    var s := v.me;
    var frame := Sent(OwnAuth(s), nonce, Filler(OwnAuth(s), random));
    TakeReplyResult(v, nonce, random);
    var v' := Happen(v, Move.TakeReply(nonce, random));
    if s.task.role.Server? {
      PostKeepsChats(s.engine.rx, NewConnection(Info(s), MINE));
    }
    PeerKnowsKey(v, peer);
    ReplyKeepsSide(s, v'.me.task, frame, v'.me.engine.rx, v'.me.engine.mail);
    WroteKeeps(v, peer, frame, v'.me);
  }

  lemma TakeReplyAborts(v: View, peer: Side, nonce: Nonce, random: nat -> Byte)
    requires Around(v, peer) && Enabled(v, Move.TakeReply(nonce, random)) && !Fits(OwnAuth(v.me))
    ensures Around(Happen(v, Move.TakeReply(nonce, random)), peer)
    ensures SameEndpoint(v.me, Happen(v, Move.TakeReply(nonce, random)).me)
  {
    hide SigningInv, ReadInv, InFlight, Agreement.LocalsInv;
    AnswerIsOwnSignature(v.me);
    var u := v.(me := v.me.(engine := v.me.engine.(mail := v.me.engine.mail - {REPLY})));
    GoOnAborted(u, Failure, nonce, random);
    AbortKeeps(v, peer, u);
  }

  lemma EventKeepsSide(s: Side, event: ConnectionEvent, sent: seq<Sent>,
                       mail: map<Events.Channel, seq<ConnectionEvent>>, alive: bool)
    requires SideInv(s) && s.alive && s.task.pc.Established?
    requires s.engine.mail[MINE] != [] && event == s.engine.mail[MINE][0]
    requires AllWellSent(sent) && sent != [] && Messages(sent) == [OwnAuth(s)] + EngineRuns.WritesOf(s.taken + [event])
    requires if alive then MINE in mail && mail[MINE] == s.engine.mail[MINE][1..] else MINE !in mail
    requires alive ==> !event.CloseConnection?
    ensures SideInv(s.(taken := s.taken + [event], sent := sent, alive := alive, engine := s.engine.(mail := mail)))
  {
  }

  predicate Writes(event: ConnectionEvent) {
    OnEvent(event).write.Some? && Fits(OnEvent(event).write.value)
  }

  /** What taking an event comes to: a frame, the end of the task, or nothing. */
  lemma TakeEventResult(v: View, nonce: Nonce, random: nat -> Byte)
    requires Enabled(v, Move.TakeEvent(nonce, random)) && v.me.task.shared.Some?
    ensures var s, v' := v.me, Happen(v, Move.TakeEvent(nonce, random));
            var event := s.engine.mail[MINE][0];
            var s' := s.(taken := s.taken + [event], engine := s.engine.(mail := v'.me.engine.mail));
            if Writes(event) then
              var message := OnEvent(event).write.value;
              var frame := Sent(message, nonce, Filler(message, random));
              && v' == View(s'.(sent := s.sent + [frame]), v.inbound, Write(v.outbound,
                Frame(Hkdf(s.task.shared.value), frame)))
              && MINE in v'.me.engine.mail && v'.me.engine.mail[MINE] == s.engine.mail[MINE][1..]
            else if OnEvent(event).stops then
              v' == View(s'.(alive := false), v.inbound, v.outbound.(closed := true)) && MINE !in v'.me.engine.mail
            else
              v' == v.(me := s') && MINE in v'.me.engine.mail && v'.me.engine.mail[MINE] == s.engine.mail[MINE][1..]
  {
  }

  /** An event that leaves no frame. */
  lemma SkippedKeeps(v: View, peer: Side, me: Side)
    requires Around(v, peer) && SideInv(me)
    requires me == v.me.(taken := me.taken, engine := v.me.engine.(mail := me.engine.mail))
    ensures Around(v.(me := me), peer)
  {
    hide SideInv;
    LinkForWriter(v.me, me, peer, v.outbound);
    StreamForReader(peer, v.me, me, v.inbound);
  }

  /** An event that ends the loop. */
  lemma StoppedKeeps(v: View, peer: Side, me: Side)
    requires Around(v, peer) && SideInv(me)
    requires me == v.me.(alive := false, taken := me.taken, engine := v.me.engine.(mail := me.engine.mail))
    ensures Around(View(me, v.inbound, v.outbound.(closed := true)), peer)
  {
    hide SideInv;
    DeadKeeps(v, peer, View(me, v.inbound, v.outbound.(closed := true)));
  }

  lemma WritesOfOneMore(events: seq<ConnectionEvent>, event: ConnectionEvent)
    ensures EngineRuns.WritesOf(events + [event]) ==
            EngineRuns.WritesOf(events) + if Writes(event) then [OnEvent(event).write.value] else []
  {
  }

  /** What a connection loop has to go on with. */
  lemma AtTheLoop(v: View, peer: Side)
    requires Around(v, peer) && v.me.alive && v.me.task.pc.Established?
    ensures SideInv(v.me) && v.me.task.shared.Some? && AllWellSent(v.me.sent) && v.me.sent != []
    ensures Messages(v.me.sent) == [OwnAuth(v.me)] + EngineRuns.WritesOf(v.me.taken)
  {
  }

  lemma TakeEventKeeps(v: View, peer: Side, nonce: Nonce, random: nat -> Byte)
    requires Around(v, peer) && Enabled(v, Move.TakeEvent(nonce, random))
    ensures Around(Happen(v, Move.TakeEvent(nonce, random)), peer)
    ensures SameEndpoint(v.me, Happen(v, Move.TakeEvent(nonce, random)).me)
  {
    hide Happen, Frame, Around, SideInv, PcInv;
    var s := v.me;
    var event := s.engine.mail[MINE][0];
    var v' := Happen(v, Move.TakeEvent(nonce, random));
    AtTheLoop(v, peer);
    TakeEventResult(v, nonce, random);
    WritesOfOneMore(s.taken, event);
    hide EngineRuns.WritesOf, Messages, AllWellSent, SameEndpoint;
    if Writes(event) {
      var message := OnEvent(event).write.value;
      var frame := Sent(message, nonce, Filler(message, random));
      PeerKnowsKey(v, peer);
      MessagesAppend(s.sent, frame);
      EventKeepsSide(s, event, s.sent + [frame], v'.me.engine.mail, true);
      WroteKeeps(v, peer, frame, v'.me);
    } else if OnEvent(event).stops {
      EventKeepsSide(s, event, s.sent, v'.me.engine.mail, false);
      StoppedKeeps(v, peer, v'.me);
    } else {
      EventKeepsSide(s, event, s.sent, v'.me.engine.mail, true);
      SkippedKeeps(v, peer, v'.me);
    }
  }

  // ---------------------------------------------------------------- reading frames

  lemma ChatsUpTo(ss: seq<Sent>, n: nat)
    requires n < |ss|
    ensures ChatsOf(Messages(ss[..n + 1])) == ChatsOf(Messages(ss[..n])) +
            if ss[n].message.Chat? then [ss[n].message.chat] else []
  {
    assert ss[..n + 1] == ss[..n] + [ss[n]];
    MessagesAppend(ss[..n], ss[n]);
    ChatsOfAppend(Messages(ss[..n]), ss[n].message);
  }

  /** How many frames have been read after a read. */
  function GotAfter(v: View): nat
    requires Reading(v.me)
  {
    if CurrentRead(v).0.Message? then v.me.got + 1 else v.me.got
  }

  /** What was read before. */
  lemma ReadSoFar(v: View, peer: Side)
    requires Around(v, peer)
    ensures v.me.got <= |peer.sent| && AllWellSent(peer.sent)
    ensures ChatsOf(Messages(peer.sent[..v.me.got])) == v.me.yielded + QueuedChats(v.me.engine.rx)
    ensures v.me.task.role.Client? && v.me.got >= 2 ==> peer.sent[1].message.Authorized?
    ensures v.me.task.role.Server? && v.me.task.peer.Some? ==> v.me.task.peer == Some(peer.task.id)
    ensures v.me.sawEnd ==> v.inbound.closed && v.me.got == 1 && (!v.inbound.cut ==> |peer.sent| == 1)
  {
    hide SideInv, InFlight;
  }

  /** What has just been read. */
  lemma ReadNow(v: View, peer: Side)
    requires Around(v, peer) && Reading(v.me)
    ensures CurrentRead(v).0.Message? ==>
              v.me.got < |peer.sent| && peer.sent[v.me.got].message == CurrentRead(v).0.message &&
              CurrentRead(v).0.message.Kind() == Expected(v.me.task.pc)
  {
    WhatReadSees(v, peer);
    hide Around, CurrentRead, InFlight;
  }

  /** A read has returned a message or the end of the stream, and the task has gone on. */
  lemma ReadOnKeeps(v: View, peer: Side, me: Side)
    requires Around(v, peer) && Reading(v.me) && SideInv(me) && me.alive
    requires CurrentRead(v).0.Message? || CurrentRead(v).0.EndOfStream?
    requires me.unread == CurrentRead(v).1 && me.got == GotAfter(v) && me.sent == v.me.sent
    requires me.sawEnd ==> me.got == 1 && (v.me.sawEnd || CurrentRead(v).0.EndOfStream?)
    requires me.task == v.me.task.(pc := me.task.pc, peer := me.task.peer, hash := me.task.hash)
    requires me.task.role.Server? && me.task.peer.Some? ==> me.task.peer == Some(peer.task.id)
    requires me.got <= |peer.sent| ==> ChatsOf(Messages(peer.sent[..me.got])) == me.yielded + QueuedChats(me.engine.rx)
    requires me.got <= |peer.sent| && me.task.role.Client? && me.got >= 2 ==> peer.sent[1].message.Authorized?
    ensures Around(v.(me := me), peer)
  {
    hide SideInv, CurrentRead, Frames;
    WhatReadSees(v, peer);
    if v.me.sawEnd {
      SawEndReadsNothing(v, peer);
    }
    LinkForWriter(v.me, me, peer, v.outbound);
    ReadOnStream(v, peer, me);
    hide StreamInv, InFlight;
  }

  lemma ReadOnStream(v: View, peer: Side, me: Side)
    requires Around(v, peer) && Reading(v.me) && me.alive
    requires CurrentRead(v).0.Message? || CurrentRead(v).0.EndOfStream?
    requires me.unread == CurrentRead(v).1 && me.got == GotAfter(v)
    requires me.task == v.me.task.(pc := me.task.pc, peer := me.task.peer, hash := me.task.hash)
    ensures StreamInv(peer, me, v.inbound)
  {
    hide CurrentRead, Frames, SideInv, ReadInv, Deframe;
    WhatReadSees(v, peer);
    assert StreamInv(peer, v.me, v.inbound) && me.got <= |peer.sent|;
    hide Around;
    assert InFlight(peer, me) == InFlight(peer, v.me.(got := me.got));
    assert v.me.(got := v.me.got) == v.me;
    hide InFlight, AllWellSent, Deframe;
  }

  lemma SawEndReadsNothing(v: View, peer: Side)
    requires Around(v, peer) && Reading(v.me) && v.me.sawEnd
    ensures !CurrentRead(v).0.Message?
  {
  }

  /** The first frame of an endpoint is its authentication message. */
  lemma FirstIsOwnAuth(s: Side)
    requires SentInv(s) && s.sent != []
    ensures s.sent[0].message == OwnAuth(s)
  {
    assert Messages(s.sent)[0] == s.sent[0].message;
  }

  function AfterRead(v: View): View
    requires Reading(v.me)
  {
    var (result, rest) := CurrentRead(v);
    v.(me := v.me.(unread := rest, got := GotAfter(v),
                     sawEnd := v.me.sawEnd || (v.me.task.pc.AwaitAuthorized? && result.EndOfStream?)))
  }

  lemma HandshakeReadIs(v: View, nonce: Nonce, random: nat -> Byte)
    requires Enabled(v, FrameRead(nonce, random)) && !v.me.task.pc.Established?
    ensures Happen(v, FrameRead(nonce, random)) == GoOn(AfterRead(v), Handshake.Read(CurrentRead(v).0), nonce, random)
  {
  }

  lemma HandshakeReadCounts(v: View, peer: Side)
    requires Around(v, peer) && Reading(v.me) && !v.me.task.pc.Established?
    ensures GotAfter(v) <= |peer.sent|
    ensures ChatsOf(Messages(peer.sent[..GotAfter(v)])) == ChatsOf(Messages(peer.sent[..v.me.got]))
    ensures v.me.task.role.Client? && GotAfter(v) >= 2 ==> peer.sent[1].message.Authorized?
    ensures CurrentRead(v).0.Message? ==>
              v.me.got < |peer.sent| && peer.sent[v.me.got].message == CurrentRead(v).0.message
  {
    hide SigningInv, ReadInv, StreamInv;
    ReadNow(v, peer);
    CountedSoFar(v, peer);
    hide Around, CurrentRead, ChatsOf, Messages;
    if CurrentRead(v).0.Message? {
      ChatsUpTo(peer.sent, v.me.got);
    }
  }

  lemma CountedSoFar(v: View, peer: Side)
    requires Around(v, peer)
    ensures v.me.got <= |peer.sent|
    ensures v.me.task.pc.AwaitAuth? ==> v.me.got == 0
    ensures v.me.task.pc.AwaitAuthorized? ==> v.me.got == 1
  {
  }

  /** An authorisation read that meets the end of an unbroken stream has a peer that wrote no more. */
  lemma EndMeansNoMore(v: View, peer: Side)
    requires Around(v, peer) && Reading(v.me) && !v.me.task.pc.Established?
    ensures AfterRead(v).me.sawEnd ==> v.inbound.closed && AfterRead(v).me.got == 1 && (!v.inbound.cut ==>
            |peer.sent| == 1)
  {
    hide CurrentRead, Link, SentInv, MailInv, SigningInv;
    WhatReadSees(v, peer);
    CountedSoFar(v, peer);
  }

  lemma HandshakeReadAborts(v: View, peer: Side)
    requires Around(v, peer) && Reading(v.me) && !v.me.task.pc.Established?
    ensures Around(GivenUp(AfterRead(v)), peer) && SameEndpoint(v.me, GivenUp(AfterRead(v)).me)
  {
    hide CurrentRead, InFlight, StreamInv, ReadInv, GivenUp;
    HandshakeReadCounts(v, peer);
    EndMeansNoMore(v, peer);
    assert JustRead(v.me, AfterRead(v).me);
    AbortKeeps(v, peer, AfterRead(v));
  }

  lemma VerifiedKeepsSide(s: Side, me: Side)
    requires SideInv(s) && s.alive && s.task.pc.AwaitAuth? && s.task.role.Client?
    requires me == s.(unread := me.unread, got := 1, task := s.task.(pc := AwaitAuthorized))
    ensures SideInv(me)
  {
  }

  lemma ClientVerifiesKeeps(v: View, peer: Side, nonce: Nonce, random: nat -> Byte)
    requires Around(v, peer) && Enabled(v, FrameRead(nonce, random)) && v.me.task.pc.AwaitAuth? &&
             v.me.task.role.Client?
    requires !Handshake.Step(v.me.task, Handshake.Read(CurrentRead(v).0)).0.pc.Aborted?
    ensures Around(Happen(v, FrameRead(nonce, random)), peer)
    ensures SameEndpoint(v.me, Happen(v, FrameRead(nonce, random)).me)
  {
    hide SigningInv, ReadInv, StreamInv;
    var t := v.me.task.(pc := AwaitAuthorized);
    var u := AfterRead(v);
    HandshakeReadCounts(v, peer);
    CountedSoFar(v, peer);
    ReadSoFar(v, peer);
    HandshakeReadIs(v, nonce, random);
    hide CurrentRead, Happen, Link, PcInv, SentInv, MailInv;
    assert Handshake.Step(v.me.task, Handshake.Read(CurrentRead(v).0)) == (t, []);
    assert GoOn(u, Handshake.Read(CurrentRead(v).0), nonce, random) == u.(me := u.me.(task := t));
    VerifiedKeepsSide(v.me, u.me.(task := t));
    hide GoOn, Handshake.Step;
    ReadOnKeeps(v, peer, u.me.(task := t));
  }

  /** The server finds the client's id in the client's own authentication message. */
  lemma ServerVerifiesKeeps(v: View, peer: Side, nonce: Nonce, random: nat -> Byte)
    requires Around(v, peer) && Enabled(v, FrameRead(nonce, random)) && v.me.task.pc.AwaitAuth? &&
             v.me.task.role.Server?
    requires !Handshake.Step(v.me.task, Handshake.Read(CurrentRead(v).0)).0.pc.Aborted?
    ensures Around(Happen(v, FrameRead(nonce, random)), peer)
    ensures SameEndpoint(v.me, Happen(v, FrameRead(nonce, random)).me)
  {
    hide SigningInv, GoOn, CurrentRead, ChatsOf;
    HandshakeReadCounts(v, peer);
    HandshakeReadIs(v, nonce, random);
    hide Happen, InFlight, StreamInv;
    var result := CurrentRead(v).0;
    var (t, effects) := Handshake.Step(v.me.task, Handshake.Read(result));
    var u := AfterRead(v);
    Agreement.StepKeepsLocals(v.me.task, Handshake.Read(result));
    FirstIsOwnAuth(peer);
    GoOnWithOne(u, Handshake.Read(result), nonce, random, t, effects[0]);
    RequestKeepsSide(v.me, t, 1, u.me.unread);
    PostKeepsChats(v.me.engine.rx, SignatureRequest(REPLY, effects[0].data));
    ReadOnKeeps(v, peer, Perform(u.(me := u.me.(task := t)), effects[0], nonce, random).me);
  }

  lemma ReadAuthKeeps(v: View, peer: Side, nonce: Nonce, random: nat -> Byte)
    requires Around(v, peer) && Enabled(v, FrameRead(nonce, random)) && v.me.task.pc.AwaitAuth?
    ensures Around(Happen(v, FrameRead(nonce, random)), peer)
    ensures SameEndpoint(v.me, Happen(v, FrameRead(nonce, random)).me)
  {
    hide Happen, Around, SameEndpoint;
    var input := Handshake.Read(CurrentRead(v).0);
    if Handshake.Step(v.me.task, input).0.pc.Aborted? {
      HandshakeReadIs(v, nonce, random);
      GoOnAborted(AfterRead(v), input, nonce, random);
      HandshakeReadAborts(v, peer);
    } else if v.me.task.role.Client? {
      ClientVerifiesKeeps(v, peer, nonce, random);
    } else {
      ServerVerifiesKeeps(v, peer, nonce, random);
    }
  }

  lemma AnnounceKeepsSide(s: Side, me: Side, info: ConnectionInfo)
    requires SideInv(s) && s.alive && s.task.pc.AwaitAuthorized?
    requires me == s.(task := s.task.(pc := Established), unread := me.unread, got := me.got, sawEnd := me.sawEnd,
                      engine := s.engine.(rx := s.engine.rx + [Post(MINE, NewConnection(info, MINE))]))
    requires s.got <= me.got && (me.got >= 2 || me.sawEnd) && (me.sawEnd ==> s.task.role.Client?)
    ensures SideInv(me)
  {
  }

  lemma AuthorizedKeeps(v: View, peer: Side, nonce: Nonce, random: nat -> Byte)
    requires Around(v, peer) && Enabled(v, FrameRead(nonce, random)) && v.me.task.pc.AwaitAuthorized?
    requires !Handshake.Step(v.me.task, Handshake.Read(CurrentRead(v).0)).0.pc.Aborted?
    ensures Around(Happen(v, FrameRead(nonce, random)), peer)
    ensures SameEndpoint(v.me, Happen(v, FrameRead(nonce, random)).me)
  {
    hide Happen, SigningInv, AllWellSent, ReadOne, ChatsOf, EngineRuns.WritesOf;
    HandshakeReadCounts(v, peer);
    CountedSoFar(v, peer);
    ReadSoFar(v, peer);
    HandshakeReadIs(v, nonce, random);
    hide CurrentRead, Link, SentInv, MailInv;
    var result := CurrentRead(v).0;
    var (t, effects) := Handshake.Step(v.me.task, Handshake.Read(result));
    var u := AfterRead(v);
    GoOnWithOne(u, Handshake.Read(result), nonce, random, t, effects[0]);
    var me := Perform(u.(me := u.me.(task := t)), effects[0], nonce, random).me;
    PostKeepsChats(v.me.engine.rx, NewConnection(effects[0].info, MINE));
    AnnounceKeepsSide(v.me, me, effects[0].info);
    hide GoOn;
    ReadOnKeeps(v, peer, me);
  }

  lemma ReadAuthorizedKeeps(v: View, peer: Side, nonce: Nonce, random: nat -> Byte)
    requires Around(v, peer) && Enabled(v, FrameRead(nonce, random)) && v.me.task.pc.AwaitAuthorized?
    ensures Around(Happen(v, FrameRead(nonce, random)), peer)
    ensures SameEndpoint(v.me, Happen(v, FrameRead(nonce, random)).me)
  {
    hide Happen, Around, SameEndpoint;
    var input := Handshake.Read(CurrentRead(v).0);
    if Handshake.Step(v.me.task, input).0.pc.Aborted? {
      HandshakeReadIs(v, nonce, random);
      GoOnAborted(AfterRead(v), input, nonce, random);
      HandshakeReadAborts(v, peer);
    } else {
      AuthorizedKeeps(v, peer, nonce, random);
    }
  }

  lemma TurnChats(result: ReadResult, info: ConnectionInfo)
    ensures QueuedChats(EngineRuns.Posts(MINE, OnRead(info, result).posts)) ==
            if result.Message? && result.message.Chat? then [result.message.chat] else []
  {
    var ps := EngineRuns.Posts(MINE, OnRead(info, result).posts);
    assert |ps| == 1 ==> ps[1..] == [];
    if result.Failed? {
      assert ps[1..][1..] == [];
      assert QueuedChats(ps[1..]) == [];
    }
  }

  lemma LoopKeepsSide(s: Side, me: Side, posts: seq<EngineEvent>)
    requires SideInv(s) && s.alive && s.task.pc.Established?
    requires forall i :: 0 <= i < |posts| ==> !posts[i].SignatureRequest? && !posts[i].NewConnection?
    requires me == s.(unread := me.unread, got := me.got, alive := me.alive, engine := me.engine) && s.got <= me.got
    requires me.engine == s.engine.(rx := s.engine.rx + EngineRuns.Posts(MINE, posts), mail := me.engine.mail)
    requires if me.alive then me.engine.mail == s.engine.mail else MINE !in me.engine.mail
    ensures SideInv(me)
  {
  }

  lemma ReadLoopResult(v: View, nonce: Nonce, random: nat -> Byte)
    requires Enabled(v, FrameRead(nonce, random)) && v.me.task.pc.Established?
    ensures var s, v' := v.me, Happen(v, FrameRead(nonce, random));
            var (result, rest) := CurrentRead(v);
            var turn := OnRead(Info(s), result);
            var me := s.(unread := rest, got := GotAfter(v), alive := !turn.stops,
                         engine := s.engine.(rx := s.engine.rx + EngineRuns.Posts(MINE, turn.posts),
                           mail := v'.me.engine.mail));
            && v' == View(me, v.inbound, if turn.stops then v.outbound.(closed := true) else v.outbound)
            && if turn.stops then MINE !in v'.me.engine.mail else v'.me.engine.mail == s.engine.mail
  {
  }

  /** A client whose authorisation read met the end of the stream reads no message afterwards. */
  lemma NotBeforeAuthorisation(v: View, peer: Side)
    requires Around(v, peer) && Reading(v.me) && v.me.task.pc.Established? && CurrentRead(v).0.Message?
    ensures v.me.task.role.Client? ==> v.me.got >= 2
    ensures !v.me.sawEnd
  {
    hide CurrentRead;
    if v.me.sawEnd {
      SawEndReadsNothing(v, peer);
    }
  }

  lemma LoopTurnKeepsSide(v: View, nonce: Nonce, random: nat -> Byte)
    requires SideInv(v.me) && Enabled(v, FrameRead(nonce, random)) && v.me.task.pc.Established?
    ensures var me, result := Happen(v, FrameRead(nonce, random)).me, CurrentRead(v).0;
            && SideInv(me)
            && QueuedChats(me.engine.rx) ==
               QueuedChats(v.me.engine.rx) +
                 if result.Message? && result.message.Chat? then [result.message.chat] else []
  {
    hide Happen, SigningInv, SentInv, PcInv;
    ReadLoopResult(v, nonce, random);
    hide CurrentRead, SideInv;
    var s, me := v.me, Happen(v, FrameRead(nonce, random)).me;
    var posts := OnRead(Info(s), CurrentRead(v).0).posts;
    TurnChats(CurrentRead(v).0, Info(s));
    QueuedChatsAppend(s.engine.rx, EngineRuns.Posts(MINE, posts));
    LoopKeepsSide(s, me, posts);
  }

  lemma LoopGoesOn(v: View, peer: Side, me: Side)
    requires Around(v, peer) && Reading(v.me) && v.me.task.pc.Established? && CurrentRead(v).0.Message?
    requires SideInv(me) && me == v.me.(unread := CurrentRead(v).1, got := v.me.got + 1, engine := me.engine)
    requires QueuedChats(me.engine.rx) == QueuedChats(v.me.engine.rx) +
               if CurrentRead(v).0.message.Chat? then [CurrentRead(v).0.message.chat] else []
    ensures Around(v.(me := me), peer)
  {
    hide Around, CurrentRead, SideInv, QueuedChats, ChatsOf, Messages;
    ReadNow(v, peer);
    ReadSoFar(v, peer);
    NotBeforeAuthorisation(v, peer);
    var m := CurrentRead(v).0.message;
    ChatsUpTo(peer.sent, v.me.got);
    var before, queued := v.me.yielded, QueuedChats(v.me.engine.rx);
    assert before + (queued + if m.Chat? then [m.chat] else []) == before + queued + if m.Chat? then [m.chat] else [];
    ReadOnKeeps(v, peer, me);
  }

  lemma LoopReadsMessage(v: View, peer: Side, nonce: Nonce, random: nat -> Byte)
    requires Around(v, peer) && Enabled(v, FrameRead(nonce, random)) && v.me.task.pc.Established?
    requires CurrentRead(v).0.Message?
    ensures Around(Happen(v, FrameRead(nonce, random)), peer)
    ensures SameEndpoint(v.me, Happen(v, FrameRead(nonce, random)).me)
  {
    ReadLoopResult(v, nonce, random);
    LoopTurnKeepsSide(v, nonce, random);
    hide CurrentRead, Happen, StreamInv, SideInv, ReadInv;
    LoopGoesOn(v, peer, Happen(v, FrameRead(nonce, random)).me);
  }

  lemma LoopReadsEnd(v: View, peer: Side, nonce: Nonce, random: nat -> Byte)
    requires Around(v, peer) && Enabled(v, FrameRead(nonce, random)) && v.me.task.pc.Established?
    requires !CurrentRead(v).0.Message?
    ensures Around(Happen(v, FrameRead(nonce, random)), peer)
    ensures SameEndpoint(v.me, Happen(v, FrameRead(nonce, random)).me)
  {
    hide Happen, MailInv, SentInv, PcInv, SideInv;
    ReadLoopResult(v, nonce, random);
    LoopTurnKeepsSide(v, nonce, random);
    hide CurrentRead, InFlight;
    DeadKeeps(v, peer, Happen(v, FrameRead(nonce, random)));
  }

  lemma ResetEndsLoop(v: View, peer: Side)
    requires Around(v, peer) && Reading(v.me) && v.me.task.pc.Established?
    ensures Around(ReadFails(v), peer) && SameEndpoint(v.me, ReadFails(v).me)
  {
    hide SideInv, Link;
    var s, me := v.me, ReadFails(v).me;
    var posts := OnRead(Info(s), Failed(ConnectionReset)).posts;
    TurnChats(Failed(ConnectionReset), Info(s));
    QueuedChatsAppend(s.engine.rx, EngineRuns.Posts(MINE, posts));
    LoopKeepsSide(s, me, posts);
    ReadSoFar(v, peer);
    DeadKeeps(v, peer, ReadFails(v));
  }

  lemma ResetKeeps(v: View, peer: Side)
    requires Around(v, peer) && Enabled(v, Reset)
    ensures Around(Happen(v, Reset), peer) && SameEndpoint(v.me, Happen(v, Reset).me)
  {
    hide Around, GoOn;
    var u := Happen(v, Break(0));
    assert u == v.(inbound := Pipe([], true, true)) && Happen(v, Reset) == ReadFails(u);
    BreakKeeps(v, peer, 0);
    if v.me.task.pc.Established? {
      ResetEndsLoop(u, peer);
    } else {
      GoOnAborted(u, Handshake.Read(Failed(ConnectionReset)), seq(12, _ => 0), NoBytes());
      HandshakeCounts(u, peer);
      AbortKeeps(u, peer, u);
    }
  }

  lemma HandshakeCounts(v: View, peer: Side)
    requires Around(v, peer) && v.me.alive && !v.me.task.pc.Established?
    ensures JustRead(v.me, v.me) && v.me.got <= |peer.sent| && !v.me.sawEnd
    ensures v.me.task.role.Client? && v.me.got >= 2 ==> peer.sent[1].message.Authorized?
  {
    hide Link;
    ReadSoFar(v, peer);
  }

  lemma HappenKeeps(v: View, peer: Side, m: Move)
    requires Around(v, peer) && Enabled(v, m)
    ensures Around(Happen(v, m), peer) && SameEndpoint(v.me, Happen(v, m).me)
  {
    hide Happen, SideInv, Link;
    match m
    case KeyRead(n) => KeyReadKeeps(v, peer, n);
    case Arrive(n) => ArriveKeeps(v, peer, n);
    case FrameRead(nonce, random) =>
      if v.me.task.pc.AwaitAuth? {
        ReadAuthKeeps(v, peer, nonce, random);
      } else if v.me.task.pc.AwaitAuthorized? {
        ReadAuthorizedKeeps(v, peer, nonce, random);
      } else if CurrentRead(v).0.Message? {
        LoopReadsMessage(v, peer, nonce, random);
      } else {
        LoopReadsEnd(v, peer, nonce, random);
      }
    case TakeReply(nonce, random) => ReplyKeeps(v, peer, nonce, random);
    case Timeout => TimeoutKeeps(v, peer);
    case TakeEvent(nonce, random) => TakeEventKeeps(v, peer, nonce, random);
    case Break(keep) => BreakKeeps(v, peer, keep);
    case Reset => ResetKeeps(v, peer);
    case Poll => EngineKeeps(v, peer, m);
    case Say(_) => EngineKeeps(v, peer, m);
    case Tell(_, _) => EngineKeeps(v, peer, m);
    case OtherPost(_) => EngineKeeps(v, peer, m);
    case OtherMail(_) => EngineKeeps(v, peer, m);
  }

  lemma ReplyKeeps(v: View, peer: Side, nonce: Nonce, random: nat -> Byte)
    requires Around(v, peer) && Enabled(v, Move.TakeReply(nonce, random))
    ensures Around(Happen(v, Move.TakeReply(nonce, random)), peer)
    ensures SameEndpoint(v.me, Happen(v, Move.TakeReply(nonce, random)).me)
  {
    if Fits(OwnAuth(v.me)) {
      TakeReplyKeeps(v, peer, nonce, random);
    } else {
      TakeReplyAborts(v, peer, nonce, random);
    }
  }

  lemma ApplyKeeps(p: Pair, a: Action)
    requires PairInv(p) && Enabled(ViewOf(p, a.role), a.move)
    ensures PairInv(Apply(p, a))
  {
    hide Happen, SideInv, Link;
    var peer := if a.role.Client? then p.server else p.client;
    HappenKeeps(ViewOf(p, a.role), peer, a.move);
  }

  /** Every run of a connection keeps the invariants. */
  lemma {:induction false} RunsKeep(p: Pair, actions: seq<Action>)
    requires PairInv(p) && Legal(p, actions)
    ensures PairInv(Exec(p, actions))
    decreases |actions|
  {
    hide PairInv, Apply;
    if actions != [] {
      ApplyKeeps(p, actions[0]);
      RunsKeep(Apply(p, actions[0]), actions[1..]);
    }
  }
}
