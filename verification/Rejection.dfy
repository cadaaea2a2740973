/** A client that is turned away. The client does not look at what its authorisation read brought, so a
    server application that closes the connection instead of authorising it gets it announced at the
    client all the same. */
module Rejection {
  import opened Octets
  import opened Packets
  import opened EncryptedChannel
  import opened Events
  import opened Handshake
  import opened Session
  import opened SessionInvariants
  import opened Termination
  import EngineRuns

  lemma {:induction false} RunOn(p: Pair, first: seq<Action>, rest: seq<Action>)
    requires Legal(p, first) && Legal(Exec(p, first), rest)
    ensures Legal(p, first + rest) && Exec(p, first + rest) == Exec(Exec(p, first), rest)
    decreases |first|
  {
    hide Apply, Enabled;
    if first == [] {
      assert first + rest == rest;
    } else {
      assert (first + rest)[0] == first[0] && (first + rest)[1..] == first[1..] + rest;
      RunOn(Apply(p, first[0]), first[1..], rest);
    }
  }

  /** Neither application has said anything on the connection. */
  predicate Quiet(p: Pair) {
    p.server.alive && p.server.pushed == [] && !p.client.task.pc.Established? &&
    (p.server.task.pc.Established? ==> AnnouncedLast(p.server))
  }

  lemma ServerMoveKeepsQuiet(p: Pair, m: Move)
    requires Smooth(p) && Quiet(p) && Enabled(ViewOf(p, Server), m) && HandshakeMove(p, Action(Server, m))
    requires !Authenticated(p)
    ensures Quiet(Apply(p, Action(Server, m)))
  {
    hide Smooth, Around, GoOn, CurrentRead, StreamInv, Frame;
    var v, peer := ViewOf(p, Server), p.client;
    SmoothEither(p, Server);
    ClientIsBehind(p);
    match m
    case KeyRead(n) =>
      KeyReadGoesOn(p, Server);
      hide Happen, Handshake.Step;
      KeyReadResult(v, peer, n);
    case Arrive(n) =>
    case FrameRead(nonce, random) =>
      hide Happen;
      if v.me.task.pc.AwaitAuthorized? {
        OnlyClientsAwait(p, Server);
      }
      AuthReadResult(p, Server, nonce, random);
    case TakeReply(nonce, random) =>
      hide Happen;
      OwnAuthFits(p, Server);
      EachSide(v, peer);
      TakeReplyResult(v, nonce, random);
    case Poll =>
    case _ =>
  }

  lemma ClientMoveKeepsQuiet(p: Pair, m: Move)
    requires Smooth(p) && Quiet(p) && Enabled(ViewOf(p, Client), m) && HandshakeMove(p, Action(Client, m))
    requires !Authenticated(p)
    ensures Quiet(Apply(p, Action(Client, m)))
  {
    hide Smooth, Around, GoOn, CurrentRead;
    var v, peer := ViewOf(p, Client), p.server;
    SmoothEither(p, Client);
    ClientIsBehind(p);
    match m
    case KeyRead(n) =>
      KeyReadGoesOn(p, Client);
      hide Happen, Handshake.Step;
      KeyReadResult(v, peer, n);
    case Arrive(n) =>
    case FrameRead(nonce, random) =>
      hide Happen;
      AuthReadResult(p, Client, nonce, random);
    case TakeReply(nonce, random) =>
      hide Happen;
      OwnAuthFits(p, Client);
      EachSide(v, peer);
      TakeReplyResult(v, nonce, random);
    case Poll =>
    case _ =>
  }

  lemma {:induction false} HandshakeKeepsQuiet(p: Pair, actions: seq<Action>)
    requires Smooth(p) && Quiet(p) && HandshakeRun(p, actions) && Legal(p, actions)
    ensures Quiet(Exec(p, actions))
    decreases |actions|
  {
    hide Smooth, Quiet, Apply, Enabled, HandshakeMove, Authenticated;
    if actions != [] {
      var a := actions[0];
      ClientIsBehind(p);
      HandshakeGoesOn(p, a);
      if a.role.Client? {
        ClientMoveKeepsQuiet(p, a.move);
      } else {
        ServerMoveKeepsQuiet(p, a.move);
      }
      HandshakeKeepsQuiet(Apply(p, a), actions[1..]);
    }
  }

  /** Two states that differ in the server's engine at most. */
  predicate ServerEngineApart(p: Pair, p': Pair) {
    p' == p.(server := p.server.(engine := p'.server.engine, yielded := p'.server.yielded))
  }

  predicate Registered(s: Side) {
    s.task.peer.Some? && s.task.peer.value in s.engine.channels && s.engine.channels[s.task.peer.value] == MINE
  }

  /** The server's engine handles all it has queued, and the connection is registered. */
  lemma {:induction false} EngineCatchesUp(p: Pair) returns (actions: seq<Action>)
    requires AnnouncedLast(p.server)
    ensures Legal(p, actions) && ServerEngineApart(p, Exec(p, actions)) && Registered(Exec(p, actions).server)
    decreases |p.server.engine.rx|
  {
    var poll := Action(Server, Poll);
    var p' := Apply(p, poll);
    assert p'.server.engine.rx == p.server.engine.rx[1..];
    if |p.server.engine.rx| == 1 {
      actions := [];
    } else {
      actions := EngineCatchesUp(p');
    }
    actions := [poll] + actions;
  }

  /** Both sides are authenticated, and the server application knows of the connection. */
  ghost predicate Decided(p: Pair) {
    && PairInv(p) && p.client.alive && p.client.task.pc.AwaitAuthorized?
    && p.server.alive && p.server.task.pc.Established? && Registered(p.server) && p.server.pushed == []
    && !p.s2c.cut
  }

  /** The server's first word was to close the connection; the client has announced it, although it has
      read no authorisation. */
  ghost predicate TurnedAway(p: Pair) {
    && p.server.pushed == [CloseConnection] && !p.server.alive
    && p.client.alive && p.client.task.pc.Established? && p.client.sawEnd && p.client.got == 1
    && AnnouncedLast(p.client)
  }

  lemma NothingFollows(p: Pair)
    requires Decided(p)
    ensures p.server.task.peer == Some(p.client.task.id) && p.server.taken == []
    ensures MINE in p.server.engine.mail && p.server.engine.mail[MINE] == []
    ensures p.s2c.wire == [] && p.client.unread == [] && p.client.got == 1
  {
    hide SigningInv;
    assert |Messages(p.server.sent)| == |[OwnAuth(p.server)] + EngineRuns.WritesOf(p.server.taken)|;
    assert p.client.got == 1 == |p.server.sent|;
    ArrivedIsFrames(ViewOf(p, Client), p.server);
    assert p.server.sent[1..] == [];
  }

  lemma ServerCloses(p: Pair, id: ServiceId)
    requires id in p.server.engine.channels && p.server.engine.channels[id] == MINE && p.server.pushed == []
    requires MINE in p.server.engine.mail && p.server.engine.mail[MINE] == []
    ensures var engine := p.server.engine;
            Apply(p, Action(Server, Tell(id, CloseConnection))) ==
            p.(server := p.server.(engine := engine.(mail := engine.mail[MINE := [CloseConnection]]),
                                   pushed := [CloseConnection]))
  {
    assert [] + [CloseConnection] == [CloseConnection];
  }

  lemma ServerLeaves(p: Pair)
    requires Enabled(ViewOf(p, Server), TakeOne()) && p.server.engine.mail[MINE] == [CloseConnection]
    ensures var p' := Apply(p, Action(Server, TakeOne()));
            p' == p.(server := p'.server, s2c := p.s2c.(closed := true)) &&
            !p'.server.alive && p'.server.pushed == p.server.pushed
  {
  }

  /** A read that meets the end of the stream completes without a message. */
  lemma ClientReadsEnd(p: Pair)
    requires p.client.alive && p.client.task.role.Client? && p.client.task.pc.AwaitAuthorized? &&
             p.client.task.shared.Some?
    requires p.client.task.peer.Some? && p.client.got == 1
    requires p.s2c.closed && p.s2c.wire == [] && p.client.unread == []
    ensures Enabled(ViewOf(p, Client), FrameRead(seq(12, _ => 0), NoBytes()))
    ensures var p' := Apply(p, Action(Client, FrameRead(seq(12, _ => 0), NoBytes())));
            && p' == p.(client := p'.client)
            && p'.client.alive && p'.client.task.pc.Established? && p'.client.sawEnd && p'.client.got == 1
            && AnnouncedLast(p'.client)
  {
    var v := ViewOf(p, Client);
    var nonce, random := seq(12, _ => 0), NoBytes();
    assert CurrentRead(v) == (EndOfStream, []);
    HandshakeReadIs(v, nonce, random);
    hide CurrentRead, Happen;
    var (t, effects) := Handshake.Step(v.me.task, Handshake.Read(EndOfStream));
    GoOnWithOne(AfterRead(v), Handshake.Read(EndOfStream), nonce, random, t, effects[0]);
  }

  lemma ClosingTurnsAway(p: Pair) returns (actions: seq<Action>)
    requires Decided(p)
    ensures Legal(p, actions) && TurnedAway(Exec(p, actions))
  {
    hide ReadInv, StreamInv, Happen;
    var close, leave := Action(Server, Tell(p.client.task.id, CloseConnection)), Action(Server, TakeOne());
    var read := Action(Client, FrameRead(seq(12, _ => 0), NoBytes()));
    NothingFollows(p);
    ServerCloses(p, p.client.task.id);
    hide Apply;
    var p1 := Apply(p, close);
    ServerLeaves(p1);
    var p2 := Apply(p1, leave);
    ClientReadsEnd(p2);
    actions := [close, leave, read];
    assert actions[1..] == [leave, read] && actions[1..][1..] == [read] && [read][1..] == [];
    assert Legal(p2, [read]) && Exec(p2, [read]) == Apply(p2, read);
    assert Legal(p1, [leave, read]) && Exec(p1, [leave, read]) == Exec(p2, [read]);
  }

  /** From a dialled connection there is a run on which the server application's first word is to close
      it, and which ends with the connection announced at a client that was never authorised. */
  lemma RejectedClientAnnounces(p: Pair) returns (actions: seq<Action>)
    requires Init(p) && AuthMessagesFit()
    ensures Legal(p, actions) && TurnedAway(Exec(p, actions))
  {
    InitHolds(p);
    hide PairInv, Apply, Enabled;
    var handshake := HandshakeCompletes(p);
    HandshakeKeepsQuiet(p, handshake);
    var p1 := Exec(p, handshake);
    var polls := EngineCatchesUp(p1);
    var p2 := Exec(p1, polls);
    RunsKeep(p1, polls);
    var rest := ClosingTurnsAway(p2);
    RunOn(p1, polls, rest);
    RunOn(p, handshake, polls + rest);
    actions := handshake + (polls + rest);
  }
}
