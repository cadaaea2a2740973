/** What the reads of two honest endpoints meet: every typed read a frame of its type, and only the
    client's wait for its authorisation can last. */
module Progress {
  import opened Octets
  import opened Packets
  import opened EncryptedChannel
  import opened Events
  import opened Handshake
  import opened Session
  import opened SessionInvariants
  import EngineRuns

  // ---------------------------------------------------------------- typed reads

  /** The server application says nothing before it has authorised the client, and authorises it at
      most once; it may close the connection at any time. The client application never authorises. */
  ghost predicate Disciplined(p: Pair) {
    && AuthorisedBeforeChats(p.server.pushed)
    && (forall i :: 0 <= i < |p.client.pushed| ==> !p.client.pushed[i].ConnectionAuthorized?)
  }

  predicate AuthorisedBeforeChats(events: seq<ConnectionEvent>) {
    && (forall i :: 0 <= i < |events| && events[i].SendChat? ==> Authorises(events[..i]))
    && (forall i :: 0 <= i < |events| && events[i].ConnectionAuthorized? ==> !Authorises(events[..i]))
  }

  predicate Authorises(events: seq<ConnectionEvent>) {
    exists i :: 0 <= i < |events| && events[i].ConnectionAuthorized?
  }

  lemma {:induction false} OnlyChatsWritten(events: seq<ConnectionEvent>)
    requires forall i :: 0 <= i < |events| ==> !events[i].ConnectionAuthorized?
    ensures forall i :: 0 <= i < |EngineRuns.WritesOf(events)| ==> EngineRuns.WritesOf(events)[i].Chat?
  {
    if events != [] {
      OnlyChatsWritten(events[..|events| - 1]);
    }
  }

  lemma {:induction false} AuthorisationThenChats(events: seq<ConnectionEvent>)
    requires AuthorisedBeforeChats(events) && Fits(Authorized)
    ensures var ms := EngineRuns.WritesOf(events);
            (Authorises(events) <==> ms != []) &&
            forall i :: 0 <= i < |ms| ==> ms[i].Authorized? == (i == 0) && ms[i].Chat? == (i > 0)
  {
    if events != [] {
      var before := events[..|events| - 1];
      DisciplineOfPrefix(events, |before|);
      AuthorisationThenChats(before);
      assert Authorises(events) <==> Authorises(before) || events[|before|].ConnectionAuthorized? by {
        assert forall i :: 0 <= i < |before| ==> events[i] == before[i];
      }
    }
  }

  lemma DisciplineOfPrefix(events: seq<ConnectionEvent>, n: nat)
    requires AuthorisedBeforeChats(events) && n <= |events|
    ensures AuthorisedBeforeChats(events[..n])
  {
    assert forall i :: 0 <= i < n ==> events[..n][..i] == events[..i] && events[..n][i] == events[i];
  }

  /** An application that neither authorises nor closes does not say anything. */
  lemma NothingSaid(events: seq<ConnectionEvent>)
    requires AuthorisedBeforeChats(events) && !Authorises(events)
    requires EngineRuns.NoClose(events) && EngineRuns.NoSignature(events)
    ensures events == []
  {
    assert !Authorises(events[..0]);
  }

  function PeerOf(p: Pair, role: Role): Side {
    if role.Client? then p.server else p.client
  }

  /** The next frame to be read is of the type the program asks for. */
  lemma NextIsExpected(p: Pair, role: Role)
    requires PairInv(p) && Disciplined(p) && Fits(Authorized) && Reading(ViewOf(p, role).me)
    ensures var me, peer := ViewOf(p, role).me, PeerOf(p, role);
            me.got < |peer.sent| && !(me.sawEnd && me.got == 1) ==>
              peer.sent[me.got].message.Kind() == Expected(me.task.pc)
  {
    hide ReadInv, StreamInv, Link;
    var me, peer := ViewOf(p, role).me, PeerOf(p, role);
    if me.got < |peer.sent| {
      var ms := EngineRuns.WritesOf(peer.taken);
      assert Messages(peer.sent)[me.got] == peer.sent[me.got].message == ([OwnAuth(peer)] + ms)[me.got];
      assert peer.taken == peer.pushed[..|peer.taken|];
      if role.Client? {
        DisciplineOfPrefix(peer.pushed, |peer.taken|);
        AuthorisationThenChats(peer.taken);
      } else {
        OnlyChatsWritten(peer.taken);
      }
    }
  }

  lemma ExpectedReadsDoNotFail(key: SymmetricKey, kind: MessageKind, ss: seq<Sent>, unread: seq<Octet>, closed: bool)
    requires AllWellSent(ss) && unread <= Frames(key, ss)
    requires ss != [] && Frame(key, ss[0]) <= unread ==> ss[0].message.Kind() == kind
    ensures ReadOne(key, kind, unread, closed).0.Failed? ==>
            ReadOne(key, kind, unread, closed).0.error == BytesRemaining && closed
    ensures unread == Frames(key, ss) ==> !ReadOne(key, kind, unread, closed).0.Failed?
  {
    hide ReadOne, Deframe, Frame;
    ReadHead(key, kind, ss, unread, closed);
    if unread == Frames(key, ss) && ss != [] {
      assert Frame(key, ss[0]) <= unread;
    }
  }

  /** Session fidelity. Between endpoints whose applications keep to the order - the server authorises
      once and before it says anything, the client never authorises - every completed read of either
      program brings a frame written as the type it asks for, or the end of the stream; the only
      failure is a stream that was broken off inside a frame. */
  lemma SessionFidelity(p: Pair, actions: seq<Action>, role: Role)
    requires Init(p) && Legal(p, actions) && Disciplined(Exec(p, actions)) && Fits(Authorized)
    requires Reading(ViewOf(Exec(p, actions), role).me)
    ensures var v := ViewOf(Exec(p, actions), role);
            match CurrentRead(v).0
            case Message(m) => m.Kind() == Expected(v.me.task.pc)
            case EndOfStream => v.inbound.closed
            case Pending => true
            case Failed(e) => e == BytesRemaining && v.inbound.cut
            case Panicked => false
  {
    InitHolds(p);
    RunsKeep(p, actions);
    FidelityHere(Exec(p, actions), role);
  }

  lemma FidelityHere(p: Pair, role: Role)
    requires PairInv(p) && Disciplined(p) && Fits(Authorized) && Reading(ViewOf(p, role).me)
    ensures var v := ViewOf(p, role);
            match CurrentRead(v).0
            case Message(m) => m.Kind() == Expected(v.me.task.pc)
            case EndOfStream => v.inbound.closed
            case Pending => true
            case Failed(e) => e == BytesRemaining && v.inbound.cut
            case Panicked => false
  {
    var v, peer := ViewOf(p, role), PeerOf(p, role);
    AroundEither(p, role);
    WhatReadSees(v, peer);
    if CurrentRead(v).0.Failed? {
      NextIsExpected(p, role);
      hide PairInv, Disciplined;
      FailsOnlyWhenCut(v, peer);
    }
  }

  lemma FailsOnlyWhenCut(v: View, peer: Side)
    requires Around(v, peer) && Reading(v.me)
    requires v.me.got < |peer.sent| && !(v.me.sawEnd && v.me.got == 1) ==>
             peer.sent[v.me.got].message.Kind() == Expected(v.me.task.pc)
    ensures CurrentRead(v).0.Failed? ==> CurrentRead(v).0.error == BytesRemaining && v.inbound.cut
  {
    hide SigningInv, SentInv, PcInv, SideInv;
    hide Frame, Frames, ReadOne, Deframe;
    var key, ss := Hkdf(v.me.task.shared.value), peer.sent[v.me.got..];
    ArrivedIsFrames(v, peer);
    if ss != [] && Frame(key, ss[0]) <= v.me.unread {
      CompleteIsNotTheEnd(key, ss[0], v.me.unread);
    }
    hide StreamInv;
    ExpectedReadsDoNotFail(key, Expected(v.me.task.pc), ss, v.me.unread, v.inbound.closed && v.inbound.wire == []);
  }

  lemma CompleteIsNotTheEnd(key: SymmetricKey, s: Sent, unread: seq<Octet>)
    requires WellSent(s) && Frame(key, s) <= unread
    ensures !Deframe(unread).Incomplete?
  {
  }

  lemma AroundEither(p: Pair, role: Role)
    requires PairInv(p)
    ensures Around(ViewOf(p, role), PeerOf(p, role))
  {
  }

  // ---------------------------------------------------------------- who was authorised

  lemma {:induction false} AuthorisedMeansWritten(events: seq<ConnectionEvent>)
    requires Fits(Authorized)
    ensures Authorises(events) <==> Authorized in EngineRuns.WritesOf(events)
  {
    if events != [] {
      var before, last := events[..|events| - 1], events[|events| - 1];
      AuthorisedMeansWritten(before);
      WritesOfOneMore(before, last);
      assert events == before + [last];
      hide EngineRuns.WritesOf;
      assert Authorises(events) <==> Authorises(before) || last.ConnectionAuthorized? by {
        assert forall i :: 0 <= i < |before| ==> events[i] == before[i];
      }
    }
  }

  /** The exact condition. Between endpoints whose stream has not broken, a client that has announced its
      connection read an authorisation if and only if the server's loop took one from its application;
      otherwise its read met the end of the stream, and the server has left. That the client read one
      always means that the server wrote it. */
  lemma AnnouncedClientWasAuthorised(p: Pair, actions: seq<Action>)
    requires Init(p) && Legal(p, actions) && Exec(p, actions).client.task.pc.Established? && Fits(Authorized)
    ensures var p' := Exec(p, actions);
            && (p'.client.got >= 2 <==> !p'.client.sawEnd)
            && (p'.client.got >= 2 ==> Authorises(p'.server.taken))
            && (!p'.s2c.cut ==> (p'.client.got >= 2 <==> Authorises(p'.server.taken)))
            && (!p'.s2c.cut && p'.client.sawEnd ==> !p'.server.alive)
  {
    InitHolds(p);
    RunsKeep(p, actions);
    AuthorisedHere(Exec(p, actions));
  }

  lemma AuthorisedHere(p: Pair)
    requires PairInv(p) && p.client.task.pc.Established? && Fits(Authorized)
    ensures p.client.got >= 2 <==> !p.client.sawEnd
    ensures p.client.got >= 2 ==> Authorises(p.server.taken)
    ensures !p.s2c.cut ==> (p.client.got >= 2 <==> Authorises(p.server.taken))
    ensures !p.s2c.cut && p.client.sawEnd ==> !p.server.alive
  {
    hide SigningInv, MailInv, InFlight, ChatsOf, EngineRuns.WritesOf, Deframe;
    var server := p.server;
    var ms := EngineRuns.WritesOf(server.taken);
    AuthorisedMeansWritten(server.taken);
    assert Messages(server.sent) == [OwnAuth(server)] + ms;
    if p.client.got >= 2 {
      assert Messages(server.sent)[1] == server.sent[1].message && Messages(server.sent)[1] == ms[0];
    } else if !p.s2c.cut {
      assert |ms| == 0;
    }
  }

  // ---------------------------------------------------------------- the one wait

  /** The server has neither authorised nor closed, and nothing is on its way to the client. */
  ghost predicate WaitsForServer(p: Pair) {
    && p.client.task.pc.AwaitAuthorized? && p.server.alive && p.server.pushed == [] &&
      MINE in p.server.engine.mail && p.server.engine.mail[MINE] == []
    && p.s2c.wire == [] && p.client.unread == [] && |p.server.sent| == p.client.got
  }

  /** When the peer has written more than was read, there is something to take in or to read. */
  lemma ArriveOrRead(v: View, peer: Side)
    requires Around(v, peer) && Reading(v.me) && !v.inbound.cut && v.me.got < |peer.sent| && v.inbound.wire == []
    ensures !CurrentRead(v).0.Pending?
  {
    var key, ss := Hkdf(v.me.task.shared.value), peer.sent[v.me.got..];
    ArrivedIsFrames(v, peer);
    hide SideInv, StreamInv, ReadInv, Deframe, ReadOne, Frame;
    assert Frame(key, ss[0]) <= v.me.unread;
    ReadHead(key, Expected(v.me.task.pc), ss, v.me.unread, v.inbound.closed);
  }

  /** A read that waits takes in what has come; one that has a whole frame returns. */
  function ReadMove(v: View): Move {
    if v.inbound.wire != [] && Deframe(v.me.unread).Incomplete? then Move.Arrive(|v.inbound.wire|)
    else FrameRead(seq(12, _ => 0), NoBytes())
  }

  lemma WholeFrameIsReady(v: View)
    requires Reading(v.me) && !Deframe(v.me.unread).Incomplete?
    ensures !CurrentRead(v).0.Pending?
  {
  }

  /** A client at its authorisation read can go on, or its server can, unless the server application
      has not said anything yet. */
  lemma OnlyAuthorisationWaits(p: Pair)
    requires PairInv(p) && Disciplined(p) && Fits(Authorized)
    requires p.client.alive && p.client.task.pc.AwaitAuthorized? && !p.s2c.cut
    ensures WaitsForServer(p) || Enabled(ViewOf(p, Client), ReadMove(ViewOf(p, Client))) ||
            Enabled(ViewOf(p, Server), Move.TakeEvent(seq(12, _ => 0), NoBytes()))
  {
    hide SigningInv, ReadInv, InFlight;
    var v := ViewOf(p, Client);
    if !Deframe(p.client.unread).Incomplete? {
      WholeFrameIsReady(v);
    } else if p.s2c.wire == [] {
      if p.client.got < |p.server.sent| {
        ArriveOrRead(v, p.server);
      } else {
        NothingToRead(p);
      }
    }
  }

  lemma NothingToRead(p: Pair)
    requires PairInv(p) && Disciplined(p) && Fits(Authorized)
    requires p.client.alive && p.client.task.pc.AwaitAuthorized? && !p.s2c.cut
    requires p.s2c.wire == [] && p.client.got == |p.server.sent|
    ensures p.client.unread == [] && (p.server.alive ==> p.server.taken == [])
    ensures !p.server.alive ==> CurrentRead(ViewOf(p, Client)).0.EndOfStream?
    ensures p.server.alive ==> p.server.task.pc.Established?
  {
    ArrivedIsFrames(ViewOf(p, Client), p.server);
    assert p.server.sent[p.client.got..] == [];
    assert Messages(p.server.sent) == [OwnAuth(p.server)] + EngineRuns.WritesOf(p.server.taken);
    var taken := p.server.taken;
    assert taken == p.server.pushed[..|taken|];
    DisciplineOfPrefix(p.server.pushed, |taken|);
    AuthorisationThenChats(taken);
    assert EngineRuns.NoSignature(taken);
    if p.server.alive {
      NothingSaid(taken);
    }
  }

  /** When that read completes, the client is connected. */
  lemma AuthorisationConnects(p: Pair, nonce: Nonce, random: nat -> Byte)
    requires PairInv(p) && Disciplined(p) && Fits(Authorized) && !p.s2c.cut
    requires p.client.task.pc.AwaitAuthorized? && Enabled(ViewOf(p, Client), FrameRead(nonce, random))
    ensures Apply(p, Action(Client, FrameRead(nonce, random))).client.task.pc.Established?
  {
    hide StreamInv, Link, SideInv, GoOn;
    var v := ViewOf(p, Client);
    FidelityHere(p, Client);
    HandshakeReadIs(v, nonce, random);
  }
}
