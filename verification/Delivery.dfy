/** What the invariants of a connection mean to the two applications. */
module Delivery {
  import opened Octets
  import opened Crypto
  import opened Packets
  import opened EncryptedChannel
  import opened Events
  import opened Handshake
  import opened ConnectionLoop
  import opened Session
  import opened SessionInvariants
  import EngineRuns

  /** The chats of a row of queued events that fit into a frame, in order. */
  function FittingChats(events: seq<ConnectionEvent>): seq<ChatMessage> {
    if events == [] then []
    else
      var last := events[|events| - 1];
      FittingChats(events[..|events| - 1]) + if last.SendChat? && Fits(Chat(last.chat)) then [last.chat] else []
  }

  lemma FittingChatsOneMore(events: seq<ConnectionEvent>, event: ConnectionEvent)
    ensures FittingChats(events + [event]) ==
            FittingChats(events) + if event.SendChat? && Fits(Chat(event.chat)) then [event.chat] else []
  {
    assert (events + [event])[..|events|] == events;
  }

  lemma {:induction false} WrittenChats(first: WireMessage, events: seq<ConnectionEvent>)
    requires !first.Chat?
    ensures ChatsOf([first] + EngineRuns.WritesOf(events)) == FittingChats(events)
  {
    if events == [] {
      assert [first] + [] == [] + [first];
      ChatsOfAppend([], first);
    } else {
      hide EngineRuns.WritesOf, ChatsOf, FittingChats;
      var before, last := events[..|events| - 1], events[|events| - 1];
      var rest := EngineRuns.WritesOf(before);
      WrittenChats(first, before);
      assert events == before + [last];
      WritesOfOneMore(before, last);
      FittingChatsOneMore(before, last);
      assert rest + [] == rest;
      if Writes(last) {
        var m := OnEvent(last).write.value;
        assert [first] + (rest + [m]) == [first] + rest + [m];
        ChatsOfAppend([first] + rest, m);
      }
    }
  }

  lemma {:induction false} FittingChatsAppend(a: seq<ConnectionEvent>, b: seq<ConnectionEvent>)
    ensures FittingChats(a + b) == FittingChats(a) + FittingChats(b)
  {
    if b == [] {
      assert a + b == a;
    } else {
      assert (a + b)[..|a + b| - 1] == a + b[..|b| - 1];
      FittingChatsAppend(a, b[..|b| - 1]);
    }
  }

  lemma {:induction false} ChatsOfSplit(a: seq<WireMessage>, b: seq<WireMessage>)
    ensures ChatsOf(a + b) == ChatsOf(a) + ChatsOf(b)
  {
    if b == [] {
      assert a + b == a;
    } else {
      assert (a + b)[..|a + b| - 1] == a + b[..|b| - 1];
      ChatsOfSplit(a, b[..|b| - 1]);
    }
  }

  /** All chats x has written are those of the events its loop has taken. */
  lemma SentChats(x: Side)
    requires SentInv(x)
    ensures ChatsOf(Messages(x.sent)) == FittingChats(x.taken)
  {
    if x.sent != [] {
      WrittenChats(OwnAuth(x), x.taken);
    } else {
      assert Messages(x.sent) == [];
    }
  }

  lemma MessagesSplit(ss: seq<Sent>, n: nat)
    requires n <= |ss|
    ensures Messages(ss) == Messages(ss[..n]) + Messages(ss[n..])
  {
  }

  /** The chats taken so far are accounted for: yielded, queued at the receiver's engine, or still
      in frames that the receiver has not read. */
  lemma TakenChats(x: Side, y: Side, pipe: Pipe)
    requires SentInv(x) && Link(x, y, pipe)
    ensures FittingChats(x.taken) == y.yielded + QueuedChats(y.engine.rx) + ChatsOf(Messages(x.sent[y.got..]))
  {
    SentChats(x);
    MessagesSplit(x.sent, y.got);
    ChatsOfSplit(Messages(x.sent[..y.got]), Messages(x.sent[y.got..]));
  }

  lemma PrefixDelivered(x: Side, y: Side, pipe: Pipe)
    requires SideInv(x) && Link(x, y, pipe)
    ensures y.yielded <= FittingChats(x.pushed)
  {
    hide FittingChats, ChatsOf, QueuedChats, Messages, StreamInv, ReadInv, PcInv, SigningInv;
    TakenChats(x, y, pipe);
    assert x.pushed == x.taken + x.pushed[|x.taken|..];
    FittingChatsAppend(x.taken, x.pushed[|x.taken|..]);
  }

  /** End-to-end delivery. In every run - whatever the applications say, whatever else the engines
      serve, however the octets are portioned and wherever the stream breaks or a task ends - the
      chats an application gets from a connection are a beginning of the fitting chats the other
      application was able to queue on it: none is lost in the middle, doubled, altered or reordered. */
  lemma EndToEndDelivery(p: Pair, actions: seq<Action>)
    requires Init(p) && Legal(p, actions)
    ensures var p' := Exec(p, actions);
            p'.server.yielded <= FittingChats(p'.client.pushed) && p'.client.yielded <= FittingChats(p'.server.pushed)
  {
    InitHolds(p);
    RunsKeep(p, actions);
    var p' := Exec(p, actions);
    PrefixDelivered(p'.client, p'.server, p'.c2s);
    PrefixDelivered(p'.server, p'.client, p'.s2c);
  }

  /** The fitting chats x's application has queued are exactly those y's has got, followed by those in
      y's engine, those in frames under way - the octets in y's reader and in the stream - and those
      in x's queue. */
  ghost predicate Conserved(x: Side, y: Side, pipe: Pipe) {
    exists flight :: InTransit(x, y, pipe, flight) && MINE in x.engine.mail &&
      FittingChats(x.pushed) ==
        y.yielded + QueuedChats(y.engine.rx) + ChatsOf(Messages(flight)) + FittingChats(x.engine.mail[MINE])
  }

  ghost predicate InTransit(x: Side, y: Side, pipe: Pipe, flight: seq<Sent>) {
    AllWellSent(flight) &&
    if y.task.shared.Some? then y.unread + pipe.wire == Frames(Hkdf(y.task.shared.value), flight) else flight == []
  }

  lemma NothingLost(v: View, peer: Side)
    requires Around(v, peer) && v.me.alive && peer.alive && !v.inbound.cut
    ensures Conserved(peer, v.me, v.inbound)
  {
    hide PcInv, InFlight;
    TakenChats(peer, v.me, v.inbound);
    FittingChatsAppend(peer.taken, peer.engine.mail[MINE]);
    var flight := peer.sent[v.me.got..];
    if v.me.task.shared.Some? {
      FlightIsFrames(v, peer, v.me.got);
      assert v.me.(got := v.me.got) == v.me;
    }
    assert InTransit(peer, v.me, v.inbound, flight);
  }

  /** Conservation. As long as neither task has ended and the stream has not broken, no chat is
      anywhere but where it should be, in either direction. */
  lemma ConservationUntilClose(p: Pair, actions: seq<Action>)
    requires Init(p) && Legal(p, actions)
    requires Exec(p, actions).client.alive && Exec(p, actions).server.alive
    requires !Exec(p, actions).c2s.cut && !Exec(p, actions).s2c.cut
    ensures var p' := Exec(p, actions);
            Conserved(p'.client, p'.server, p'.c2s) && Conserved(p'.server, p'.client, p'.s2c)
  {
    InitHolds(p);
    RunsKeep(p, actions);
    var p' := Exec(p, actions);
    NothingLost(ViewOf(p', Client), p'.server);
    NothingLost(ViewOf(p', Server), p'.client);
  }

  /** No over-read. Whenever an endpoint waits in the key exchange, all that can reach its one read
      of up to 64 octets is its peer's 34-octet key packet or a beginning of it, so no octet of a
      frame is ever taken by it; and nothing is left over when it gets the packet. */
  lemma KeyExchangeNeverOverReads(p: Pair, actions: seq<Action>, role: Role)
    requires Init(p) && Legal(p, actions)
    requires ViewOf(Exec(p, actions), role).me.alive && ViewOf(Exec(p, actions), role).me.task.pc.AwaitKey?
    ensures var p' := Exec(p, actions);
            var v, peer := ViewOf(p', role), if role.Client? then p'.server else p'.client;
            v.me.unread == [] && v.inbound.wire <= KeyPacket(peer.task.secret.publicKey) && |v.inbound.wire| <= 34 &&
            forall n: nat :: n <= |v.inbound.wire| && ParseKeyPacket(v.inbound.wire[..n]).Ok? ==>
              n == |v.inbound.wire| && v.inbound.wire[..n] == KeyPacket(peer.task.secret.publicKey)
  {
    hide SideInv, Link, ParseKeyPacket;
    InitHolds(p);
    RunsKeep(p, actions);
    var p' := Exec(p, actions);
    var v, peer := ViewOf(p', role), if role.Client? then p'.server else p'.client;
    assert Around(v, peer);
    hide Around, PairInv, Init, Legal;
    OnlyTheKeyComes(v, peer);
    var packet := KeyPacket(peer.task.secret.publicKey);
    forall n: nat | n <= |v.inbound.wire| && ParseKeyPacket(v.inbound.wire[..n]).Ok?
      ensures n == |v.inbound.wire| && v.inbound.wire[..n] == packet
    {
      KeyPacketUnsplittable(peer.task.secret.publicKey, v.inbound.wire[..n]);
    }
  }

  /** Causal order. A client that has announced its connection was verified by the server before,
      under the same hash of the same secret, and the server had written its own authentication;
      and the client has read the authorisation, or its read of it met the end of the stream. */
  lemma AnnouncedOnlyAfterVerified(p: Pair, actions: seq<Action>)
    requires Init(p) && Legal(p, actions) && Exec(p, actions).client.task.pc.Established?
    ensures var p' := Exec(p, actions);
            var client, server := p'.client, p'.server;
            && server.task.peer == Some(client.task.id) && client.task.peer == Some(server.task.id)
            && server.task.shared == client.task.shared && server.task.hash == client.task.hash &&
              client.task.hash.Some?
            && server.sent != [] && server.sent[0].message == OwnAuth(server)
            && if client.got >= 2 then |server.sent| >= 2 && server.sent[1].message.Authorized? else client.sawEnd
  {
    InitHolds(p);
    RunsKeep(p, actions);
    var p' := Exec(p, actions);
    FirstIsOwnAuth(p'.server);
    SameHash(p');
  }

  lemma SameHash(p: Pair)
    requires PairInv(p) && p.client.task.hash.Some? && p.server.task.hash.Some?
    ensures p.server.task.shared == p.client.task.shared && p.server.task.hash == p.client.task.hash
    ensures p.server.task.peer == Some(p.client.task.id)
  {
    SameKey(ViewOf(p, Client), p.server);
  }
}
