/** Nothing stays on the way. Between two endpoints whose loops run on - no close, no broken stream - and
    whose tasks, transport and engines are not put off for ever, every fitting chat that was queued on
    the connection is returned to the other application. */
module EventualDelivery {
  import opened Octets
  import opened Packets
  import opened EncryptedChannel
  import opened Events
  import opened Handshake
  import opened ConnectionLoop
  import opened EngineActor
  import opened Session
  import opened SessionInvariants
  import opened Delivery
  import opened Progress
  import opened Termination
  import EngineRuns

  /** Both loops run, no stream has broken, and the applications keep to the order. */
  ghost predicate Flowing(p: Pair) {
    && PairInv(p) && Disciplined(p) && Fits(Authorized)
    && p.client.alive && p.client.task.pc.Established? && p.server.alive && p.server.task.pc.Established?
    && !p.c2s.cut && !p.s2c.cut
  }

  /** Anything but a stream that breaks and a close. */
  predicate Unbroken(p: Pair, a: Action) {
    var v := ViewOf(p, a.role);
    Enabled(v, a.move) && !a.move.Break? && !a.move.Reset? &&
    (a.move.TakeEvent? ==> !v.me.engine.mail[MINE][0].CloseConnection?)
  }

  /** What is to be delivered: the chats among the first `count` events queued at one endpoint. */
  datatype Target = Target(from: Role, count: nat)

  function Sender(p: Pair, t: Target): Side {
    ViewOf(p, t.from).me
  }

  function Receiver(p: Pair, t: Target): Side {
    PeerOf(p, t.from)
  }

  function Across(role: Role): Role {
    if role.Client? then Server else Client
  }

  predicate Asked(p: Pair, t: Target) {
    t.count <= |Sender(p, t).pushed|
  }

  /** The frames of the sender up to the last of these events. */
  function FramesFor(p: Pair, t: Target): nat
    requires Asked(p, t)
  {
    1 + |EngineRuns.WritesOf(Sender(p, t).pushed[..t.count])|
  }

  function ChatsFor(p: Pair, t: Target): nat
    requires Asked(p, t)
  {
    |FittingChats(Sender(p, t).pushed[..t.count])|
  }

  predicate Delivered(p: Pair, t: Target)
    requires Asked(p, t)
  {
    ChatsFor(p, t) <= |Receiver(p, t).yielded|
  }

  /** A step that brings them closer: the sender's loop takes an event, octets come in that are needed, the
      receiver's loop reads, or its engine handles an event - whichever is due. */
  predicate Useful(p: Pair, t: Target, a: Action)
    requires Asked(p, t)
  {
    if |Sender(p, t).taken| < t.count then a.role == t.from && a.move.TakeEvent?
    else if Receiver(p, t).got < FramesFor(p, t) then
      a.role == Across(t.from) &&
      (a.move.FrameRead? || (a.move.Arrive? && Deframe(Receiver(p, t).unread).Incomplete?))
    else a.role == Across(t.from) && a.move.Poll?
  }

  // ---------------------------------------------------------------- the measure

  function Minus(a: nat, b: nat): nat {
    if a < b then 0 else a - b
  }

  function EventsLeft(p: Pair, t: Target): nat {
    Minus(t.count, |Sender(p, t).taken|)
  }

  function FramesLeft(p: Pair, t: Target): nat
    requires Asked(p, t)
  {
    Minus(FramesFor(p, t), Receiver(p, t).got)
  }

  function OctetsLeft(p: Pair, t: Target): nat
    requires Asked(p, t)
  {
    var x, y := Sender(p, t), Receiver(p, t);
    if EventsLeft(p, t) > 0 || FramesLeft(p, t) == 0 || y.got >= |x.sent| then 0
    else Minus(FrameLength(x.sent[y.got].message), |y.unread|)
  }

  predicate IsChat(post: Post) {
    post.source == MINE && post.event.ChatArrived?
  }

  /** How many events the engine has to handle before it has returned n chats of the connection. */
  function AheadOfChats(rx: seq<Post>, n: nat): nat {
    if n == 0 || rx == [] then 0 else 1 + AheadOfChats(rx[1..], if IsChat(rx[0]) then n - 1 else n)
  }

  function PostsLeft(p: Pair, t: Target): nat
    requires Asked(p, t)
  {
    if EventsLeft(p, t) > 0 || FramesLeft(p, t) > 0 then 0
    else AheadOfChats(Receiver(p, t).engine.rx, Minus(ChatsFor(p, t), |Receiver(p, t).yielded|))
  }

  predicate Below(p: Pair, q: Pair, t: Target)
    requires Asked(p, t) && Asked(q, t)
  {
    var (e, f, o) := (EventsLeft(q, t), FramesLeft(q, t), OctetsLeft(q, t));
    EventsLeft(p, t) < e ||
    (EventsLeft(p, t) == e && (FramesLeft(p, t) < f ||
      (FramesLeft(p, t) == f && (OctetsLeft(p, t) < o ||
        (OctetsLeft(p, t) == o && PostsLeft(p, t) < PostsLeft(q, t))))))
  }

  predicate SameMeasure(p: Pair, q: Pair, t: Target)
    requires Asked(p, t) && Asked(q, t)
  {
    EventsLeft(p, t) == EventsLeft(q, t) && FramesLeft(p, t) == FramesLeft(q, t) &&
    OctetsLeft(p, t) == OctetsLeft(q, t) && PostsLeft(p, t) == PostsLeft(q, t)
  }

  lemma {:induction false} AheadAppended(rx: seq<Post>, more: seq<Post>, n: nat)
    requires n <= |QueuedChats(rx)|
    ensures AheadOfChats(rx + more, n) == AheadOfChats(rx, n)
  {
    if n > 0 {
      assert (rx + more)[1..] == rx[1..] + more;
      AheadAppended(rx[1..], more, if IsChat(rx[0]) then n - 1 else n);
    }
  }

  // ---------------------------------------------------------------- both loops run on

  lemma FlowEither(p: Pair, role: Role)
    requires Flowing(p)
    ensures var v, peer := ViewOf(p, role), PeerOf(p, role);
            && Around(v, peer) && v.me.alive && peer.alive && v.me.task.pc.Established? && Reading(v.me)
            && !v.inbound.cut && !v.outbound.cut && !v.inbound.closed && !v.outbound.closed
  {
    hide SentInv, MailInv, SigningInv, ReadInv, InFlight;
  }

  /** A read of a running loop brings a message. */
  lemma ReadsMessages(p: Pair, role: Role, nonce: Nonce, random: nat -> Byte)
    requires Flowing(p) && Enabled(ViewOf(p, role), FrameRead(nonce, random))
    ensures CurrentRead(ViewOf(p, role)).0.Message?
  {
    hide CurrentRead, PairInv, Disciplined, Around;
    FlowEither(p, role);
    ReadsFaithfully(p, role);
  }

  lemma ReadsFaithfully(p: Pair, role: Role)
    requires Flowing(p) && Reading(ViewOf(p, role).me)
    ensures var v := ViewOf(p, role);
            match CurrentRead(v).0
            case EndOfStream => v.inbound.closed
            case Failed(_) => v.inbound.cut
            case Panicked => false
            case _ => true
  {
    hide CurrentRead, PairInv, Disciplined;
    FidelityHere(p, role);
  }

  /** What a read of a running loop comes to. */
  lemma ReadMoves(p: Pair, role: Role, nonce: Nonce, random: nat -> Byte)
    requires Flowing(p) && Enabled(ViewOf(p, role), FrameRead(nonce, random))
    ensures var v, v' := ViewOf(p, role), Happen(ViewOf(p, role), FrameRead(nonce, random));
            && v'.me == v.me.(unread := v'.me.unread, got := v.me.got + 1, engine := v'.me.engine)
            && v'.inbound == v.inbound && v'.outbound == v.outbound
            && v.me.engine.rx <= v'.me.engine.rx
  {
    hide Happen, CurrentRead, Flowing, Enabled;
    ReadsMessages(p, role, nonce, random);
    LoopOf(p, role);
    ReadLoopResult(ViewOf(p, role), nonce, random);
  }

  lemma LoopOf(p: Pair, role: Role)
    requires Flowing(p)
    ensures ViewOf(p, role).me.alive && ViewOf(p, role).me.task.pc.Established?
  {
    hide PairInv;
  }

  /** What taking an event other than a close comes to. */
  lemma EventMoves(p: Pair, role: Role, nonce: Nonce, random: nat -> Byte)
    requires Flowing(p) && Unbroken(p, Action(role, Move.TakeEvent(nonce, random)))
    ensures var v, v' := ViewOf(p, role), Happen(ViewOf(p, role), Move.TakeEvent(nonce, random));
            && v'.me == v.me.(taken := v'.me.taken, sent := v'.me.sent, engine := v'.me.engine)
            && |v'.me.taken| == |v.me.taken| + 1 && v.me.sent <= v'.me.sent && v'.me.engine.rx == v.me.engine.rx
            && v'.inbound == v.inbound && v'.outbound.cut == v.outbound.cut
  {
    hide Happen, PairInv, Link, PcInv, SentInv, SigningInv, Frame;
    var v := ViewOf(p, role);
    FlowEither(p, role);
    AtTheLoop(v, PeerOf(p, role));
    TakeEventResult(v, nonce, random);
    assert v.me.engine.mail[MINE][0] in v.me.pushed;
  }

  /** What the engine and the application do. */
  lemma EngineMoves(v: View, m: Move)
    requires Enabled(v, m) && OfEngine(m)
    ensures var v' := Happen(v, m);
            && v' == v.(me := v.me.(engine := v'.me.engine, pushed := v'.me.pushed, yielded := v'.me.yielded))
            && v.me.pushed <= v'.me.pushed
            && (if m.Poll? then v.me.engine.rx != [] && v'.me.engine.rx == v.me.engine.rx[1..]
                else v.me.engine.rx <= v'.me.engine.rx && v'.me.yielded == v.me.yielded)
  {
    hide GoOn, CurrentRead, ReadFails, Turned, Session.Read, Session.Send, Session.End;
    match m
    case Poll =>
    case Say(_) =>
    case Tell(_, _) =>
    case OtherPost(_) =>
    case OtherMail(_) =>
  }

  lemma PollYields(v: View)
    requires Enabled(v, Poll)
    ensures |Happen(v, Poll).me.yielded| == |v.me.yielded| + if IsChat(v.me.engine.rx[0]) then 1 else 0
  {
    hide GoOn, CurrentRead, ReadFails, Turned, Session.Read, Session.Send, Session.End;
  }

  /** What one step does to the endpoint that takes it. */
  ghost predicate RunsOn(v: View, v': View) {
    && v'.me == v.me.(unread := v'.me.unread, got := v'.me.got, taken := v'.me.taken, sent := v'.me.sent,
                      pushed := v'.me.pushed, yielded := v'.me.yielded, engine := v'.me.engine)
    && v'.inbound.cut == v.inbound.cut && v'.outbound.cut == v.outbound.cut
    && v.me.pushed <= v'.me.pushed && v.me.sent <= v'.me.sent
    && |v.me.taken| <= |v'.me.taken| && v.me.got <= v'.me.got
  }

  lemma StepRunsOn(p: Pair, a: Action)
    requires Flowing(p) && Unbroken(p, a)
    ensures RunsOn(ViewOf(p, a.role), Happen(ViewOf(p, a.role), a.move))
  {
    hide Happen, Flowing, PairInv;
    var v := ViewOf(p, a.role);
    LoopOf(p, a.role);
    match a.move
    case Arrive(n) => ArriveMoves(v, n);
    case FrameRead(nonce, random) => ReadMoves(p, a.role, nonce, random);
    case TakeEvent(nonce, random) => EventMoves(p, a.role, nonce, random);
    case Poll => EngineMoves(v, a.move);
    case Say(_) => EngineMoves(v, a.move);
    case Tell(_, _) => EngineMoves(v, a.move);
    case OtherPost(_) => EngineMoves(v, a.move);
    case OtherMail(_) => EngineMoves(v, a.move);
    case _ =>
  }

  lemma ArriveMoves(v: View, n: nat)
    requires Enabled(v, Move.Arrive(n))
    ensures Happen(v, Move.Arrive(n)) ==
            View(v.me.(unread := v.me.unread + v.inbound.wire[..n]), v.inbound.(wire := v.inbound.wire[n..]),
              v.outbound)
  {
  }

  lemma FlowGoesOn(p: Pair, a: Action)
    requires Flowing(p) && Unbroken(p, a) && Disciplined(Apply(p, a))
    ensures Flowing(Apply(p, a))
  {
    hide Happen, PairInv, Disciplined, Enabled;
    ApplyKeeps(p, a);
    StepRunsOn(p, a);
  }

  // ---------------------------------------------------------------- what the target stands for

  lemma {:induction false} WritesOfPrefix(events: seq<ConnectionEvent>, n: nat)
    requires n <= |events|
    ensures EngineRuns.WritesOf(events[..n]) <= EngineRuns.WritesOf(events)
    decreases |events|
  {
    if n < |events| {
      var before := events[..|events| - 1];
      WritesOfPrefix(before, n);
      assert before[..n] == events[..n] && events == before + [events[|events| - 1]];
      WritesOfOneMore(before, events[|events| - 1]);
    } else {
      assert events[..n] == events;
    }
  }

  /** When the sender's loop has taken the events, their frames have been written; they carry the chats. */
  lemma FramesWritten(x: Side, count: nat)
    requires SentInv(x) && MailInv(x) && x.sent != [] && count <= |x.taken|
    ensures var ms := EngineRuns.WritesOf(x.pushed[..count]);
            && 1 + |ms| <= |x.sent|
            && ChatsOf(Messages(x.sent[..1 + |ms|])) == FittingChats(x.pushed[..count])
  {
    hide EngineRuns.WritesOf, ChatsOf, FittingChats;
    var ms := EngineRuns.WritesOf(x.pushed[..count]);
    assert x.pushed[..count] == x.taken[..count];
    WritesOfPrefix(x.taken, count);
    assert Messages(x.sent) == [OwnAuth(x)] + EngineRuns.WritesOf(x.taken);
    assert |Messages(x.sent)| == |x.sent|;
    MessagesSplit(x.sent, 1 + |ms|);
    hide Messages;
    assert Messages(x.sent[..1 + |ms|]) == Messages(x.sent)[..1 + |ms|] == [OwnAuth(x)] + ms;
    WrittenChats(OwnAuth(x), x.pushed[..count]);
  }

  /** When the receiver has read those frames, the chats it has not returned wait in its engine's queue. */
  lemma ChatsQueued(x: Side, y: Side, pipe: Pipe, frames: nat)
    requires Link(x, y, pipe) && frames <= y.got
    ensures |ChatsOf(Messages(x.sent[..frames]))| <= |y.yielded| + |QueuedChats(y.engine.rx)|
  {
    hide QueuedChats, ChatsOf, InFlight;
    var all := x.sent[..y.got];
    assert all[..frames] == x.sent[..frames];
    MessagesSplit(all, frames);
    ChatsOfSplit(Messages(all[..frames]), Messages(all[frames..]));
  }

  lemma TargetFacts(p: Pair, t: Target)
    requires Flowing(p) && Asked(p, t) && t.count <= |Sender(p, t).taken|
    ensures FramesFor(p, t) <= |Sender(p, t).sent|
    ensures FramesFor(p, t) <= Receiver(p, t).got ==>
              ChatsFor(p, t) <= |Receiver(p, t).yielded| + |QueuedChats(Receiver(p, t).engine.rx)|
  {
    hide QueuedChats, ChatsOf, FittingChats, EngineRuns.WritesOf, SigningInv, StreamInv, ReadInv;
    var x, y := Sender(p, t), Receiver(p, t);
    FlowEither(p, t.from);
    FramesWritten(x, t.count);
    if FramesFor(p, t) <= y.got {
      ChatsQueued(x, y, ViewOf(p, t.from).outbound, FramesFor(p, t));
    }
  }

  /** The target stands for the same frames and chats after a step. */
  lemma SameTarget(p: Pair, a: Action, t: Target)
    requires Flowing(p) && Unbroken(p, a) && Asked(p, t)
    ensures Asked(Apply(p, a), t) && FramesFor(Apply(p, a), t) == FramesFor(p, t)
    ensures ChatsFor(Apply(p, a), t) == ChatsFor(p, t)
  {
    hide Happen, Flowing, Enabled, EngineRuns.WritesOf, FittingChats;
    StepRunsOn(p, a);
    assert Sender(Apply(p, a), t).pushed[..t.count] == Sender(p, t).pushed[..t.count];
  }

  // ---------------------------------------------------------------- steps of the sender

  lemma SenderStep(p: Pair, a: Action, t: Target)
    requires Flowing(p) && Unbroken(p, a) && Asked(p, t) && a.role == t.from
    ensures Asked(Apply(p, a), t)
    ensures Below(Apply(p, a), p, t) || SameMeasure(Apply(p, a), p, t)
  {
    hide Happen, Flowing, Enabled, AheadOfChats, FrameLength, FramesFor, ChatsFor;
    StepRunsOn(p, a);
    SameTarget(p, a, t);
    if t.count <= |Sender(p, t).taken| {
      TargetFacts(p, t);
    }
  }

  lemma TakingIsCloser(p: Pair, a: Action, t: Target)
    requires Flowing(p) && Unbroken(p, a) && Asked(p, t)
    requires a.role == t.from && a.move.TakeEvent? && |Sender(p, t).taken| < t.count
    ensures Asked(Apply(p, a), t) && Below(Apply(p, a), p, t)
  {
    hide Happen, Flowing, Enabled, AheadOfChats, FrameLength, FramesFor, ChatsFor;
    SameTarget(p, a, t);
    EventMoves(p, a.role, a.move.nonce, a.move.random);
  }

  // ---------------------------------------------------------------- steps of the receiver

  lemma ReceiverReads(p: Pair, a: Action, t: Target)
    requires Flowing(p) && Unbroken(p, a) && Asked(p, t) && a.role == Across(t.from) && a.move.FrameRead?
    ensures Asked(Apply(p, a), t)
    ensures Below(Apply(p, a), p, t) || SameMeasure(Apply(p, a), p, t)
    ensures |Sender(p, t).taken| >= t.count && Receiver(p, t).got < FramesFor(p, t) ==> Below(Apply(p, a), p, t)
  {
    hide Happen, Flowing, Enabled, AheadOfChats, FrameLength, FramesFor, ChatsFor, QueuedChats;
    SameTarget(p, a, t);
    ReadMoves(p, a.role, a.move.nonce, a.move.random);
    if t.count <= |Sender(p, t).taken| && FramesFor(p, t) <= Receiver(p, t).got {
      QueueGrows(p, Apply(p, a), t);
    }
  }

  /** What comes behind the chats waited for does not matter. */
  lemma QueueGrows(p: Pair, p': Pair, t: Target)
    requires Flowing(p) && Asked(p, t) && t.count <= |Sender(p, t).taken| && FramesFor(p, t) <= Receiver(p, t).got
    requires Receiver(p, t).engine.rx <= Receiver(p', t).engine.rx
    ensures var n := Minus(ChatsFor(p, t), |Receiver(p, t).yielded|);
            AheadOfChats(Receiver(p', t).engine.rx, n) == AheadOfChats(Receiver(p, t).engine.rx, n)
  {
    hide Flowing, FramesFor, ChatsFor, QueuedChats;
    TargetFacts(p, t);
    var rx, rx' := Receiver(p, t).engine.rx, Receiver(p', t).engine.rx;
    assert rx' == rx + rx'[|rx|..];
    AheadAppended(rx, rx'[|rx|..], Minus(ChatsFor(p, t), |Receiver(p, t).yielded|));
  }

  lemma ReceiverTakesIn(p: Pair, a: Action, t: Target)
    requires Flowing(p) && Unbroken(p, a) && Asked(p, t) && a.role == Across(t.from) && a.move.Arrive?
    ensures Asked(Apply(p, a), t)
    ensures Below(Apply(p, a), p, t) || SameMeasure(Apply(p, a), p, t)
    ensures |Sender(p, t).taken| >= t.count && Receiver(p, t).got < FramesFor(p, t) &&
            Deframe(Receiver(p, t).unread).Incomplete? ==>
              Below(Apply(p, a), p, t)
  {
    hide Happen, Flowing, Enabled, AheadOfChats, FrameLength, FramesFor, ChatsFor, Deframe;
    SameTarget(p, a, t);
    ArriveMoves(ViewOf(p, a.role), a.move.n);
    if |Sender(p, t).taken| >= t.count && Receiver(p, t).got < FramesFor(p, t) {
      TargetFacts(p, t);
      NeedsOctets(p, a, t);
    }
  }

  /** A frame that cannot be decoded yet lacks octets, and some arrive. */
  lemma NeedsOctets(p: Pair, a: Action, t: Target)
    requires Flowing(p) && Enabled(ViewOf(p, a.role), a.move) && a.role == Across(t.from) && a.move.Arrive?
    requires Receiver(p, t).got < |Sender(p, t).sent|
    ensures 0 < a.move.n <= |ViewOf(p, a.role).inbound.wire|
    ensures Deframe(Receiver(p, t).unread).Incomplete? ==>
              |Receiver(p, t).unread| < FrameLength(Sender(p, t).sent[Receiver(p, t).got].message)
  {
    hide Flowing, Deframe, ReadOne, Frame;
    var v, peer := ViewOf(p, a.role), Sender(p, t);
    FlowEither(p, a.role);
    hide Around;
    var key, ss := Hkdf(v.me.task.shared.value), peer.sent[v.me.got..];
    ArrivedIsFrames(v, peer);
    WellSentPeer(v, peer);
    if |Frame(key, ss[0])| <= |v.me.unread| {
      assert Frame(key, ss[0]) <= v.me.unread;
      CompleteIsNotTheEnd(key, ss[0], v.me.unread);
    }
  }

  lemma WellSentPeer(v: View, peer: Side)
    requires Around(v, peer)
    ensures AllWellSent(peer.sent) && v.me.got <= |peer.sent|
  {
    hide SideInv, ReadInv, InFlight;
  }

  lemma ReceiverPolls(p: Pair, a: Action, t: Target)
    requires Flowing(p) && Unbroken(p, a) && Asked(p, t) && a.role == Across(t.from) && a.move.Poll?
    ensures Asked(Apply(p, a), t)
    ensures Below(Apply(p, a), p, t) || SameMeasure(Apply(p, a), p, t)
    ensures !Delivered(p, t) && |Sender(p, t).taken| >= t.count && Receiver(p, t).got >= FramesFor(p, t) ==>
              Below(Apply(p, a), p, t)
  {
    hide Happen, Flowing, Enabled, FrameLength, FramesFor, ChatsFor;
    SameTarget(p, a, t);
    EngineMoves(ViewOf(p, a.role), a.move);
    PollYields(ViewOf(p, a.role));
  }

  lemma ReceiverElse(p: Pair, a: Action, t: Target)
    requires Flowing(p) && Unbroken(p, a) && Asked(p, t) && a.role == Across(t.from)
    requires !a.move.FrameRead? && !a.move.Arrive? && !a.move.Poll?
    ensures Asked(Apply(p, a), t)
    ensures Below(Apply(p, a), p, t) || SameMeasure(Apply(p, a), p, t)
  {
    hide Happen, Flowing, AheadOfChats, FrameLength, FramesFor, ChatsFor, QueuedChats;
    SameTarget(p, a, t);
    LoopOf(p, a.role);
    if a.move.TakeEvent? {
      EventMoves(p, a.role, a.move.nonce, a.move.random);
    } else {
      EngineMoves(ViewOf(p, a.role), a.move);
    }
    if t.count <= |Sender(p, t).taken| && FramesFor(p, t) <= Receiver(p, t).got {
      QueueGrows(p, Apply(p, a), t);
    }
  }

  // ---------------------------------------------------------------- every step

  /** No step takes the chats farther from their delivery, and a useful one brings them closer. */
  lemma StepIsNoFarther(p: Pair, a: Action, t: Target)
    requires Flowing(p) && Unbroken(p, a) && Asked(p, t)
    ensures Asked(Apply(p, a), t)
    ensures Below(Apply(p, a), p, t) || SameMeasure(Apply(p, a), p, t)
    ensures !Delivered(p, t) && Useful(p, t, a) ==> Below(Apply(p, a), p, t)
  {
    hide Flowing, Unbroken, Apply, Below, SameMeasure, FramesFor, Delivered, Deframe;
    if a.role == t.from {
      SenderStep(p, a, t);
      if |Sender(p, t).taken| < t.count && a.move.TakeEvent? {
        TakingIsCloser(p, a, t);
      }
    } else if a.move.FrameRead? {
      ReceiverReads(p, a, t);
    } else if a.move.Arrive? {
      ReceiverTakesIn(p, a, t);
    } else if a.move.Poll? {
      ReceiverPolls(p, a, t);
    } else {
      ReceiverElse(p, a, t);
    }
  }

  function NextUseful(p: Pair, t: Target): Action
    requires Asked(p, t)
  {
    if |Sender(p, t).taken| < t.count then Action(t.from, TakeOne())
    else if Receiver(p, t).got < FramesFor(p, t) then Action(Across(t.from), ReadMove(ViewOf(p, Across(t.from))))
    else Action(Across(t.from), Poll)
  }

  /** As long as the chats are not delivered, some useful step can be taken. */
  lemma DeliveryNeverStuck(p: Pair, t: Target)
    requires Flowing(p) && Asked(p, t) && !Delivered(p, t)
    ensures Enabled(ViewOf(p, NextUseful(p, t).role), NextUseful(p, t).move) && Useful(p, t, NextUseful(p, t))
  {
    hide Flowing, FramesFor, ChatsFor, CurrentRead, Deframe, Around, QueuedChats;
    var x, y := Sender(p, t), Receiver(p, t);
    if |x.taken| < t.count {
      EventWaits(p, t.from);
    } else {
      TargetFacts(p, t);
      FlowEither(p, Across(t.from));
      if y.got < FramesFor(p, t) {
        ReadingNotStuck(ViewOf(p, Across(t.from)), x);
        hide Enabled;
      } else {
        assert |QueuedChats(y.engine.rx)| > 0;
        NoChatsQueued([]);
      }
    }
  }

  /** An event that was queued and not taken is in the mailbox. */
  lemma EventWaits(p: Pair, role: Role)
    requires Flowing(p) && |ViewOf(p, role).me.taken| < |ViewOf(p, role).me.pushed|
    ensures Enabled(ViewOf(p, role), TakeOne())
  {
    hide PairInv, Link, PcInv, SentInv, SigningInv;
    FlowEither(p, role);
  }

  // ---------------------------------------------------------------- every run

  ghost predicate Continues(p: Pair, a: Action, p': Pair) {
    Unbroken(p, a) && p' == Apply(p, a) && Disciplined(p')
  }

  ghost predicate StepAt(states: nat -> Pair, actions: nat -> Action, k: nat) {
    Continues(states(k), actions(k), states(k + 1))
  }

  /** Useful steps are not put off for ever. */
  ghost predicate Fair(states: nat -> Pair, actions: nat -> Action, t: Target) {
    forall i: nat :: UsefulAfter(states, actions, t, i)
  }

  ghost predicate UsefulAfter(states: nat -> Pair, actions: nat -> Action, t: Target, i: nat) {
    exists j: nat :: i <= j && (Asked(states(j), t) ==> Delivered(states(j), t) || Useful(states(j), t, actions(j)))
  }

  /** From one useful step to the next, or to the delivery. */
  lemma WalkOn(states: nat -> Pair, actions: nat -> Action, t: Target, i: nat) returns (k: nat)
    requires forall n: nat :: StepAt(states, actions, n)
    requires Fair(states, actions, t) && Flowing(states(i)) && Asked(states(i), t)
    ensures i <= k && Flowing(states(k)) && Asked(states(k), t)
    ensures Below(states(k), states(i), t) || SameMeasure(states(k), states(i), t)
    ensures Delivered(states(k), t) || Useful(states(k), t, actions(k))
  {
    hide Flowing, Unbroken, Disciplined, Apply, Delivered, Useful, EventsLeft, FramesLeft, OctetsLeft, PostsLeft;
    assert UsefulAfter(states, actions, t, i);
    var j: nat :| i <= j && (Asked(states(j), t) ==> Delivered(states(j), t) || Useful(states(j), t, actions(j)));
    k := i;
    while k < j && !Delivered(states(k), t) && !Useful(states(k), t, actions(k))
      invariant i <= k <= j && Flowing(states(k)) && Asked(states(k), t)
      invariant Below(states(k), states(i), t) || SameMeasure(states(k), states(i), t)
    {
      assert StepAt(states, actions, k);
      FlowGoesOn(states(k), actions(k));
      StepIsNoFarther(states(k), actions(k), t);
      k := k + 1;
    }
  }

  lemma {:induction false} FromHereOn(states: nat -> Pair, actions: nat -> Action, t: Target, i: nat) returns (n: nat)
    requires forall k: nat :: StepAt(states, actions, k)
    requires Fair(states, actions, t) && Flowing(states(i)) && Asked(states(i), t)
    ensures i <= n && Flowing(states(n)) && Asked(states(n), t) && Delivered(states(n), t)
    decreases EventsLeft(states(i), t), FramesLeft(states(i), t), OctetsLeft(states(i), t), PostsLeft(states(i), t)
  {
    hide Flowing, Unbroken, Disciplined, Apply, Delivered, Useful, EventsLeft, FramesLeft, OctetsLeft, PostsLeft, Fair;
    var k := WalkOn(states, actions, t, i);
    if Delivered(states(k), t) {
      return k;
    }
    assert StepAt(states, actions, k);
    FlowGoesOn(states(k), actions(k));
    StepIsNoFarther(states(k), actions(k), t);
    n := FromHereOn(states, actions, t, k + 1);
  }

  lemma {:induction false} QueuedStay(states: nat -> Pair, actions: nat -> Action, from: Role, i: nat, n: nat)
    requires forall k: nat :: StepAt(states, actions, k)
    requires i <= n && Flowing(states(i))
    ensures Flowing(states(n)) && ViewOf(states(i), from).me.pushed <= ViewOf(states(n), from).me.pushed
    decreases n
  {
    hide Flowing, Unbroken, Disciplined, Happen;
    if i < n {
      QueuedStay(states, actions, from, i, n - 1);
      assert StepAt(states, actions, n - 1);
      FlowGoesOn(states(n - 1), actions(n - 1));
      StepRunsOn(states(n - 1), actions(n - 1));
    }
  }

  /** Eventual delivery. On every unending run of two running loops without a close and without a broken
      stream, on which the steps that bring chats closer are not put off for ever, the other application
      gets, in order, every fitting chat that had been queued at any time. */
  lemma EverythingIsDelivered(states: nat -> Pair, actions: nat -> Action, from: Role, i: nat) returns (n: nat)
    requires Flowing(states(i)) && forall k: nat :: StepAt(states, actions, k)
    requires Fair(states, actions, Target(from, |ViewOf(states(i), from).me.pushed|))
    ensures i <= n && FittingChats(ViewOf(states(i), from).me.pushed) <= PeerOf(states(n), from).yielded
  {
    hide Fair, FittingChats, Link, SideInv;
    var pushed := ViewOf(states(i), from).me.pushed;
    var t := Target(from, |pushed|);
    n := FromHereOn(states, actions, t, i);
    QueuedStay(states, actions, from, i, n);
    var x, y := ViewOf(states(n), from).me, PeerOf(states(n), from);
    assert x.pushed == pushed + x.pushed[|pushed|..] && x.pushed[..|pushed|] == pushed;
    FittingChatsAppend(pushed, x.pushed[|pushed|..]);
    FlowEither(states(n), from);
    PrefixDelivered(x, y, ViewOf(states(n), from).outbound);
    assert FittingChats(pushed) <= FittingChats(x.pushed);
    PrefixesOfOne(FittingChats(pushed), y.yielded, FittingChats(x.pushed));
  }
}
