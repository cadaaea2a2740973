/** What a run of the connection loop computes, and how the loop occurs in the runs of an engine and of a
    connection between two endpoints. */
module LoopRuns {
  import opened Octets
  import opened Packets
  import opened EncryptedChannel
  import opened Events
  import opened Handshake
  import opened ConnectionLoop
  import opened Session
  import opened SessionInvariants
  import EngineRuns

  // ---------------------------------------------------------------- what the loop computes

  const START := LoopState([], false, false, [], [], [], true)

  /** All octets that have arrived. */
  function ArrivedIn(hs: seq<Happening>): seq<Octet> {
    if hs == [] then []
    else ArrivedIn(hs[..|hs| - 1]) + if hs[|hs| - 1].Arrive? then hs[|hs| - 1].chunk else []
  }

  /** All events that were queued for the loop. */
  function EnqueuedIn(hs: seq<Happening>): seq<ConnectionEvent> {
    if hs == [] then []
    else EnqueuedIn(hs[..|hs| - 1]) + if hs[|hs| - 1].Enqueue? then [hs[|hs| - 1].event] else []
  }

  function ArrivalsOf(ms: seq<WireMessage>): seq<EngineEvent>
    requires forall i :: 0 <= i < |ms| ==> ms[i].Chat?
  {
    seq(|ms|, i requires 0 <= i < |ms| => ChatArrived(ms[i].chat))
  }

  /** How a loop has ended, if it has: on an event it took or on what a read returned. */
  datatype Ending = GoesOn | LeftOn(event: ConnectionEvent) | EndedOn(result: ReadResult)

  /** What one happening does to a running loop. */
  function StepEnding(key: SymmetricKey, info: ConnectionInfo, s: LoopState, h: Happening): Ending {
    if !s.running then GoesOn
    else if h.PollRead? then
      var result := ReadOrFail(key, ChatKind, s.unread, s.closed, s.broken).0;
      if OnRead(info, result).stops then EndedOn(result) else GoesOn
    else if h.TakeEvent? && s.rx != [] && OnEvent(s.rx[0]).stops then LeftOn(s.rx[0])
    else GoesOn
  }

  function EndingOf(key: SymmetricKey, info: ConnectionInfo, hs: seq<Happening>): Ending {
    if hs == [] then GoesOn
    else
      var before := EndingOf(key, info, hs[..|hs| - 1]);
      if before.GoesOn? then StepEnding(key, info, LoopRun(key, info, START, hs[..|hs| - 1]), hs[|hs| - 1]) else before
  }

  /** The last words of a loop: a close at the end of its stream, an error and a close when a read failed,
      and none when it left on an event or a slice panicked. */
  function LastWords(info: ConnectionInfo, ending: Ending): seq<EngineEvent> {
    match ending
    case EndedOn(EndOfStream) => [ConnectionClosed(info)]
    case EndedOn(Failed(_)) => [ReadError, ConnectionClosed(info)]
    case _ => []
  }

  /** The messages `ms` and then that end are what reading the octets that had arrived until then returned;
      a transport that has broken fails a read that would otherwise wait. */
  ghost predicate EndsAt(key: SymmetricKey, all: seq<Octet>, ms: seq<WireMessage>, result: ReadResult) {
    exists first, closed: bool :: EndsAfter(key, all, ms, result, first, closed)
  }

  ghost predicate EndsAfter(key: SymmetricKey, all: seq<Octet>, ms: seq<WireMessage>, result: ReadResult,
                            first: seq<Octet>, closed: bool) {
    first <= all &&
    ReadAll(key, ChatKind, first, closed) == (ms, if result == Failed(ConnectionReset) then Pending else result)
  }

  /** Reading `all` comes to the messages `ms` and then to reading `rest`, whatever arrives after it and
      however the stream ends. */
  ghost predicate ReadsUpTo(key: SymmetricKey, all: seq<Octet>, ms: seq<WireMessage>, rest: seq<Octet>) {
    forall more: seq<Octet>, closed: bool :: ReadsOn(key, all, ms, rest, more, closed)
  }

  ghost predicate ReadsOn(key: SymmetricKey, all: seq<Octet>, ms: seq<WireMessage>, rest: seq<Octet>, more: seq<Octet>,
                          closed: bool) {
    var (later, end) := ReadAll(key, ChatKind, rest + more, closed);
    ReadAll(key, ChatKind, all + more, closed) == (ms + later, end)
  }

  /** The messages `ms` come first in whatever `all` is continued to. */
  ghost predicate ReadsFirst(key: SymmetricKey, all: seq<Octet>, ms: seq<WireMessage>) {
    forall more: seq<Octet>, closed: bool :: ms <= ReadAll(key, ChatKind, all + more, closed).0
  }

  /** What a loop has read and reported. */
  ghost predicate HasRead(key: SymmetricKey, info: ConnectionInfo, all: seq<Octet>, s: LoopState,
                          ms: seq<WireMessage>, ending: Ending) {
    && (forall i :: 0 <= i < |ms| ==> ms[i].Chat?)
    && s.posted == ArrivalsOf(ms) + LastWords(info, ending)
    && ReadsFirst(key, all, ms)
    && (s.running <==> ending.GoesOn?)
    && (s.running ==> ReadsUpTo(key, all, ms, s.unread))
    && (ending.EndedOn? ==> OnRead(info, ending.result).stops && EndsAt(key, all, ms, ending.result))
  }

  lemma MoreArrives(key: SymmetricKey, all: seq<Octet>, ms: seq<WireMessage>, rest: seq<Octet>, chunk: seq<Octet>)
    ensures ReadsFirst(key, all, ms) ==> ReadsFirst(key, all + chunk, ms)
    ensures ReadsUpTo(key, all, ms, rest) ==> ReadsUpTo(key, all + chunk, ms, rest + chunk)
  {
    hide ReadAll;
    forall more: seq<Octet>, closed: bool | ReadsFirst(key, all, ms)
      ensures ms <= ReadAll(key, ChatKind, all + chunk + more, closed).0
    {
      assert all + chunk + more == all + (chunk + more);
    }
    forall more: seq<Octet>, closed: bool | ReadsUpTo(key, all, ms, rest)
      ensures ReadsOn(key, all + chunk, ms, rest + chunk, more, closed)
    {
      assert all + chunk + more == all + (chunk + more) && rest + chunk + more == rest + (chunk + more);
      assert ReadsOn(key, all, ms, rest, chunk + more, closed);
    }
  }

  lemma OneMoreRead(key: SymmetricKey, all: seq<Octet>, ms: seq<WireMessage>, stream: seq<Octet>, ended: bool,
                    broken: bool)
    requires ReadsUpTo(key, all, ms, stream) && ReadOrFail(key, ChatKind, stream, ended, broken).0.Message?
    ensures var (result, rest) := ReadOrFail(key, ChatKind, stream, ended, broken);
            result.message.Chat? && ReadsUpTo(key, all, ms + [result.message], rest) &&
            ReadsFirst(key, all, ms + [result.message])
  {
    var (result, rest) := ReadOne(key, ChatKind, stream, ended);
    assert result.message.Kind() == ChatKind;
    forall more: seq<Octet>, closed: bool
      ensures ReadsOn(key, all, ms + [result.message], rest, more, closed)
      ensures ms + [result.message] <= ReadAll(key, ChatKind, all + more, closed).0
    {
      assert ReadsOn(key, all, ms, stream, more, closed);
      DeframeExtends(stream, more);
      hide OpenPayload, Deframe;
      assert ReadOne(key, ChatKind, stream + more, closed) == (result, rest + more);
      ReadAllNext(key, ChatKind, stream + more, closed, result.message, rest + more);
      hide ReadAll, ReadOne;
      var later := ReadAll(key, ChatKind, rest + more, closed).0;
      assert ms + ([result.message] + later) == ms + [result.message] + later;
    }
  }

  /** The loop reads its stream. Whatever happens to it in whatever order, the chats it has posted come
      first in what a reading of all arrived octets returns; as long as it runs, the rest of that is what
      reading its buffer returns; and besides the chats it posts its last words, when it has ended: on the
      result that reading met behind those chats, or on an event. */
  lemma {:induction false} LoopReads(key: SymmetricKey, info: ConnectionInfo, hs: seq<Happening>)
      returns (ms: seq<WireMessage>)
    ensures HasRead(key, info, ArrivedIn(hs), LoopRun(key, info, START, hs), ms, EndingOf(key, info, hs))
  {
    if hs == [] {
      ms := [];
      NothingReadYet(key, info);
    } else {
      var before := hs[..|hs| - 1];
      ms := LoopReads(key, info, before);
      ms := StepReads(key, info, ArrivedIn(before), LoopRun(key, info, START, before), hs[|hs| - 1], ms,
                      EndingOf(key, info, before));
    }
  }

  lemma NothingReadYet(key: SymmetricKey, info: ConnectionInfo)
    ensures HasRead(key, info, [], START, [], GoesOn)
  {
    hide ReadAll;
    forall more: seq<Octet>, closed: bool ensures ReadsOn(key, [], [], [], more, closed) {
      var all := ReadAll(key, ChatKind, [] + more, closed);
      assert [] + all.0 == all.0;
    }
  }

  lemma EndStays(key: SymmetricKey, all: seq<Octet>, ms: seq<WireMessage>, result: ReadResult, chunk: seq<Octet>)
    requires EndsAt(key, all, ms, result)
    ensures EndsAt(key, all + chunk, ms, result)
  {
    hide ReadAll;
    var first, closed: bool :| EndsAfter(key, all, ms, result, first, closed);
    assert EndsAfter(key, all + chunk, ms, result, first, closed);
  }

  /** The read that ends a loop meets that end behind the messages read before. */
  lemma EndIsMet(key: SymmetricKey, info: ConnectionInfo, all: seq<Octet>, ms: seq<WireMessage>, s: LoopState)
    requires ReadsUpTo(key, all, ms, s.unread)
    requires OnRead(info, ReadOrFail(key, ChatKind, s.unread, s.closed, s.broken).0).stops
    ensures EndsAt(key, all, ms, ReadOrFail(key, ChatKind, s.unread, s.closed, s.broken).0)
  {
    var result := ReadOrFail(key, ChatKind, s.unread, s.closed, s.broken).0;
    var closed := s.closed && !(s.broken && Deframe(s.unread).Incomplete?);
    assert ReadsOn(key, all, ms, s.unread, [], closed);
    assert all + [] == all && s.unread + [] == s.unread && ms + [] == ms;
    hide Deframe, OpenPayload;
    assert EndsAfter(key, all, ms, result, all, closed);
  }

  lemma StepReads(key: SymmetricKey, info: ConnectionInfo, all: seq<Octet>, s: LoopState, h: Happening,
                  ms: seq<WireMessage>, ending: Ending)
      returns (ms': seq<WireMessage>)
    requires HasRead(key, info, all, s, ms, ending)
    ensures HasRead(key, info, all + if h.Arrive? then h.chunk else [], LoopStep(key, info, s, h), ms',
                    if ending.GoesOn? then StepEnding(key, info, s, h) else ending)
  {
    hide ReadAll, ReadOrFail, ReadsFirst, ReadsUpTo, Written, EndsAt;
    ms' := ms;
    assert all + [] == all;
    if h.Arrive? {
      MoreArrives(key, all, ms, s.unread, h.chunk);
      if ending.EndedOn? {
        EndStays(key, all, ms, ending.result, h.chunk);
      }
    } else if h.PollRead? && s.running {
      var (result, rest) := ReadOrFail(key, ChatKind, s.unread, s.closed, s.broken);
      if result.Message? {
        OneMoreRead(key, all, ms, s.unread, s.closed, s.broken);
        ms' := ms + [result.message];
        assert ArrivalsOf(ms') == ArrivalsOf(ms) + [ChatArrived(result.message.chat)];
      } else if result.Pending? {
        PendingLeavesAll(key, s.unread, s.closed, s.broken);
      } else {
        EndIsMet(key, info, all, ms, s);
      }
    }
  }

  lemma PendingLeavesAll(key: SymmetricKey, stream: seq<Octet>, closed: bool, broken: bool)
    requires ReadOrFail(key, ChatKind, stream, closed, broken).0.Pending?
    ensures ReadOrFail(key, ChatKind, stream, closed, broken).1 == stream
  {
  }

  /** What a loop has taken from its queue and written. */
  ghost predicate HasWritten(key: SymmetricKey, queued: seq<ConnectionEvent>, s: LoopState, taken: seq<ConnectionEvent>,
                             ss: seq<Sent>, ending: Ending) {
    && queued == taken + s.rx
    && AllWellSent(ss) && s.output == Frames(key, ss) && Messages(ss) == EngineRuns.WritesOf(taken)
    && (s.running <==> ending.GoesOn?)
    && (ending.LeftOn? ==> taken != [] && taken[|taken| - 1] == ending.event)
    && (forall i :: 0 <= i < |taken| ==>
          (taken[i].CloseConnection? || taken[i].SignatureResponse? <==> ending.LeftOn? && i == |taken| - 1))
  }

  /** The loop writes its queue. Whatever happens to it in whatever order, it has taken the queued events
      from the front, and its output is a row of frames that carry exactly the fitting messages of the
      events taken, in order. Only the last event taken can be one that ends it. */
  lemma {:induction false} LoopWrites(key: SymmetricKey, info: ConnectionInfo, hs: seq<Happening>)
      returns (taken: seq<ConnectionEvent>, ss: seq<Sent>)
    ensures HasWritten(key, EnqueuedIn(hs), LoopRun(key, info, START, hs), taken, ss, EndingOf(key, info, hs))
  {
    taken, ss := [], [];
    if hs != [] {
      taken, ss := LoopWrites(key, info, hs[..|hs| - 1]);
      var s := LoopRun(key, info, START, hs[..|hs| - 1]);
      taken, ss := StepWrites(key, info, EnqueuedIn(hs[..|hs| - 1]), s, hs[|hs| - 1], taken, ss,
                              EndingOf(key, info, hs[..|hs| - 1]));
    }
  }

  lemma StepWrites(key: SymmetricKey, info: ConnectionInfo, queued: seq<ConnectionEvent>, s: LoopState, h: Happening,
                   taken: seq<ConnectionEvent>, ss: seq<Sent>, ending: Ending)
      returns (taken': seq<ConnectionEvent>, ss': seq<Sent>)
    requires HasWritten(key, queued, s, taken, ss, ending)
    ensures HasWritten(key, queued + if h.Enqueue? then [h.event] else [], LoopStep(key, info, s, h), taken', ss',
                       if ending.GoesOn? then StepEnding(key, info, s, h) else ending)
  {
    hide ReadOrFail, Frame, OnRead, EngineRuns.WritesOf, Frames;
    taken', ss' := taken, ss;
    assert queued + [] == queued;
    if h.TakeEvent? && s.running && s.rx != [] {
      var event := s.rx[0];
      taken' := taken + [event];
      WritesOfOneMore(taken, event);
      if Writes(event) {
        var m := OnEvent(event).write.value;
        var sent := Sent(m, h.nonce, Filler(m, h.random));
        ss' := ss + [sent];
        FramesAppend(key, ss, sent);
        MessagesAppend(ss, sent);
      } else {
        assert s.output + [] == s.output;
      }
    }
  }

  // ---------------------------------------------------------------- the loop among the tasks of an engine

  /** A turn of the reading branch, as the runs of an engine have it, is that of the loop. */
  lemma ReadTurnIsLoopTurn(s: EngineRuns.System, c: Events.Channel, key: SymmetricKey, l: LoopState)
    requires var result := ReadOrFail(key, ChatKind, l.unread, l.closed, l.broken).0;
             EngineRuns.Enabled(s, EngineRuns.ReadTurn(c, result)) && l.running
    ensures var result := ReadOrFail(key, ChatKind, l.unread, l.closed, l.broken).0;
            var s' := EngineRuns.Apply(s, EngineRuns.ReadTurn(c, result));
            var l' := LoopStep(key, s.tasks[c].info, l, PollRead);
            && s'.engine.rx == s.engine.rx + EngineRuns.Posts(c, l'.posted[|l.posted|..])
            && c in s'.tasks && (l'.running <==> s'.tasks[c].life.Running?)
  {
    hide ReadOrFail;
  }

  /** So is a turn that takes an event: the messages it puts on the stream are those the loop frames. */
  lemma QueueTurnIsLoopTurn(s: EngineRuns.System, c: Events.Channel, key: SymmetricKey, l: LoopState, nonce: Nonce,
                            random: nat -> Byte)
    requires EngineRuns.MailInv(s) && EngineRuns.Enabled(s, EngineRuns.QueueTurn(c)) && l.running &&
             l.rx == s.engine.mail[c]
    ensures var s' := EngineRuns.Apply(s, EngineRuns.QueueTurn(c));
            var l' := LoopStep(key, s.tasks[c].info, l, ConnectionLoop.TakeEvent(nonce, random));
            && c in s'.tasks && (l'.running <==> s'.tasks[c].life.Running?)
            && (l'.running ==> c in s'.engine.mail && s'.engine.mail[c] == l'.rx)
            && s.tasks[c].written <= s'.tasks[c].written
            && var ms := s'.tasks[c].written[|s.tasks[c].written|..];
               if ms == [] then l'.output == l.output
               else |ms| == 1 && Fits(ms[0]) &&
                    l'.output == l.output + Frame(key, Sent(ms[0], nonce, Filler(ms[0], random)))
  {
    hide Frame;
  }

  // ---------------------------------------------------------------- the loop at an endpoint

  /** The chats among the events a loop has posted. */
  function ChatsIn(posted: seq<EngineEvent>): seq<ChatMessage> {
    QueuedChats(EngineRuns.Posts(MINE, posted))
  }

  lemma ChatsInAppend(posted: seq<EngineEvent>, more: seq<EngineEvent>)
    ensures ChatsIn(posted + more) == ChatsIn(posted) + ChatsIn(more)
  {
    assert EngineRuns.Posts(MINE, posted + more) == EngineRuns.Posts(MINE, posted) + EngineRuns.Posts(MINE, more);
    QueuedChatsAppend(EngineRuns.Posts(MINE, posted), EngineRuns.Posts(MINE, more));
  }

  predicate Ended(p: Pipe) {
    p.closed && p.wire == []
  }

  /** The loop of an endpoint that had written `base` frames and been given the chats `before` when its
      handshake was done: s is its buffer, its queue, and all it has written and posted since. */
  ghost predicate Mirrors(v: View, s: LoopState, base: nat, before: seq<ChatMessage>) {
    && v.me.task.pc.Established? && v.me.task.shared.Some? && v.me.task.peer.Some?
    && AllWellSent(v.me.sent) && base <= |v.me.sent|
    && s.running == v.me.alive
    && (v.me.alive ==> s.unread == v.me.unread && s.closed == Ended(v.inbound) && !s.broken)
    && (v.me.alive ==> MINE in v.me.engine.mail && s.rx == v.me.engine.mail[MINE])
    && s.output == Frames(Hkdf(v.me.task.shared.value), v.me.sent[base..])
    && before + ChatsIn(s.posted) == v.me.yielded + QueuedChats(v.me.engine.rx)
  }

  function Turn(v: View, s: LoopState, hs: seq<Happening>): LoopState
    requires v.me.task.shared.Some? && v.me.task.peer.Some?
  {
    LoopRun(Hkdf(v.me.task.shared.value), Info(v.me), s, hs)
  }

  lemma OneTurn(v: View, s: LoopState, h: Happening)
    requires v.me.task.shared.Some? && v.me.task.peer.Some?
    ensures Turn(v, s, [h]) == LoopStep(Hkdf(v.me.task.shared.value), Info(v.me), s, h)
  {
    assert [h][..0] == [];
    assert LoopRun(Hkdf(v.me.task.shared.value), Info(v.me), s, []) == s;
  }

  /** A read of the endpoint is a turn of the loop's reading branch. */
  lemma ReadMirrors(v: View, s: LoopState, base: nat, before: seq<ChatMessage>, nonce: Nonce, random: nat -> Byte)
    requires Mirrors(v, s, base, before) && Enabled(v, FrameRead(nonce, random))
    ensures Mirrors(Happen(v, FrameRead(nonce, random)), Turn(v, s, [PollRead]), base, before)
  {
    hide Happen, ReadOne, Frames, AllWellSent, QueuedChats;
    OneTurn(v, s, PollRead);
    ReadLoopResult(v, nonce, random);
    var posts := OnRead(Info(v.me), CurrentRead(v).0).posts;
    QueuedChatsAppend(v.me.engine.rx, EngineRuns.Posts(MINE, posts));
    ChatsInAppend(s.posted, posts);
    assert before + (ChatsIn(s.posted) + ChatsIn(posts)) == before + ChatsIn(s.posted) + ChatsIn(posts);
    assert v.me.yielded + (QueuedChats(v.me.engine.rx) + ChatsIn(posts)) ==
           v.me.yielded + QueuedChats(v.me.engine.rx) + ChatsIn(posts);
  }

  /** An event that the endpoint takes is a turn of the loop's other branch. */
  lemma EventMirrors(v: View, s: LoopState, base: nat, before: seq<ChatMessage>, nonce: Nonce, random: nat -> Byte)
    requires Mirrors(v, s, base, before) && Enabled(v, Move.TakeEvent(nonce, random))
    ensures Mirrors(Happen(v, Move.TakeEvent(nonce, random)), Turn(v, s, [ConnectionLoop.TakeEvent(nonce, random)]),
            base, before)
  {
    hide Happen, Frame, QueuedChats, Frames;
    OneTurn(v, s, ConnectionLoop.TakeEvent(nonce, random));
    TakeEventResult(v, nonce, random);
    var event := v.me.engine.mail[MINE][0];
    if Writes(event) {
      var m := OnEvent(event).write.value;
      var frame := Sent(m, nonce, Filler(m, random));
      assert (v.me.sent + [frame])[base..] == v.me.sent[base..] + [frame];
      FramesAppend(Hkdf(v.me.task.shared.value), v.me.sent[base..], frame);
    } else {
      assert s.output + [] == s.output;
    }
  }

  lemma ArriveMirrors(v: View, s: LoopState, base: nat, before: seq<ChatMessage>, n: nat) returns (hs: seq<Happening>)
    requires Mirrors(v, s, base, before) && Enabled(v, Move.Arrive(n))
    ensures Mirrors(Happen(v, Move.Arrive(n)), Turn(v, s, hs), base, before)
  {
    hide Frames, QueuedChats;
    var arrive := ConnectionLoop.Arrive(v.inbound.wire[..n]);
    OneTurn(v, s, arrive);
    hs := [arrive];
    if Ended(Happen(v, Move.Arrive(n)).inbound) {
      hs := [arrive, HangUp];
      assert hs[..1] == [arrive];
    }
  }

  /** The stream changes at its far end, or breaks. */
  lemma StreamMirrors(v: View, s: LoopState, base: nat, before: seq<ChatMessage>, v': View) returns (hs: seq<Happening>)
    requires Mirrors(v, s, base, before) && v'.me == v.me && (Ended(v.inbound) ==> Ended(v'.inbound))
    ensures Mirrors(v', Turn(v, s, hs), base, before)
  {
    hide Frames, QueuedChats;
    if v.me.alive && Ended(v'.inbound) && !Ended(v.inbound) {
      OneTurn(v, s, HangUp);
      hs := [HangUp];
    } else {
      hs := [];
    }
  }

  /** The engine and the application queue an event for the loop, or do something else. */
  lemma EngineMirrors(v: View, s: LoopState, base: nat, before: seq<ChatMessage>, m: Move) returns (hs: seq<Happening>)
    requires Mirrors(v, s, base, before) && SigningInv(v.me) && Enabled(v, m) && OfEngine(m)
    ensures Mirrors(Happen(v, m), Turn(v, s, hs), base, before)
  {
    hide Happen, Enabled, Frames, QueuedChats, SigningInv;
    EngineOnly(v, m);
    EngineKeepsChats(v, m);
    if v.me.alive {
      QueueOfLoop(v, m);
    }
    if v.me.alive && v.me.engine.mail[MINE] != Happen(v, m).me.engine.mail[MINE] {
      var queue := Happen(v, m).me.engine.mail[MINE];
      OneTurn(v, s, Enqueue(queue[|queue| - 1]));
      hs := [Enqueue(queue[|queue| - 1])];
    } else {
      hs := [];
    }
  }

  lemma QueueOfLoop(v: View, m: Move)
    requires SigningInv(v.me) && Enabled(v, m) && OfEngine(m) && MINE in v.me.engine.mail
    ensures var queue, me := v.me.engine.mail[MINE], Happen(v, m).me;
            MINE in me.engine.mail &&
            (me.engine.mail[MINE] == queue || (me.engine.mail[MINE] != [] &&
              me.engine.mail[MINE][..|me.engine.mail[MINE]| - 1] == queue))
  {
    hide SigningInv, Frame, GoOn, CurrentRead;
  }

  /** An error of the transport breaks the loop's stream and fails its read. */
  lemma ResetMirrors(v: View, s: LoopState, base: nat, before: seq<ChatMessage>)
    requires Mirrors(v, s, base, before) && Enabled(v, Reset)
    ensures Mirrors(Happen(v, Reset), Turn(v, s, [BreakOff, PollRead]), base, before)
  {
    hide Frames, AllWellSent, QueuedChats, Deframe, ReadOne, GoOn;
    OneTurn(v, s, BreakOff);
    OneTurn(v, Turn(v, s, [BreakOff]), PollRead);
    TurnsOn(v, s, [BreakOff], [PollRead]);
    assert [BreakOff] + [PollRead] == [BreakOff, PollRead];
    var posts := OnRead(Info(v.me), Failed(ConnectionReset)).posts;
    QueuedChatsAppend(v.me.engine.rx, EngineRuns.Posts(MINE, posts));
    ChatsInAppend(s.posted, posts);
    assert before + (ChatsIn(s.posted) + ChatsIn(posts)) == before + ChatsIn(s.posted) + ChatsIn(posts);
    assert v.me.yielded + (QueuedChats(v.me.engine.rx) + ChatsIn(posts)) ==
           v.me.yielded + QueuedChats(v.me.engine.rx) + ChatsIn(posts);
  }

  /** Every move at an endpoint is some happenings of its loop. */
  lemma MoveMirrors(v: View, s: LoopState, base: nat, before: seq<ChatMessage>, m: Move) returns (hs: seq<Happening>)
    requires Mirrors(v, s, base, before) && SigningInv(v.me) && Enabled(v, m)
    ensures Mirrors(Happen(v, m), Turn(v, s, hs), base, before)
  {
    hide Mirrors, SigningInv, Happen;
    AtLoopMoves(v, s, base, before, m);
    match m
    case Arrive(n) => hs := ArriveMirrors(v, s, base, before, n);
    case FrameRead(nonce, random) =>
      hs := [PollRead];
      ReadMirrors(v, s, base, before, nonce, random);
    case TakeEvent(nonce, random) =>
      hs := [ConnectionLoop.TakeEvent(nonce, random)];
      EventMirrors(v, s, base, before, nonce, random);
    case Reset =>
      hs := [BreakOff, PollRead];
      ResetMirrors(v, s, base, before);
    case Break(keep) =>
      BreakIs(v, keep);
      hs := StreamMirrors(v, s, base, before, Happen(v, m));
    case Poll => hs := EngineMirrors(v, s, base, before, m);
    case Say(_) => hs := EngineMirrors(v, s, base, before, m);
    case Tell(_, _) => hs := EngineMirrors(v, s, base, before, m);
    case OtherPost(_) => hs := EngineMirrors(v, s, base, before, m);
    case OtherMail(_) => hs := EngineMirrors(v, s, base, before, m);
    case _ => hs := [];
  }

  lemma BreakIs(v: View, keep: nat)
    requires Enabled(v, Break(keep))
    ensures Happen(v, Break(keep)) == v.(inbound := Happen(v, Break(keep)).inbound)
    ensures Ended(v.inbound) ==> Ended(Happen(v, Break(keep)).inbound)
  {
  }

  lemma AtLoopMoves(v: View, s: LoopState, base: nat, before: seq<ChatMessage>, m: Move)
    requires Mirrors(v, s, base, before) && Enabled(v, m)
    ensures v.me.task.shared.Some? && v.me.task.peer.Some?
    ensures !m.KeyRead? && !m.TakeReply? && !m.Timeout?
  {
  }

  /** What the peer does reaches the loop through the stream alone. */
  lemma PeerMoveEnds(w: View, m: Move)
    requires Enabled(w, m)
    ensures w.outbound.closed ==> Happen(w, m).outbound == w.outbound
  {
    hide GoOn;
  }

  lemma {:induction false} TurnsOn(v: View, s: LoopState, first: seq<Happening>, rest: seq<Happening>)
    requires v.me.task.shared.Some? && v.me.task.peer.Some?
    ensures Turn(v, s, first + rest) == Turn(v, Turn(v, s, first), rest)
  {
    if rest == [] {
      assert first + rest == first;
    } else {
      assert (first + rest)[..|first + rest| - 1] == first + rest[..|rest| - 1];
      TurnsOn(v, s, first, rest[..|rest| - 1]);
    }
  }

  lemma StepMirrors(p: Pair, a: Action, role: Role, s: LoopState, base: nat, before: seq<ChatMessage>)
      returns (hs: seq<Happening>)
    requires PairInv(p) && Mirrors(ViewOf(p, role), s, base, before)
    requires Enabled(ViewOf(p, a.role), a.move)
    ensures Mirrors(ViewOf(Apply(p, a), role), Turn(ViewOf(p, role), s, hs), base, before)
  {
    hide Mirrors, Happen, Enabled, SideInv, Link;
    var v := ViewOf(p, role);
    if a.role == role {
      SigningOf(p, role);
      hs := MoveMirrors(v, s, base, before, a.move);
    } else {
      PeerMoveEnds(ViewOf(p, a.role), a.move);
      HasTurns(v, s, base, before);
      hs := StreamMirrors(v, s, base, before, ViewOf(Apply(p, a), role));
    }
  }

  lemma HasTurns(v: View, s: LoopState, base: nat, before: seq<ChatMessage>)
    requires Mirrors(v, s, base, before)
    ensures v.me.task.shared.Some? && v.me.task.peer.Some?
  {
  }

  lemma SigningOf(p: Pair, role: Role)
    requires PairInv(p)
    ensures SigningInv(ViewOf(p, role).me)
  {
    hide Link, PcInv, SentInv, MailInv, SigningInv;
  }

  /** Every run of a connection runs the loop at both its ends: whatever happens from the moment an
      endpoint has done its handshake, there are happenings around and in its loop that lead to what
      it has written, what it has been given and what it has in its buffer and its queue. */
  lemma {:induction false} SessionRunsTheLoop(p: Pair, actions: seq<Action>, role: Role, s: LoopState, base: nat,
                                              before: seq<ChatMessage>)
      returns (hs: seq<Happening>)
    requires PairInv(p) && Legal(p, actions) && Mirrors(ViewOf(p, role), s, base, before)
    ensures Mirrors(ViewOf(Exec(p, actions), role), Turn(ViewOf(p, role), s, hs), base, before)
    decreases |actions|
  {
    hide PairInv, Mirrors, Apply, Enabled;
    var v := ViewOf(p, role);
    HasTurns(v, s, base, before);
    if actions == [] {
      hs := [];
    } else {
      var p' := Apply(p, actions[0]);
      var first := StepMirrors(p, actions[0], role, s, base, before);
      ApplyKeeps(p, actions[0]);
      SameLoop(p, actions[0], role, s, base, before);
      var rest := SessionRunsTheLoop(p', actions[1..], role, Turn(v, s, first), base, before);
      TurnsOn(v, s, first, rest);
      hs := first + rest;
    }
  }

  /** A loop that has just been handed the octets and events that came early. */
  lemma LoopBegins(v: View) returns (hs: seq<Happening>)
    requires v.me.task.pc.Established? && v.me.task.shared.Some? && v.me.task.peer.Some? && v.me.alive
    requires MINE in v.me.engine.mail && AllWellSent(v.me.sent)
    ensures Mirrors(v, Turn(v, START, hs), |v.me.sent|, v.me.yielded + QueuedChats(v.me.engine.rx))
  {
    hide QueuedChats;
    var arrive := ConnectionLoop.Arrive(v.me.unread);
    OneTurn(v, START, arrive);
    var s := Turn(v, START, [arrive]);
    var queue := AllEnqueued(v, s, v.me.engine.mail[MINE]);
    hs := [arrive] + queue;
    TurnsOn(v, START, [arrive], queue);
    NoChatsQueued([]);
    if Ended(v.inbound) {
      OneTurn(v, Turn(v, START, hs), HangUp);
      TurnsOn(v, START, hs, [HangUp]);
      hs := hs + [HangUp];
    }
  }

  lemma {:induction false} AllEnqueued(v: View, s: LoopState, events: seq<ConnectionEvent>) returns (hs: seq<Happening>)
    requires v.me.task.shared.Some? && v.me.task.peer.Some?
    ensures Turn(v, s, hs) == s.(rx := s.rx + events)
  {
    if events == [] {
      hs := [];
    } else {
      var first, last := events[..|events| - 1], events[|events| - 1];
      hs := AllEnqueued(v, s, first);
      OneTurn(v, Turn(v, s, hs), Enqueue(last));
      TurnsOn(v, s, hs, [Enqueue(last)]);
      hs := hs + [Enqueue(last)];
      assert s.rx + events == s.rx + first + [last];
    }
  }

  /** The key and the description of a connection do not change any more. */
  lemma SameLoop(p: Pair, a: Action, role: Role, s: LoopState, base: nat, before: seq<ChatMessage>)
    requires Enabled(ViewOf(p, a.role), a.move) && Mirrors(ViewOf(p, role), s, base, before)
    ensures ViewOf(Apply(p, a), role).me.task == ViewOf(p, role).me.task
  {
    hide CurrentRead, AllWellSent, Session.Perform;
  }
}
