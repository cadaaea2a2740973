/** One engine with any number of connection tasks: every interleaving of their steps. */
module EngineRuns {
  import opened Octets
  import opened Packets
  import opened Events
  import opened ConnectionLoop
  import opened EngineActor

  /** Where a connection task is. `Signing` waits in `sign_data` on a reply channel of its own. */
  datatype Life =
    | Handshaking
    | Signing(reply: Channel, data: seq<Octet>)
    | Running
    | Ended(disconnected: bool)

  /** A connection and its history: the network events it caused to be queued, the events the
      application queued for it, those it took from its queue, and the messages it put on the stream. */
  datatype Task = Task(
    info: ConnectionInfo,
    life: Life,
    trace: seq<NetworkEvent>,
    accepted: seq<ConnectionEvent>,
    taken: seq<ConnectionEvent>,
    written: seq<WireMessage>)

  datatype Yielded = Yielded(source: Channel, event: NetworkEvent)

  datatype System = System(
    engine: State,
    tasks: map<Channel, Task>,
    used: set<Channel>,
    yielded: seq<Yielded>)

  datatype Action =
    | Spawn(c: Channel, info: ConnectionInfo)
    | Ask(c: Channel, reply: Channel, data: seq<Octet>)
    | TakeReply(c: Channel)
    | Announce(c: Channel)
    | GiveUp(c: Channel)
    | ReadTurn(c: Channel, result: ReadResult)
    | QueueTurn(c: Channel)
    | Log(c: Channel)
    | Next
    | Say(chat: ChatMessage)
    | Tell(id: ServiceId, event: ConnectionEvent)

  predicate Init(s: System) {
    s.tasks == map[] && s.used == {} && s.yielded == [] && s.engine.rx == [] && s.engine.mail == map[] &&
      s.engine.channels == map[]
  }

  predicate Enabled(s: System, a: Action) {
    match a
    case Spawn(c, _) => c !in s.used
    case Ask(c, reply, _) => c in s.tasks && s.tasks[c].life.Handshaking? && reply !in s.used
    case TakeReply(c) => c in s.tasks && s.tasks[c].life.Signing? &&
                         s.tasks[c].life.reply in s.engine.mail && s.engine.mail[s.tasks[c].life.reply] != []
    case Announce(c) => c in s.tasks && s.tasks[c].life.Handshaking?
    case GiveUp(c) => c in s.tasks && s.tasks[c].life.Handshaking?
    case ReadTurn(c, result) => c in s.tasks && s.tasks[c].life.Running?
    case QueueTurn(c) => c in s.tasks && s.tasks[c].life.Running? && c in s.engine.mail && s.engine.mail[c] != []
    case Log(c) => c in s.tasks && !s.tasks[c].life.Ended?
    case Next => s.engine.rx != []
    case Say(_) => true
    case Tell(_, event) => event.ConnectionAuthorized? || event.CloseConnection?
  }

  function NetworkEventOf(e: EngineEvent): seq<NetworkEvent> {
    match e
    case NewConnection(info, _) => [Connected(info)]
    case ChatArrived(chat) => [Received(chat)]
    case ConnectionClosed(info) => [Closed(info)]
    case _ => []
  }

  function NetworkEventsOf(es: seq<EngineEvent>): seq<NetworkEvent> {
    if es == [] then [] else NetworkEventOf(es[0]) + NetworkEventsOf(es[1..])
  }

  function Posts(c: Channel, es: seq<EngineEvent>): (ps: seq<Post>)
    ensures |ps| == |es|
  {
    seq(|es|, i requires 0 <= i < |es| => Post(c, es[i]))
  }

  /** The part of a step that belongs to a task: it changes its own record and mailbox and queues events. */
  function Advance(s: System, c: Channel, t: Task, es: seq<EngineEvent>,
                   mail: map<Channel, seq<ConnectionEvent>>): System {
    s.(tasks := s.tasks[c := t.(trace := t.trace + NetworkEventsOf(es))],
       engine := s.engine.(rx := s.engine.rx + Posts(c, es), mail := mail))
  }

  /** The engine pushes an event on a connection's channel; a dead channel accepts nothing. */
  function Deliver(s: System, engine: State, c: Channel, event: ConnectionEvent): System {
    if c in s.engine.mail && c in s.tasks
    then s.(engine := engine, tasks := s.tasks[c := s.tasks[c].(accepted := s.tasks[c].accepted + [event])])
    else s.(engine := engine)
  }

  function Apply(s: System, a: Action): System
    requires Enabled(s, a)
  {
    match a
    case Spawn(c, info) =>
      s.(tasks := s.tasks[c := Task(info, Handshaking, [], [], [], [])], used := s.used + {c},
         engine := s.engine.(mail := s.engine.mail[c := []]))
    case Ask(c, reply, data) =>
      Advance(s, c, s.tasks[c].(life := Signing(reply, data)), [SignatureRequest(reply, data)],
              s.engine.mail[reply := []]).(used := s.used + {reply})
    case TakeReply(c) =>
      Advance(s, c, s.tasks[c].(life := Handshaking), [], s.engine.mail - {s.tasks[c].life.reply})
    case Announce(c) =>
      Advance(s, c, s.tasks[c].(life := Running), [NewConnection(s.tasks[c].info, c)], s.engine.mail)
    case GiveUp(c) =>
      Advance(s, c, s.tasks[c].(life := Ended(false)), [], s.engine.mail - {c})
    case ReadTurn(c, result) =>
      var turn := OnRead(s.tasks[c].info, result);
      Advance(s, c, if turn.stops then s.tasks[c].(life := Ended(false)) else s.tasks[c], turn.posts,
              if turn.stops then s.engine.mail - {c} else s.engine.mail)
    case QueueTurn(c) =>
      var event := s.engine.mail[c][0];
      var turn := OnEvent(event);
      var t := s.tasks[c].(taken := s.tasks[c].taken + [event],
                           written := s.tasks[c].written +
                             (if turn.write.Some? && Fits(turn.write.value) then [turn.write.value] else []),
                           life := if turn.stops then Ended(event.CloseConnection?) else Running);
      Advance(s, c, t, [], if turn.stops then s.engine.mail - {c} else s.engine.mail[c := s.engine.mail[c][1..]])
    case Log(c) =>
      Advance(s, c, s.tasks[c], [LogMessage], s.engine.mail)
    case Next =>
      var (engine, handled) := GetEvent(s.engine);
      s.(engine := engine,
         yielded := s.yielded + if handled.Yield? then [Yielded(s.engine.rx[0].source, handled.event)] else [])
    case Say(chat) =>
      var engine := SendMessage(s.engine, chat);
      if chat.recipient in s.engine.channels then Deliver(s, engine, s.engine.channels[chat.recipient], SendChat(chat))
      else s.(engine := engine)
    case Tell(id, event) =>
      var (engine, outcome) := Command(s.engine, id, event);
      if outcome.Done? then Deliver(s, engine, s.engine.channels[id], event) else s.(engine := engine)
  }

  ghost predicate Legal(s: System, actions: seq<Action>)
    decreases |actions|
  {
    actions == [] || (Enabled(s, actions[0]) && Legal(Apply(s, actions[0]), actions[1..]))
  }

  ghost function Exec(s: System, actions: seq<Action>): System
    requires Legal(s, actions)
    decreases |actions|
  {
    if actions == [] then s else Exec(Apply(s, actions[0]), actions[1..])
  }

  // ---------------------------------------------------------------- channels

  /** Channels are never used twice, and a task's mailbox lives as long as the task. */
  ghost predicate MailInv(s: System) {
    && s.tasks.Keys <= s.used && s.engine.mail.Keys <= s.used
    && (forall c :: c in s.tasks ==> MailOk(s, c))
  }

  ghost predicate MailOk(s: System, c: Channel)
    requires c in s.tasks
  {
    var life := s.tasks[c].life;
    (c in s.engine.mail <==> !life.Ended?) && (life.Signing? ==> life.reply in s.engine.mail && life.reply !in s.tasks)
  }

  /** Each signing task waits on a mailbox of its own. */
  ghost predicate ReplyInv(s: System) {
    forall c, d :: c in s.tasks && d in s.tasks && c != d && s.tasks[c].life.Signing? && s.tasks[d].life.Signing? ==>
      s.tasks[c].life.reply != s.tasks[d].life.reply
  }

  ghost predicate TaskInv(s: System) {
    MailInv(s) && ReplyInv(s)
  }

  lemma ReplyStep(s: System, a: Action)
    requires TaskInv(s) && Enabled(s, a)
    ensures ReplyInv(Apply(s, a))
  {
  }

  lemma MailStep(s: System, a: Action)
    requires TaskInv(s) && Enabled(s, a)
    ensures MailInv(Apply(s, a))
  {
    UsedStep(s, a);
    hide Apply, Enabled;
    forall c | c in Apply(s, a).tasks ensures MailOk(Apply(s, a), c) {
      MailOkStep(s, a, c);
    }
  }

  lemma UsedStep(s: System, a: Action)
    requires TaskInv(s) && Enabled(s, a)
    ensures Apply(s, a).tasks.Keys <= Apply(s, a).used && Apply(s, a).engine.mail.Keys <= Apply(s, a).used
  {
    hide ReplyInv, OnRead, OnEvent, NetworkEventsOf;
  }

  lemma MailOkStep(s: System, a: Action, c: Channel)
    requires TaskInv(s) && Enabled(s, a) && c in Apply(s, a).tasks
    ensures MailOk(Apply(s, a), c)
  {
    hide OnRead, OnEvent, NetworkEventsOf;
    assert c in s.tasks || a == Spawn(c, Apply(s, a).tasks[c].info);
    assert c in s.tasks ==> MailOk(s, c);
  }

  lemma TaskStep(s: System, a: Action)
    requires TaskInv(s) && Enabled(s, a)
    ensures TaskInv(Apply(s, a))
  {
    MailStep(s, a);
    ReplyStep(s, a);
  }

  /** A queued event was posted by a connection task and names that task. */
  ghost predicate PostOk(s: System, p: Post) {
    p.source in s.tasks &&
    match p.event
    case NewConnection(info, tx) => tx == p.source && info == s.tasks[p.source].info
    case ConnectionClosed(info) => info == s.tasks[p.source].info
    case _ => true
  }

  ghost predicate RxInv(s: System) {
    && (forall i :: 0 <= i < |s.engine.rx| ==> PostOk(s, s.engine.rx[i]))
    && (forall id :: id in s.engine.channels ==> s.engine.channels[id] in s.tasks)
  }

  lemma RxStep(s: System, a: Action)
    requires TaskInv(s) && RxInv(s) && Enabled(s, a)
    ensures RxInv(Apply(s, a))
  {
    forall i | 0 <= i < |Apply(s, a).engine.rx| ensures PostOk(Apply(s, a), Apply(s, a).engine.rx[i]) {
      PostStep(s, a, i);
    }
    ChannelsStep(s, a);
  }

  lemma PostStep(s: System, a: Action, i: nat)
    requires TaskInv(s) && RxInv(s) && Enabled(s, a) && i < |Apply(s, a).engine.rx|
    ensures PostOk(Apply(s, a), Apply(s, a).engine.rx[i])
  {
    hide OnEvent, NetworkEventsOf, ReplyInv;
    OldOrNew(s, a, i);
    if a.Next? {
      PostStays(s, a, s.engine.rx[i + 1]);
    } else if i < |s.engine.rx| {
      PostStays(s, a, s.engine.rx[i]);
    }
  }

  lemma PostStays(s: System, a: Action, p: Post)
    requires TaskInv(s) && Enabled(s, a) && PostOk(s, p)
    ensures PostOk(Apply(s, a), p)
  {
  }

  /** Every registered channel is that of a task. */
  lemma ChannelsStep(s: System, a: Action)
    requires RxInv(s) && Enabled(s, a)
    ensures forall id :: id in Apply(s, a).engine.channels ==> Apply(s, a).engine.channels[id] in Apply(s, a).tasks
  {
  }

  // ---------------------------------------------------------------- the signature service

  ghost predicate RequestInv(s: System) {
    && (forall i :: 0 <= i < |s.engine.rx| && s.engine.rx[i].event.SignatureRequest? ==> LiveRequest(s, s.engine.rx[i]))
    && (forall i, j ::
          0 <= i < j < |s.engine.rx| &&
          s.engine.rx[i].event.SignatureRequest? && s.engine.rx[j].event.SignatureRequest? ==>
            s.engine.rx[i].event.tx != s.engine.rx[j].event.tx)
  }

  ghost predicate ReplyingInv(s: System) {
    forall c :: c in s.tasks && s.tasks[c].life.Signing? ==> WaitingOrAnswered(s, c)
  }

  ghost predicate QueueInv(s: System) {
    forall c :: c in s.tasks && c in s.engine.mail ==> NoSignature(s.engine.mail[c])
  }

  /** The task that asked is still waiting for the answer, on a channel that is open and empty. */
  ghost predicate LiveRequest(s: System, p: Post)
    requires p.event.SignatureRequest?
  {
    p.event.tx in s.engine.mail && s.engine.mail[p.event.tx] == [] &&
    p.source in s.tasks && s.tasks[p.source].life == Signing(p.event.tx, p.event.data)
  }

  ghost predicate WaitingOrAnswered(s: System, c: Channel)
    requires c in s.tasks && s.tasks[c].life.Signing?
  {
    var life := s.tasks[c].life;
    life.reply in s.engine.mail &&
    if s.engine.mail[life.reply] == [] then Post(c, SignatureRequest(life.reply, life.data)) in s.engine.rx
    else s.engine.mail[life.reply] == [SignatureResponse(Signature(s.engine.key, life.data))]
  }

  predicate NoSignature(events: seq<ConnectionEvent>) {
    forall e :: e in events ==> !e.SignatureResponse?
  }

  ghost predicate SignInv(s: System) {
    TaskInv(s) && RxInv(s) && RequestInv(s) && ReplyingInv(s) && QueueInv(s)
  }

  /** Where an event of the new queue stood in the old one. */
  lemma OldOrNew(s: System, a: Action, i: nat)
    requires Enabled(s, a) && i < |Apply(s, a).engine.rx|
    ensures var p := Apply(s, a).engine.rx[i];
            if a.Next? then i + 1 < |s.engine.rx| && p == s.engine.rx[i + 1]
            else if i < |s.engine.rx| then p == s.engine.rx[i]
            else !ByEngine(a) && !a.Spawn? && p.source == a.c &&
                 (p.event.SignatureRequest? ==> a == Ask(a.c, p.event.tx, p.event.data))
  {
  }

  predicate ByEngine(a: Action) {
    a.Next? || a.Say? || a.Tell?
  }

  lemma RequestStaysLive(s: System, a: Action, i: nat)
    requires SignInv(s) && Enabled(s, a) && i < |Apply(s, a).engine.rx| &&
             Apply(s, a).engine.rx[i].event.SignatureRequest?
    ensures LiveRequest(Apply(s, a), Apply(s, a).engine.rx[i])
  {
    hide ReplyingInv, QueueInv, PostOk, OnRead, OnEvent, NetworkEventsOf, ReplyInv;
    OldOrNew(s, a, i);
  }

  lemma RequestStep(s: System, a: Action)
    requires SignInv(s) && Enabled(s, a)
    ensures RequestInv(Apply(s, a))
  {
    var s' := Apply(s, a);
    hide Apply;
    forall i | 0 <= i < |s'.engine.rx| && s'.engine.rx[i].event.SignatureRequest?
      ensures LiveRequest(s', s'.engine.rx[i])
    {
      RequestStaysLive(s, a, i);
    }
    forall i, j | 0 <= i < j < |s'.engine.rx| && s'.engine.rx[i].event.SignatureRequest? &&
      s'.engine.rx[j].event.SignatureRequest?
      ensures s'.engine.rx[i].event.tx != s'.engine.rx[j].event.tx
    {
      OldOrNew(s, a, i);
      OldOrNew(s, a, j);
      AtMostOneNew(s, a);
    }
  }

  lemma AtMostOneNew(s: System, a: Action)
    requires Enabled(s, a)
    ensures a.Ask? ==> |Apply(s, a).engine.rx| == |s.engine.rx| + 1
  {
  }

  lemma WaitingAcrossNext(s: System, c: Channel)
    requires SignInv(s) && Enabled(s, Next) && c in s.tasks && s.tasks[c].life.Signing?
    ensures WaitingOrAnswered(Apply(s, Next), c)
  {
  }

  lemma WaitingAcrossOther(s: System, a: Action, c: Channel)
    requires SignInv(s) && Enabled(s, a) && !a.Next?
    requires c in Apply(s, a).tasks && Apply(s, a).tasks[c].life.Signing?
    ensures WaitingOrAnswered(Apply(s, a), c)
  {
    hide OnRead, NetworkEventsOf, LiveRequest;
    var s' := Apply(s, a);
    var Signing(reply, data) := s'.tasks[c].life;
    if a == Ask(c, reply, data) {
      assert s'.engine.rx[|s.engine.rx|] == Post(c, SignatureRequest(reply, data));
    } else {
      WaitingGoesOn(s, a, c);
      hide Apply, Enabled;
      assert WaitingOrAnswered(s, c) && s.engine.rx <= s'.engine.rx;
    }
  }

  /** A task that waits for its signature is not touched by what others do. */
  lemma WaitingGoesOn(s: System, a: Action, c: Channel)
    requires TaskInv(s) && RxInv(s) && Enabled(s, a) && !a.Next?
    requires c in Apply(s, a).tasks && Apply(s, a).tasks[c].life.Signing?
    requires a != Ask(c, Apply(s, a).tasks[c].life.reply, Apply(s, a).tasks[c].life.data)
    ensures var s' := Apply(s, a);
            && c in s.tasks && s.tasks[c].life == s'.tasks[c].life && s.engine.rx <= s'.engine.rx
            && s'.engine.key == s.engine.key
            && s.tasks[c].life.reply in s'.engine.mail && s.tasks[c].life.reply in s.engine.mail
            && s'.engine.mail[s.tasks[c].life.reply] == s.engine.mail[s.tasks[c].life.reply]
  {
    hide OnRead, OnEvent, NetworkEventsOf, PostOk;
  }

  lemma ReplyingStep(s: System, a: Action)
    requires SignInv(s) && Enabled(s, a)
    ensures ReplyingInv(Apply(s, a))
  {
    forall c | c in Apply(s, a).tasks && Apply(s, a).tasks[c].life.Signing? ensures WaitingOrAnswered(Apply(s, a), c) {
      if a.Next? {
        WaitingAcrossNext(s, c);
      } else {
        WaitingAcrossOther(s, a, c);
      }
    }
  }

  lemma QueueStep(s: System, a: Action)
    requires SignInv(s) && Enabled(s, a)
    ensures QueueInv(Apply(s, a))
  {
    hide NetworkEventOf;
  }

  lemma SignStep(s: System, a: Action)
    requires SignInv(s) && Enabled(s, a)
    ensures SignInv(Apply(s, a))
  {
    TaskStep(s, a);
    RxStep(s, a);
    RequestStep(s, a);
    ReplyingStep(s, a);
    QueueStep(s, a);
  }

  lemma {:induction false} RunsKeepSignInv(s: System, actions: seq<Action>)
    requires SignInv(s) && Legal(s, actions)
    ensures SignInv(Exec(s, actions))
    decreases |actions|
  {
    if actions != [] {
      SignStep(s, actions[0]);
      RunsKeepSignInv(Apply(s, actions[0]), actions[1..]);
    }
  }

  /** The signature service. On every run the engine's reply finds a receiver; whoever waits in
      `sign_data` gets the signature over its own data as the one and only event of its channel;
      and no signature ever turns up in the queue of a connection loop. */
  lemma SignatureService(s: System, actions: seq<Action>)
    requires Init(s) && Legal(s, actions)
    ensures var s' := Exec(s, actions);
            && !GetEvent(s'.engine).1.Panic?
            && (forall c :: c in s'.tasks && s'.tasks[c].life.Signing? ==>
                  var Signing(reply, data) := s'.tasks[c].life;
                  reply in s'.engine.mail &&
                  s'.engine.mail[reply] <= [SignatureResponse(Signature(s'.engine.key, data))])
            && (forall c :: c in s'.tasks && c in s'.engine.mail ==> NoSignature(s'.engine.mail[c]))
  {
    RunsKeepSignInv(s, actions);
    var s' := Exec(s, actions);
    forall c | c in s'.tasks && s'.tasks[c].life.Signing?
      ensures s'.tasks[c].life.reply in s'.engine.mail
      ensures s'.engine.mail[s'.tasks[c].life.reply] <=
              [SignatureResponse(Signature(s'.engine.key, s'.tasks[c].life.data))]
    {
      assert WaitingOrAnswered(s', c);
    }
    if s'.engine.rx != [] && s'.engine.rx[0].event.SignatureRequest? {
      assert LiveRequest(s', s'.engine.rx[0]);
    }
  }

  ghost function CountNext(actions: seq<Action>): (n: nat)
    ensures n <= |actions|
  {
    if actions == [] then 0 else (if actions[0].Next? then 1 else 0) + CountNext(actions[1..])
  }

  /** The queue is first-in first-out: n calls of `get_event` bring an event n places forward. */
  lemma {:induction false} QueueAdvances(s: System, actions: seq<Action>, k: nat)
    requires Legal(s, actions) && CountNext(actions) <= k < |s.engine.rx|
    ensures var n := CountNext(actions);
            k - n < |Exec(s, actions).engine.rx| && Exec(s, actions).engine.rx[k - n] == s.engine.rx[k]
    decreases |actions|
  {
    if actions != [] {
      var s' := Apply(s, actions[0]);
      QueueIsFifo(s, actions[0]);
      hide Apply, Enabled;
      QueueAdvances(s', actions[1..], if actions[0].Next? then k - 1 else k);
    }
  }

  lemma QueueIsFifo(s: System, a: Action)
    requires Enabled(s, a)
    ensures if a.Next? then Apply(s, a).engine.rx == s.engine.rx[1..] else s.engine.rx <= Apply(s, a).engine.rx
  {
  }

  /** A request with k events before it is answered by the (k+1)-th call of `get_event`, whatever
      else happens in between. */
  lemma AnsweredInTurn(s: System, actions: seq<Action>, k: nat)
    requires SignInv(s) && Legal(s, actions) && CountNext(actions) == k < |s.engine.rx|
    requires s.engine.rx[k].event.SignatureRequest?
    ensures Enabled(Exec(s, actions), Next)
    ensures var SignatureRequest(tx, data) := s.engine.rx[k].event;
            var s' := Apply(Exec(s, actions), Next);
            tx in s'.engine.mail && s'.engine.mail[tx] == [SignatureResponse(Signature(s'.engine.key, data))]
  {
    QueueAdvances(s, actions, k);
    RunsKeepSignInv(s, actions);
    assert LiveRequest(Exec(s, actions), Exec(s, actions).engine.rx[0]);
  }

  // ---------------------------------------------------------------- the events of one connection

  /** NewConnection Message* ConnectionClosed, or a beginning of it. */
  predicate Language(es: seq<NetworkEvent>) {
    forall i :: 0 <= i < |es| ==> (es[i].Connected? <==> i == 0) && (es[i].Closed? ==> i == |es| - 1)
  }

  predicate HasClosed(es: seq<NetworkEvent>) {
    es != [] && es[|es| - 1].Closed?
  }

  /** The network events yielded for one connection, in order. */
  ghost function YieldedFor(ys: seq<Yielded>, c: Channel): seq<NetworkEvent> {
    if ys == [] then []
    else YieldedFor(ys[..|ys| - 1], c) + if ys[|ys| - 1].source == c then [ys[|ys| - 1].event] else []
  }

  /** The network events one connection still has in the engine's queue. */
  ghost function QueuedFor(rx: seq<Post>, c: Channel): seq<NetworkEvent> {
    if rx == [] then [] else (if rx[0].source == c then NetworkEventOf(rx[0].event) else []) + QueuedFor(rx[1..], c)
  }

  lemma {:induction false} QueuedForAppend(rx: seq<Post>, more: seq<Post>, c: Channel)
    ensures QueuedFor(rx + more, c) == QueuedFor(rx, c) + QueuedFor(more, c)
  {
    if rx == [] {
      assert rx + more == more;
    } else {
      assert (rx + more)[1..] == rx[1..] + more;
      QueuedForAppend(rx[1..], more, c);
    }
  }

  lemma {:induction false} QueuedForPosts(c: Channel, es: seq<EngineEvent>, d: Channel)
    ensures QueuedFor(Posts(c, es), d) == if d == c then NetworkEventsOf(es) else []
  {
    if es != [] {
      assert Posts(c, es)[1..] == Posts(c, es[1..]);
      QueuedForPosts(c, es[1..], d);
    }
  }

  ghost predicate TraceOk(s: System, c: Channel)
    requires c in s.tasks
  {
    var t := s.tasks[c];
    && t.trace == YieldedFor(s.yielded, c) + QueuedFor(s.engine.rx, c)
    && Language(t.trace)
    && (t.life.Handshaking? || t.life.Signing? ==> t.trace == [])
    && (t.life.Running? ==> t.trace != [] && !HasClosed(t.trace))
  }

  ghost predicate TraceInv(s: System) {
    && (forall c :: c in s.tasks ==> TraceOk(s, c))
    && (forall c :: c !in s.tasks ==> YieldedFor(s.yielded, c) + QueuedFor(s.engine.rx, c) == [])
  }

  lemma TraceAcrossAdvance(s: System, c: Channel, t: Task, es: seq<EngineEvent>,
                           mail: map<Channel, seq<ConnectionEvent>>, d: Channel)
    requires c in s.tasks && d in s.tasks && TraceOk(s, d) && t.trace == s.tasks[c].trace
    ensures var s' := Advance(s, c, t, es, mail);
            s'.tasks[d].trace == YieldedFor(s'.yielded, d) + QueuedFor(s'.engine.rx, d)
  {
    QueuedForAppend(s.engine.rx, Posts(c, es), d);
    QueuedForPosts(c, es, d);
  }

  lemma YieldedForAppend(ys: seq<Yielded>, y: Yielded, c: Channel)
    ensures YieldedFor(ys + [y], c) == YieldedFor(ys, c) + if y.source == c then [y.event] else []
  {
  }

  lemma QueuedForHead(rx: seq<Post>, c: Channel)
    requires rx != []
    ensures QueuedFor(rx, c) == (if rx[0].source == c then NetworkEventOf(rx[0].event) else []) + QueuedFor(rx[1..], c)
  {
  }

  /** Handling the head of the queue moves its network event from the queued to the yielded ones. */
  lemma MoveToYielded(ys: seq<Yielded>, rx: seq<Post>, d: Channel)
    requires rx != []
    ensures var es := NetworkEventOf(rx[0].event);
            var ys' := if es == [] then ys else ys + [Yielded(rx[0].source, es[0])];
            YieldedFor(ys', d) + QueuedFor(rx[1..], d) == YieldedFor(ys, d) + QueuedFor(rx, d)
  {
    hide YieldedFor, QueuedFor;
    var es := NetworkEventOf(rx[0].event);
    var mine := if rx[0].source == d then es else [];
    QueuedForHead(rx, d);
    if es != [] {
      YieldedForAppend(ys, Yielded(rx[0].source, es[0]), d);
    }
    assert YieldedFor(ys, d) + (mine + QueuedFor(rx[1..], d)) == YieldedFor(ys, d) + mine + QueuedFor(rx[1..], d);
    assert YieldedFor(ys, d) + [] == YieldedFor(ys, d);
  }

  lemma NextYields(s: System)
    requires Enabled(s, Next)
    ensures var s' := Apply(s, Next);
            var es := NetworkEventOf(s.engine.rx[0].event);
            s'.engine.rx == s.engine.rx[1..] && s'.tasks == s.tasks &&
            s'.yielded == if es == [] then s.yielded else s.yielded + [Yielded(s.engine.rx[0].source, es[0])]
  {
  }

  lemma OneMore(trace: seq<NetworkEvent>, e: NetworkEvent)
    requires Language(trace) && !HasClosed(trace) && (trace == [] <==> e.Connected?)
    ensures Language(trace + [e]) && (HasClosed(trace + [e]) <==> e.Closed?)
  {
  }

  /** A turn of the loop queues at most one network event: a message, or the close with which it ends. */
  lemma TurnEvents(info: ConnectionInfo, result: ReadResult)
    ensures var turn := OnRead(info, result);
            var es := NetworkEventsOf(turn.posts);
            es == [] || (|es| == 1 && !es[0].Connected? && (es[0].Closed? ==> turn.stops))
  {
    EventsOfOne(ConnectionClosed(info));
    assert [ReadError, ConnectionClosed(info)][1..] == [ConnectionClosed(info)];
    assert NetworkEventsOf([ReadError, ConnectionClosed(info)]) == [Closed(info)];
    if result.Message? && result.message.Chat? {
      EventsOfOne(ChatArrived(result.message.chat));
    }
  }

  lemma EventsOfOne(e: EngineEvent)
    ensures NetworkEventsOf([e]) == NetworkEventOf(e)
  {
  }

  lemma TurnKeepsLanguage(trace: seq<NetworkEvent>, info: ConnectionInfo, result: ReadResult)
    requires trace != [] && Language(trace) && !HasClosed(trace)
    ensures var turn := OnRead(info, result);
            var trace' := trace + NetworkEventsOf(turn.posts);
            Language(trace') && (HasClosed(trace') ==> turn.stops)
  {
    var es := NetworkEventsOf(OnRead(info, result).posts);
    TurnEvents(info, result);
    hide OnRead, NetworkEventsOf;
    if es == [] {
      assert trace + es == trace;
    } else {
      assert es == [es[0]];
      OneMore(trace, es[0]);
    }
  }

  lemma TraceAcrossRead(s: System, c: Channel, result: ReadResult, d: Channel)
    requires TraceInv(s) && Enabled(s, ReadTurn(c, result)) && d in s.tasks
    ensures TraceOk(Apply(s, ReadTurn(c, result)), d)
  {
    var t := s.tasks[c];
    var turn := OnRead(t.info, result);
    assert TraceOk(s, d) && TraceOk(s, c);
    TurnKeepsLanguage(t.trace, t.info, result);
    hide NetworkEventsOf, QueuedFor, YieldedFor, OnRead, TraceInv, Language, HasClosed;
    TraceAcrossAdvance(s, c, if turn.stops then t.(life := Ended(false)) else t, turn.posts,
                       if turn.stops then s.engine.mail - {c} else s.engine.mail, d);
  }

  lemma TraceAcrossAnnounce(s: System, c: Channel, d: Channel)
    requires TraceInv(s) && Enabled(s, Announce(c)) && d in s.tasks
    ensures TraceOk(Apply(s, Announce(c)), d)
  {
    var t := s.tasks[c];
    assert TraceOk(s, d) && TraceOk(s, c);
    EventsOfOne(NewConnection(t.info, c));
    assert t.trace + [Connected(t.info)] == [Connected(t.info)];
    hide NetworkEventsOf, QueuedFor, YieldedFor;
    TraceAcrossAdvance(s, c, t.(life := Running), [NewConnection(t.info, c)], s.engine.mail, d);
  }

  /** The steps of a task that queue no network event. */
  predicate IsQuiet(a: Action) {
    a.Ask? || a.TakeReply? || a.GiveUp? || a.QueueTurn? || a.Log?
  }

  function QuietEvents(a: Action): seq<EngineEvent> {
    match a
    case Ask(_, reply, data) => [SignatureRequest(reply, data)]
    case Log(_) => [LogMessage]
    case _ => []
  }

  lemma QuietStep(s: System, a: Action, d: Channel)
    requires Enabled(s, a) && IsQuiet(a) && d in s.tasks
    ensures var s' := Apply(s, a);
            && s'.engine.rx == s.engine.rx + Posts(a.c, QuietEvents(a)) && s'.yielded == s.yielded
            && d in s'.tasks && s'.tasks[d].trace == s.tasks[d].trace
            && (s'.tasks[d].life.Running? ==> s.tasks[d].life.Running?)
            && (s'.tasks[d].life.Handshaking? || s'.tasks[d].life.Signing? ==>
                  s.tasks[d].life.Handshaking? || s.tasks[d].life.Signing?)
  {
    hide OnRead, MailInv;
    var trace := s.tasks[a.c].trace;
    assert NetworkEventsOf(QuietEvents(a)) == [] && trace + [] == trace;
    match a
    case Ask(_, _, _) =>
    case TakeReply(_) =>
    case GiveUp(_) =>
    case QueueTurn(_) =>
    case Log(_) =>
  }

  lemma TraceAcrossQuiet(s: System, a: Action, d: Channel)
    requires TraceInv(s) && Enabled(s, a) && IsQuiet(a) && d in s.tasks
    ensures TraceOk(Apply(s, a), d)
  {
    hide Apply, Enabled, YieldedFor, QueuedFor;
    var es := QuietEvents(a);
    QuietStep(s, a, d);
    assert NetworkEventsOf(es) == [];
    QueuedForPosts(a.c, es, d);
    QueuedForAppend(s.engine.rx, Posts(a.c, es), d);
    assert TraceOk(s, d);
  }

  lemma TraceAcrossNext(s: System, d: Channel)
    requires TraceInv(s) && Enabled(s, Next)
    ensures d in s.tasks ==> TraceOk(Apply(s, Next), d)
    ensures d !in s.tasks ==> YieldedFor(Apply(s, Next).yielded, d) + QueuedFor(Apply(s, Next).engine.rx, d) == []
  {
    NextYields(s);
    MoveToYielded(s.yielded, s.engine.rx, d);
    assert d in s.tasks ==> TraceOk(s, d);
    hide Apply, QueuedFor, YieldedFor;
  }

  lemma TraceAcrossEngine(s: System, a: Action, d: Channel)
    requires TaskInv(s) && TraceInv(s) && Enabled(s, a) && (a.Say? || a.Tell? || a.Spawn?)
    ensures d in Apply(s, a).tasks ==> TraceOk(Apply(s, a), d)
  {
    assert d in s.tasks ==> TraceOk(s, d);
    assert d !in s.tasks ==> YieldedFor(s.yielded, d) + QueuedFor(s.engine.rx, d) == [];
    var s' := Apply(s, a);
    assert s'.yielded == s.yielded && s'.engine.rx == s.engine.rx;
    assert d in s.tasks && !(a.Spawn? && d == a.c) ==>
        d in s'.tasks && s'.tasks[d].trace == s.tasks[d].trace && s'.tasks[d].life == s.tasks[d].life;
    assert d !in s.tasks && d in s'.tasks ==> s'.tasks[d].trace == [] && s'.tasks[d].life.Handshaking?;
    assert a.Spawn? ==> a.c !in s.tasks;
    hide Apply, QueuedFor, YieldedFor, TaskInv, TraceInv;
  }

  lemma TraceStep(s: System, a: Action)
    requires TaskInv(s) && TraceInv(s) && Enabled(s, a)
    ensures TraceInv(Apply(s, a))
  {
    hide Apply, TraceOk, TaskInv;
    var s' := Apply(s, a);
    forall d | d in s'.tasks ensures TraceOk(s', d) {
      TaskTraceStep(s, a, d);
    }
    forall d | d !in s'.tasks ensures YieldedFor(s'.yielded, d) + QueuedFor(s'.engine.rx, d) == [] {
      TasksStay(s, a);
      if a.Next? {
        TraceAcrossNext(s, d);
      } else {
        OthersUntouched(s, a, d);
      }
    }
  }

  lemma TasksStay(s: System, a: Action)
    requires Enabled(s, a)
    ensures s.tasks.Keys <= Apply(s, a).tasks.Keys && (ByEngine(a) || a.c in Apply(s, a).tasks)
    ensures !a.Spawn? ==> Apply(s, a).tasks.Keys == s.tasks.Keys
  {
  }

  lemma TaskTraceStep(s: System, a: Action, d: Channel)
    requires TaskInv(s) && TraceInv(s) && Enabled(s, a) && d in Apply(s, a).tasks
    ensures TraceOk(Apply(s, a), d)
  {
    hide Apply, TraceOk, TaskInv, TraceInv;
    TasksStay(s, a);
    if a.Next? {
      TraceAcrossNext(s, d);
    } else if ByEngine(a) || a.Spawn? {
      TraceAcrossEngine(s, a, d);
    } else if a.Announce? {
      TraceAcrossAnnounce(s, a.c, d);
    } else if a.ReadTurn? {
      TraceAcrossRead(s, a.c, a.result, d);
    } else {
      TraceAcrossQuiet(s, a, d);
    }
  }

  /** What a task queues is its own. */
  lemma OthersUntouched(s: System, a: Action, d: Channel)
    requires Enabled(s, a) && !a.Next? && (ByEngine(a) || d != a.c)
    ensures Apply(s, a).yielded == s.yielded && QueuedFor(Apply(s, a).engine.rx, d) == QueuedFor(s.engine.rx, d)
  {
    if !ByEngine(a) {
      var more := Apply(s, a).engine.rx[|s.engine.rx|..];
      assert Apply(s, a).engine.rx == s.engine.rx + more;
      NothingFor(more, d);
      QueuedForAppend(s.engine.rx, more, d);
    }
  }

  lemma {:induction false} NothingFor(rx: seq<Post>, d: Channel)
    requires forall i :: 0 <= i < |rx| ==> rx[i].source != d
    ensures QueuedFor(rx, d) == []
  {
    if rx != [] {
      NothingFor(rx[1..], d);
    }
  }

  ghost predicate BaseInv(s: System) {
    SignInv(s) && TraceInv(s)
  }

  lemma {:induction false} RunsKeepBaseInv(s: System, actions: seq<Action>)
    requires BaseInv(s) && Legal(s, actions)
    ensures BaseInv(Exec(s, actions))
    decreases |actions|
  {
    if actions != [] {
      SignStep(s, actions[0]);
      TraceStep(s, actions[0]);
      RunsKeepBaseInv(Apply(s, actions[0]), actions[1..]);
    }
  }

  lemma LanguagePrefix(es: seq<NetworkEvent>, beginning: seq<NetworkEvent>)
    requires Language(es) && beginning <= es
    ensures Language(beginning)
  {
  }

  /** The event language. On every run, and however many connections share the engine's queue, the
      events the application sees of one connection begin with its announcement, go on with messages
      and end, if at all, with one close after which nothing comes. */
  lemma EventLanguage(s: System, actions: seq<Action>, c: Channel)
    requires Init(s) && Legal(s, actions)
    ensures Language(YieldedFor(Exec(s, actions).yielded, c))
  {
    RunsKeepBaseInv(s, actions);
    var s' := Exec(s, actions);
    if c in s'.tasks {
      assert TraceOk(s', c);
      LanguagePrefix(s'.tasks[c].trace, YieldedFor(s'.yielded, c));
    } else {
      assert YieldedFor(s'.yielded, c) == [];
    }
  }

  // ---------------------------------------------------------------- one call of get_event

  /** One call handles the event that has waited longest, and nothing else: an announcement registers its
      channel for its peer, a close removes its peer, a signature goes to the channel that asked for it, and
      every other registration and every other mailbox stays as it is. */
  lemma HandlesExactly(st: State)
    requires st.rx != []
    ensures var (st', handled) := GetEvent(st);
            var e := st.rx[0].event;
            && st'.rx == st.rx[1..] && st'.key == st.key
            && (forall id :: id in st'.channels <==>
                  (id in st.channels && !(e.ConnectionClosed? && id == e.info.id)) || (e.NewConnection? &&
                    id == e.info.id))
            && (forall id :: id in st'.channels ==>
                  st'.channels[id] == if e.NewConnection? && id == e.info.id then e.tx else st.channels[id])
            && (forall c :: c in st'.mail <==> c in st.mail)
            && (forall c :: c in st.mail ==>
                  st'.mail[c] == st.mail[c] +
                    if e.SignatureRequest? && c == e.tx then [SignatureResponse(Signature(st.key, e.data))] else [])
            && match e
               case NewConnection(info, _) => handled == Yield(Connected(info))
               case ChatArrived(chat) => handled == Yield(Received(chat))
               case ConnectionClosed(info) => handled == Yield(Closed(info))
               case SignatureRequest(tx, _) => if tx in st.mail then handled.Nothing? else handled.Panic?
               case ReadError => handled.Nothing?
               case LogMessage => handled.Nothing?
  {
  }

  /** A command on an id is refused exactly when the id is not registered, and panics exactly when the
      registered channel has no receiver; otherwise it is queued last on that channel. Nothing else changes. */
  lemma CommandsExactly(st: State, id: ServiceId, event: ConnectionEvent)
    ensures var (st', outcome) := Command(st, id, event);
            && (outcome == Refused(UnknownConnection) <==> id !in st.channels)
            && (outcome.Crashed? <==> id in st.channels && st.channels[id] !in st.mail)
            && (outcome.Done? <==> id in st.channels && st.channels[id] in st.mail)
            && st'.rx == st.rx && st'.channels == st.channels && st'.key == st.key && st'.mail.Keys == st.mail.Keys
            && forall c :: c in st.mail ==>
                 st'.mail[c] == st.mail[c] + if outcome.Done? && c == st.channels[id] then [event] else []
  {
  }

  /** A message goes last into the queue of the channel registered for its recipient, and nowhere else; for
      an unknown recipient or a dropped receiver nothing changes. */
  lemma MessagesExactly(st: State, chat: ChatMessage)
    ensures var st' := SendMessage(st, chat);
            && st'.rx == st.rx && st'.channels == st.channels && st'.key == st.key && st'.mail.Keys == st.mail.Keys
            && forall c :: c in st.mail ==>
                 st'.mail[c] == st.mail[c] +
                   if chat.recipient in st.channels && c == st.channels[chat.recipient] then [SendChat(chat)] else []
  {
  }

  // ---------------------------------------------------------------- the registry

  /** The engine has handled the connection's announcement and not its close. */
  ghost predicate IsOpen(s: System, c: Channel) {
    YieldedFor(s.yielded, c) != [] && !HasClosed(YieldedFor(s.yielded, c))
  }

  /** A task that ended without telling the engine, as it does after a local disconnect. */
  predicate EndedSilently(t: Task) {
    t.life.Ended? && !HasClosed(t.trace)
  }

  /** No connection is announced to the engine while another one to the same peer is open and may
      still report its close. */
  ghost predicate NoOverlap(s: System, a: Action)
    requires Enabled(s, a)
  {
    a.Next? && s.engine.rx[0].event.NewConnection? ==>
      forall d | d in s.tasks && d != s.engine.rx[0].source && s.tasks[d].info.id == s.engine.rx[0].event.info.id ::
        IsOpen(s, d) ==> EndedSilently(s.tasks[d])
  }

  ghost predicate NeverOverlap(s: System, actions: seq<Action>)
    requires Legal(s, actions)
    decreases |actions|
  {
    actions == [] || (NoOverlap(s, actions[0]) && NeverOverlap(Apply(s, actions[0]), actions[1..]))
  }

  ghost predicate Registered(s: System, c: Channel)
    requires c in s.tasks
  {
    IsOpen(s, c) && !EndedSilently(s.tasks[c]) ==>
      s.tasks[c].info.id in s.engine.channels && s.engine.channels[s.tasks[c].info.id] == c
  }

  ghost predicate RegistryInv(s: System) {
    forall c :: c in s.tasks ==> Registered(s, c)
  }

  /** What handling the head of the queue says about the connection that posted it. */
  lemma HeadOfTrace(s: System, c: Channel)
    requires TraceInv(s) && Enabled(s, Next) && c in s.tasks && s.engine.rx[0].source == c
    ensures var e := s.engine.rx[0].event;
            && (e.ConnectionClosed? ==> IsOpen(s, c) && !EndedSilently(s.tasks[c]) && !IsOpen(Apply(s, Next), c))
            && (!e.NewConnection? && IsOpen(Apply(s, Next), c) ==> IsOpen(s, c))
  {
    hide YieldedFor, QueuedFor;
    var y := YieldedFor(s.yielded, c);
    var es := NetworkEventOf(s.engine.rx[0].event);
    NextYields(s);
    QueuedForHead(s.engine.rx, c);
    assert TraceOk(s, c);
    hide Apply, TraceInv;
    if es != [] {
      YieldedForAppend(s.yielded, Yielded(c, es[0]), c);
      assert QueuedFor(s.engine.rx, c)[0] == es[0];
      assert s.tasks[c].trace[|y|] == es[0];
      assert |y| > 0 ==> s.tasks[c].trace[|y| - 1] == y[|y| - 1];
    }
  }

  lemma OpenOnlyOfHead(s: System, c: Channel)
    requires Enabled(s, Next) && s.engine.rx[0].source != c
    ensures IsOpen(Apply(s, Next), c) <==> IsOpen(s, c)
  {
    NextYields(s);
    var es := NetworkEventOf(s.engine.rx[0].event);
    if es != [] {
      YieldedForAppend(s.yielded, Yielded(s.engine.rx[0].source, es[0]), c);
    }
  }

  lemma RegistryAcrossNext(s: System, c: Channel)
    requires BaseInv(s) && RegistryInv(s) && Enabled(s, Next) && NoOverlap(s, Next) && c in s.tasks
    ensures Registered(Apply(s, Next), c)
  {
    var s', p := Apply(s, Next), s.engine.rx[0];
    NextYields(s);
    HandlesExactly(s.engine);
    assert s'.engine == GetEvent(s.engine).0;
    assert PostOk(s, p) && Registered(s, c) && Registered(s, p.source);
    HeadOfTrace(s, p.source);
    if c != p.source {
      OpenOnlyOfHead(s, c);
    }
    hide Apply, IsOpen, GetEvent, TraceInv, SignInv, HasClosed;
  }

  lemma RegistryAcrossOther(s: System, a: Action, c: Channel)
    requires BaseInv(s) && RegistryInv(s) && Enabled(s, a) && !a.Next? && c in Apply(s, a).tasks
    ensures Registered(Apply(s, a), c)
  {
    hide YieldedFor, QueuedFor, OnRead, OnEvent, NetworkEventsOf;
    if a.Spawn? && c == a.c {
      assert c !in s.tasks && YieldedFor(s.yielded, c) + QueuedFor(s.engine.rx, c) == [];
    } else {
      assert Registered(s, c) && TraceOk(s, c);
    }
  }

  lemma RegistryStep(s: System, a: Action)
    requires BaseInv(s) && RegistryInv(s) && Enabled(s, a) && NoOverlap(s, a)
    ensures RegistryInv(Apply(s, a))
  {
    forall c | c in Apply(s, a).tasks ensures Registered(Apply(s, a), c) {
      hide Apply, Enabled;
      if a.Next? {
        assert c in s.tasks by {
          NextYields(s);
        }
        RegistryAcrossNext(s, c);
      } else {
        RegistryAcrossOther(s, a, c);
      }
    }
  }

  lemma {:induction false} RunsKeepRegistry(s: System, actions: seq<Action>)
    requires BaseInv(s) && RegistryInv(s) && Legal(s, actions) && NeverOverlap(s, actions)
    ensures BaseInv(Exec(s, actions)) && RegistryInv(Exec(s, actions))
    decreases |actions|
  {
    if actions != [] {
      SignStep(s, actions[0]);
      TraceStep(s, actions[0]);
      RegistryStep(s, actions[0]);
      RunsKeepRegistry(Apply(s, actions[0]), actions[1..]);
    }
  }

  /** Registry agreement. If connections to one peer never overlap in the order in which the engine
      handles them, every running connection that is open to the engine is the one registered for
      its peer, and every message to that peer goes to the end of its queue. */
  lemma RegistryAgreement(s: System, actions: seq<Action>, c: Channel, chat: ChatMessage)
    requires Init(s) && Legal(s, actions) && NeverOverlap(s, actions)
    requires c in Exec(s, actions).tasks && Exec(s, actions).tasks[c].life.Running? && IsOpen(Exec(s, actions), c)
    requires chat.recipient == Exec(s, actions).tasks[c].info.id
    ensures var s' := Exec(s, actions);
            && chat.recipient in s'.engine.channels && s'.engine.channels[chat.recipient] == c
            && c in s'.engine.mail
            && SendMessage(s'.engine, chat).mail == s'.engine.mail[c := s'.engine.mail[c] + [SendChat(chat)]]
  {
    RunsKeepRegistry(s, actions);
    assert Registered(Exec(s, actions), c);
  }

  // ---------------------------------------------------------------- no registration outlives its close

  /** Every registered connection is one to that peer, announced to the application and not closed. */
  ghost predicate OpenInv(s: System) {
    forall id :: id in s.engine.channels ==>
      s.engine.channels[id] in s.tasks && s.tasks[s.engine.channels[id]].info.id == id &&
        IsOpen(s, s.engine.channels[id])
  }

  /** What handling the head of the queue does to the connection that posted it. */
  lemma HeadOpens(s: System, c: Channel)
    requires TraceInv(s) && Enabled(s, Next) && c in s.tasks && s.engine.rx[0].source == c
    ensures s.engine.rx[0].event.NewConnection? ==> IsOpen(Apply(s, Next), c)
    ensures IsOpen(s, c) && !s.engine.rx[0].event.ConnectionClosed? ==> IsOpen(Apply(s, Next), c)
  {
    hide YieldedFor, QueuedFor;
    var y := YieldedFor(s.yielded, c);
    var es := NetworkEventOf(s.engine.rx[0].event);
    NextYields(s);
    QueuedForHead(s.engine.rx, c);
    assert TraceOk(s, c);
    hide Apply, TraceInv;
    if es != [] {
      YieldedForAppend(s.yielded, Yielded(c, es[0]), c);
      assert s.tasks[c].trace[|y|] == es[0];
    }
  }

  lemma OpenStep(s: System, a: Action)
    requires BaseInv(s) && OpenInv(s) && Enabled(s, a)
    ensures OpenInv(Apply(s, a))
  {
    if a.Next? {
      OpenAcrossNext(s);
    } else {
      OpenAcrossOther(s, a);
    }
  }

  lemma OpenAcrossOther(s: System, a: Action)
    requires BaseInv(s) && OpenInv(s) && Enabled(s, a) && !a.Next?
    ensures OpenInv(Apply(s, a))
  {
    hide YieldedFor, QueuedFor, OnRead, OnEvent, NetworkEventsOf, RequestInv, ReplyingInv, QueueInv, ReplyInv;
  }

  lemma OpenAcrossNext(s: System)
    requires BaseInv(s) && OpenInv(s) && Enabled(s, Next)
    ensures OpenInv(Apply(s, Next))
  {
    var s', p := Apply(s, Next), s.engine.rx[0];
    NextYields(s);
    HandlesExactly(s.engine);
    assert PostOk(s, p);
    HeadOpens(s, p.source);
    assert s'.engine == GetEvent(s.engine).0;
    hide Apply, IsOpen, GetEvent, TraceInv, SignInv;
    forall id | id in s'.engine.channels
      ensures s'.engine.channels[id] in s'.tasks && s'.tasks[s'.engine.channels[id]].info.id == id
      ensures IsOpen(s', s'.engine.channels[id])
    {
      if s'.engine.channels[id] != p.source {
        OpenOnlyOfHead(s, s'.engine.channels[id]);
      }
    }
  }

  lemma {:induction false} RunsKeepOpen(s: System, actions: seq<Action>)
    requires BaseInv(s) && OpenInv(s) && Legal(s, actions)
    ensures OpenInv(Exec(s, actions))
    decreases |actions|
  {
    hide Apply, Enabled, OpenInv, BaseInv;
    if actions != [] {
      BaseStep(s, actions[0]);
      OpenStep(s, actions[0]);
      RunsKeepOpen(Apply(s, actions[0]), actions[1..]);
    }
  }

  lemma BaseStep(s: System, a: Action)
    requires BaseInv(s) && Enabled(s, a)
    ensures BaseInv(Apply(s, a))
  {
    SignStep(s, a);
    TraceStep(s, a);
  }

  /** On every run a registered connection is one that the application has been told of and has not been
      told the close of; so a peer whose connections have all been closed, or never announced, is unknown:
      no message reaches it, and `disconnect` and `send_connection_authorized_message` are refused. */
  lemma ClosedIsUnknown(s: System, actions: seq<Action>, id: ServiceId, event: ConnectionEvent, chat: ChatMessage)
    requires Init(s) && Legal(s, actions) && chat.recipient == id
    ensures var s' := Exec(s, actions);
            && (id in s'.engine.channels ==>
                  var c := s'.engine.channels[id];
                  c in s'.tasks && s'.tasks[c].info.id == id && IsOpen(s', c))
            && ((forall c :: c in s'.tasks && s'.tasks[c].info.id == id ==> !IsOpen(s', c)) ==>
                  && Command(s'.engine, id, event) == (s'.engine, Refused(UnknownConnection))
                  && SendMessage(s'.engine, chat) == s'.engine)
  {
    RunsKeepOpen(s, actions);
  }

  /** An announcement that overlaps takes the registration away from a connection that is still open. */
  lemma OverlapBreaksRegistry(s: System, a: Action)
    requires BaseInv(s) && Enabled(s, a) && !NoOverlap(s, a)
    ensures !RegistryInv(Apply(s, a))
  {
    var p := s.engine.rx[0];
    var d :| d in s.tasks && d != p.source && s.tasks[d].info.id == p.event.info.id && IsOpen(s, d) &&
      !EndedSilently(s.tasks[d]);
    NextYields(s);
    OpenOnlyOfHead(s, d);
    assert PostOk(s, p);
    assert !Registered(Apply(s, a), d);
  }

  /** The registry names the open connections at the beginning, at the end and all along a run. */
  ghost predicate AlwaysRegistered(s: System, actions: seq<Action>)
    requires Legal(s, actions)
    decreases |actions|
  {
    RegistryInv(s) && (actions == [] || AlwaysRegistered(Apply(s, actions[0]), actions[1..]))
  }

  lemma {:induction false} RegistryExactlyWhen(s: System, actions: seq<Action>)
    requires BaseInv(s) && RegistryInv(s) && Legal(s, actions)
    ensures AlwaysRegistered(s, actions) <==> NeverOverlap(s, actions)
    decreases |actions|
  {
    if actions != [] {
      var s' := Apply(s, actions[0]);
      SignStep(s, actions[0]);
      TraceStep(s, actions[0]);
      if NoOverlap(s, actions[0]) {
        RegistryStep(s, actions[0]);
        RegistryExactlyWhen(s', actions[1..]);
      } else {
        OverlapBreaksRegistry(s, actions[0]);
      }
    }
  }

  /** The exact condition. Along a run every open connection is the one registered for its peer if and
      only if connections to one peer never overlap. */
  lemma RegistryHoldsExactlyWhen(s: System, actions: seq<Action>)
    requires Init(s) && Legal(s, actions)
    ensures AlwaysRegistered(s, actions) <==> NeverOverlap(s, actions)
  {
    RegistryExactlyWhen(s, actions);
  }

  /** Two connections to one peer are announced: the first runs on, open and unregistered, and what
      is said to the peer goes to the second. */
  lemma OverlapMisroutes(s: System, c: Channel, d: Channel, i: ConnectionInfo, j: ConnectionInfo, chat: ChatMessage)
    requires Init(s) && c != d && i.id == j.id == chat.recipient
    ensures var actions := [Spawn(c, i), Spawn(d, j), Announce(c), Announce(d), Next, Next];
            && Legal(s, actions)
            && var s' := Exec(s, actions);
               && c in s'.tasks && s'.tasks[c].life.Running? && IsOpen(s', c)
               && c in s'.engine.mail && d in s'.engine.mail
               && SendMessage(s'.engine, chat).mail == s'.engine.mail[d := s'.engine.mail[d] + [SendChat(chat)]]
  {
    var s1 := Apply(s, Spawn(c, i));
    var s2 := Apply(s1, Spawn(d, j));
    BothAnnounced(s2, c, d, chat);
    hide Apply, Enabled, SendMessage, IsOpen;
    var actions := [Spawn(c, i), Spawn(d, j), Announce(c), Announce(d), Next, Next];
    assert actions[1..][1..] == [Announce(c), Announce(d), Next, Next];
    FirstAction(s1, actions[1..]);
    FirstAction(s, actions);
  }

  lemma BothAnnounced(s: System, c: Channel, d: Channel, chat: ChatMessage)
    requires c != d && c in s.tasks && d in s.tasks && c in s.engine.mail && d in s.engine.mail
    requires s.tasks[c].life.Handshaking? && s.tasks[d].life.Handshaking?
    requires s.tasks[c].info.id == s.tasks[d].info.id == chat.recipient
    requires s.engine.rx == [] && s.yielded == []
    ensures var actions := [Announce(c), Announce(d), Next, Next];
            && Legal(s, actions)
            && var s' := Exec(s, actions);
               && c in s'.tasks && s'.tasks[c].life.Running? && IsOpen(s', c)
               && c in s'.engine.mail && d in s'.engine.mail
               && SendMessage(s'.engine, chat).mail == s'.engine.mail[d := s'.engine.mail[d] + [SendChat(chat)]]
  {
    hide NetworkEventsOf, OnRead, OnEvent, Deliver, IsOpen, SendMessage, Exec;
    var i, j := s.tasks[c].info, s.tasks[d].info;
    var s1 := Apply(s, Announce(c));
    var s2 := Apply(s1, Announce(d));
    assert s2.engine.rx == [Post(c, NewConnection(i, c)), Post(d, NewConnection(j, d))];
    BothHandled(s2, c, d, chat);
    hide Apply, Enabled;
    var actions := [Announce(c), Announce(d), Next, Next];
    assert actions[1..][1..] == [Next, Next];
    FirstAction(s1, actions[1..]);
    FirstAction(s, actions);
  }

  lemma BothHandled(s: System, c: Channel, d: Channel, chat: ChatMessage)
    requires c != d && c in s.tasks && d in s.tasks && c in s.engine.mail && d in s.engine.mail
    requires s.tasks[c].life.Running? && s.tasks[c].info.id == s.tasks[d].info.id == chat.recipient
    requires s.engine.rx == [Post(c, NewConnection(s.tasks[c].info, c)), Post(d, NewConnection(s.tasks[d].info, d))]
    requires s.yielded == []
    ensures var actions := [Next, Next];
            && Legal(s, actions)
            && var s' := Exec(s, actions);
               && c in s'.tasks && s'.tasks[c].life.Running? && IsOpen(s', c)
               && c in s'.engine.mail && d in s'.engine.mail
               && SendMessage(s'.engine, chat).mail == s'.engine.mail[d := s'.engine.mail[d] + [SendChat(chat)]]
  {
    var i, j := s.tasks[c].info, s.tasks[d].info;
    var s1 := Apply(s, Next);
    assert s1.engine.rx == [Post(d, NewConnection(j, d))] && s1.yielded == s.yielded + [Yielded(c, Connected(i))];
    var s2 := Apply(s1, Next);
    assert s2.yielded == s1.yielded + [Yielded(d, Connected(j))];
    assert YieldedFor(s.yielded, c) == [];
    hide Apply, Enabled, YieldedFor;
    YieldedForAppend(s.yielded, Yielded(c, Connected(i)), c);
    YieldedForAppend(s1.yielded, Yielded(d, Connected(j)), c);
    var actions := [Next, Next];
    assert actions[1..][1..] == [];
    FirstAction(s1, actions[1..]);
    FirstAction(s, actions);
  }

  lemma FirstAction(s: System, actions: seq<Action>)
    requires actions != [] && Enabled(s, actions[0]) && Legal(Apply(s, actions[0]), actions[1..])
    ensures Legal(s, actions) && Exec(s, actions) == Exec(Apply(s, actions[0]), actions[1..])
  {
  }

  // ---------------------------------------------------------------- channels of tasks that have ended

  /** `disconnect` and `send_connection_authorized_message` unwrap a send. On every run they panic
      exactly when the task of the registered connection has ended. */
  lemma CommandCrashesExactlyWhen(s: System, actions: seq<Action>, id: ServiceId, event: ConnectionEvent)
    requires Init(s) && Legal(s, actions)
    ensures var s' := Exec(s, actions);
            Command(s'.engine, id, event).1.Crashed? <==>
            id in s'.engine.channels && s'.engine.channels[id] in s'.tasks &&
              s'.tasks[s'.engine.channels[id]].life.Ended?
  {
    RunsKeepSignInv(s, actions);
  }

  /** That happens: a connection that is closed from this side leaves its loop without a word to the
      engine, so its channel stays registered, and a second `disconnect` panics. */
  lemma DisconnectTwiceCrashes(s: System, c: Channel, id: ServiceId)
    requires c in s.tasks && s.tasks[c].life.Running? && id in s.engine.channels && s.engine.channels[id] == c
    requires c in s.engine.mail && s.engine.mail[c] == []
    ensures var actions := [Tell(id, CloseConnection), QueueTurn(c)];
            Legal(s, actions) && Command(Exec(s, actions).engine, id, CloseConnection).1.Crashed?
  {
    var actions := [Tell(id, CloseConnection), QueueTurn(c)];
    var s1 := Apply(s, actions[0]);
    assert s1.engine.mail[c] == [CloseConnection] && actions[1..] == [QueueTurn(c)];
    var s2 := Apply(s1, QueueTurn(c));
    var rest := [QueueTurn(c)];
    assert rest[1..] == [];
    assert Legal(s1, rest) && Exec(s1, rest) == Exec(s2, rest[1..]);
  }

  /** A read that panics ends the task just as silently. */
  lemma PanickedReadLeavesChannel(s: System, c: Channel, id: ServiceId)
    requires c in s.tasks && s.tasks[c].life.Running? && id in s.engine.channels && s.engine.channels[id] == c
    ensures var s' := Apply(s, ReadTurn(c, Panicked));
            s'.engine.rx == s.engine.rx && Command(s'.engine, id, CloseConnection).1.Crashed?
  {
    assert s.engine.rx + [] == s.engine.rx;
  }

  /** And it happens on a run: one connection is announced and told to close. */
  lemma DisconnectCanCrash(s: System, c: Channel, info: ConnectionInfo)
    requires Init(s)
    ensures var actions := [Spawn(c, info), Announce(c), Next];
            Legal(s, actions) && NeverOverlap(s, actions) &&
            var s' := Exec(s, actions);
            && c in s'.tasks && s'.tasks[c].life.Running? && s'.engine.mail == map[c := []]
            && s'.engine.channels == map[info.id := c]
  {
    var actions := [Spawn(c, info), Announce(c), Next];
    var s1 := Apply(s, actions[0]);
    var s2 := Apply(s1, actions[1]);
    assert s2.engine.rx[0] == Post(c, NewConnection(info, c));
    var s3 := Apply(s2, actions[2]);
    assert actions[1..][1..] == [Next];
    assert Legal(s2, [Next]) && Exec(s2, [Next]) == s3 && NeverOverlap(s2, [Next]);
  }

  // ---------------------------------------------------------------- draining before a disconnect

  /** The messages a row of queued events is to put on the stream: those that fit into a frame. */
  function WritesOf(events: seq<ConnectionEvent>): seq<WireMessage> {
    if events == [] then []
    else
      var rest := WritesOf(events[..|events| - 1]);
      match events[|events| - 1]
      case SendChat(chat) => if Fits(Chat(chat)) then rest + [Chat(chat)] else rest
      case ConnectionAuthorized => if Fits(Authorized) then rest + [Authorized] else rest
      case _ => rest
  }

  predicate NoClose(events: seq<ConnectionEvent>) {
    forall i :: 0 <= i < |events| ==> !events[i].CloseConnection?
  }

  ghost predicate Drained(s: System, c: Channel)
    requires c in s.tasks
  {
    var t := s.tasks[c];
    && t.written == WritesOf(t.taken)
    && t.taken <= t.accepted
    && (c in s.engine.mail ==> t.accepted == t.taken + s.engine.mail[c] && NoClose(t.taken))
    && (t.life == Ended(true) ==>
          t.taken != [] && t.taken[|t.taken| - 1].CloseConnection? && NoClose(t.taken[..|t.taken| - 1]))
  }

  ghost predicate DrainInv(s: System) {
    forall c :: c in s.tasks ==> Drained(s, c)
  }

  lemma DrainedAcrossQueueTurn(s: System, c: Channel)
    requires SignInv(s) && Enabled(s, QueueTurn(c)) && Drained(s, c)
    ensures Drained(Apply(s, QueueTurn(c)), c)
  {
  }

  lemma DrainedAcrossEngine(s: System, a: Action, c: Channel)
    requires SignInv(s) && Enabled(s, a) && ByEngine(a) && c in s.tasks && Drained(s, c)
    ensures Drained(Apply(s, a), c)
  {
    hide OnRead, NetworkEventsOf, Posts, ReplyInv;
    if a.Next? && s.engine.rx[0].event.SignatureRequest? {
      assert LiveRequest(s, s.engine.rx[0]);
    }
  }

  lemma DrainedAcrossTask(s: System, a: Action, c: Channel)
    requires SignInv(s) && Enabled(s, a) && !ByEngine(a) && a != QueueTurn(c)
    requires c in Apply(s, a).tasks && (c in s.tasks ==> Drained(s, c))
    ensures Drained(Apply(s, a), c)
  {
    hide OnRead, OnEvent;
  }

  lemma DrainStep(s: System, a: Action)
    requires SignInv(s) && DrainInv(s) && Enabled(s, a)
    ensures DrainInv(Apply(s, a))
  {
    forall c | c in Apply(s, a).tasks ensures Drained(Apply(s, a), c) {
      assert c in s.tasks ==> Drained(s, c);
      if ByEngine(a) {
        DrainedAcrossEngine(s, a, c);
      } else if a == QueueTurn(c) {
        DrainedAcrossQueueTurn(s, c);
      } else {
        DrainedAcrossTask(s, a, c);
      }
    }
  }

  lemma {:induction false} RunsKeepDrain(s: System, actions: seq<Action>)
    requires SignInv(s) && DrainInv(s) && Legal(s, actions)
    ensures DrainInv(Exec(s, actions))
    decreases |actions|
  {
    if actions != [] {
      SignStep(s, actions[0]);
      DrainStep(s, actions[0]);
      RunsKeepDrain(Apply(s, actions[0]), actions[1..]);
    }
  }

  /** Drain before close. A connection that ended on a disconnect has put on its stream exactly the
      fitting messages accepted before that disconnect, in order, and none accepted after it. */
  lemma DrainBeforeClose(s: System, actions: seq<Action>, c: Channel)
    requires Init(s) && Legal(s, actions)
    requires c in Exec(s, actions).tasks && Exec(s, actions).tasks[c].life == Ended(true)
    ensures var t := Exec(s, actions).tasks[c];
            exists n :: 0 <= n < |t.accepted| && t.accepted[n].CloseConnection? && NoClose(t.accepted[..n]) &&
                        t.written == WritesOf(t.accepted[..n])
  {
    RunsKeepDrain(s, actions);
    var t := Exec(s, actions).tasks[c];
    assert Drained(Exec(s, actions), c);
    var n := |t.taken| - 1;
    assert t.accepted[..n] == t.taken[..n] && t.accepted[n] == t.taken[n];
  }
}
