/** One connection between two honest endpoints, from the first octet of the key exchange to the
    end: two handshake programs, two connection loops, two engines that also serve other
    connections, and a byte stream each way that hands over octets in any portions and may break
    off anywhere. */
module Session {
  import opened Octets
  import opened Crypto
  import opened Packets
  import opened EncryptedChannel
  import opened Events
  import opened Handshake
  import opened ConnectionLoop
  import opened EngineActor
  import EngineRuns

  /** The connection's own channel and the channel its task waits on in `sign_data`. */
  const MINE: Events.Channel := 0
  const REPLY: Events.Channel := 1

  /** One direction of the stream. `closed`: nothing is added any more; `cut`: octets were lost. */
  datatype Pipe = Pipe(wire: seq<Octet>, closed: bool, cut: bool)

  /** One endpoint. The framed reader holds `unread`; the rest is history: the frames written, how
      many frames of the peer were read, whether the authorisation read met the end of the stream,
      the events pushed to the connection and those it took, and the chats `get_event` returned. */
  datatype Side = Side(
    task: Handshake.Task,
    alive: bool,
    engine: State,
    unread: seq<Octet>,
    sent: seq<Sent>,
    got: nat,
    sawEnd: bool,
    pushed: seq<ConnectionEvent>,
    taken: seq<ConnectionEvent>,
    yielded: seq<ChatMessage>)

  datatype View = View(me: Side, inbound: Pipe, outbound: Pipe)

  /** What can happen at one endpoint. */
  datatype Move =
    | KeyRead(n: nat)
    | Arrive(n: nat)
    | FrameRead(nonce: Nonce, random: nat -> Byte)
    | TakeReply(nonce: Nonce, random: nat -> Byte)
    | Timeout
    | TakeEvent(nonce: Nonce, random: nat -> Byte)
    | Poll
    | Say(chat: ChatMessage)
    | Tell(id: ServiceId, event: ConnectionEvent)
    | OtherPost(post: Post)
    | OtherMail(mail: map<Events.Channel, seq<ConnectionEvent>>)
    | Break(keep: nat)
    | Reset

  function KeySent(s: Side): bool {
    s.task.role.Client? || s.task.shared.Some?
  }

  function KeyKnown(s: Side): bool {
    s.task.shared.Some?
  }

  function Expected(pc: Pc): MessageKind {
    match pc
    case AwaitAuth => AuthKind
    case AwaitAuthorized => AuthorizedKind
    case _ => ChatKind
  }

  predicate Reading(s: Side) {
    s.alive && s.task.shared.Some? &&
    (s.task.pc.AwaitAuth? || s.task.pc.AwaitAuthorized? || (s.task.pc.Established? && s.task.peer.Some?))
  }

  /** The read the endpoint is waiting for, on what has arrived so far. */
  function CurrentRead(v: View): (ReadResult, seq<Octet>)
    requires Reading(v.me)
  {
    ReadOne(Hkdf(v.me.task.shared.value), Expected(v.me.task.pc), v.me.unread, v.inbound.closed && v.inbound.wire == [])
  }

  function Write(p: Pipe, octets: seq<Octet>): Pipe {
    if p.closed then p else p.(wire := p.wire + octets)
  }

  /** The task ends: its stream and its queues are dropped. */
  function End(v: View): View {
    View(v.me.(alive := false, engine := v.me.engine.(mail := v.me.engine.mail - {MINE, REPLY})),
         v.inbound, v.outbound.(closed := true))
  }

  /** A message handed to the encrypting writer; one that does not fit leaves no trace. */
  function Send(v: View, message: WireMessage, nonce: Nonce, random: nat -> Byte): (v': View)
    ensures v'.me.task == v.me.task && v'.me.alive == v.me.alive && v'.inbound == v.inbound &&
            v'.outbound.cut == v.outbound.cut
    ensures v.outbound.closed ==> v'.outbound == v.outbound
    ensures v'.me.pushed == v.me.pushed
  {
    if v.me.task.shared.None? || !Fits(message) then v
    else
      var s := Sent(message, nonce, Filler(message, random));
      View(v.me.(sent := v.me.sent + [s]), v.inbound, Write(v.outbound, Frame(Hkdf(v.me.task.shared.value), s)))
  }

  function PostOne(v: View, event: EngineEvent): (v': View)
    ensures v'.me.task == v.me.task && v'.me.alive == v.me.alive && v'.inbound == v.inbound &&
            v'.outbound.cut == v.outbound.cut
    ensures v.outbound.closed ==> v'.outbound == v.outbound
    ensures v'.me.pushed == v.me.pushed
  {
    v.(me := v.me.(engine := v.me.engine.(rx := v.me.engine.rx + [Post(MINE, event)])))
  }

  function Perform(v: View, effect: Effect, nonce: Nonce, random: nat -> Byte): (v': View)
    ensures v'.me.task == v.me.task && v'.me.alive == v.me.alive && v'.inbound == v.inbound &&
            v'.outbound.cut == v.outbound.cut
    ensures v.outbound.closed ==> v'.outbound == v.outbound
    ensures v'.me.pushed == v.me.pushed
  {
    match effect
    case SendKey(packet) => v.(outbound := Write(v.outbound, packet))
    case SendMessage(message) => Send(v, message, nonce, random)
    case RequestSignature(data) =>
      PostOne(v.(me := v.me.(engine := v.me.engine.(mail := v.me.engine.mail[REPLY := []]))),
        SignatureRequest(REPLY, data))
    case Announce(info) => PostOne(v, NewConnection(info, MINE))
  }

  function PerformAll(v: View, effects: seq<Effect>, nonce: Nonce, random: nat -> Byte): (v': View)
    ensures v'.me.task == v.me.task && v'.me.alive == v.me.alive && v'.inbound == v.inbound &&
            v'.outbound.cut == v.outbound.cut
    ensures v.outbound.closed ==> v'.outbound == v.outbound
    ensures v'.me.pushed == v.me.pushed
  {
    if effects == [] then v
    else Perform(PerformAll(v, effects[..|effects| - 1], nonce, random), effects[|effects| - 1], nonce, random)
  }

  /** The handshake program goes on with what its await returned. */
  function GoOn(v: View, input: Input, nonce: Nonce, random: nat -> Byte): (v': View)
    ensures v'.me.task == Handshake.Step(v.me.task, input).0
    ensures v'.inbound == v.inbound && v'.outbound.cut == v.outbound.cut
    ensures v.outbound.closed ==> v'.outbound == v.outbound
    ensures v'.me.pushed == v.me.pushed
    ensures !v'.me.task.pc.Aborted? ==> v'.me.alive == v.me.alive
  {
    var (t, effects) := Handshake.Step(v.me.task, input);
    var v' := PerformAll(v.(me := v.me.(task := t)), effects, nonce, random);
    if t.pc.Aborted? then End(v') else v'
  }

  function Info(s: Side): ConnectionInfo
    requires s.task.peer.Some?
  {
    ConnectionInfo(s.task.address, s.task.peer.value, if s.task.role.Client? then Outgoing else Incoming)
  }

  predicate Enabled(v: View, m: Move) {
    var me := v.me;
    match m
    case KeyRead(n) => me.alive && me.task.pc.AwaitKey? && n <= READ_LIMIT && n <= |v.inbound.wire| &&
                       (n == 0 ==> v.inbound.closed && v.inbound.wire == [])
    case Arrive(n) => Reading(me) && 0 < n <= |v.inbound.wire|
    case FrameRead(_, _) => Reading(me) && !CurrentRead(v).0.Pending?
    case TakeReply(_, _) => me.alive && me.task.pc.AwaitSignature? && REPLY in me.engine.mail &&
      me.engine.mail[REPLY] != []
    case Timeout => me.alive && (me.task.pc.AwaitKey? || me.task.pc.AwaitAuth?)
    case TakeEvent(_, _) => me.alive && me.task.pc.Established? && MINE in me.engine.mail && me.engine.mail[MINE] != []
    case Poll => me.engine.rx != []
    case Say(_) => true
    case Tell(_, event) => event.ConnectionAuthorized? || event.CloseConnection?
    case OtherPost(post) => post.source != MINE &&
                            (post.event.SignatureRequest? || post.event.NewConnection? ==>
                              post.event.tx != MINE && post.event.tx != REPLY)
    case OtherMail(mail) => SameBox(mail, me.engine.mail, MINE) && SameBox(mail, me.engine.mail, REPLY)
    case Break(keep) => keep <= |v.inbound.wire|
    case Reset => Reading(me) && Deframe(me.unread).Incomplete?
  }

  predicate SameBox(mail: map<Events.Channel, seq<ConnectionEvent>>,
                    mail': map<Events.Channel, seq<ConnectionEvent>>, c: Events.Channel) {
    (c in mail <==> c in mail') && (c in mail && c in mail' ==> mail[c] == mail'[c])
  }

  function NoBytes(): nat -> Byte {
    _ => 0
  }

  function Happen(v: View, m: Move): View
    requires Enabled(v, m)
  {
    match m
    case KeyRead(n) =>
      GoOn(v.(inbound := v.inbound.(wire := v.inbound.wire[n..])), KeyBytes(v.inbound.wire[..n]), seq(12, _ => 0),
        NoBytes())
    case Arrive(n) =>
      View(v.me.(unread := v.me.unread + v.inbound.wire[..n]), v.inbound.(wire := v.inbound.wire[n..]), v.outbound)
    case FrameRead(nonce, random) => Read(v, nonce, random)
    case TakeReply(nonce, random) =>
      var reply := v.me.engine.mail[REPLY][0];
      var v' := v.(me := v.me.(engine := v.me.engine.(mail := v.me.engine.mail - {REPLY})));
      var fits := !reply.SignatureResponse? || Fits(Auth(v.me.task.id, reply.signature));
      GoOn(v', if fits then Reply(Some(reply)) else Failure, nonce, random)
    case Timeout => GoOn(v, Failure, seq(12, _ => 0), NoBytes())
    case TakeEvent(nonce, random) =>
      var event := v.me.engine.mail[MINE][0];
      var turn := OnEvent(event);
      var v' := v.(me := v.me.(taken := v.me.taken + [event],
                               engine := v.me.engine.(mail := v.me.engine.mail[MINE := v.me.engine.mail[MINE][1..]])));
      var v'' := if turn.write.Some? then Send(v', turn.write.value, nonce, random) else v';
      if turn.stops then End(v'') else v''
    case Poll =>
      var (engine, handled) := GetEvent(v.me.engine);
      var mine := v.me.engine.rx[0].source == MINE && handled.Yield? && handled.event.Received?;
      v.(me := v.me.(engine := engine, yielded := v.me.yielded + if mine then [handled.event.chat] else []))
    case Say(chat) =>
      var routed := chat.recipient in v.me.engine.channels && v.me.engine.channels[chat.recipient] == MINE &&
        MINE in v.me.engine.mail;
      v.(me := v.me.(engine := EngineActor.SendMessage(v.me.engine, chat),
                         pushed := v.me.pushed + if routed then [SendChat(chat)] else []))
    case Tell(id, event) =>
      var routed := id in v.me.engine.channels && v.me.engine.channels[id] == MINE && MINE in v.me.engine.mail;
      v.(me := v.me.(engine := Command(v.me.engine, id, event).0,
                         pushed := v.me.pushed + if routed then [event] else []))
    case OtherPost(post) => v.(me := v.me.(engine := v.me.engine.(rx := v.me.engine.rx + [post])))
    case OtherMail(mail) => v.(me := v.me.(engine := v.me.engine.(mail := mail)))
    case Break(keep) => v.(inbound := Pipe(v.inbound.wire[..keep], true, true))
    case Reset => ReadFails(v.(inbound := Pipe([], true, true)))
  }

  /** The transport reports an error to the read the endpoint is waiting for. */
  function ReadFails(v: View): View
    requires Reading(v.me)
  {
    var result := Failed(ConnectionReset);
    if v.me.task.pc.Established? then Turned(v, result)
    else GoOn(v, Handshake.Read(result), seq(12, _ => 0), NoBytes())
  }

  /** The loop takes a turn of its reading branch. */
  function Turned(v: View, result: ReadResult): View
    requires v.me.task.peer.Some?
  {
    var turn := OnRead(Info(v.me), result);
    var v' := v.(me := v.me.(engine := v.me.engine.(rx := v.me.engine.rx + EngineRuns.Posts(MINE, turn.posts))));
    if turn.stops then End(v') else v'
  }

  /** A typed read completes: the handshake goes on, or the loop takes a turn. */
  function Read(v: View, nonce: Nonce, random: nat -> Byte): View
    requires Enabled(v, FrameRead(nonce, random))
  {
    var (result, rest) := CurrentRead(v);
    var got := if result.Message? then v.me.got + 1 else v.me.got;
    var v' := v.(me := v.me.(unread := rest, got := got));
    if !v.me.task.pc.Established? then
      GoOn(v'.(me := v'.me.(sawEnd := v.me.sawEnd || (v.me.task.pc.AwaitAuthorized? && result.EndOfStream?))),
           Handshake.Read(result), nonce, random)
    else Turned(v', result)
  }

  // ---------------------------------------------------------------- the two endpoints together

  datatype Pair = Pair(client: Side, server: Side, c2s: Pipe, s2c: Pipe)

  datatype Action = Action(role: Role, move: Move)

  function ViewOf(p: Pair, role: Role): View {
    if role.Client? then View(p.client, p.s2c, p.c2s) else View(p.server, p.c2s, p.s2c)
  }

  function Put(p: Pair, role: Role, v: View): Pair {
    if role.Client? then Pair(v.me, p.server, v.outbound, v.inbound) else Pair(p.client, v.me, v.inbound, v.outbound)
  }

  ghost predicate Legal(p: Pair, actions: seq<Action>)
    decreases |actions|
  {
    actions == [] ||
    (Enabled(ViewOf(p, actions[0].role), actions[0].move) && Legal(Apply(p, actions[0]), actions[1..]))
  }

  function Apply(p: Pair, a: Action): Pair
    requires Enabled(ViewOf(p, a.role), a.move)
  {
    Put(p, a.role, Happen(ViewOf(p, a.role), a.move))
  }

  ghost function Exec(p: Pair, actions: seq<Action>): Pair
    requires Legal(p, actions)
    decreases |actions|
  {
    if actions == [] then p else Exec(Apply(p, actions[0]), actions[1..])
  }

  /** A side before its first await: nothing queued for it, by it or about it. */
  ghost predicate Unused(s: Side) {
    && s.alive && s.unread == [] && s.sent == [] && s.got == 0 && !s.sawEnd
    && s.pushed == [] && s.taken == [] && s.yielded == []
    && MINE in s.engine.mail && s.engine.mail[MINE] == []
    && (forall i :: 0 <= i < |s.engine.rx| ==> s.engine.rx[i].source != MINE)
    && (forall i :: 0 <= i < |s.engine.rx| && s.engine.rx[i].event.SignatureRequest? ==>
          s.engine.rx[i].event.tx != MINE && s.engine.rx[i].event.tx != REPLY)
    && (forall i :: 0 <= i < |s.engine.rx| && s.engine.rx[i].event.NewConnection? ==> s.engine.rx[i].event.tx != REPLY)
    && (forall id :: id in s.engine.channels ==> s.engine.channels[id] != REPLY)
    && VERIFYING_KEYS(s.task.id) == Some(s.engine.key)
  }

  /** A client has dialled the server's id and sent its key; the server has accepted the stream. */
  ghost predicate Init(p: Pair) {
    && Unused(p.client) && Unused(p.server)
    && p.client.task == StartClient(p.client.task.id, p.client.task.address, p.server.task.id, p.client.task.secret).0
    && p.server.task == StartServer(p.server.task.id, p.server.task.address, p.server.task.secret).0
    && p.c2s == Pipe(KeyPacket(p.client.task.secret.publicKey), false, false)
    && p.s2c == Pipe([], false, false)
  }
}
