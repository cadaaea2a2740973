/** src/engine.rs: the engine actor. Its event queue and the queues of the connections are unbounded
    and first-in first-out; a channel without a mailbox is one whose receiver has been dropped. */
module EngineActor {
  import opened Octets
  import opened Events

  /** An event in the engine's queue, with the connection whose task posted it. */
  datatype Post = Post(source: Channel, event: EngineEvent)

  datatype State = State(
    key: Key,
    channels: map<ServiceId, Channel>,
    rx: seq<Post>,
    mail: map<Channel, seq<ConnectionEvent>>)

  datatype Handled = Idle | Nothing | Yield(event: NetworkEvent) | Panic

  datatype Outcome = Done | Refused(error: Error) | Crashed

  function Push(st: State, tx: Channel, event: ConnectionEvent): State {
    if tx in st.mail then st.(mail := st.mail[tx := st.mail[tx] + [event]]) else st
  }

  /** `get_event`: takes one event from the queue and handles it. */
  function GetEvent(st: State): (State, Handled) {
    if st.rx == [] then (st, Idle)
    else
      var st' := st.(rx := st.rx[1..]);
      match st.rx[0].event
      case NewConnection(info, tx) => (st'.(channels := st'.channels[info.id := tx]), Yield(Connected(info)))
      case SignatureRequest(tx, data) =>
        if tx in st.mail then (Push(st', tx, SignatureResponse(Signature(st.key, data))), Nothing) else (st', Panic)
      case ChatArrived(chat) => (st', Yield(Received(chat)))
      case ReadError => (st', Nothing)
      case ConnectionClosed(info) => (st'.(channels := st'.channels - {info.id}), Yield(Closed(info)))
      case LogMessage => (st', Nothing)
  }

  /** A message to a peer without a channel, or to a task that has ended, is dropped. */
  function SendMessage(st: State, chat: ChatMessage): State {
    if chat.recipient in st.channels then Push(st, st.channels[chat.recipient], SendChat(chat)) else st
  }

  /** `disconnect` and `send_connection_authorized_message`: these unwrap the result of the send. */
  function Command(st: State, id: ServiceId, event: ConnectionEvent): (State, Outcome) {
    if id !in st.channels then (st, Refused(UnknownConnection))
    else if st.channels[id] !in st.mail then (st, Crashed)
    else (Push(st, st.channels[id], event), Done)
  }

  /** The mailboxes shared by the engine and the connection tasks. */
  class Mailboxes {
    var boxes: map<Channel, seq<ConnectionEvent>>

    constructor ()
      ensures boxes == map[]
    {
      boxes := map[];
    }

    /** Sending on a channel: fails when the receiver has been dropped. */
    method Send(tx: Channel, event: ConnectionEvent) returns (ok: bool)
      modifies this
      ensures ok <==> tx in old(boxes)
      ensures boxes == if ok then old(boxes)[tx := old(boxes)[tx] + [event]] else old(boxes)
    {
      if tx !in boxes {
        return false;
      }
      boxes := boxes[tx := boxes[tx] + [event]];
      return true;
    }
  }

  class Engine {
    const key: Key
    const mailboxes: Mailboxes
    var channels: map<ServiceId, Channel>
    var rx: seq<Post>

    ghost function Abstract(): State
      reads this, mailboxes
    {
      State(key, channels, rx, mailboxes.boxes)
    }

    constructor (key: Key, mailboxes: Mailboxes)
      ensures Abstract() == State(key, map[], [], mailboxes.boxes) && this.mailboxes == mailboxes
    {
      this.key := key;
      this.mailboxes := mailboxes;
      channels, rx := map[], [];
    }

    method NextEvent() returns (h: Handled)
      modifies this, mailboxes
      ensures (Abstract(), h) == GetEvent(old(Abstract()))
    {
      if rx == [] {
        return Idle;
      }
      var event := rx[0].event;
      rx := rx[1..];
      match event {
        case NewConnection(info, tx) =>
          channels := channels[info.id := tx];
          return Yield(Connected(info));
        case SignatureRequest(tx, data) =>
          var signature := Signature(key, data);
          var sent := mailboxes.Send(tx, SignatureResponse(signature));
          return if sent then Nothing else Panic;
        case ChatArrived(chat) =>
          return Yield(Received(chat));
        case ReadError =>
          return Nothing;
        case ConnectionClosed(info) =>
          channels := channels - {info.id};
          return Yield(Closed(info));
        case LogMessage =>
          return Nothing;
      }
    }

    method Send(chat: ChatMessage)
      modifies mailboxes
      ensures Abstract() == SendMessage(old(Abstract()), chat)
    {
      if chat.recipient in channels {
        var sent := mailboxes.Send(channels[chat.recipient], SendChat(chat));
      }
    }

    method SendConnectionAuthorized(id: ServiceId) returns (o: Outcome)
      modifies mailboxes
      ensures (Abstract(), o) == Command(old(Abstract()), id, ConnectionAuthorized)
    {
      if id !in channels {
        return Refused(UnknownConnection);
      }
      var sent := mailboxes.Send(channels[id], ConnectionAuthorized);
      return if sent then Done else Crashed;
    }

    method Disconnect(id: ServiceId) returns (o: Outcome)
      modifies mailboxes
      ensures (Abstract(), o) == Command(old(Abstract()), id, CloseConnection)
    {
      if id !in channels {
        return Refused(UnknownConnection);
      }
      var sent := mailboxes.Send(channels[id], CloseConnection);
      return if sent then Done else Crashed;
    }
  }
}
