/** src/connection.rs: the loop of an established connection. Each turn either completes a read or
    takes one event from the connection's queue. */
module ConnectionLoop {
  import opened Octets
  import opened Packets
  import opened EncryptedChannel
  import opened Events

  /** What one turn does: what it tells the engine, what it writes, and whether the loop ends. */
  datatype Turn = Turn(posts: seq<EngineEvent>, write: Option<WireMessage>, stops: bool)

  function OnRead(info: ConnectionInfo, result: ReadResult): Turn {
    match result
    case Message(m) => Turn(if m.Chat? then [ChatArrived(m.chat)] else [], None, false)
    case EndOfStream => Turn([ConnectionClosed(info)], None, true)
    case Failed(_) => Turn([ReadError, ConnectionClosed(info)], None, true)
    case Panicked => Turn([], None, true)
    case Pending => Turn([], None, false)
  }

  function OnEvent(event: ConnectionEvent): Turn {
    match event
    case SendChat(chat) => Turn([], Some(Chat(chat)), false)
    case ConnectionAuthorized => Turn([], Some(Authorized), false)
    case CloseConnection => Turn([], None, true)
    case SignatureResponse(_) => Turn([], None, true)
  }

  /** One thing that happens around or in the loop: octets or the end of the stream arrive, the transport
      breaks, an event is queued, or `select!` runs one of its two branches. */
  datatype Happening =
    | Arrive(chunk: seq<Octet>)
    | HangUp
    | BreakOff
    | Enqueue(event: ConnectionEvent)
    | PollRead
    | TakeEvent(nonce: Nonce, random: nat -> Byte)

  datatype LoopState = LoopState(
    unread: seq<Octet>,
    closed: bool,
    broken: bool,
    rx: seq<ConnectionEvent>,
    posted: seq<EngineEvent>,
    output: seq<Octet>,
    running: bool)

  function LoopStep(key: SymmetricKey, info: ConnectionInfo, s: LoopState, h: Happening): LoopState {
    match h
    case Arrive(chunk) => s.(unread := s.unread + chunk)
    case HangUp => s.(closed := true)
    case BreakOff => s.(broken := true)
    case Enqueue(event) => s.(rx := s.rx + [event])
    case PollRead =>
      if !s.running then s
      else
        var (result, rest) := ReadOrFail(key, ChatKind, s.unread, s.closed, s.broken);
        var turn := OnRead(info, result);
        s.(unread := rest, posted := s.posted + turn.posts, running := !turn.stops)
    case TakeEvent(nonce, random) =>
      if !s.running || s.rx == [] then s
      else
        var turn := OnEvent(s.rx[0]);
        s.(rx := s.rx[1..],
           output := s.output + if turn.write.Some? then Written(key, turn.write.value, nonce, random) else [],
           running := !turn.stops)
  }

  function LoopRun(key: SymmetricKey, info: ConnectionInfo, s: LoopState, hs: seq<Happening>): LoopState {
    if hs == [] then s else LoopStep(key, info, LoopRun(key, info, s, hs[..|hs| - 1]), hs[|hs| - 1])
  }

  class Connection {
    const info: ConnectionInfo
    const reader: DecryptingReader
    const writer: EncryptingWriter
    const socket: Socket
    var engineTx: seq<EngineEvent>
    var rx: seq<ConnectionEvent>
    var running: bool

    ghost predicate Valid()
      reads this, reader, writer
    {
      reader.Valid() && reader.key == writer.key
    }

    ghost function State(): LoopState
      reads this, reader, writer, socket
    {
      LoopState(reader.Unread() + Concat(socket.arrived), socket.closed, socket.broken, rx, engineTx, writer.output,
                running)
    }

    constructor (info: ConnectionInfo, key: SymmetricKey)
      ensures Valid() && fresh(reader) && fresh(writer) && fresh(socket) && reader.key == key && this.info == info
      ensures State() == LoopState([], false, false, [], [], [], true)
    {
      this.info := info;
      reader := new DecryptingReader(key);
      writer := new EncryptingWriter(key);
      socket := new Socket();
      engineTx, rx, running := [], [], true;
    }

    /** The reading branch of `select!`. */
    method ReadBranch()
      requires Valid() && running
      modifies this, reader, socket
      ensures Valid() && State() == LoopStep(reader.key, info, old(State()), PollRead)
    {
      hide ReadOne, Written, Concat, LengthOf;
      var result := reader.Poll(ChatKind, socket);
      match result
      case Message(message) =>
        if message.Chat? {
          engineTx := engineTx + [ChatArrived(message.chat)];
        }
      case EndOfStream =>
        engineTx := engineTx + [ConnectionClosed(info)];
        running := false;
      case Failed(_) =>
        engineTx := engineTx + [ReadError];
        engineTx := engineTx + [ConnectionClosed(info)];
        running := false;
      case Panicked =>
        running := false;
      case Pending =>
    }

    /** The branch of `select!` that takes an event from the queue. */
    method EventBranch(nonce: Nonce, random: nat -> Byte)
      requires Valid() && running && rx != []
      modifies this, writer
      ensures Valid() && State() == LoopStep(reader.key, info, old(State()), TakeEvent(nonce, random))
    {
      var event := rx[0];
      rx := rx[1..];
      match event
      case SendChat(chat) =>
        var sent := writer.Send(Chat(chat), nonce, random);
      case ConnectionAuthorized =>
        var sent := writer.Send(Authorized, nonce, random);
      case CloseConnection =>
        running := false;
      case SignatureResponse(_) =>
        running := false;
    }

    /** The loop, with the order of happenings given. */
    method HandleConnection(hs: seq<Happening>)
      requires Valid()
      modifies this, reader, writer, socket
      ensures Valid() && State() == LoopRun(reader.key, info, old(State()), hs)
    {
      hide ReadOne, OnRead, OnEvent, Frame, Written, Concat;
      for i := 0 to |hs|
        invariant Valid() && State() == LoopRun(reader.key, info, old(State()), hs[..i])
      {
        assert hs[..i + 1][..i] == hs[..i];
        match hs[i] {
          case Arrive(chunk) =>
            ConcatAppend(socket.arrived, chunk);
            assert State().unread + chunk == reader.Unread() + Concat(socket.arrived + [chunk]);
            socket.arrived := socket.arrived + [chunk];
          case HangUp =>
            socket.closed := true;
          case BreakOff =>
            socket.broken := true;
          case Enqueue(event) =>
            rx := rx + [event];
          case PollRead =>
            if running {
              ReadBranch();
            }
          case TakeEvent(nonce, random) =>
            if running && rx != [] {
              EventBranch(nonce, random);
            }
        }
      }
      assert hs[..|hs|] == hs;
    }
  }

  lemma {:induction false} ConcatAppend(chunks: seq<seq<Octet>>, chunk: seq<Octet>)
    ensures Concat(chunks + [chunk]) == Concat(chunks) + chunk
  {
    if chunks == [] {
      assert chunks + [chunk] == [chunk];
      assert [chunk][1..] == [];
    } else {
      assert (chunks + [chunk])[1..] == chunks[1..] + [chunk];
      ConcatAppend(chunks[1..], chunk);
    }
  }
}
