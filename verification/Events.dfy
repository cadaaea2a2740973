/** src/engine.rs: what the engine, the connection tasks and the application tell each other. */
module Events {
  import opened Octets

  /** Names one unbounded channel; the channel a connection listens on also names the connection. */
  type Channel = nat

  datatype Direction = Incoming | Outgoing

  datatype ConnectionInfo = ConnectionInfo(address: string, id: ServiceId, direction: Direction)

  datatype EngineEvent =
    | NewConnection(info: ConnectionInfo, tx: Channel)
    | SignatureRequest(tx: Channel, data: seq<Octet>)
    | ChatArrived(chat: ChatMessage)
    | ReadError
    | ConnectionClosed(info: ConnectionInfo)
    | LogMessage

  datatype ConnectionEvent =
    | SendChat(chat: ChatMessage)
    | SignatureResponse(signature: Signature)
    | ConnectionAuthorized
    | CloseConnection

  datatype NetworkEvent =
    | Connected(info: ConnectionInfo)
    | Received(chat: ChatMessage)
    | Closed(info: ConnectionInfo)
}
