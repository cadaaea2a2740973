# Voynich: a verified model of the session stack

Voynich is a library for anonymous, end-to-end encrypted chat over Tor onion services. Two parties
swap ephemeral keys, authenticate each other with the keys of their onion services, and then exchange
chat messages as padded, encrypted, length-delimited frames. At each end an engine actor serves the
application, one task per connection does the talking, and unbounded queues lie between them.

The project models four layers and proves what they promise, each layer for itself and all of them
together:

- **Channel** (`Octets`, `Packets`, `EncryptedChannel`): serialising, padding, encrypting and framing,
  and the reader that undoes them on a byte stream that arrives in any portions and may end anywhere.
  The classes `EncryptingWriter` and `DecryptingReader` have the source's loops and buffers.
- **Handshake** (`Crypto`, `Handshake`, `Agreement`): key exchange, session hash, authentication. The
  two programs of `connection.rs` are methods in the order of the source, proved equal to runs of a
  machine that moves from one await to the next. `Agreement` runs any number of these machines over a
  network that may deliver anything except forged signatures of honest parties.
- **Actors** (`Events`, `ConnectionLoop`, `EngineActor`, `EngineRuns`): the `select!` loop of a
  connection and the engine as classes, and every interleaving of one engine with any number of tasks.
- **Session** (`Session`, `SessionInvariants`, `Delivery`, `Progress`, `Termination`, `Rejection`,
  `EventualDelivery`): two
  honest endpoints, each a handshake program, a connection loop and an engine that serves other
  connections too, joined by two byte streams. Every octet of the key packets and frames is in the
  model; moves are the atomic steps between awaits, with both applications, time-outs, a breaking
  stream and transport errors free to act at any time. `LoopRuns` says what a run of the connection
  loop computes and finds it again in the runs of `EngineRuns` and of `Session`.
- **Chats** (`ChatState`): the ring-buffer history and the chat list with its cursor.

Primitives are ideal. An octet is a plain byte or the i-th octet of a Diffie-Hellman secret, a digest,
a ciphertext or a CBOR form; the constructors are free, so no law about them is assumed. A
Diffie-Hellman secret is the unordered pair of two public keys. The sizes are those of
ChaCha20-Poly1305 (section 2.8 of RFC 8439: 12-octet nonce, 16-octet tag), X25519 (32 octets), SHA-256
(32 octets) and version 3 onion addresses (56 characters). What an ideal octet looks like as a number,
how long the CBOR form of a message is and which ids spell a key are constants without a value.

## What the code does, and how the statements take it up

- The client does not look at what its authorisation read brought, only at whether it failed
  (`src/connection.rs:164`). It also goes on when the stream has ended cleanly.
  `Delivery.AnnouncedOnlyAfterVerified` therefore says "authorised, or the end of the stream", and
  `Rejection.RejectedClientAnnounces` gives the run on which a client that was turned away, and never
  authorised, announces its connection. `Progress.AnnouncedClientWasAuthorised` gives the exact
  condition: as long as the stream to the client has not broken, an announced client was authorised if
  and only if the server's loop took an authorisation from its application.
- The codec takes the four-octet length field out of its buffer at once. A stream cut off right behind
  a length field therefore counts as ended cleanly, like one cut off between two frames; every other
  cut inside a frame is an error. `EncryptedChannel.StreamRoundTrip` states exactly that.
- A local disconnect ends the loop without `ConnectionClosed` (`src/connection.rs:88-91`), so the
  registry keeps the channel of a task that has ended. `disconnect` and
  `send_connection_authorized_message` unwrap a send on it (`src/engine.rs:245`, `src/engine.rs:258`).
  `EngineRuns.CommandCrashesExactlyWhen` says when they panic, `EngineRuns.DisconnectTwiceCrashes` and
  `EngineRuns.DisconnectCanCrash` that they do.
- The slices of `read` panic on a frame shorter than a nonce (`src/crypto.rs:59`), which anyone who can
  write to the stream can send, and on a sealed packet shorter than its header says (`src/crypto.rs:156`).
  `Packets.ReadPanicsExactlyWhen` states that these are all. Such a panic ends the task as silently as a
  local disconnect, see `EngineRuns.PanickedReadLeavesChannel`.
- A second announcement of a peer overwrites its registry entry (`src/engine.rs:276-277`) and a close
  removes by id (`src/engine.rs:295-305`). The registry therefore names every open connection along a
  run if and only if no connection is announced while another one to the same peer is open and can
  still close: `EngineRuns.RegistryHoldsExactlyWhen`. `EngineRuns.OverlapMisroutes` gives a run on which
  a message goes to the other connection.
- `ChatList::remove` shifts the cursor as if order were kept, although it uses `swap_remove`
  (`src/chat.rs:72-83`). It does not always keep the selected chat, and it can lose the cursor of a
  non-empty list, after which removing one of two or more chats panics. `ChatState` states exactly when
  each of these happens.
- A session may agree with a partner in the same role only if both have the same id: a party that
  dials itself hashes its id twice. `Agreement.Agrees` makes that exception and no other.

## Model

| member | source | states |
|---|---|---|
| Packets.PaddingArithmetic | src/crypto.rs:84-103 | the real-valued ceiling formula is the least multiple of 64 that is at least n+1; the padding is 0..63, survives the cast to a byte and fills the packet exactly |
| Packets.OpenUndoesSeal | src/crypto.rs:44-65 | decryption returns the plaintext under the same key and nonce, and fails under any other |
| Packets.LengthFieldRoundTrip | src/crypto.rs:76 | the big-endian length field determines the frame length |
| Packets.FrameSizeBound | src/crypto.rs:35-76 | a message can be framed exactly when its serialised form has at most 8,388,543 octets |
| Packets.PayloadLength | src/crypto.rs:44-56 | the payload of a frame is nonce, padded packet and tag, and within the frame limit |
| Packets.OpenPayloadOf | src/crypto.rs:145-165 | the reader recovers from a payload the message it was made of, whatever nonce and padding, and refuses it as another type; its slices never underflow |
| Packets.OnlySealedIsAccepted | src/crypto.rs:145-165 | a message is returned only from a payload sealed under the reader's own key, around that message, and of the type asked for |
| Packets.DeframeFrame | src/crypto.rs:76-140 | the decoder takes one whole frame and leaves exactly what follows |
| Packets.DeframePrefix | src/crypto.rs:140 | a proper beginning of a frame yields nothing |
| Packets.DeframeExtends | src/crypto.rs:140-146 | octets that arrive later do not change what was decoded |
| Packets.FrameLayout | src/crypto.rs:45-107 | a frame octet by octet: big-endian length, nonce of 12, and sealed in 16 more than its own a packet of padding length, serialised message and that much padding, a multiple of 64 |
| Packets.DeframesExactly | src/crypto.rs:140-146 | of every stream the decoder takes four octets of length, most significant first, and that much payload; it refuses lengths above 8,388,608 and otherwise waits, each exactly when |
| Packets.TooBigFails | src/crypto.rs:140-146 | a length field above 8 MiB fails the read, whatever follows and however the stream ends |
| Packets.OpensSealed | src/crypto.rs:145-165 | what a read makes of every packet sealed under its key: a panic, exactly the message whose CBOR form the packet holds between header and padding, or a deserialisation error |
| Packets.UnsealedFails | src/crypto.rs:57-65 | every payload of at least 12 octets that was not sealed under the reader's key fails |
| Packets.AtEnd | src/crypto.rs:140-146 | with an unfinished frame left a read waits exactly as long as the stream is open; then it ends cleanly exactly for 0 or 4 octets and fails otherwise |
| Packets.ReadHead | src/crypto.rs:145-165 | a read of any beginning of a row of frames returns the first message if its frame is whole, else waits or reports how the stream ended |
| Packets.ReadPanicsExactlyWhen | src/crypto.rs:57-161 | of all whole frames on a stream, reading panics on exactly those shorter than a nonce and those sealed under the reader's key around a packet shorter than its header says |
| Packets.SealedShortPackets | src/crypto.rs:152-156 | the second kind, said by what was sealed |
| EncryptedChannel.EncryptingWriter.Send | src/crypto.rs:81-110 | the loop appends exactly the specified frame, or refuses a message that is too big and leaves the stream unchanged |
| EncryptedChannel.WritesExactly | src/crypto.rs:81-110 | nothing for a message above 8,388,543 octets; otherwise length, nonce and the sealed packet, padded to the next multiple of 64 with the first bytes of the random source in their order |
| EncryptedChannel.DecryptingReader.Decode | src/crypto.rs:140-146 | the two-phase decoder computes the stateless deframing of all unread octets, and its buffer is empty exactly when nothing or only a length field is left |
| EncryptedChannel.DecryptingReader.Poll | src/crypto.rs:145-165 | result and rest depend on the octets that arrived, not on their division into chunks or on reads dropped in between; on an unfinished frame it fails on a broken transport, waits on an open one, and on a closed one ends cleanly for 0 or 4 octets and fails otherwise |
| EncryptedChannel.WholeFramesIsMaximal | src/crypto.rs:140 | the number of whole frames in a cut stream: those fit and one more does not |
| EncryptedChannel.StreamRoundTrip | src/crypto.rs:81-165 | reading a stream of frames cut off anywhere returns the messages of the whole frames before the cut, then waits, or ends cleanly at a boundary or behind a length field, or fails elsewhere |
| EncryptedChannel.StreamEndsExactly | src/crypto.rs:140-146 | for every cut, with the octets left behind the whole frames: waits exactly when open, clean end exactly for 0 or 4, failure otherwise |
| EncryptedChannel.WholeStreamRoundTrip | src/crypto.rs:81-165 | an uncut stream gives back the whole list and a clean end |
| Crypto.KeyPacketRoundTrip | src/crypto.rs:201-254 | a key packet parses to its key |
| Crypto.KeyPacketUnsplittable | src/crypto.rs:223-251 | of all beginnings and extensions of a key packet only the packet itself is accepted |
| Crypto.ParsesExactly | src/crypto.rs:223-251 | of all octets a read can return exactly 34 that begin with 1, 0 are accepted, as the key behind these two; and exactly when each error is given |
| Crypto.ReadPeerPublicKey | src/crypto.rs:212-254 | the buffer code decides and extracts as the parser specifies, error by error |
| Crypto.ComputeSessionHash | src/crypto.rs:258-292 | the step-by-step hash is the hash of the five fields, or the error of the first id without a key |
| Crypto.HashesExactly | src/crypto.rs:258-292 | the digest of both ids, both keys and the secret in this order, or an error exactly when an id spells no key |
| Crypto.VerifiesExactly | src/crypto.rs:325-338 | accepted exactly when the message names the expected peer and carries its signature over hash and id; and exactly when each error is given |
| Crypto.HashInputInjective | src/crypto.rs:284-289 | the hashed octets determine both ids, both keys and the secret |
| Crypto.SessionHashInjective | src/crypto.rs:258-292 | session hashes are equal exactly for equal client, server and secret |
| Crypto.AuthDataInjective | src/crypto.rs:317-323 | the signed octets determine hash and id |
| Handshake.Connect | src/connection.rs:135-179 | the client program, for every outcome of each of its awaits, is the run of the machine on these outcomes: same end, same effects in the same order; it connects exactly when key packet, keys of both ids, signature, written message, a proof that names the dialled id and the last read are all there, and what it said is given literally in every case |
| Handshake.HandleIncoming | src/connection.rs:199-243 | the same for the server program: it connects exactly when key packet, a proof of the identity its message names, signature and written message are all there, and what it said is given literally in every case |
| Handshake.ClientComesTo | src/connection.rs:135-179 | the same outcome for the machine's run on the four awaits |
| Handshake.ServerComesTo | src/connection.rs:199-243 | the same outcome for the machine's run on the three awaits |
| Handshake.OtherNameAborts | src/crypto.rs:332-337 | a client that reads a message naming another id than it dialled gives up and says nothing more, whatever the signature |
| Handshake.PastTheCheckWasProved | src/connection.rs:153-161 | whatever a client program is given, when it is past its check one of its reads was a message naming its peer and signed by it |
| Handshake.RunStops | src/connection.rs:151-161 | a program that gives up has no further effect |
| Agreement.StepKeepsLocals | src/connection.rs:135-161 | every step keeps hash, peer and secret consistent, and requests a signature exactly when it fixes the hash |
| Agreement.StepVerifies | src/crypto.rs:325-338 | a step past the check holds the peer's signature over this session's hash |
| Agreement.SignedMeansAgreed | src/crypto.rs:284-323 | whoever requested the verified signature agrees on both ids, secret and hash |
| Agreement.MutualAgreement | src/connection.rs:140-232 | on every run over a hostile network, a session that verified an honest peer has a partner session of that peer, in the opposite role and naming it as peer, that requested this signature with the same secret, hash and key |
| Agreement.InjectiveAgreement | src/crypto.rs:294-315 | no two sessions agree with the same partner |
| Agreement.SameSecret | src/crypto.rs:177-184 | of three handshakes with one secret two have the same ephemeral key |
| ConnectionLoop.Connection.ReadBranch | src/connection.rs:55-74 | a turn of the reading branch is the specified turn: events posted, buffer, end of the loop |
| ConnectionLoop.Connection.EventBranch | src/connection.rs:75-98 | a turn of the queue branch is the specified turn: event taken, frame written, end of the loop |
| ConnectionLoop.Connection.HandleConnection | src/connection.rs:52-101 | the loop over any order of arrivals, events and branches is the specified run |
| LoopRuns.LoopReads | src/connection.rs:53-74 | for any order of happenings the chats the loop has posted come first in what reading all arrived octets returns; while it runs, the rest is what reading its buffer returns; when it has ended on a read, that is the end that reading met behind those chats, and its last words are those of that end; when it left on an event or panicked, it has none |
| LoopRuns.LoopWrites | src/connection.rs:75-98 | for any order of happenings the loop has taken the queued events from the front, and its output is a row of frames that carry exactly their fitting messages, in order; an event that ends it is the last it took |
| LoopRuns.ReadTurnIsLoopTurn | src/connection.rs:55-74 | the reading turn in the runs of an engine is the turn of the loop |
| LoopRuns.QueueTurnIsLoopTurn | src/connection.rs:75-98 | the event turn in the runs of an engine is the turn of the loop, with the messages it frames |
| LoopRuns.SessionRunsTheLoop | src/connection.rs:52-101 | on every run between two endpoints, what an endpoint has written, been given, buffered and queued since its handshake is what a run of the loop leads to |
| LoopRuns.LoopBegins | src/connection.rs:181-251 | at the end of a handshake that loop is the fresh one, handed the octets and events that came early |
| EngineActor.Mailboxes.Send | src/engine.rs:180 | a send is queued last, or fails without a trace when the receiver is gone |
| EngineActor.Engine.NextEvent | src/engine.rs:142-315 | handling the head of the queue: registry, reply, event returned, panic |
| EngineActor.Engine.Send | src/engine.rs:173-190 | a message goes to the end of the registered queue, or nowhere |
| EngineActor.Engine.SendConnectionAuthorized | src/engine.rs:238-253 | queued, refused for an unknown id, or a panic on a dropped receiver |
| EngineActor.Engine.Disconnect | src/engine.rs:255-266 | queued, refused for an unknown id, or a panic on a dropped receiver |
| EngineRuns.HandlesExactly | src/engine.rs:142-315 | one call handles the event that has waited longest and nothing else: every registration and every mailbox, entry by entry, and the event returned |
| EngineRuns.CommandsExactly | src/engine.rs:238-266 | refused exactly for an unregistered id, a panic exactly for a dropped receiver, otherwise queued last on that channel; nothing else changes |
| EngineRuns.MessagesExactly | src/engine.rs:173-190 | last into the recipient's registered queue and nowhere else; nothing for an unknown recipient or a dropped receiver |
| EngineRuns.SignatureService | src/engine.rs:192-288 | on every run with any number of handshakes the reply finds its receiver, every waiting caller gets the signature over its own data and nothing else, and no signature reaches a connection loop |
| EngineRuns.AnsweredInTurn | src/engine.rs:142-288 | a request with k events before it is answered by the (k+1)-th `get_event`, whatever happens in between |
| EngineRuns.QueueAdvances | src/engine.rs:142-148 | n calls of `get_event` bring an event exactly n places forward |
| EngineRuns.EventLanguage | src/engine.rs:268-315 | on every run the events returned for one connection are a beginning of NewConnection Message* ConnectionClosed, however many connections share the queue |
| EngineRuns.TurnKeepsLanguage | src/connection.rs:55-74 | a turn of the loop posts at most one network event, and a close only as its last |
| EngineRuns.RegistryAgreement | src/engine.rs:173-309 | if connections to one peer do not overlap, every open running connection is the registered one, and a message to the peer goes to the end of its queue |
| EngineRuns.RegistryHoldsExactlyWhen | src/engine.rs:274-309 | along a run every open connection is the registered one if and only if connections to one peer never overlap |
| EngineRuns.OverlapBreaksRegistry | src/engine.rs:274-279 | every overlapping announcement takes the registration away from an open connection |
| EngineRuns.OverlapMisroutes | src/engine.rs:173-190 | a run of two announcements of one peer after which a message goes to the second while the first is open |
| EngineRuns.ClosedIsUnknown | src/engine.rs:294-308 | on every run a registered connection is one the application was told of and not told the close of; so a peer whose connections have all been closed is unknown, commands on it are refused and messages dropped |
| EngineRuns.CommandCrashesExactlyWhen | src/engine.rs:238-266 | on every run the unwrapped sends panic exactly when the registered task has ended |
| EngineRuns.DisconnectTwiceCrashes | src/engine.rs:255-266 | from any state with a registered idle connection, disconnecting and then disconnecting again panics |
| EngineRuns.DisconnectCanCrash | src/connection.rs:88-91 | such a state is reached by announcing one connection |
| EngineRuns.PanickedReadLeavesChannel | src/connection.rs:55-74 | a read that panics ends the task without a word to the engine, and `disconnect` then panics |
| EngineRuns.DrainBeforeClose | src/connection.rs:75-91 | a connection that ended on a disconnect has written exactly the fitting messages accepted before that disconnect, in order, and none accepted after it |
| SessionInvariants.RunsKeep | src/connection.rs:52-252 | every run of a connection keeps the invariants of both endpoints and of both octet streams |
| SessionInvariants.WhatReadSees | src/crypto.rs:145-165 | what a framed reader gets between the endpoints is the next frame its peer wrote, the end, or an error of a broken stream; never a foreign frame |
| SessionInvariants.KeyReadKeeps | src/crypto.rs:212-315 | the key exchange leaves both endpoints with one secret and hands over a stream on which no octet was lost |
| SessionInvariants.ReadAuthKeeps | src/connection.rs:153-232 | reading and checking the peer's authentication keeps the invariants, on success and on every failure |
| SessionInvariants.ReadAuthorizedKeeps | src/connection.rs:163-179 | so does the authorisation read, including the one that met the end of the stream |
| SessionInvariants.TakeEventKeeps | src/connection.rs:75-98 | so does taking an event from the queue: a frame, nothing, or the end |
| Delivery.EndToEndDelivery | src/connection.rs:52-101 | on every run the chats one application gets are a beginning of the fitting chats the other one queued: none lost in the middle, doubled, altered or reordered |
| Delivery.ConservationUntilClose | src/connection.rs:52-101 | until an end or a break, queued = delivered ++ receiver's engine ++ octets of reader and stream ++ sender's queue, in both directions |
| Delivery.KeyExchangeNeverOverReads | src/crypto.rs:212-254 | all that can reach a waiting key read is the peer's key packet or a beginning of it, so no octet of a frame is swallowed |
| Delivery.AnnouncedOnlyAfterVerified | src/connection.rs:161-243 | a client has announced its connection only after the server verified it under the same hash and sent its own authentication, and after the authorisation or the end of the stream |
| Delivery.SameHash | src/crypto.rs:258-292 | both endpoints compute one hash of one secret, and the server names the client |
| SessionInvariants.ResetKeeps | src/connection.rs:64-72 | so does an error of the transport, in the handshake or in the loop |
| Progress.AnnouncedClientWasAuthorised | src/connection.rs:161-179 | on every run whose stream to the client has not broken, an announced client read an authorisation if and only if the server took one from its application; otherwise its read met the end and the server has left. That it read one always means that one was taken |
| Progress.SessionFidelity | src/connection.rs:57-232 | if the server application says nothing before it authorises and authorises at most once - closing whenever it likes - and the client never authorises, every completed read of what has arrived brings a frame of the type asked for or the end; it fails only when the stream broke inside a frame |
| Progress.OnlyAuthorisationWaits | src/connection.rs:163-164 | a client at its authorisation read can go on or its server can, unless the server application has neither authorised nor closed |
| Progress.AuthorisationConnects | src/connection.rs:163-179 | when that read completes, with an authorisation or because the server closed, the client is connected |
| Termination.HandshakeStepsRunOut | src/connection.rs:135-179 | every handshake step, up to the client's authorisation read and the server's answer, strictly decreases a well-founded measure |
| Termination.OtherStepsDoNotRaise | src/connection.rs:135-179 | until the client has announced its connection no other undisturbed step raises it: applications, other connections, events taken, octets arriving |
| Termination.UndisturbedStaysSmooth | src/connection.rs:135-179 | until then no step but a time-out, break or split key packet makes either side give up; the server may leave because it is told to |
| Termination.HandshakeNeverStuck | src/connection.rs:135-179 | until both sides are authenticated some handshake step is enabled |
| Termination.AnswerNeverStuck | src/connection.rs:163-164 | a client at its authorisation read: some handshake step is enabled, unless the server application has neither authorised nor closed |
| Termination.HandshakeMovesAreBounded | src/connection.rs:135-179 | on every undisturbed run, to authentication or on to the announcement, the number of handshake steps has a bound that only posts of other connections add to |
| Termination.HandshakeTerminates | src/connection.rs:135-243 | every unending undisturbed run that does not put handshake steps off for ever reaches mutual authentication, under one hash of one secret |
| Termination.ClientIsAnnounced | src/connection.rs:135-179 | every such run on which the server application authorises or closes at some time reaches a state where the client has announced its connection, and the client was authorised if and only if the server took an authorisation |
| Termination.HandshakeCompletes | src/connection.rs:135-243 | from every undisturbed state handshake steps alone lead to mutual authentication |
| EventualDelivery.StepIsNoFarther | src/connection.rs:52-101 | a step that is due for given chats strictly decreases a well-founded measure, and no other step of two running loops raises it |
| EventualDelivery.DeliveryNeverStuck | src/connection.rs:52-101 | as long as a queued chat has not been returned, such a step is enabled |
| EventualDelivery.EverythingIsDelivered | src/connection.rs:52-101 | on every unending run of two running loops without a close or a broken stream that does not put the due steps off for ever, every fitting chat ever queued is returned to the other application, in order |
| Rejection.RejectedClientAnnounces | src/connection.rs:88-179 | from a dialled connection a run on which the server application's first word is `disconnect` and which ends with an unauthorised client that has announced the connection |
| Rejection.ClosingTurnsAway | src/connection.rs:163-179 | from every state in which both are authenticated and the server has said nothing, closing leads there |
| ChatState.HistoryRefinement | src/chat.rs:33-51 | after any additions the ring buffer shows, oldest first, the last of them, as many as it has room for |
| ChatState.Overwrite | src/chat.rs:41-43 | a push into a full ring drops the oldest element and appends the new one |
| ChatState.Chat.AddMessage | src/chat.rs:41-43 | the push with wraparound is the specified push |
| ChatState.Chat.Iter | src/chat.rs:49-51 | the iterator yields the last 200 messages in order of arrival |
| ChatState.AddingSelects | src/chat.rs:65-68 | an added chat stands last and is the current one; the others stay |
| ChatState.RemovalMovesCursor | src/chat.rs:70-92 | for every present cursor i and first occurrence p among two or more: i stays before p, is lost when both are 0, and goes one back otherwise, the removed chat included; the last chat takes the free place |
| ChatState.RemovalOfNoneOrOnly | src/chat.rs:70-92 | removing an absent chat changes nothing, removing the only one empties the list |
| ChatState.CursorStaysInside | src/chat.rs:65-131 | on every run a present cursor is inside the list |
| ChatState.PanicsExactlyWhen | src/chat.rs:70-92 | an operation panics exactly when it removes a present id from two or more without a cursor |
| ChatState.RemovalCanPanic | src/chat.rs:70-92 | a run that loses the cursor and then panics |
| ChatState.LosingTheCursor | src/chat.rs:65-131 | a non-empty list without cursor is entered, from any other state, exactly by removing position 0 while current from two or more, and left exactly by `add` or by removing the only chat |
| ChatState.NextAndPrevAreInverse | src/chat.rs:105-131 | `next_chat` and `prev_chat` undo each other |
| ChatState.WhereOnwardsLeads | src/chat.rs:105-117 | k steps lead k positions on, round the end |
| ChatState.FullCircle | src/chat.rs:105-117 | as many steps as chats return to the start and pass each position exactly once, at a given step |
| ChatState.RemoveIsOneLess | src/chat.rs:70-92 | a removal takes out one occurrence of its id and nothing else |
| ChatState.SelectionSurvivesExactlyWhen | src/chat.rs:70-92 | removing another chat keeps the selected one exactly when it stands before the removed one or the chat that comes under the shifted cursor has the same id |
| ChatState.SelectionCanBeLost | src/chat.rs:70-92 | of three distinct chats with the second selected, removing the first selects the third |
| ChatState.SelectionAmongDistinct | src/chat.rs:70-92 | among distinct chats: exactly when it stands before the removed one, or right behind it at the end |
| ChatState.StaysDistinct | src/chat.rs:65-92 | a distinct list stays distinct exactly when no present chat is added |
| ChatState.ChatList.Add | src/chat.rs:65-68 | appends and moves the cursor to the new chat |
| ChatState.ChatList.FindFirst | src/chat.rs:71 | the search finds the first occurrence, or tells there is none |
| ChatState.ChatList.Remove | src/chat.rs:70-92 | removal as specified, and the state left behind by a panic |
| ChatState.ChatList.Current | src/chat.rs:94-99 | the chat under the cursor |
| ChatState.ChatList.Next | src/chat.rs:105-117 | moves the cursor as specified and returns the chat under it |
| ChatState.ChatList.Prev | src/chat.rs:119-131 | moves the cursor as specified and returns the chat under it |

## Left out

- Tor control connection, SOCKS dialling, onion-service creation, password prompt: input and output without rich state.
- Configuration, key files, file permissions, `src/lib.rs` and accessors: easy members only.
- The insides of X25519, HKDF, SHA-256, Ed25519, ChaCha20-Poly1305 and CBOR: ideal functions with the sizes of the real ones. No code path is modelled on which the AEAD or the serialiser itself fails; the AEAD's own length limit lies far above the frame limit.
- Parsing of the dialled address: the peer id is a parameter of `Handshake.Connect`. Of `TorServiceId::from_str` only the fixed length is modelled; ids that spell no key fail at the key lookup, as `VERIFYING_KEYS` leaves open.
- Clocks and randomness: a time-out is a step that may happen at any await that has one; padding, nonces and ephemeral secrets are parameters. Ephemeral secrets of different handshakes are taken to differ in `Agreement`.
- Floating point: the ceiling formula is taken over real numbers. Lengths are far below 2^53 and 64 is a power of two, so the source's quotient is exact.
- Logging: contents are left out, log events are stuttering steps. Shutting down the engine (`rx.recv()` returning nothing) is left out: the model's connection then has an empty queue for good.
- Failing writes: in `Handshake` the write of the authentication message may fail; a key packet that cannot be written is an aborted handshake. After a break of the stream `Session` drops what is written, and the writer does not report it.
- `FramedRead`, `FramedWrite`, the unbounded channels and `CircularQueue` are modelled from the documented behaviour of those libraries; their code is not part of this model.
- Handshake.Connect: what its awaits return are parameters; that the engine, the stream and the peer supply them in some interleaving is the subject of `EngineRuns` and `Session`, which use the machine that `Connect` is proved equal to. The same holds for `Handshake.HandleIncoming`.
- ConnectionLoop.Connection.HandleConnection: the order in which `select!` finds its branches ready is a parameter.
- Agreement.MutualAgreement: the network is not given an algebra to compute with; it may deliver any octets and any message, except a signature under a honest party's key that this party did not make.
- Progress.SessionFidelity: takes the empty authorisation message to fit into a frame, since CBOR lengths are left open. `Progress.OnlyAuthorisationWaits`, `Progress.AuthorisationConnects`, `Progress.AnnouncedClientWasAuthorised`, `Termination.ClientIsAnnounced` and `EventualDelivery.EverythingIsDelivered` do too.
- EventualDelivery.EverythingIsDelivered: takes the server application not to speak before it authorises and to authorise at most once; a client's read of a second authorisation as a chat fails and ends its loop.
- Termination.HandshakeTerminates: takes authentication messages to fit into a frame, and the key packet to be read in one piece; a fragmented one makes the source give up, see `Crypto.KeyPacketUnsplittable`. That handshake steps are not put off for ever is what a scheduler, a transport and an application that keeps calling `get_event` have to grant. The same holds for `Termination.ClientIsAnnounced`.
- EngineRuns.DrainBeforeClose: speaks of messages handed to the writer; that the writer turns them into frames, and the peer's reader back, is in `Session`.
- ChatState.Chat.Iter: the messages added so far are a ghost argument instead of a field of the chat.
- Replay, reflection and traffic analysis, and whether the sender named in a message is the authenticated peer: the code does not check these.
