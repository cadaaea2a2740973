/** src/crypto.rs: the encrypting writer and the decrypting reader of one connection, and the
    round trip of whole streams through them. */
module EncryptedChannel {
  import opened Octets
  import opened Packets

  /** The receiving end of a byte stream: the chunks the transport has handed over so far, whether it has
      said that nothing will follow them, and whether it has broken. */
  class Socket {
    var arrived: seq<seq<Octet>>
    var closed: bool
    var broken: bool

    constructor ()
      ensures arrived == [] && !closed && !broken
    {
      arrived, closed, broken := [], false, false;
    }
  }

  class EncryptingWriter {
    const key: SymmetricKey
    var output: seq<Octet>

    constructor (key: SymmetricKey)
      ensures this.key == key && output == []
    {
      this.key := key;
      output := [];
    }

    /** Appends one frame, or leaves the stream as it was when the frame would be too big. */
    method Send(message: WireMessage, nonce: Nonce, random: nat -> Byte) returns (r: Result<()>)
      modifies this
      ensures r == if Fits(message) then Ok(()) else Err(FrameTooBig)
      ensures output == old(output) + Written(key, message, nonce, random)
    {
      var serialized := Serialize(message);
      var packetLength := Ceil((|serialized| + HEADER_SIZE) as real / BLOCKSIZE as real) * BLOCKSIZE;
      var paddingLength := (packetLength - |serialized| - HEADER_SIZE) % 256;
      var packet := [Plain(paddingLength)];
      packet := packet + serialized;
      for i := 0 to paddingLength
        invariant packet == [Plain(paddingLength)] + serialized + PlainOctets(Random(i, random))
      {
        packet := packet + [Plain(random(i))];
        assert PlainOctets(Random(i + 1, random)) == PlainOctets(Random(i, random)) + [Plain(random(i))];
      }
      var encrypted := PlainOctets(nonce) + Seal(key, nonce, packet);
      PaddingArithmetic(|serialized|);
      assert encrypted == Payload(key, Sent(message, nonce, Filler(message, random)));
      if |encrypted| > MAX_FRAME_LENGTH {
        return Err(FrameTooBig);
      }
      output := output + LengthField(|encrypted|) + encrypted;
      return Ok(());
    }
  }

  function Filler(message: WireMessage, random: nat -> Byte): seq<Byte> {
    Random(PaddingLength(CBOR_LENGTH(message)), random)
  }

  /** The first n bytes of a random source. */
  function Random(n: nat, random: nat -> Byte): (s: seq<Byte>)
    ensures |s| == n
  {
    seq<Byte>(n, i requires 0 <= i => random(i))
  }

  function Written(key: SymmetricKey, message: WireMessage, nonce: Nonce, random: nat -> Byte): seq<Octet> {
    if Fits(message) then Frame(key, Sent(message, nonce, Filler(message, random))) else []
  }

  /** What is written of a message: nothing when it does not fit, and otherwise its frame, padded to the next
      multiple of 64 with the first bytes of the random source, in their order. */
  lemma WritesExactly(key: SymmetricKey, message: WireMessage, nonce: Nonce, random: nat -> Byte)
    ensures |Serialize(message)| > 8_388_543 ==> Written(key, message, nonce, random) == []
    ensures |Serialize(message)| <= 8_388_543 ==>
              exists filler: seq<Byte> ::
                && |filler| < 64 && (1 + |Serialize(message)| + |filler|) % 64 == 0
                && (forall i :: 0 <= i < |filler| ==> filler[i] == random(i))
                && var f := Written(key, message, nonce, random);
                   && |f| >= 4 && BigEndian(f) == |f| - 4
                   && f[4..] == PlainOctets(nonce) +
                        Seal(key, nonce, [Plain(|filler|)] + Serialize(message) + PlainOctets(filler))
  {
    FrameSizeBound(message);
    if Fits(message) {
      FrameLayout(key, Sent(message, nonce, Filler(message, random)));
      hide Frame;
    }
  }

  /** Where the length-delimited decoder is: before a length field, or after one it has taken. */
  datatype DecodeState = Head | Data(length: nat)

  class DecryptingReader {
    const key: SymmetricKey
    var state: DecodeState
    var buffer: seq<Octet>
    ghost var head: seq<Octet>

    ghost predicate Valid()
      reads this
    {
      match state
      case Head => head == []
      case Data(n) => |head| == LENGTH_SIZE && LengthOf(head) == n <= MAX_FRAME_LENGTH
    }

    /** The octets taken from the stream and not yet returned as a message. */
    ghost function Unread(): seq<Octet>
      reads this
    {
      head + buffer
    }

    constructor (key: SymmetricKey)
      ensures Valid() && Unread() == [] && this.key == key
    {
      this.key := key;
      state, buffer, head := Head, [], [];
    }

    /** One call of the decoder: takes the length field as soon as it is whole, and the payload
        as soon as that is whole. */
    method Decode() returns (d: Deframed)
      requires Valid()
      modifies this
      ensures Valid()
      ensures match Deframe(old(Unread()))
              case Complete(payload, rest) => d == Complete(payload, buffer) && Unread() == buffer == rest
              case TooBig => d == TooBig && Unread() == old(Unread())
              case Incomplete => d == Incomplete && Unread() == old(Unread()) &&
                                 (buffer == [] <==> |Unread()| == 0 || |Unread()| == LENGTH_SIZE)
    {
      ghost var stream := Unread();
      if state.Head? {
        if |buffer| < LENGTH_SIZE {
          return Incomplete;
        }
        var length := LengthOf(buffer[..LENGTH_SIZE]);
        if length > MAX_FRAME_LENGTH {
          return TooBig;
        }
        head := buffer[..LENGTH_SIZE];
        state, buffer := Data(length), buffer[LENGTH_SIZE..];
        assert head + buffer == stream;
      }
      assert stream[..LENGTH_SIZE] == head && stream[LENGTH_SIZE..] == buffer;
      if |buffer| < state.length {
        return Incomplete;
      }
      var payload := buffer[..state.length];
      state, buffer, head := Head, buffer[state.length..], [];
      return Complete(payload, buffer);
    }

    /** Polls one `read` until it is ready or the transport has nothing more to hand over for now;
        a pending read may be dropped and begun again. Result and rest depend on the octets that
        have arrived and not on how they were cut into chunks or how often the read was begun. */
    method Poll(kind: MessageKind, socket: Socket) returns (r: ReadResult)
      requires Valid()
      modifies this, socket
      ensures Valid() && socket.closed == old(socket.closed) && socket.broken == old(socket.broken)
      ensures (r, Unread() + Concat(socket.arrived)) ==
              ReadOrFail(key, kind, old(Unread() + Concat(socket.arrived)), old(socket.closed), old(socket.broken))
      ensures var stream := old(Unread() + Concat(socket.arrived));
              Deframe(stream).Incomplete? ==>
                r == if old(socket.broken) then Failed(ConnectionReset)
                     else if !old(socket.closed) then Pending
                     else if |stream| == 0 || |stream| == 4 then EndOfStream
                     else Failed(BytesRemaining)
    {
      hide Deframe;
      ghost var stream := Unread() + Concat(socket.arrived);
      while true
        invariant Valid() && socket.closed == old(socket.closed) && socket.broken == old(socket.broken)
        invariant Unread() + Concat(socket.arrived) == stream
        decreases |socket.arrived|
      {
        DeframeExtends(Unread(), Concat(socket.arrived));
        var d := Decode();
        if d.TooBig? {
          return Failed(FrameTooBig);
        }
        if d.Complete? {
          return OpenPayload(key, kind, d.payload);
        }
        if socket.arrived == [] {
          assert stream == Unread();
          if socket.broken {
            return Failed(ConnectionReset);
          }
          if !socket.closed {
            return Pending;
          }
          return if buffer == [] then EndOfStream else Failed(BytesRemaining);
        }
        assert head + (buffer + socket.arrived[0]) + Concat(socket.arrived[1..]) == stream;
        buffer, socket.arrived := buffer + socket.arrived[0], socket.arrived[1..];
      }
    }
  }

  // ---------------------------------------------------------------- whole streams

  /** Reads messages of one type until a read does not return one. */
  ghost function ReadAll(key: SymmetricKey, kind: MessageKind, stream: seq<Octet>, closed: bool)
    : (seq<WireMessage>, ReadResult)
    decreases |stream|
  {
    var (result, rest) := ReadOne(key, kind, stream, closed);
    if result.Message? then
      var (messages, end) := ReadAll(key, kind, rest, closed);
      ([result.message] + messages, end)
    else ([], result)
  }

  ghost function Messages(ss: seq<Sent>): (ms: seq<WireMessage>)
    ensures |ms| == |ss|
  {
    seq(|ss|, i requires 0 <= i < |ss| => ss[i].message)
  }

  /** How many whole frames the first `cut` octets hold. */
  ghost function WholeFrames(key: SymmetricKey, ss: seq<Sent>, cut: nat): (n: nat)
    requires AllWellSent(ss)
    ensures n <= |ss|
  {
    if ss == [] || cut < |Frame(key, ss[0])| then 0 else 1 + WholeFrames(key, ss[1..], cut - |Frame(key, ss[0])|)
  }

  /** `WholeFrames` is what its name says: that many frames fit into the cut and one more does not. */
  lemma {:induction false} WholeFramesIsMaximal(key: SymmetricKey, ss: seq<Sent>, cut: nat)
    requires AllWellSent(ss)
    ensures var n := WholeFrames(key, ss, cut);
            |Frames(key, ss[..n])| <= cut && (n < |ss| ==> cut < |Frames(key, ss[..n])| + |Frame(key, ss[n])|)
  {
    if ss != [] && |Frame(key, ss[0])| <= cut {
      var n := WholeFrames(key, ss[1..], cut - |Frame(key, ss[0])|);
      WholeFramesIsMaximal(key, ss[1..], cut - |Frame(key, ss[0])|);
      assert ss[..n + 1][1..] == ss[1..][..n];
    } else {
      assert ss[..0] == [];
    }
  }

  ghost predicate RoundTrips(key: SymmetricKey, kind: MessageKind, ss: seq<Sent>, cut: nat, closed: bool)
    requires AllWellSent(ss) && cut <= |Frames(key, ss)|
  {
    var n := WholeFrames(key, ss, cut);
    |Frames(key, ss[..n])| <= cut &&
    ReadAll(key, kind, Frames(key, ss)[..cut], closed) ==
      (Messages(ss[..n]), AtEnd(cut - |Frames(key, ss[..n])|, closed))
  }

  /** How reading a stream of frames ends that is cut off anywhere: it waits exactly as long as the stream is
      open; then it ends cleanly exactly when the cut left nothing of the next frame or just its length
      field, and fails otherwise. */
  lemma StreamEndsExactly(key: SymmetricKey, kind: MessageKind, ss: seq<Sent>, cut: nat, closed: bool)
    requires AllWellSent(ss) && cut <= |Frames(key, ss)|
    requires forall i :: 0 <= i < |ss| ==> ss[i].message.Kind() == kind
    ensures var n := WholeFrames(key, ss, cut);
            var left := cut - |Frames(key, ss[..n])|;
            var end := ReadAll(key, kind, Frames(key, ss)[..cut], closed).1;
            && (end.Pending? <==> !closed)
            && (closed ==> (end == EndOfStream <==> left == 0 || left == 4))
            && (closed && left != 0 && left != 4 ==> end == Failed(BytesRemaining))
  {
    StreamRoundTrip(key, kind, ss, cut, closed);
    hide ReadAll, Frames, WholeFrames;
  }

  /** The stream round trip. However a stream of frames is cut off, and whatever nonces and padding
      it was made with, reading returns the messages of the whole frames before the cut, in order,
      and nothing else; then it waits, or, when the stream has ended there, ends cleanly if the
      cut left no octet of the next frame or just its length field, and fails otherwise. */
  lemma {:induction false} StreamRoundTrip(key: SymmetricKey, kind: MessageKind, ss: seq<Sent>, cut: nat, closed: bool)
    requires AllWellSent(ss) && cut <= |Frames(key, ss)|
    requires forall i :: 0 <= i < |ss| ==> ss[i].message.Kind() == kind
    ensures RoundTrips(key, kind, ss, cut, closed)
    decreases ss, 1
  {
    hide ReadOne, Deframe, Frame;
    var stream := Frames(key, ss)[..cut];
    ReadHead(key, kind, ss, stream, closed);
    if ss != [] && |Frame(key, ss[0])| <= cut {
      RoundTripOnwards(key, kind, ss, cut, closed);
    } else {
      WholeFramesIsMaximal(key, ss, cut);
      assert ss[..0] == [] && Messages(ss[..0]) == [] && |stream| == cut;
    }
  }

  lemma ReadAllNext(key: SymmetricKey, kind: MessageKind, stream: seq<Octet>, closed: bool, m: WireMessage,
                    rest: seq<Octet>)
    requires ReadOne(key, kind, stream, closed) == (Message(m), rest)
    ensures ReadAll(key, kind, stream, closed) ==
            ([m] + ReadAll(key, kind, rest, closed).0, ReadAll(key, kind, rest, closed).1)
  {
  }

  lemma FirstFrames(key: SymmetricKey, ss: seq<Sent>, n: nat)
    requires AllWellSent(ss) && n < |ss|
    ensures Frames(key, ss[..n + 1]) == Frame(key, ss[0]) + Frames(key, ss[1..][..n])
    ensures Messages(ss[..n + 1]) == [ss[0].message] + Messages(ss[1..][..n])
  {
    hide Frame;
    assert ss[..n + 1][1..] == ss[1..][..n];
  }

  /** A first whole frame is read first, and then what follows it. */
  lemma ReadAllOfFirst(key: SymmetricKey, kind: MessageKind, ss: seq<Sent>, cut: nat, closed: bool)
    requires AllWellSent(ss) && ss != [] && |Frame(key, ss[0])| <= cut <= |Frames(key, ss)|
    requires ss[0].message.Kind() == kind
    ensures cut - |Frame(key, ss[0])| <= |Frames(key, ss[1..])|
    ensures var rest := ReadAll(key, kind, Frames(key, ss[1..])[..cut - |Frame(key, ss[0])|], closed);
            ReadAll(key, kind, Frames(key, ss)[..cut], closed) == ([ss[0].message] + rest.0, rest.1)
  {
    hide ReadOne, ReadAll, Deframe, Frame;
    var f, stream := Frame(key, ss[0]), Frames(key, ss)[..cut];
    ReadHead(key, kind, ss, stream, closed);
    assert f <= stream && stream[|f|..] == Frames(key, ss[1..])[..cut - |f|];
    ReadAllNext(key, kind, stream, closed, ss[0].message, stream[|f|..]);
  }

  lemma RoundTripOnwards(key: SymmetricKey, kind: MessageKind, ss: seq<Sent>, cut: nat, closed: bool)
    requires AllWellSent(ss) && ss != [] && |Frame(key, ss[0])| <= cut <= |Frames(key, ss)|
    requires forall i :: 0 <= i < |ss| ==> ss[i].message.Kind() == kind
    ensures RoundTrips(key, kind, ss, cut, closed)
    decreases ss, 0
  {
    hide ReadOne, ReadAll, Deframe, Frame, AtEnd, Messages, Frames, WholeFrames, RoundTrips;
    ReadAllOfFirst(key, kind, ss, cut, closed);
    StreamRoundTrip(key, kind, ss[1..], cut - |Frame(key, ss[0])|, closed);
    OneFrameMore(key, kind, ss, cut, closed);
  }

  lemma OneFrameMore(key: SymmetricKey, kind: MessageKind, ss: seq<Sent>, cut: nat, closed: bool)
    requires AllWellSent(ss) && ss != [] && |Frame(key, ss[0])| <= cut <= |Frames(key, ss)|
    requires cut - |Frame(key, ss[0])| <= |Frames(key, ss[1..])|
    requires RoundTrips(key, kind, ss[1..], cut - |Frame(key, ss[0])|, closed)
    requires var rest := ReadAll(key, kind, Frames(key, ss[1..])[..cut - |Frame(key, ss[0])|], closed);
             ReadAll(key, kind, Frames(key, ss)[..cut], closed) == ([ss[0].message] + rest.0, rest.1)
    ensures RoundTrips(key, kind, ss, cut, closed)
  {
    hide ReadOne, ReadAll, Deframe, Frame, AtEnd, Messages, Frames;
    var n := WholeFrames(key, ss[1..], cut - |Frame(key, ss[0])|);
    assert WholeFrames(key, ss, cut) == n + 1;
    hide WholeFrames;
    FirstFrames(key, ss, n);
    assert |Frames(key, ss[..n + 1])| == |Frame(key, ss[0])| + |Frames(key, ss[1..][..n])|;
  }

  /** Nothing cut off: the whole list comes back and the end is clean. */
  lemma WholeStreamRoundTrip(key: SymmetricKey, kind: MessageKind, ss: seq<Sent>)
    requires AllWellSent(ss)
    requires forall i :: 0 <= i < |ss| ==> ss[i].message.Kind() == kind
    ensures ReadAll(key, kind, Frames(key, ss), true) == (Messages(ss), EndOfStream)
  {
    var all := Frames(key, ss);
    var n := WholeFrames(key, ss, |all|);
    assert all[..|all|] == all;
    StreamRoundTrip(key, kind, ss, |all|, true);
    WholeFramesIsMaximal(key, ss, |all|);
    FramesSplit(key, ss, n);
    FirstOfFrames(key, ss[n..]);
    assert n == |ss| && ss[..n] == ss;
  }

  lemma FirstOfFrames(key: SymmetricKey, ss: seq<Sent>)
    requires AllWellSent(ss)
    ensures ss != [] ==> |Frame(key, ss[0])| <= |Frames(key, ss)|
  {
  }

  lemma {:induction false} FramesSplit(key: SymmetricKey, ss: seq<Sent>, n: nat)
    requires AllWellSent(ss) && n <= |ss|
    ensures Frames(key, ss) == Frames(key, ss[..n]) + Frames(key, ss[n..])
  {
    if n == 0 {
      assert ss[..0] == [] && ss[0..] == ss;
    } else {
      FramesSplit(key, ss[1..], n - 1);
      assert ss[..n][1..] == ss[1..][..n - 1] && ss[1..][n - 1..] == ss[n..];
    }
  }
}
