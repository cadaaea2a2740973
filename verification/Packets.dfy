/** src/crypto.rs: padding, encryption and framing of one message, and what reading undoes of it.
    The AEAD has the sizes of ChaCha20-Poly1305 (section 2.8 of RFC 8439); the framing is the
    default LengthDelimitedCodec: four octets of length, big-endian, and frames of at most 8 MiB. */
module Packets {
  import opened Octets

  const BLOCKSIZE := 64
  const HEADER_SIZE := 1
  const NONCE_SIZE := 12
  const TAG_SIZE := 16
  const LENGTH_SIZE := 4
  const MAX_FRAME_LENGTH := 8 * 1024 * 1024

  // ---------------------------------------------------------------- padding

  function Ceil(x: real): int {
    if x.Floor as real == x then x.Floor else x.Floor + 1
  }

  /** The packet length as the source computes it, through a floating-point quotient. */
  function CeilingFormula(n: nat): int {
    Ceil((n + HEADER_SIZE) as real / BLOCKSIZE as real) * BLOCKSIZE
  }

  function PacketLength(n: nat): nat {
    (n + HEADER_SIZE + BLOCKSIZE - 1) / BLOCKSIZE * BLOCKSIZE
  }

  /** The padding length as it is stored: cut down to one byte. */
  function PaddingLength(n: nat): Byte {
    (PacketLength(n) - n - HEADER_SIZE) % 256
  }

  /** The real-valued formula gives the least multiple of the block size that leaves room for the
      header, and the padding it asks for survives the cast to one byte. */
  lemma PaddingArithmetic(n: nat)
    ensures CeilingFormula(n) == PacketLength(n)
    ensures PacketLength(n) % BLOCKSIZE == 0
    ensures n + HEADER_SIZE <= PacketLength(n)
    ensures forall m :: m % BLOCKSIZE == 0 && n + HEADER_SIZE <= m ==> PacketLength(n) <= m
    ensures PaddingLength(n) < BLOCKSIZE
    ensures HEADER_SIZE + n + PaddingLength(n) == PacketLength(n)
  {
  }

  function Pad(serialized: seq<Octet>, filler: seq<Byte>): seq<Octet> {
    [Plain(PaddingLength(|serialized|))] + serialized + PlainOctets(filler)
  }

  // ---------------------------------------------------------------- encryption

  function Seal(key: SymmetricKey, nonce: Nonce, plaintext: seq<Octet>): (c: seq<Octet>)
    ensures |c| == |plaintext| + TAG_SIZE
  {
    seq(|plaintext| + TAG_SIZE, i requires 0 <= i => CipherOctet(key, nonce, plaintext, i))
  }

  function Open(key: SymmetricKey, nonce: Nonce, c: seq<Octet>): (r: Option<seq<Octet>>)
    ensures r.Some? ==> c == Seal(key, nonce, r.value)
  {
    if |c| > 0 && c[0].CipherOctet? && c == Seal(key, nonce, c[0].plaintext) then Some(c[0].plaintext) else None
  }

  /** Opening succeeds on exactly what was sealed under the same key and nonce. */
  lemma OpenUndoesSeal(key: SymmetricKey, nonce: Nonce, plaintext: seq<Octet>, key': SymmetricKey, nonce': Nonce)
    ensures Open(key', nonce', Seal(key, nonce, plaintext)) ==
            if key == key' && nonce == nonce' then Some(plaintext) else None
  {
  }

  function Encrypt(key: SymmetricKey, nonce: Nonce, plaintext: seq<Octet>): (c: seq<Octet>)
    ensures |c| == NONCE_SIZE + |plaintext| + TAG_SIZE
  {
    PlainOctets(nonce) + Seal(key, nonce, plaintext)
  }

  // ---------------------------------------------------------------- framing

  function LengthField(n: nat): (s: seq<Octet>)
    requires n <= MAX_FRAME_LENGTH
    ensures |s| == LENGTH_SIZE
  {
    [Plain(n / 0x100_0000), Plain(n / 0x1_0000 % 0x100), Plain(n / 0x100 % 0x100), Plain(n % 0x100)]
  }

  function LengthOf(s: seq<Octet>): nat
    requires |s| == LENGTH_SIZE
  {
    ((Value(s[0]) * 0x100 + Value(s[1])) * 0x100 + Value(s[2])) * 0x100 + Value(s[3])
  }

  lemma LengthFieldRoundTrip(n: nat)
    requires n <= MAX_FRAME_LENGTH
    ensures LengthOf(LengthField(n)) == n
  {
  }

  /** The octets a message of n serialised octets takes inside its frame. */
  function WireLength(n: nat): nat {
    NONCE_SIZE + PacketLength(n) + TAG_SIZE
  }

  predicate Fits(m: WireMessage) {
    WireLength(CBOR_LENGTH(m)) <= MAX_FRAME_LENGTH
  }

  /** The frame limit, said in octets of the serialised message. */
  lemma FrameSizeBound(m: WireMessage)
    ensures Fits(m) <==> |Serialize(m)| <= 8_388_543
  {
  }

  /** A message together with the random choices its frame was made with. */
  datatype Sent = Sent(message: WireMessage, nonce: Nonce, filler: seq<Byte>)

  predicate WellSent(s: Sent) {
    Fits(s.message) && |s.filler| == PaddingLength(CBOR_LENGTH(s.message))
  }

  function Payload(key: SymmetricKey, s: Sent): seq<Octet> {
    Encrypt(key, s.nonce, Pad(Serialize(s.message), s.filler))
  }

  lemma PayloadLength(key: SymmetricKey, s: Sent)
    requires WellSent(s)
    ensures NONCE_SIZE + TAG_SIZE <= |Payload(key, s)| == WireLength(CBOR_LENGTH(s.message)) <= MAX_FRAME_LENGTH
  {
  }

  function Frame(key: SymmetricKey, s: Sent): (f: seq<Octet>)
    requires WellSent(s)
    ensures |f| == LENGTH_SIZE + WireLength(CBOR_LENGTH(s.message)) > LENGTH_SIZE
  {
    PayloadLength(key, s);
    LengthField(|Payload(key, s)|) + Payload(key, s)
  }

  // ---------------------------------------------------------------- reading

  datatype ReadResult =
    | Message(message: WireMessage)
    | EndOfStream
    | Failed(error: Error)
    | Panicked
    | Pending

  /** What `DecryptingReader::read` makes of the payload of one frame. Its two slices panic
      when the payload is shorter than a nonce or the padding is longer than the packet. */
  function OpenPayload(key: SymmetricKey, kind: MessageKind, payload: seq<Octet>): ReadResult {
    if |payload| < NONCE_SIZE then Panicked
    else match Open(key, Values(payload[..NONCE_SIZE]), payload[NONCE_SIZE..])
      case None => Failed(Decryption)
      case Some(plaintext) =>
        if |plaintext| < HEADER_SIZE then Panicked
        else
          var messageLength := |plaintext| - HEADER_SIZE - Value(plaintext[0]);
          if messageLength < 0 then Panicked
          else match Deserialize(kind, plaintext[HEADER_SIZE..messageLength + HEADER_SIZE])
            case None => Failed(Deserialization)
            case Some(m) => Message(m)
  }

  datatype Deframed = Incomplete | TooBig | Complete(payload: seq<Octet>, rest: seq<Octet>)

  function Deframe(stream: seq<Octet>): Deframed {
    if |stream| < LENGTH_SIZE then Incomplete
    else
      var n := LengthOf(stream[..LENGTH_SIZE]);
      if n > MAX_FRAME_LENGTH then TooBig
      else if |stream| - LENGTH_SIZE < n then Incomplete
      else Complete(stream[LENGTH_SIZE..LENGTH_SIZE + n], stream[LENGTH_SIZE + n..])
  }

  /** Octets that arrive later do not change what has been deframed already. */
  lemma DeframeExtends(stream: seq<Octet>, more: seq<Octet>)
    ensures match Deframe(stream)
            case Complete(payload, rest) => Deframe(stream + more) == Complete(payload, rest + more)
            case TooBig => Deframe(stream + more) == TooBig
            case Incomplete => true
  {
  }

  /** One read of the stream: its result and the octets it leaves. The codec takes the length field
      out of its buffer as soon as the field is whole, so a stream that ends right there leaves an
      empty buffer and counts as ended cleanly. */
  function ReadOne(key: SymmetricKey, kind: MessageKind, stream: seq<Octet>, closed: bool): (ReadResult, seq<Octet>) {
    match Deframe(stream)
    case Complete(payload, rest) => (OpenPayload(key, kind, payload), rest)
    case TooBig => (Failed(FrameTooBig), stream)
    case Incomplete => (AtEnd(|stream|, closed), stream)
  }

  /** The same on a transport that has broken: it reports an error when a read asks it for more. */
  function ReadOrFail(key: SymmetricKey, kind: MessageKind, stream: seq<Octet>, closed: bool, broken: bool)
    : (ReadResult, seq<Octet>)
  {
    if broken && Deframe(stream).Incomplete? then (Failed(ConnectionReset), stream)
    else ReadOne(key, kind, stream, closed)
  }

  /** The result of a read when all there is are `leftover` octets of an unfinished frame. */
  function AtEnd(leftover: nat, closed: bool): (r: ReadResult)
    ensures r.Pending? <==> !closed
    ensures r.EndOfStream? <==> closed && (leftover == 0 || leftover == 4)
    ensures r == Failed(BytesRemaining) <==> closed && leftover != 0 && leftover != 4
  {
    if !closed then Pending
    else if leftover == 0 || leftover == LENGTH_SIZE then EndOfStream
    else Failed(BytesRemaining)
  }

  // ---------------------------------------------------------------- what the wire looks like

  /** Four octets read as one number, the most significant first. */
  function BigEndian(s: seq<Octet>): nat
    requires |s| >= 4
  {
    Value(s[0]) * 0x100_0000 + Value(s[1]) * 0x1_0000 + Value(s[2]) * 0x100 + Value(s[3])
  }

  /** Of a stream the decoder takes four octets of length, most significant first, and as many of payload;
      it refuses lengths above 8 MiB and waits for whatever is missing. */
  lemma DeframesExactly(stream: seq<Octet>)
    ensures Deframe(stream).TooBig? <==> |stream| >= 4 && BigEndian(stream) > 8_388_608
    ensures Deframe(stream).Complete? <==>
            |stream| >= 4 && BigEndian(stream) <= 8_388_608 && 4 + BigEndian(stream) <= |stream|
    ensures Deframe(stream).Complete? ==>
              var n := BigEndian(stream);
              Deframe(stream).payload == stream[4..4 + n] && Deframe(stream).rest == stream[4 + n..]
  {
  }

  /** So a length field above 8 MiB fails the read, whatever follows it and however the stream ends. */
  lemma TooBigFails(key: SymmetricKey, kind: MessageKind, stream: seq<Octet>, closed: bool)
    requires |stream| >= 4 && BigEndian(stream) > 8_388_608
    ensures ReadOne(key, kind, stream, closed) == (Failed(FrameTooBig), stream)
  {
    DeframesExactly(stream);
  }

  /** A frame octet by octet: the length of what follows, a nonce of 12 octets, and sealed in 16 octets more
      than its own a packet of a padding length, the serialised message and that much padding, which
      fills blocks of 64. */
  lemma FrameLayout(key: SymmetricKey, s: Sent)
    requires WellSent(s)
    ensures var f := Frame(key, s);
            && BigEndian(f) == |f| - 4 && forall i :: 0 <= i < 4 ==> f[i].Plain?
    ensures var packet := [Plain(|s.filler|)] + Serialize(s.message) + PlainOctets(s.filler);
            && |s.filler| < 64 && |packet| % 64 == 0
            && Frame(key, s)[4..] == PlainOctets(s.nonce) + Seal(key, s.nonce, packet)
            && |Frame(key, s)| == 4 + 12 + |packet| + 16
  {
    PaddingArithmetic(CBOR_LENGTH(s.message));
    PayloadLength(key, s);
    LengthFieldRoundTrip(|Payload(key, s)|);
  }

  /** What reading makes of a payload that was sealed under the reader's key, whatever was sealed. */
  lemma OpensSealed(key: SymmetricKey, kind: MessageKind, nonce: Nonce, packet: seq<Octet>)
    ensures var r := OpenPayload(key, kind, PlainOctets(nonce) + Seal(key, nonce, packet));
            if packet == [] || |packet| < 1 + Value(packet[0]) then r.Panicked?
            else
              && (forall m: WireMessage ::
                    r == Message(m) <==> m.Kind() == kind && Serialize(m) == packet[1..|packet| - Value(packet[0])])
              && (!r.Message? ==> r == Failed(Deserialization))
  {
    var payload := PlainOctets(nonce) + Seal(key, nonce, packet);
    assert payload[..NONCE_SIZE] == PlainOctets(nonce) && payload[NONCE_SIZE..] == Seal(key, nonce, packet);
    ValuesOfPlain(nonce);
    OpenUndoesSeal(key, nonce, packet, key, nonce);
    forall m: WireMessage ensures Serialize(m)[0] == CborOctet(m, 0) {
    }
  }

  /** And of one that was not: it fails, or is too short to hold a nonce. */
  lemma UnsealedFails(key: SymmetricKey, kind: MessageKind, payload: seq<Octet>)
    requires |payload| >= 12 && forall packet :: payload[12..] != Seal(key, Values(payload[..12]), packet)
    ensures OpenPayload(key, kind, payload) == Failed(Decryption)
  {
  }

  // ---------------------------------------------------------------- what one read undoes

  lemma OpenPayloadOf(key: SymmetricKey, kind: MessageKind, s: Sent)
    requires WellSent(s)
    ensures OpenPayload(key, kind, Payload(key, s)) ==
            if s.message.Kind() == kind then Message(s.message) else Failed(Deserialization)
  {
    var payload := Payload(key, s);
    var serialized := Serialize(s.message);
    var packet := Pad(serialized, s.filler);
    PaddingArithmetic(|serialized|);
    assert payload[..NONCE_SIZE] == PlainOctets(s.nonce);
    ValuesOfPlain(s.nonce);
    assert payload[NONCE_SIZE..] == Seal(key, s.nonce, packet);
    OpenUndoesSeal(key, s.nonce, packet, key, s.nonce);
    assert packet[HEADER_SIZE..|packet| - Value(packet[0])] == serialized;
    DeserializeUndoesSerialize(kind, s.message);
  }

  /** A reader accepts nothing that was not sealed under its own key: whatever message it returns,
      the payload it came in is an encryption of a packet that carries that message. */
  lemma OnlySealedIsAccepted(key: SymmetricKey, kind: MessageKind, payload: seq<Octet>)
    requires OpenPayload(key, kind, payload).Message?
    ensures OpenPayload(key, kind, payload).message.Kind() == kind
    ensures exists nonce: Nonce, packet ::
              payload[NONCE_SIZE..] == Seal(key, nonce, packet) &&
              |packet| > 0 && packet[HEADER_SIZE..|packet| - Value(packet[0])] ==
                Serialize(OpenPayload(key, kind, payload).message)
  {
  }

  /** What makes a slice of `read` panic: a payload shorter than a nonce, which anyone can send, or one
      sealed under the reader's own key around a packet that is shorter than its header says. */
  predicate Malformed(key: SymmetricKey, payload: seq<Octet>) {
    |payload| < NONCE_SIZE || SealsShortPacket(key, Values(payload[..NONCE_SIZE]), payload[NONCE_SIZE..])
  }

  predicate SealsShortPacket(key: SymmetricKey, nonce: Nonce, c: seq<Octet>) {
    var plaintext := Open(key, nonce, c);
    plaintext.Some? && (plaintext.value == [] || |plaintext.value| < HEADER_SIZE + Value(plaintext.value[0]))
  }

  lemma SealedShortPackets(key: SymmetricKey, nonce: Nonce, c: seq<Octet>)
    ensures SealsShortPacket(key, nonce, c) <==>
            exists packet :: c == Seal(key, nonce, packet) &&
              (packet == [] || |packet| < HEADER_SIZE + Value(packet[0]))
  {
    forall packet | c == Seal(key, nonce, packet) && (packet == [] || |packet| < HEADER_SIZE + Value(packet[0]))
      ensures SealsShortPacket(key, nonce, c)
    {
      OpenUndoesSeal(key, nonce, packet, key, nonce);
    }
  }

  /** Of the whole frames that can be put on the stream, reading panics on exactly the malformed ones. */
  lemma ReadPanicsExactlyWhen(key: SymmetricKey, kind: MessageKind, payload: seq<Octet>, rest: seq<Octet>, closed: bool)
    requires |payload| <= MAX_FRAME_LENGTH
    ensures ReadOne(key, kind, LengthField(|payload|) + payload + rest, closed).0.Panicked? <==> Malformed(key, payload)
  {
    var stream := LengthField(|payload|) + payload + rest;
    assert stream[..LENGTH_SIZE] == LengthField(|payload|);
    LengthFieldRoundTrip(|payload|);
    assert stream[LENGTH_SIZE..LENGTH_SIZE + |payload|] == payload;
  }

  lemma DeframeFrame(key: SymmetricKey, s: Sent, rest: seq<Octet>)
    requires WellSent(s)
    ensures Deframe(Frame(key, s) + rest) == Complete(Payload(key, s), rest)
  {
    var stream := Frame(key, s) + rest;
    PayloadLength(key, s);
    var n := |Payload(key, s)|;
    assert stream[..LENGTH_SIZE] == LengthField(n);
    LengthFieldRoundTrip(n);
    assert stream[LENGTH_SIZE..LENGTH_SIZE + n] == Payload(key, s);
    assert stream[LENGTH_SIZE + n..] == rest;
  }

  lemma DeframePrefix(key: SymmetricKey, s: Sent, stream: seq<Octet>)
    requires WellSent(s) && stream < Frame(key, s)
    ensures Deframe(stream) == Incomplete
  {
    PayloadLength(key, s);
    if |stream| >= LENGTH_SIZE {
      assert stream[..LENGTH_SIZE] == Frame(key, s)[..LENGTH_SIZE] == LengthField(|Payload(key, s)|);
      LengthFieldRoundTrip(|Payload(key, s)|);
    }
  }

  ghost predicate AllWellSent(ss: seq<Sent>) {
    forall i :: 0 <= i < |ss| ==> WellSent(ss[i])
  }

  /** The octets of several frames in a row. */
  ghost function Frames(key: SymmetricKey, ss: seq<Sent>): seq<Octet>
    requires AllWellSent(ss)
  {
    if ss == [] then [] else Frame(key, ss[0]) + Frames(key, ss[1..])
  }

  lemma {:induction false} FramesAppend(key: SymmetricKey, ss: seq<Sent>, s: Sent)
    requires AllWellSent(ss) && WellSent(s)
    ensures Frames(key, ss + [s]) == Frames(key, ss) + Frame(key, s)
  {
    if ss == [] {
      assert ss + [s] == [s];
    } else {
      assert (ss + [s])[1..] == ss[1..] + [s];
      FramesAppend(key, ss[1..], s);
    }
  }

  lemma PrefixesOfOne<T>(a: seq<T>, b: seq<T>, all: seq<T>)
    requires a <= all && b <= all
    ensures |a| <= |b| ==> a <= b
  {
  }

  /** The head read: of a stream that is some prefix of the frames sent, a read returns the first
      message when its frame is all there, refuses it when it is of another type, and otherwise
      waits, or reports how the stream ended. */
  lemma ReadHead(key: SymmetricKey, kind: MessageKind, ss: seq<Sent>, stream: seq<Octet>, closed: bool)
    requires AllWellSent(ss) && stream <= Frames(key, ss)
    ensures
      if ss != [] && Frame(key, ss[0]) <= stream then
        var rest := stream[|Frame(key, ss[0])|..];
        ReadOne(key, kind, stream, closed) ==
          (if ss[0].message.Kind() == kind then Message(ss[0].message) else Failed(Deserialization), rest) &&
        rest <= Frames(key, ss[1..])
      else
        Deframe(stream) == Incomplete && ReadOne(key, kind, stream, closed) == (AtEnd(|stream|, closed), stream)
  {
    if ss == [] {
      assert stream == [];
    } else {
      var f := Frame(key, ss[0]);
      var all := Frames(key, ss);
      assert all[|f|..] == Frames(key, ss[1..]);
      if f <= stream {
        assert stream == f + stream[|f|..];
        DeframeFrame(key, ss[0], stream[|f|..]);
        OpenPayloadOf(key, kind, ss[0]);
      } else {
        PrefixesOfOne(f, stream, all);
        assert stream == f[..|stream|];
        DeframePrefix(key, ss[0], stream);
      }
    }
  }
}
