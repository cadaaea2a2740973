/** Mutual authentication over an arbitrary network: any number of handshakes of any number of
    honest engines, run by the programs of `Handshake`. The network is free to hand any octets and
    any message to any of them at any time; all it cannot do is sign with a key that only honest
    engines hold. An engine signs what its own handshakes ask for and nothing else. */
module Agreement {
  import opened Octets
  import opened Crypto
  import opened Events
  import opened Handshake

  /** `honest` are the ids of the honest engines, `signed` all they have signed so far. */
  datatype World = World(
    honest: set<ServiceId>,
    sessions: map<nat, Task>,
    requested: map<nat, seq<Octet>>,
    signed: set<Signature>)

  datatype Action =
    | Dial(sid: nat, id: ServiceId, address: string, peer: ServiceId, secret: EphemeralSecret)
    | Accept(sid: nat, id: ServiceId, address: string, secret: EphemeralSecret)
    | EngineSigns(sid: nat)
    | Deliver(sid: nat, input: Input)

  ghost predicate Init(w: World) {
    && w.sessions == map[] && w.requested == map[] && w.signed == {}
    && forall id :: id in w.honest ==> VERIFYING_KEYS(id).Some?
  }

  ghost predicate HonestKey(w: World, key: Key) {
    exists id :: id in w.honest && VERIFYING_KEYS(id) == Some(key)
  }

  /** A generated secret differs from those of all other handshakes. */
  predicate Fresh(w: World, secret: EphemeralSecret) {
    forall sid :: sid in w.sessions ==> w.sessions[sid].secret != secret
  }

  ghost predicate MayDeliver(w: World, sid: nat, input: Input)
    requires sid in w.sessions
  {
    match input
    case Reply(Some(SignatureResponse(signature))) =>
      sid in w.requested && signature in w.signed &&
      VERIFYING_KEYS(w.sessions[sid].id) == Some(signature.signer) && signature.data == w.requested[sid]
    case Read(Message(Auth(_, signature))) =>
      HonestKey(w, signature.signer) ==> signature in w.signed
    case _ => true
  }

  ghost predicate Enabled(w: World, a: Action) {
    match a
    case Dial(sid, id, _, _, secret) => sid !in w.sessions && id in w.honest && Fresh(w, secret)
    case Accept(sid, id, _, secret) => sid !in w.sessions && id in w.honest && Fresh(w, secret)
    case EngineSigns(sid) => sid in w.requested && sid in w.sessions
    case Deliver(sid, input) => sid in w.sessions && MayDeliver(w, sid, input)
  }

  ghost function Apply(w: World, a: Action): World
    requires Enabled(w, a)
  {
    match a
    case Dial(sid, id, address, peer, secret) =>
      w.(sessions := w.sessions[sid := StartClient(id, address, peer, secret).0])
    case Accept(sid, id, address, secret) =>
      w.(sessions := w.sessions[sid := StartServer(id, address, secret).0])
    case EngineSigns(sid) =>
      var key := VERIFYING_KEYS(w.sessions[sid].id);
      if key.None? then w else w.(signed := w.signed + {Signature(key.value, w.requested[sid])})
    case Deliver(sid, input) =>
      var (t, effects) := Step(w.sessions[sid], input);
      w.(sessions := w.sessions[sid := t],
         requested := if effects != [] && effects[0].RequestSignature?
                      then w.requested[sid := effects[0].data] else w.requested)
  }

  ghost predicate Legal(w: World, actions: seq<Action>)
    decreases |actions|
  {
    actions == [] || (Enabled(w, actions[0]) && Legal(Apply(w, actions[0]), actions[1..]))
  }

  ghost function Exec(w: World, actions: seq<Action>): World
    requires Legal(w, actions)
    decreases |actions|
  {
    if actions == [] then w else Exec(Apply(w, actions[0]), actions[1..])
  }

  // ---------------------------------------------------------------- what every step keeps

  function ClientOf(t: Task): Option<ServiceId> {
    if t.role.Client? then Some(t.id) else t.peer
  }

  function ServerOf(t: Task): Option<ServiceId> {
    if t.role.Server? then Some(t.id) else t.peer
  }

  /** The program has got past the check of its peer's authentication message. */
  predicate Verified(t: Task) {
    if t.role.Client? then t.pc.AwaitAuthorized? || t.pc.Established?
    else t.pc.AwaitSignature? || t.pc.Established?
  }

  ghost predicate LocalsInv(t: Task) {
    && (t.shared.Some? ==> exists key :: t.shared.value == DiffieHellman(t.secret, key))
    && (t.hash.Some? ==>
          && t.peer.Some? && t.shared.Some?
          && GenerateSessionHash(ClientOf(t).value, ServerOf(t).value, t.shared.value) == Ok(t.hash.value))
    && (t.pc.AwaitSignature? || t.pc.AwaitAuthorized? || t.pc.Established? ==> t.hash.Some?)
    && (t.pc.AwaitKey? ==> t.hash.None? && t.shared.None?)
    && (t.pc.AwaitAuth? ==> if t.role.Client? then t.hash.Some? else t.hash.None?)
    && (t.role.Client? ==> t.peer.Some?)
    && (t.role.Server? ==> !t.pc.AwaitAuthorized?)
  }

  ghost predicate PeerSigned(w: World, t: Task) {
    t.peer.Some? && t.hash.Some? && VERIFYING_KEYS(t.peer.value).Some? &&
    var s := Signature(VERIFYING_KEYS(t.peer.value).value, AuthData(t.peer.value, t.hash.value));
    HonestKey(w, s.signer) ==> s in w.signed
  }

  ghost predicate SessionInv(w: World, sid: nat)
    requires sid in w.sessions
  {
    var t := w.sessions[sid];
    && t.id in w.honest
    && LocalsInv(t)
    && (sid in w.requested <==> t.hash.Some?)
    && (t.hash.Some? ==> w.requested[sid] == AuthData(t.id, t.hash.value))
    && (Verified(t) ==> PeerSigned(w, t))
  }

  /** The session that had an engine sign. */
  ghost predicate SignedFor(w: World, s: Signature, sid: nat) {
    sid in w.sessions && sid in w.requested &&
    VERIFYING_KEYS(w.sessions[sid].id) == Some(s.signer) && s.data == w.requested[sid]
  }

  ghost predicate Inv(w: World) {
    && (forall id :: id in w.honest ==> VERIFYING_KEYS(id).Some?)
    && (forall sid :: sid in w.requested ==> sid in w.sessions)
    && (forall sid :: sid in w.sessions ==> SessionInv(w, sid))
    && (forall s :: s in w.signed ==> exists sid :: SignedFor(w, s, sid))
    && (forall a, b :: a in w.sessions && b in w.sessions && a != b ==> w.sessions[a].secret != w.sessions[b].secret)
  }

  lemma StepKeepsLocals(t: Task, input: Input)
    requires LocalsInv(t)
    ensures var (t', effects) := Step(t, input);
            LocalsInv(t') && t'.id == t.id && t'.role == t.role && t'.secret == t.secret
    ensures var (t', effects) := Step(t, input);
            (t.hash.Some? ==> t'.hash == t.hash && t'.peer == t.peer && t'.shared == t.shared)
    ensures var (t', effects) := Step(t, input);
            if effects != [] && effects[0].RequestSignature?
            then t.hash.None? && t'.hash.Some? && effects[0].data == AuthData(t.id, t'.hash.value)
            else t'.hash == t.hash
  {
  }

  /** A session that gets past the check holds a signature of its peer over its own hash. */
  lemma StepVerifies(w: World, sid: nat, input: Input)
    requires sid in w.sessions && SessionInv(w, sid) && MayDeliver(w, sid, input)
    ensures Verified(Step(w.sessions[sid], input).0) ==> PeerSigned(w, Step(w.sessions[sid], input).0)
  {
  }

  lemma DeliverKeepsInv(w: World, sid: nat, input: Input)
    requires Inv(w) && Enabled(w, Deliver(sid, input))
    ensures Inv(Apply(w, Deliver(sid, input)))
  {
    hide Handshake.Step, LocalsInv, PeerSigned, Verified;
    var w' := Apply(w, Deliver(sid, input));
    StepKeepsLocals(w.sessions[sid], input);
    forall s | s in w'.signed ensures exists i :: SignedFor(w', s, i) {
      var i :| SignedFor(w, s, i);
      assert SignedFor(w', s, i);
    }
    forall i | i in w'.sessions ensures SessionInv(w', i) {
      DeliverKeepsSession(w, sid, input, i);
    }
  }

  lemma DeliverKeepsSession(w: World, sid: nat, input: Input, i: nat)
    requires Inv(w) && Enabled(w, Deliver(sid, input)) && i in w.sessions
    ensures SessionInv(Apply(w, Deliver(sid, input)), i)
  {
    hide Handshake.Step, LocalsInv;
    assert SessionInv(w, i) && SessionInv(w, sid);
    hide Inv;
    StepKeepsLocals(w.sessions[sid], input);
    StepVerifies(w, sid, input);
  }

  lemma StartKeepsInv(w: World, sid: nat, t: Task)
    requires Inv(w) && sid !in w.sessions && t.id in w.honest && Fresh(w, t.secret) && t.pc.AwaitKey? && LocalsInv(t)
    ensures Inv(w.(sessions := w.sessions[sid := t]))
  {
    var w' := w.(sessions := w.sessions[sid := t]);
    forall s | s in w'.signed ensures exists i :: SignedFor(w', s, i) {
      var i :| SignedFor(w, s, i);
      assert SignedFor(w', s, i);
    }
    forall i | i in w'.sessions ensures SessionInv(w', i) {
      StartKeepsSession(w, sid, t, i);
    }
  }

  lemma StartKeepsSession(w: World, sid: nat, t: Task, i: nat)
    requires Inv(w) && sid !in w.sessions && t.id in w.honest && t.pc.AwaitKey? && LocalsInv(t) &&
             (i in w.sessions || i == sid)
    ensures SessionInv(w.(sessions := w.sessions[sid := t]), i)
  {
    assert i in w.sessions ==> SessionInv(w, i);
  }

  lemma SigningKeepsInv(w: World, sid: nat)
    requires Inv(w) && Enabled(w, EngineSigns(sid))
    ensures Inv(Apply(w, EngineSigns(sid)))
  {
    hide LocalsInv;
    var w' := Apply(w, EngineSigns(sid));
    forall s | s in w'.signed ensures exists i :: SignedFor(w', s, i) {
      if s in w.signed {
        var i :| SignedFor(w, s, i);
        assert SignedFor(w', s, i);
      } else {
        assert SignedFor(w', s, sid);
      }
    }
    forall i | i in w'.sessions ensures SessionInv(w', i) {
      assert SessionInv(w, i);
    }
  }

  lemma StepKeepsInv(w: World, a: Action)
    requires Inv(w) && Enabled(w, a)
    ensures Inv(Apply(w, a))
  {
    match a
    case Dial(sid, id, address, peer, secret) => StartKeepsInv(w, sid, StartClient(id, address, peer, secret).0);
    case Accept(sid, id, address, secret) => StartKeepsInv(w, sid, StartServer(id, address, secret).0);
    case EngineSigns(sid) => SigningKeepsInv(w, sid);
    case Deliver(sid, input) => DeliverKeepsInv(w, sid, input);
  }

  lemma {:induction false} RunsKeepInv(w: World, actions: seq<Action>)
    requires Inv(w) && Legal(w, actions)
    ensures Inv(Exec(w, actions))
    decreases |actions|
  {
    if actions != [] {
      StepKeepsInv(w, actions[0]);
      RunsKeepInv(Apply(w, actions[0]), actions[1..]);
    }
  }

  // ---------------------------------------------------------------- agreement

  /** Session p asked its engine for the signature that session t has verified: p belongs to the
      peer t names, names t's id as its own peer, and has the same secret, hash and encryption key.
      It has the opposite role, unless the two ids are one and the same. */
  ghost predicate Agrees(w: World, t: Task, p: nat) {
    p in w.sessions && p in w.requested &&
    var partner := w.sessions[p];
    && t.peer == Some(partner.id) && partner.peer == Some(t.id)
    && t.shared.Some? && partner.shared == t.shared
    && t.hash.Some? && partner.hash == t.hash
    && Hkdf(partner.shared.value) == Hkdf(t.shared.value)
    && w.requested[p] == AuthData(partner.id, t.hash.value)
    && (partner.role != t.role || partner.id == t.id)
  }

  lemma SignedMeansAgreed(w: World, sid: nat, s: Signature, p: nat)
    requires Inv(w) && sid in w.sessions && w.sessions[sid].hash.Some? && w.sessions[sid].peer.Some?
    requires SignedFor(w, s, p) && s.data == AuthData(w.sessions[sid].peer.value, w.sessions[sid].hash.value)
    ensures Agrees(w, w.sessions[sid], p)
  {
    var t, partner := w.sessions[sid], w.sessions[p];
    assert SessionInv(w, sid) && SessionInv(w, p);
    AuthDataInjective(partner.id, partner.hash.value, t.peer.value, t.hash.value);
    SessionHashInjective(ClientOf(t).value, ServerOf(t).value, t.shared.value,
                         ClientOf(partner).value, ServerOf(partner).value, partner.shared.value);
  }

  /** Agreement. On every run, a session of an honest engine that has verified an honest peer has a
      partner: a session of that peer that asked for the very signature it verified. */
  lemma MutualAgreement(w: World, actions: seq<Action>, sid: nat)
    requires Init(w) && Legal(w, actions)
    requires sid in Exec(w, actions).sessions && Verified(Exec(w, actions).sessions[sid])
    requires Exec(w, actions).sessions[sid].peer.Some? && Exec(w, actions).sessions[sid].peer.value in w.honest
    ensures exists p :: Agrees(Exec(w, actions), Exec(w, actions).sessions[sid], p)
  {
    RunsKeepInv(w, actions);
    HonestStays(w, actions);
    var w' := Exec(w, actions);
    var t := w'.sessions[sid];
    assert SessionInv(w', sid);
    var s := Signature(VERIFYING_KEYS(t.peer.value).value, AuthData(t.peer.value, t.hash.value));
    assert HonestKey(w', s.signer);
    var p :| SignedFor(w', s, p);
    SignedMeansAgreed(w', sid, s, p);
  }

  lemma {:induction false} HonestStays(w: World, actions: seq<Action>)
    requires Legal(w, actions)
    ensures Exec(w, actions).honest == w.honest
    decreases |actions|
  {
    if actions != [] {
      HonestStays(Apply(w, actions[0]), actions[1..]);
    }
  }

  /** Injective agreement. Two sessions that agree with the same partner, and are not that partner
      itself, are one session: no server serves two clients on one secret, and no client two servers. */
  lemma InjectiveAgreement(w: World, actions: seq<Action>, a: nat, b: nat, p: nat)
    requires Init(w) && Legal(w, actions)
    requires a in Exec(w, actions).sessions && b in Exec(w, actions).sessions && p != a && p != b
    requires Agrees(Exec(w, actions), Exec(w, actions).sessions[a], p)
    requires Agrees(Exec(w, actions), Exec(w, actions).sessions[b], p)
    ensures a == b
  {
    RunsKeepInv(w, actions);
    var w' := Exec(w, actions);
    assert SessionInv(w', a) && SessionInv(w', b) && SessionInv(w', p);
    SameSecret(w'.sessions[a], w'.sessions[b], w'.sessions[p]);
  }

  /** Of three handshakes with one Diffie-Hellman secret, two have the same ephemeral key. */
  lemma SameSecret(a: Task, b: Task, p: Task)
    requires LocalsInv(a) && LocalsInv(b) && LocalsInv(p)
    requires p.shared.Some? && a.shared == p.shared && b.shared == p.shared
    ensures a.secret == b.secret || a.secret == p.secret || b.secret == p.secret
  {
  }
}
