/** The rendezvous of a sign-in with the client process it spawns, and the two locks it
    takes, as a step relation over any number of sign-ins, clients and HTTP requests.

    A sign-in takes the lock of the peer map and the lock of the suspended clients with one
    `join!`, publishes its token, releases the second lock only, and waits up to five
    seconds for a client that presents the token. It keeps the peer map locked until the
    client's connection is stored there, or until it has withdrawn the token.

    The teardown of a session locks the peer map too, and under it waits for the lock of the
    session's connection. Who forwards an event holds that lock until the event is taken from
    the event channel; that is done from the time on that the session's answer has been sent
    to the browser, and never if it could not be sent. */
module Rendezvous {
  import opened Common

  type Token = string
  type SignInId = nat
  type ClientId = nat
  type RequestId = nat

  /** How long a sign-in waits for its client, in milliseconds. */
  const PATIENCE: nat := 5000

  datatype SignIn =
    | Joining(token: Token, peers: bool, suspended: bool)  // the locks it has so far
    | Waiting(token: Token, deadline: nat, inbox: Option<ClientId>)
    | TimedOut(token: Token)                               // receiver dropped, token to withdraw
    | SignedIn(token: Token, conn: ClientId, served: bool)
    | Closing(token: Token, conn: ClientId, served: bool)  // session over, wants the peer map
    | Disconnecting(token: Token, conn: ClientId, served: bool)  // peer removed, map still locked
    | Ended(token: Token, conn: ClientId)
    | Rejected
  {
    /** Between the start of the `join!` and the release of the peer map. */
    predicate InRegion() { Joining? || Waiting? || TimedOut? }

    predicate HoldsPeers() { (Joining? && peers) || Waiting? || TimedOut? || Disconnecting? }

    predicate HoldsSuspended() { Joining? && suspended }

    /** Lock acquisitions the sign-in cannot go on without. */
    predicate WantsPeers() { (Joining? && !peers) || Closing? }

    predicate WantsSuspended() { (Joining? && !suspended) || TimedOut? }

    /** Somebody takes the events from the session's event channel. */
    predicate Polled() { (SignedIn? || Closing? || Disconnecting?) && served }

    /** The client whose connection the sign-in has received. */
    function Conn(): Option<ClientId> {
      if Waiting? then inbox
      else if SignedIn? || Closing? || Disconnecting? || Ended? then Some(conn)
      else None
    }
  }

  datatype Client =
    | Arrived(token: Token)
    | Claimed(token: Token, owner: SignInId)   // owns the callback of that sign-in
    | Linked(token: Token, owner: SignInId)    // its connection was delivered
    | Refused

  /** A request of the HTTP side: it looks a token up under the peer map's lock, and then
      forwards an event under the lock of the session's connection. Events from the client
      start behind the lookup. */
  datatype Request =
    | Wanting(token: Token)
    | Holding(token: Token)
    | Queued(a: SignInId)
    | Forwarding(a: SignInId)   // owns the lock of that session's connection
    | Finished

  datatype Holder = BySignIn(a: SignInId) | ByRequest(h: RequestId)

  datatype Peer = Peer(owner: SignInId, conn: ClientId)

  /** `connLock` has the owner of the lock of each session's connection, as far as that is a
      request; the teardown takes it for one step only. `takers` is history: which client took
      the callback of a sign-in out of the map. */
  datatype State = State(
    now: nat,
    signIns: map<SignInId, SignIn>,
    clients: map<ClientId, Client>,
    requests: map<RequestId, Request>,
    peersLock: Option<Holder>,
    suspendedLock: Option<SignInId>,
    connLock: map<SignInId, RequestId>,
    suspended: map<Token, SignInId>,
    peers: map<Token, Peer>,
    takers: map<SignInId, ClientId>)

  datatype Action =
    | Begin(a: SignInId, token: Token)   // the generator may return any token, repeats included
    | TakePeers(a: SignInId)
    | TakeSuspended(a: SignInId)
    | Publish(a: SignInId)
    | Accept(a: SignInId)
    | Canceled(a: SignInId)              // callback dropped unused
    | Expire(a: SignInId)
    | Withdraw(a: SignInId)
    | Serve(a: SignInId)                 // the answer is sent to the browser
    | EndSession(a: SignInId)            // it could not be sent, or the browser is gone
    | RemovePeer(a: SignInId)
    | Disconnected(a: SignInId)
    | Connect(c: ClientId, token: Token)
    | Claim(c: ClientId)
    | Deliver(c: ClientId)
    | Ask(h: RequestId, token: Token)
    | Notify(h: RequestId, c: ClientId)  // an event from a client
    | Lock(h: RequestId)
    | Unlock(h: RequestId)
    | Grab(h: RequestId)
    | Forwarded(h: RequestId)
    | Tick(d: nat)

  predicate Claims(s: State, c: ClientId, a: SignInId) {
    c in s.clients && s.clients[c].Claimed? && s.clients[c].owner == a
  }

  predicate Published(s: State, token: Token, a: SignInId) {
    token in s.suspended && s.suspended[token] == a
  }

  /** Some owner of the callback of sign-in `a` can still use it. */
  ghost predicate CallbackAlive(s: State, a: SignInId) {
    (exists token :: Published(s, token, a)) || (exists c :: Claims(s, c, a))
  }

  ghost predicate Enabled(s: State, act: Action) {
    match act
    case Begin(a, _) => a !in s.signIns
    case TakePeers(a) =>
      a in s.signIns && s.signIns[a].Joining? && !s.signIns[a].peers && s.peersLock.None?
    case TakeSuspended(a) =>
      a in s.signIns && s.signIns[a].Joining? && !s.signIns[a].suspended && s.suspendedLock.None?
    case Publish(a) =>
      a in s.signIns && s.signIns[a].Joining? && s.signIns[a].peers && s.signIns[a].suspended
    case Accept(a) => a in s.signIns && s.signIns[a].Waiting? && s.signIns[a].inbox.Some?
    case Canceled(a) =>
      a in s.signIns && s.signIns[a].Waiting? && s.signIns[a].inbox.None? && !CallbackAlive(s, a)
    case Expire(a) =>
      a in s.signIns && s.signIns[a].Waiting? && s.signIns[a].inbox.None? && s.signIns[a].deadline <= s.now
    case Withdraw(a) => a in s.signIns && s.signIns[a].TimedOut? && s.suspendedLock.None?
    case Serve(a) => a in s.signIns && s.signIns[a].SignedIn? && !s.signIns[a].served
    case EndSession(a) => a in s.signIns && s.signIns[a].SignedIn?
    case RemovePeer(a) => a in s.signIns && s.signIns[a].Closing? && s.peersLock.None?
    case Disconnected(a) => a in s.signIns && s.signIns[a].Disconnecting? && a !in s.connLock
    case Connect(c, _) => c !in s.clients
    case Claim(c) => c in s.clients && s.clients[c].Arrived? && s.suspendedLock.None?
    case Deliver(c) => c in s.clients && s.clients[c].Claimed? && s.clients[c].owner in s.signIns
    case Ask(h, _) => h !in s.requests
    case Notify(h, c) => h !in s.requests && c in s.clients && s.clients[c].Linked?
    case Lock(h) => h in s.requests && s.requests[h].Wanting? && s.peersLock.None?
    case Unlock(h) => h in s.requests && s.requests[h].Holding?
    case Grab(h) =>
      h in s.requests && s.requests[h].Queued? && s.requests[h].a in s.signIns && s.requests[h].a !in s.connLock
    case Forwarded(h) =>
      h in s.requests && s.requests[h].Forwarding? && s.requests[h].a in s.signIns &&
      s.signIns[s.requests[h].a].Polled()
    case Tick(_) => true
  }

  function SetSignIn(s: State, a: SignInId, p: SignIn): State {
    s.(signIns := s.signIns[a := p])
  }

  function SetClient(s: State, c: ClientId, p: Client): State {
    s.(clients := s.clients[c := p])
  }

  /** Both locks are held: refuse a token in use, else publish it and release one lock. */
  function PublishStep(s: State, a: SignInId): State
    requires a in s.signIns && s.signIns[a].Joining?
  {
    var token := s.signIns[a].token;
    if token in s.peers || token in s.suspended then
      SetSignIn(s, a, Rejected).(peersLock := None, suspendedLock := None)
    else
      SetSignIn(s, a, Waiting(token, s.now + PATIENCE, None)).(
        suspended := s.suspended[token := a], suspendedLock := None)
  }

  /** The client removes its token and with it takes the callback, if there is one. */
  function ClaimStep(s: State, c: ClientId): State
    requires c in s.clients && s.clients[c].Arrived?
  {
    var token := s.clients[c].token;
    if token in s.suspended then
      SetClient(s, c, Claimed(token, s.suspended[token])).(
        suspended := s.suspended - {token}, takers := s.takers[s.suspended[token] := c])
    else
      SetClient(s, c, Refused)
  }

  /** Using the callback fails exactly when the sign-in has dropped its receiver. */
  function DeliverStep(s: State, c: ClientId): State
    requires c in s.clients && s.clients[c].Claimed? && s.clients[c].owner in s.signIns
  {
    var a := s.clients[c].owner;
    if s.signIns[a].Waiting? then
      SetSignIn(SetClient(s, c, Linked(s.clients[c].token, a)), a, s.signIns[a].(inbox := Some(c)))
    else
      SetClient(s, c, Refused)
  }

  /** The lookup of a request is done under the lock that it releases. */
  function UnlockStep(s: State, h: RequestId): State
    requires h in s.requests && s.requests[h].Holding?
  {
    var token := s.requests[h].token;
    s.(peersLock := None,
       requests := s.requests[h := if token in s.peers then Queued(s.peers[token].owner) else Finished])
  }

  /** The event channel of a session that is over is closed: there is nothing to wait for. */
  function GrabStep(s: State, h: RequestId): State
    requires h in s.requests && s.requests[h].Queued? && s.requests[h].a in s.signIns
  {
    var a := s.requests[h].a;
    if s.signIns[a].Ended? then s.(requests := s.requests[h := Finished])
    else s.(requests := s.requests[h := Forwarding(a)], connLock := s.connLock[a := h])
  }

  ghost function Apply(s: State, act: Action): State
    requires Enabled(s, act)
  {
    match act
    case Begin(a, token) => SetSignIn(s, a, Joining(token, false, false))
    case TakePeers(a) =>
      SetSignIn(s, a, s.signIns[a].(peers := true)).(peersLock := Some(BySignIn(a)))
    case TakeSuspended(a) =>
      SetSignIn(s, a, s.signIns[a].(suspended := true)).(suspendedLock := Some(a))
    case Publish(a) => PublishStep(s, a)
    case Accept(a) =>
      var token, c := s.signIns[a].token, s.signIns[a].inbox.value;
      SetSignIn(s, a, SignedIn(token, c, false)).(peers := s.peers[token := Peer(a, c)], peersLock := None)
    case Canceled(a) => SetSignIn(s, a, Rejected).(peersLock := None)
    case Expire(a) => SetSignIn(s, a, TimedOut(s.signIns[a].token))
    case Withdraw(a) =>
      SetSignIn(s, a, Rejected).(suspended := s.suspended - {s.signIns[a].token}, peersLock := None)
    case Serve(a) => SetSignIn(s, a, SignedIn(s.signIns[a].token, s.signIns[a].conn, true))
    case EndSession(a) =>
      SetSignIn(s, a, Closing(s.signIns[a].token, s.signIns[a].conn, s.signIns[a].served))
    case RemovePeer(a) =>
      SetSignIn(s, a, Disconnecting(s.signIns[a].token, s.signIns[a].conn, s.signIns[a].served)).(
        peers := s.peers - {s.signIns[a].token}, peersLock := Some(BySignIn(a)))
    case Disconnected(a) =>
      SetSignIn(s, a, Ended(s.signIns[a].token, s.signIns[a].conn)).(peersLock := None)
    case Connect(c, token) => SetClient(s, c, Arrived(token))
    case Claim(c) => ClaimStep(s, c)
    case Deliver(c) => DeliverStep(s, c)
    case Ask(h, token) => s.(requests := s.requests[h := Wanting(token)])
    case Notify(h, c) => s.(requests := s.requests[h := Queued(s.clients[c].owner)])
    case Lock(h) =>
      s.(requests := s.requests[h := Holding(s.requests[h].token)], peersLock := Some(ByRequest(h)))
    case Unlock(h) => UnlockStep(s, h)
    case Grab(h) => GrabStep(s, h)
    case Forwarded(h) =>
      s.(requests := s.requests[h := Finished], connLock := s.connLock - {s.requests[h].a})
    case Tick(d) => s.(now := s.now + d)
  }

  ghost predicate Initial(s: State) {
    && s.signIns == map[] && s.clients == map[] && s.requests == map[]
    && s.peersLock.None? && s.suspendedLock.None? && s.connLock == map[] && s.suspended == map[] && s.peers == map[]
    && s.takers == map[]
  }

  ghost predicate Next(s: State, s': State) {
    exists act :: Enabled(s, act) && s' == Apply(s, act)
  }

  ghost predicate StepAt(r: seq<State>, i: int)
    requires 0 < i < |r|
  {
    Next(r[i - 1], r[i])
  }

  /** A stretch of a run, from any state. */
  ghost predicate Steps(r: seq<State>) {
    |r| > 0 && forall i :: 0 < i < |r| ==> StepAt(r, i)
  }

  ghost predicate Run(r: seq<State>) {
    Steps(r) && Initial(r[0])
  }

  // ---------- Invariant ----------

  ghost predicate SignInOk(s: State, a: SignInId)
    requires a in s.signIns
  {
    var p := s.signIns[a];
    && (p.HoldsPeers() <==> s.peersLock == Some(BySignIn(a)))
    && (p.HoldsSuspended() <==> s.suspendedLock == Some(a))
    && (p.Waiting? || p.TimedOut? ==> p.token !in s.peers)
    && (p.Waiting? && p.inbox.None? ==> Published(s, p.token, a) || (a in s.takers && Claims(s, s.takers[a], a)))
    && (p.Conn().Some? ==>
          p.Conn().value in s.clients && s.clients[p.Conn().value] == Linked(p.token, a))
    && (p.SignedIn? || p.Closing? ==> p.token in s.peers && s.peers[p.token] == Peer(a, p.conn))
  }

  ghost predicate SuspendedOk(s: State, token: Token)
    requires token in s.suspended
  {
    var a := s.suspended[token];
    && a in s.signIns
    && ((s.signIns[a].Waiting? && s.signIns[a].inbox.None?) || s.signIns[a].TimedOut?)
    && s.signIns[a].token == token
    && a !in s.takers
  }

  ghost predicate ClientOk(s: State, c: ClientId)
    requires c in s.clients
  {
    var p := s.clients[c];
    && (p.Claimed? ==>
          && p.owner in s.signIns
          && (s.signIns[p.owner].Waiting? || s.signIns[p.owner].TimedOut? || s.signIns[p.owner].Rejected?)
          && (!s.signIns[p.owner].Rejected? ==> s.signIns[p.owner].token == p.token)
          && s.signIns[p.owner].Conn().None?
          && p.owner in s.takers && s.takers[p.owner] == c)
    && (p.Linked? ==>
          && p.owner in s.signIns && s.signIns[p.owner].Conn() == Some(c)
          && s.signIns[p.owner].token == p.token)
  }

  ghost predicate PeerOk(s: State, token: Token)
    requires token in s.peers
  {
    var a := s.peers[token].owner;
    && a in s.signIns && (s.signIns[a].SignedIn? || s.signIns[a].Closing?)
    && s.signIns[a].token == token && s.signIns[a].conn == s.peers[token].conn
  }

  ghost predicate RequestOk(s: State, h: RequestId)
    requires h in s.requests
  {
    s.requests[h].Holding? <==> s.peersLock == Some(ByRequest(h))
  }

  ghost predicate LocksOk(s: State) {
    && (s.peersLock.Some? && s.peersLock.value.BySignIn? ==>
          s.peersLock.value.a in s.signIns && s.signIns[s.peersLock.value.a].HoldsPeers())
    && (s.peersLock.Some? && s.peersLock.value.ByRequest? ==>
          s.peersLock.value.h in s.requests && s.requests[s.peersLock.value.h].Holding?)
    && (s.suspendedLock.Some? ==>
          s.suspendedLock.value in s.signIns && s.signIns[s.suspendedLock.value].HoldsSuspended())
  }

  ghost predicate Inv(s: State) {
    && (forall a :: a in s.signIns ==> SignInOk(s, a))
    && (forall t :: t in s.suspended ==> SuspendedOk(s, t))
    && (forall c :: c in s.clients ==> ClientOk(s, c))
    && (forall t :: t in s.peers ==> PeerOk(s, t))
    && (forall h :: h in s.requests ==> RequestOk(s, h))
    && (forall a :: a in s.takers ==> a in s.signIns && !s.signIns[a].Joining?)
    && LocksOk(s)
  }

  lemma BeginKeeps(s: State, a: SignInId, token: Token)
    requires Inv(s) && Enabled(s, Begin(a, token))
    ensures Inv(Apply(s, Begin(a, token)))
  {
    var s' := Apply(s, Begin(a, token));
    forall b | b in s'.signIns ensures SignInOk(s', b) { if b in s.signIns { assert SignInOk(s, b); } }
    forall t | t in s'.suspended ensures SuspendedOk(s', t) { if t in s.suspended { assert SuspendedOk(s, t); } }
    forall d | d in s'.clients ensures ClientOk(s', d) { if d in s.clients { assert ClientOk(s, d); } }
    forall t | t in s'.peers ensures PeerOk(s', t) { if t in s.peers { assert PeerOk(s, t); } }
    forall k | k in s'.requests ensures RequestOk(s', k) { if k in s.requests { assert RequestOk(s, k); } }
  }

  /** What the rest of the state relies on when a sign-in goes on. */
  predicate GoesOn(p: SignIn, q: SignIn) {
    && !q.Rejected? && !p.Rejected? && q.token == p.token && q.Conn() == p.Conn()
    && (q.Joining? ==> p.Joining?)
    && (p.Waiting? || p.TimedOut? ==> q.Waiting? || q.TimedOut?)
    && (p.SignedIn? || p.Closing? ==> q.SignedIn? || q.Closing?)
  }

  /** Only sign-in `a` changes, and the locks that it takes or releases. */
  lemma OneSignIn(s: State, s': State, a: SignInId)
    requires Inv(s) && a in s.signIns && a in s'.signIns && s'.signIns == s.signIns[a := s'.signIns[a]]
    requires s' == s.(signIns := s'.signIns, peersLock := s'.peersLock, suspendedLock := s'.suspendedLock)
    requires GoesOn(s.signIns[a], s'.signIns[a]) && SignInOk(s', a) && LocksOk(s')
    requires s'.peersLock != s.peersLock ==>
               (s.peersLock.None? || s.peersLock == Some(BySignIn(a))) &&
               (s'.peersLock.None? || s'.peersLock == Some(BySignIn(a)))
    requires s'.suspendedLock != s.suspendedLock ==>
               (s.suspendedLock.None? || s.suspendedLock == Some(a)) &&
               (s'.suspendedLock.None? || s'.suspendedLock == Some(a))
    ensures Inv(s')
  {
    forall b | b in s'.signIns ensures SignInOk(s', b) { assert SignInOk(s, b); }
    forall t | t in s'.suspended ensures SuspendedOk(s', t) { assert SuspendedOk(s, t); }
    forall d | d in s'.clients ensures ClientOk(s', d) { assert ClientOk(s, d); }
    forall t | t in s'.peers ensures PeerOk(s', t) { assert PeerOk(s, t); }
    forall k | k in s'.requests ensures RequestOk(s', k) { assert RequestOk(s, k); }
  }

  lemma TakePeersKeeps(s: State, a: SignInId)
    requires Inv(s) && Enabled(s, TakePeers(a))
    ensures Inv(Apply(s, TakePeers(a)))
  {
    assert SignInOk(s, a);
    OneSignIn(s, Apply(s, TakePeers(a)), a);
  }

  lemma TakeSuspendedKeeps(s: State, a: SignInId)
    requires Inv(s) && Enabled(s, TakeSuspended(a))
    ensures Inv(Apply(s, TakeSuspended(a)))
  {
    assert SignInOk(s, a);
    OneSignIn(s, Apply(s, TakeSuspended(a)), a);
  }

  lemma PublishKeeps(s: State, a: SignInId)
    requires Inv(s) && Enabled(s, Publish(a))
    ensures Inv(Apply(s, Publish(a)))
  {
    var token := s.signIns[a].token;
    assert SignInOk(s, a);
    if token in s.peers || token in s.suspended {
      RefuseKeeps(s, a);
    } else {
      PublishTokenKeeps(s, a);
    }
  }

  lemma RefuseKeeps(s: State, a: SignInId)
    requires Inv(s) && Enabled(s, Publish(a))
    requires s.signIns[a].token in s.peers || s.signIns[a].token in s.suspended
    ensures Inv(Apply(s, Publish(a)))
  {
    var s' := Apply(s, Publish(a));
    assert SignInOk(s, a);
    forall b | b in s'.signIns ensures SignInOk(s', b) { assert SignInOk(s, b); }
    forall d | d in s'.clients ensures ClientOk(s', d) { assert ClientOk(s, d); }
    forall t | t in s'.peers ensures PeerOk(s', t) { assert PeerOk(s, t); }
    forall k | k in s'.requests ensures RequestOk(s', k) { assert RequestOk(s, k); }
  }

  lemma PublishTokenKeeps(s: State, a: SignInId)
    requires Inv(s) && Enabled(s, Publish(a))
    requires s.signIns[a].token !in s.peers && s.signIns[a].token !in s.suspended
    ensures Inv(Apply(s, Publish(a)))
  {
    var s' := Apply(s, Publish(a));
    assert SignInOk(s, a);
    forall b | b in s'.signIns ensures SignInOk(s', b) { assert SignInOk(s, b); }
    forall t | t in s'.suspended ensures SuspendedOk(s', t) { }
    forall d | d in s'.clients ensures ClientOk(s', d) { assert ClientOk(s, d); }
    forall t | t in s'.peers ensures PeerOk(s', t) { assert PeerOk(s, t); }
    forall k | k in s'.requests ensures RequestOk(s', k) { assert RequestOk(s, k); }
  }

  lemma AcceptKeeps(s: State, a: SignInId)
    requires Inv(s) && Enabled(s, Accept(a))
    ensures Inv(Apply(s, Accept(a)))
  {
    var s' := Apply(s, Accept(a));
    forall b | b in s'.signIns ensures SignInOk(s', b) { if b in s.signIns { assert SignInOk(s, b); } }
    forall d | d in s'.clients ensures ClientOk(s', d) { if d in s.clients { assert ClientOk(s, d); } }
    forall t | t in s'.peers ensures PeerOk(s', t) { if t in s.peers { assert PeerOk(s, t); } }
    forall k | k in s'.requests ensures RequestOk(s', k) { if k in s.requests { assert RequestOk(s, k); } }
  }

  lemma ExpireKeeps(s: State, a: SignInId)
    requires Inv(s) && Enabled(s, Expire(a))
    ensures Inv(Apply(s, Expire(a)))
  {
    assert SignInOk(s, a);
    OneSignIn(s, Apply(s, Expire(a)), a);
  }

  lemma WithdrawKeeps(s: State, a: SignInId)
    requires Inv(s) && Enabled(s, Withdraw(a))
    ensures Inv(Apply(s, Withdraw(a)))
  {
    var s' := Apply(s, Withdraw(a));
    forall b | b in s'.signIns ensures SignInOk(s', b) { if b in s.signIns { assert SignInOk(s, b); } }
    forall d | d in s'.clients ensures ClientOk(s', d) { if d in s.clients { assert ClientOk(s, d); } }
    forall t | t in s'.peers ensures PeerOk(s', t) { if t in s.peers { assert PeerOk(s, t); } }
    forall k | k in s'.requests ensures RequestOk(s', k) { if k in s.requests { assert RequestOk(s, k); } }
  }

  lemma ServeKeeps(s: State, a: SignInId)
    requires Inv(s) && Enabled(s, Serve(a))
    ensures Inv(Apply(s, Serve(a)))
  {
    assert SignInOk(s, a);
    OneSignIn(s, Apply(s, Serve(a)), a);
  }

  lemma EndSessionKeeps(s: State, a: SignInId)
    requires Inv(s) && Enabled(s, EndSession(a))
    ensures Inv(Apply(s, EndSession(a)))
  {
    assert SignInOk(s, a);
    OneSignIn(s, Apply(s, EndSession(a)), a);
  }

  lemma RemovePeerKeeps(s: State, a: SignInId)
    requires Inv(s) && Enabled(s, RemovePeer(a))
    ensures Inv(Apply(s, RemovePeer(a)))
  {
    var s' := Apply(s, RemovePeer(a));
    forall b | b in s'.signIns ensures SignInOk(s', b) { if b in s.signIns { assert SignInOk(s, b); } }
    forall d | d in s'.clients ensures ClientOk(s', d) { if d in s.clients { assert ClientOk(s, d); } }
    forall t | t in s'.peers ensures PeerOk(s', t) { if t in s.peers { assert PeerOk(s, t); } }
    forall k | k in s'.requests ensures RequestOk(s', k) { if k in s.requests { assert RequestOk(s, k); } }
  }

  lemma DisconnectedKeeps(s: State, a: SignInId)
    requires Inv(s) && Enabled(s, Disconnected(a))
    ensures Inv(Apply(s, Disconnected(a)))
  {
    assert SignInOk(s, a);
    OneSignIn(s, Apply(s, Disconnected(a)), a);
  }

  lemma ConnectKeeps(s: State, c: ClientId, token: Token)
    requires Inv(s) && Enabled(s, Connect(c, token))
    ensures Inv(Apply(s, Connect(c, token)))
  {
  }

  lemma ClaimKeeps(s: State, c: ClientId)
    requires Inv(s) && Enabled(s, Claim(c))
    ensures Inv(Apply(s, Claim(c)))
  {
    var s' := Apply(s, Claim(c));
    var token := s.clients[c].token;
    if token in s.suspended {
      assert SuspendedOk(s, token);
      assert SignInOk(s, s.suspended[token]);
      TakeCallbackKeeps(s, c, token, s.suspended[token]);
    } else {
      forall b | b in s'.signIns ensures SignInOk(s', b) { assert SignInOk(s, b); }
      forall t | t in s'.suspended ensures SuspendedOk(s', t) { assert SuspendedOk(s, t); }
      forall d | d in s'.clients ensures ClientOk(s', d) { assert ClientOk(s, d); }
      forall t | t in s'.peers ensures PeerOk(s', t) { assert PeerOk(s, t); }
      forall k | k in s'.requests ensures RequestOk(s', k) { assert RequestOk(s, k); }
    }
  }

  lemma TakeCallbackKeeps(s: State, c: ClientId, token: Token, a: SignInId)
    requires Inv(s) && Enabled(s, Claim(c)) && token == s.clients[c].token && Published(s, token, a)
    ensures Inv(Apply(s, Claim(c)))
  {
    var s' := Apply(s, Claim(c));
    assert SuspendedOk(s, token);
    assert SignInOk(s, a);
    forall b | b in s'.signIns ensures SignInOk(s', b) { assert SignInOk(s, b); }
    forall t | t in s'.suspended ensures SuspendedOk(s', t) {
      assert SuspendedOk(s, t);
      assert SignInOk(s, s.suspended[t]);
    }
    forall d | d in s'.clients ensures ClientOk(s', d) { assert ClientOk(s, d); }
    forall t | t in s'.peers ensures PeerOk(s', t) { assert PeerOk(s, t); }
    forall k | k in s'.requests ensures RequestOk(s', k) { assert RequestOk(s, k); }
  }

  lemma DeliverKeeps(s: State, c: ClientId)
    requires Inv(s) && Enabled(s, Deliver(c))
    ensures Inv(Apply(s, Deliver(c)))
  {
    if s.signIns[s.clients[c].owner].Waiting? { DeliverAccepted(s, c); } else { DeliverRefused(s, c); }
  }

  lemma DeliverAccepted(s: State, c: ClientId)
    requires Inv(s) && Enabled(s, Deliver(c)) && s.signIns[s.clients[c].owner].Waiting?
    ensures Inv(DeliverStep(s, c))
  {
    var s' := DeliverStep(s, c);
    assert ClientOk(s, c);
    forall b | b in s'.signIns ensures SignInOk(s', b) { DeliverSignIn(s, c, b); }
    forall d | d in s'.clients ensures ClientOk(s', d) { DeliverClient(s, c, d); }
    forall t | t in s'.peers ensures PeerOk(s', t) { assert PeerOk(s, t); }
    forall k | k in s'.requests ensures RequestOk(s', k) { assert RequestOk(s, k); }
  }

  lemma DeliverRefused(s: State, c: ClientId)
    requires Inv(s) && Enabled(s, Deliver(c)) && !s.signIns[s.clients[c].owner].Waiting?
    ensures Inv(DeliverStep(s, c))
  {
    var s' := DeliverStep(s, c);
    forall b | b in s'.signIns ensures SignInOk(s', b) { DeliverSignIn(s, c, b); }
    forall t | t in s'.suspended ensures SuspendedOk(s', t) { assert SuspendedOk(s, t); }
    forall d | d in s'.clients ensures ClientOk(s', d) { DeliverClient(s, c, d); }
    forall t | t in s'.peers ensures PeerOk(s', t) { assert PeerOk(s, t); }
    forall k | k in s'.requests ensures RequestOk(s', k) { assert RequestOk(s, k); }
  }

  lemma DeliverClient(s: State, c: ClientId, d: ClientId)
    requires Inv(s) && Enabled(s, Deliver(c)) && d in s.clients
    ensures ClientOk(Apply(s, Deliver(c)), d)
  {
    assert ClientOk(s, c);
    assert ClientOk(s, d);
  }

  lemma DeliverSignIn(s: State, c: ClientId, b: SignInId)
    requires Inv(s) && Enabled(s, Deliver(c)) && b in s.signIns
    ensures SignInOk(Apply(s, Deliver(c)), b)
  {
    assert ClientOk(s, c);
    assert SignInOk(s, b);
  }

  /** Only requests that do not hold the peer map change, and the locks of connections. */
  lemma RequestsOnly(s: State, s': State)
    requires Inv(s) && s' == s.(requests := s'.requests, connLock := s'.connLock)
    requires s.requests.Keys <= s'.requests.Keys
    requires forall k :: k in s'.requests ==>
               (s'.requests[k].Holding? <==> k in s.requests && s.requests[k].Holding?)
    ensures Inv(s')
  {
    forall b | b in s'.signIns ensures SignInOk(s', b) { assert SignInOk(s, b); }
    forall t | t in s'.suspended ensures SuspendedOk(s', t) { assert SuspendedOk(s, t); }
    forall d | d in s'.clients ensures ClientOk(s', d) { assert ClientOk(s, d); }
    forall t | t in s'.peers ensures PeerOk(s', t) { assert PeerOk(s, t); }
    forall k | k in s'.requests ensures RequestOk(s', k) {
      if k in s.requests { assert RequestOk(s, k); } else { assert s.peersLock != Some(ByRequest(k)); }
    }
  }

  lemma AskKeeps(s: State, h: RequestId, token: Token)
    requires Inv(s) && Enabled(s, Ask(h, token))
    ensures Inv(Apply(s, Ask(h, token)))
  {
    RequestsOnly(s, s.(requests := s.requests[h := Wanting(token)]));
  }

  lemma NotifyKeeps(s: State, h: RequestId, c: ClientId)
    requires Inv(s) && Enabled(s, Notify(h, c))
    ensures Inv(Apply(s, Notify(h, c)))
  {
    RequestsOnly(s, s.(requests := s.requests[h := Queued(s.clients[c].owner)]));
  }

  lemma GrabKeeps(s: State, h: RequestId)
    requires Inv(s) && Enabled(s, Grab(h))
    ensures Inv(Apply(s, Grab(h)))
  {
    RequestsOnly(s, GrabStep(s, h));
  }

  lemma ForwardedKeeps(s: State, h: RequestId)
    requires Inv(s) && Enabled(s, Forwarded(h))
    ensures Inv(Apply(s, Forwarded(h)))
  {
    RequestsOnly(s, Apply(s, Forwarded(h)));
  }

  lemma LockKeeps(s: State, h: RequestId)
    requires Inv(s) && Enabled(s, Lock(h))
    ensures Inv(Apply(s, Lock(h)))
  {
  }

  lemma UnlockKeeps(s: State, h: RequestId)
    requires Inv(s) && Enabled(s, Unlock(h))
    ensures Inv(Apply(s, Unlock(h)))
  {
  }

  lemma TickKeeps(s: State, d: nat)
    requires Inv(s) && Enabled(s, Tick(d))
    ensures Inv(Apply(s, Tick(d)))
  {
  }

  lemma SignInKeeps(s: State, act: Action)
    requires Inv(s) && Enabled(s, act) && Actor(act).Some?
    ensures Inv(Apply(s, act))
  {
    match act
    case TakePeers(a) => TakePeersKeeps(s, a);
    case TakeSuspended(a) => TakeSuspendedKeeps(s, a);
    case Publish(a) => PublishKeeps(s, a);
    case Accept(a) => AcceptKeeps(s, a);
    case Expire(a) => ExpireKeeps(s, a);
    case Withdraw(a) => WithdrawKeeps(s, a);
    case Serve(a) => ServeKeeps(s, a);
    case EndSession(a) => EndSessionKeeps(s, a);
    case RemovePeer(a) => RemovePeerKeeps(s, a);
    case Disconnected(a) => DisconnectedKeeps(s, a);
    case Canceled(a) => CallbackKept(s, a); assert false;
  }

  lemma StepKeepsInv(s: State, act: Action)
    requires Inv(s) && Enabled(s, act)
    ensures Inv(Apply(s, act))
  {
    if Actor(act).Some? {
      SignInKeeps(s, act);
    } else {
      match act
      case Begin(a, token) => BeginKeeps(s, a, token);
      case Connect(c, token) => ConnectKeeps(s, c, token);
      case Claim(c) => ClaimKeeps(s, c);
      case Deliver(c) => DeliverKeeps(s, c);
      case Ask(h, token) => AskKeeps(s, h, token);
      case Notify(h, c) => NotifyKeeps(s, h, c);
      case Grab(h) => GrabKeeps(s, h);
      case Forwarded(h) => ForwardedKeeps(s, h);
      case Lock(h) => LockKeeps(s, h);
      case Unlock(h) => UnlockKeeps(s, h);
      case Tick(d) => TickKeeps(s, d);
    }
  }

  lemma CallbackKept(s: State, a: SignInId)
    requires Inv(s)
    ensures !Enabled(s, Canceled(a))
  {
    if a in s.signIns { assert SignInOk(s, a); }
  }

  /** Request `h` knows a session that has its connection, and if it forwards, it owns the lock. */
  ghost predicate UserOk(s: State, h: RequestId)
    requires h in s.requests
  {
    var p := s.requests[h];
    && (p.Queued? || p.Forwarding? ==> Connected(s, p.a))
    && (p.Forwarding? ==> p.a in s.connLock && s.connLock[p.a] == h)
  }

  predicate Connected(s: State, a: SignInId) { a in s.signIns && s.signIns[a].Conn().Some? }

  /** The lock of a connection is held by a request that forwards to it, in an open session. */
  ghost predicate ConnOk(s: State, a: SignInId)
    requires a in s.connLock
  {
    && s.connLock[a] in s.requests && s.requests[s.connLock[a]] == Forwarding(a)
    && a in s.signIns && !s.signIns[a].Ended?
  }

  ghost predicate ConnInv(s: State) {
    && (forall h :: h in s.requests ==> UserOk(s, h))
    && (forall a :: a in s.connLock ==> ConnOk(s, a))
  }

  /** The sign-in whose own step an action is. */
  function Actor(act: Action): Option<SignInId> {
    match act
    case TakePeers(a) => Some(a)
    case TakeSuspended(a) => Some(a)
    case Publish(a) => Some(a)
    case Accept(a) => Some(a)
    case Canceled(a) => Some(a)
    case Expire(a) => Some(a)
    case Withdraw(a) => Some(a)
    case Serve(a) => Some(a)
    case EndSession(a) => Some(a)
    case RemovePeer(a) => Some(a)
    case Disconnected(a) => Some(a)
    case _ => None
  }

  /** A connection once received is kept, and its session ends when its lock is free. */
  lemma ConnectedStays(s: State, act: Action, a: SignInId)
    requires Enabled(s, act) && Connected(s, a)
    ensures Connected(Apply(s, act), a)
    ensures a in s.connLock && !s.signIns[a].Ended? ==> !Apply(s, act).signIns[a].Ended?
  {
    if Actor(act).Some? { ConnectedStaysBySignIn(s, act, a); }
  }

  lemma ConnectedStaysBySignIn(s: State, act: Action, a: SignInId)
    requires Enabled(s, act) && Connected(s, a) && Actor(act).Some?
    ensures Connected(Apply(s, act), a)
    ensures a in s.connLock && !s.signIns[a].Ended? ==> !Apply(s, act).signIns[a].Ended?
  {
    if OfSession(act) { ConnectedStaysInSession(s, act, a); }
  }

  lemma ConnectedStaysInSession(s: State, act: Action, a: SignInId)
    requires Enabled(s, act) && Connected(s, a) && OfSession(act)
    ensures Connected(Apply(s, act), a)
    ensures a in s.connLock && !s.signIns[a].Ended? ==> !Apply(s, act).signIns[a].Ended?
  {
  }

  predicate ByARequest(act: Action) {
    act.Ask? || act.Notify? || act.Lock? || act.Unlock? || act.Grab? || act.Forwarded?
  }

  /** A request changes requests and the two locks that it may own, the peer map's only from
      free to taken, or from its own to free. */
  lemma RequestFrame(s: State, act: Action)
    requires Enabled(s, act) && ByARequest(act)
    ensures var s' := Apply(s, act);
            && s' == s.(requests := s'.requests, peersLock := s'.peersLock, connLock := s'.connLock)
            && (s'.peersLock == s.peersLock || s.peersLock.None? || (act.Unlock? && s'.peersLock.None?))
  {
    match act
    case Unlock(h) => assert Apply(s, act) == UnlockStep(s, h);
    case Grab(h) => assert Apply(s, act) == GrabStep(s, h);
    case _ =>
  }

  /** Who owns the peer map as a sign-in keeps it, whatever requests do. */
  lemma RequestKeepsPeersLock(s: State, act: Action)
    requires Inv(s) && Enabled(s, act) && ByARequest(act) && s.peersLock.Some? && s.peersLock.value.BySignIn?
    ensures Apply(s, act).peersLock == s.peersLock
  {
    RequestFrame(s, act);
  }

  lemma OthersLeaveRequests(s: State, act: Action)
    requires Enabled(s, act) && !ByARequest(act)
    ensures Apply(s, act).requests == s.requests && Apply(s, act).connLock == s.connLock
  {
    if Actor(act).Some? { SignInsLeaveRequests(s, act); }
  }

  lemma SignInsLeaveRequests(s: State, act: Action)
    requires Enabled(s, act) && Actor(act).Some?
    ensures Apply(s, act).requests == s.requests && Apply(s, act).connLock == s.connLock
  {
    if OfSession(act) {
      SessionsLeaveRequests(s, act);
    } else if act.Publish? {
      assert PublishStep(s, act.a).requests == s.requests && PublishStep(s, act.a).connLock == s.connLock;
    }
  }

  predicate OfSession(act: Action) {
    act.Accept? || act.Serve? || act.EndSession? || act.RemovePeer? || act.Disconnected?
  }

  lemma SessionsLeaveRequests(s: State, act: Action)
    requires Enabled(s, act) && OfSession(act)
    ensures Apply(s, act).requests == s.requests && Apply(s, act).connLock == s.connLock
  {
  }

  lemma ConnKeeps(s: State, act: Action)
    requires Inv(s) && ConnInv(s) && Enabled(s, act)
    ensures ConnInv(Apply(s, act))
  {
    if ByARequest(act) {
      RequestConn(s, act);
    } else {
      OthersConn(s, act);
    }
  }

  lemma OthersConn(s: State, act: Action)
    requires ConnInv(s) && Enabled(s, act) && !ByARequest(act)
    ensures ConnInv(Apply(s, act))
  {
    OthersLeaveRequests(s, act);
    var s' := Apply(s, act);
    forall h | h in s'.requests ensures UserOk(s', h) {
      assert UserOk(s, h);
      if s.requests[h].Queued? || s.requests[h].Forwarding? { ConnectedStays(s, act, s.requests[h].a); }
    }
    forall a | a in s'.connLock ensures ConnOk(s', a) {
      assert ConnOk(s, a) && UserOk(s, s.connLock[a]);
      ConnectedStays(s, act, a);
    }
  }

  lemma RequestConn(s: State, act: Action)
    requires Inv(s) && ConnInv(s) && Enabled(s, act) && ByARequest(act)
    ensures ConnInv(Apply(s, act))
  {
    match act
    case Ask(h, _) => OneRequest(s, Apply(s, act), h);
    case Notify(h, c) => assert ClientOk(s, c); OneRequest(s, Apply(s, act), h);
    case Lock(h) => OneRequest(s, Apply(s, act), h);
    case Unlock(h) => UnlockConn(s, h);
    case Grab(h) => GrabConn(s, h);
    case Forwarded(h) => ForwardedConn(s, h);
  }

  /** Only request `h` changes, which has no connection's lock. */
  lemma OneRequest(s: State, s': State, h: RequestId)
    requires ConnInv(s) && h in s'.requests && s'.requests == s.requests[h := s'.requests[h]]
    requires s'.signIns == s.signIns && s'.connLock == s.connLock
    requires h in s.requests ==> !s.requests[h].Forwarding?
    requires UserOk(s', h)
    ensures ConnInv(s')
  {
    forall k | k in s'.requests ensures UserOk(s', k) { if k != h { assert UserOk(s, k); } }
    forall a | a in s'.connLock ensures ConnOk(s', a) { assert ConnOk(s, a); }
  }

  lemma UnlockConn(s: State, h: RequestId)
    requires Inv(s) && ConnInv(s) && Enabled(s, Unlock(h))
    ensures ConnInv(Apply(s, Unlock(h)))
  {
    if s.requests[h].token in s.peers { assert PeerOk(s, s.requests[h].token); }
    OneRequest(s, UnlockStep(s, h), h);
  }

  lemma GrabConn(s: State, h: RequestId)
    requires ConnInv(s) && Enabled(s, Grab(h))
    ensures ConnInv(GrabStep(s, h))
  {
    var s' := GrabStep(s, h);
    assert UserOk(s, h);
    forall k | k in s'.requests ensures UserOk(s', k) { assert UserOk(s, k); }
    forall a | a in s'.connLock ensures ConnOk(s', a) { if a in s.connLock { assert ConnOk(s, a); } }
  }

  lemma ForwardedConn(s: State, h: RequestId)
    requires ConnInv(s) && Enabled(s, Forwarded(h))
    ensures ConnInv(Apply(s, Forwarded(h)))
  {
    var s' := Apply(s, Forwarded(h));
    assert UserOk(s, h);
    forall k | k in s'.requests ensures UserOk(s', k) { assert UserOk(s, k); }
    forall a | a in s'.connLock ensures ConnOk(s', a) { assert ConnOk(s, a); }
  }

  lemma {:induction false} RunInv(r: seq<State>, i: nat)
    requires Run(r) && i < |r|
    ensures Inv(r[i]) && ConnInv(r[i])
  {
    if i == 0 {
    } else {
      RunInv(r, i - 1);
      assert StepAt(r, i);
      NextKeepsInv(r[i - 1], r[i]);
    }
  }

  lemma NextKeepsInv(s: State, s': State)
    requires Inv(s) && ConnInv(s) && Next(s, s')
    ensures Inv(s') && ConnInv(s')
  {
    var act :| Enabled(s, act) && s' == Apply(s, act);
    StepKeepsInv(s, act);
    ConnKeeps(s, act);
  }

  /** The callback of a waiting sign-in is never dropped unused. */
  lemma NeverCanceled(r: seq<State>, i: nat, a: SignInId)
    requires Run(r) && i < |r|
    ensures !Enabled(r[i], Canceled(a))
  {
    RunInv(r, i);
    CallbackKept(r[i], a);
  }

  // ---------- Token ownership ----------

  /** The sign-in is in progress or signed in under its token. */
  predicate OwnsToken(p: SignIn) { p.Waiting? || p.TimedOut? || p.SignedIn? || p.Closing? }

  /** Whatever tokens the generator returns: no two sign-ins own one token, no token is in both
      maps, and every peer's connection was claimed with the peer's token by one client only. */
  lemma TokenOwnership(r: seq<State>, i: nat)
    requires Run(r) && i < |r|
    ensures forall a, b | a in r[i].signIns && b in r[i].signIns && a != b ::
              OwnsToken(r[i].signIns[a]) && OwnsToken(r[i].signIns[b]) ==>
                r[i].signIns[a].token != r[i].signIns[b].token
    ensures r[i].suspended.Keys !! r[i].peers.Keys
    ensures forall t :: t in r[i].peers ==> ClaimedOnce(r[i], t)
  {
    var s := r[i];
    RunInv(r, i);
    forall a, b | a in s.signIns && b in s.signIns && a != b &&
                  OwnsToken(s.signIns[a]) && OwnsToken(s.signIns[b])
      ensures s.signIns[a].token != s.signIns[b].token
    {
      assert SignInOk(s, a) && SignInOk(s, b);
    }
    forall t | t in s.suspended ensures t !in s.peers {
      assert SuspendedOk(s, t) && SignInOk(s, s.suspended[t]);
    }
    forall t | t in s.peers ensures ClaimedOnce(s, t) {
      assert PeerOk(s, t) && SignInOk(s, s.peers[t].owner);
      forall c | c in s.clients && s.clients[c].Linked? && s.clients[c].owner == s.peers[t].owner
        ensures c == s.peers[t].conn
      {
        assert ClientOk(s, c);
      }
    }
  }

  /** The peer of token `t` uses a connection that its client claimed with `t`, for the owner
      of the peer, and no other client was linked to that owner. */
  ghost predicate ClaimedOnce(s: State, t: Token)
    requires t in s.peers
  {
    var peer := s.peers[t];
    && peer.conn in s.clients && s.clients[peer.conn] == Linked(t, peer.owner)
    && forall c :: c in s.clients && s.clients[c].Linked? && s.clients[c].owner == peer.owner ==> c == peer.conn
  }

  /** No step overwrites an entry of the peer map, and an entry goes away only by the
      teardown of its own sign-in. */
  lemma PeersNeverOverwritten(r: seq<State>, i: nat, t: Token)
    requires Run(r) && i + 1 < |r|
    ensures PeerKept(r[i], r[i + 1], t)
  {
    RunInv(r, i);
    assert StepAt(r, i + 1);
    var act :| Enabled(r[i], act) && r[i + 1] == Apply(r[i], act);
    PeersStep(r[i], act, t);
  }

  ghost predicate PeerKept(s: State, s': State, t: Token) {
    t in s.peers ==>
      if t in s'.peers then s'.peers[t] == s.peers[t]
      else
        var a := s.peers[t].owner;
        a in s.signIns && a in s'.signIns && s.signIns[a].Closing? && s'.signIns[a].Disconnecting?
  }

  lemma PeersStep(s: State, act: Action, t: Token)
    requires Inv(s) && Enabled(s, act)
    ensures PeerKept(s, Apply(s, act), t)
  {
    if act.Accept? {
      InsertNewPeer(s, act.a, t);
    } else if act.RemovePeer? {
      RemoveOwnPeer(s, act.a, t);
    } else {
      OtherSteps(s, act);
    }
  }

  lemma OtherSteps(s: State, act: Action)
    requires Enabled(s, act) && !act.Accept? && !act.RemovePeer?
    ensures Apply(s, act).peers == s.peers
  {
    if ByARequest(act) {
      RequestsLeavePeers(s, act);
    } else if Actor(act).Some? {
      SignInsLeavePeers(s, act);
    }
  }

  lemma SessionsLeavePeers(s: State, act: Action)
    requires Enabled(s, act) && OfSession(act) && !act.Accept? && !act.RemovePeer?
    ensures Apply(s, act).peers == s.peers
  {
  }

  lemma SignInsLeavePeers(s: State, act: Action)
    requires Enabled(s, act) && Actor(act).Some? && !act.Accept? && !act.RemovePeer?
    ensures Apply(s, act).peers == s.peers
  {
    if OfSession(act) {
      SessionsLeavePeers(s, act);
    } else if act.Publish? {
      assert PublishStep(s, act.a).peers == s.peers;
    }
  }

  lemma RequestsLeavePeers(s: State, act: Action)
    requires Enabled(s, act) && ByARequest(act)
    ensures Apply(s, act).peers == s.peers
  {
    RequestFrame(s, act);
  }

  lemma InsertNewPeer(s: State, a: SignInId, t: Token)
    requires Inv(s) && Enabled(s, Accept(a))
    ensures PeerKept(s, Apply(s, Accept(a)), t)
  {
    assert SignInOk(s, a);
  }

  lemma RemoveOwnPeer(s: State, a: SignInId, t: Token)
    requires Inv(s) && Enabled(s, RemovePeer(a))
    ensures PeerKept(s, Apply(s, RemovePeer(a)), t)
  {
    assert SignInOk(s, a);
  }

  // ---------- Progress of the locks ----------

  function Later(s: State, d: nat): State { s.(now := s.now + d) }

  /** The action is impossible now and stays so by the passing of time alone. */
  ghost predicate Impossible(s: State, act: Action) {
    forall d: nat :: !Enabled(Later(s, d), act)
  }

  /** The sign-in has no step now, nor after any time alone. */
  ghost predicate Frozen(s: State, a: SignInId) {
    forall act :: Actor(act) == Some(a) ==> Impossible(s, act)
  }

  lemma NotNow(s: State, act: Action, d: nat)
    requires Impossible(s, act)
    ensures !Enabled(Later(s, d), act) && !Enabled(s, act)
  {
    assert Later(s, 0) == s;
  }

  /** The request has no step; the time is of no importance to it. */
  ghost predicate RequestFrozen(s: State, h: RequestId) {
    !Enabled(s, Lock(h)) && !Enabled(s, Unlock(h)) && !Enabled(s, Grab(h)) && !Enabled(s, Forwarded(h))
  }

  /** Sign-in `a` tears its session down and waits for the lock of its connection. */
  predicate WantsConn(s: State, a: SignInId) {
    a in s.signIns && s.signIns[a].Disconnecting? && a in s.connLock
  }

  /** Somebody waits for a lock that is held. */
  ghost predicate SomeoneWaits(s: State) {
    || (exists a :: a in s.signIns && s.signIns[a].WantsPeers() && s.peersLock.Some?)
    || (exists a :: a in s.signIns && s.signIns[a].WantsSuspended() && s.suspendedLock.Some?)
    || (exists a :: WantsConn(s, a))
    || (exists c :: c in s.clients && s.clients[c].Arrived? && s.suspendedLock.Some?)
    || (exists h :: h in s.requests && s.requests[h].Wanting? && s.peersLock.Some?)
  }

  /** Deadlock: somebody waits for a held lock, no owner of the two locks can step, nor can the
      owner of a connection's lock that the owner of the peer map waits for. */
  ghost predicate Deadlocked(s: State) {
    && SomeoneWaits(s)
    && (s.peersLock.Some? ==>
          if s.peersLock.value.BySignIn? then Frozen(s, s.peersLock.value.a)
          else RequestFrozen(s, s.peersLock.value.h))
    && (s.suspendedLock.Some? ==> Frozen(s, s.suspendedLock.value))
    && (forall a :: WantsConn(s, a) ==> RequestFrozen(s, s.connLock[a]))
  }

  /** A sign-in whose answer could not be sent owns the peer map and wants its connection; a
      request holds that and waits until its event is taken, which nobody does. */
  ghost predicate Jam(s: State, a: SignInId) {
    && WantsConn(s, a) && !s.signIns[a].served && s.peersLock == Some(BySignIn(a))
  }

  /** One sign-in owns the peer map and wants the suspended clients, in its `join!` or after
      its timeout; another owns the suspended clients inside its `join!`. */
  ghost predicate Cycle(s: State, a: SignInId, b: SignInId) {
    && a in s.signIns && b in s.signIns && a != b
    && s.peersLock == Some(BySignIn(a)) && s.suspendedLock == Some(b)
    && (s.signIns[a].TimedOut? || (s.signIns[a].Joining? && s.signIns[a].peers && !s.signIns[a].suspended))
    && s.signIns[b].Joining? && s.signIns[b].suspended && !s.signIns[b].peers
  }

  /** Who waits for a held lock, having nothing else to do, cannot step. */
  lemma WaiterFrozen(s: State, a: SignInId)
    requires a in s.signIns
    requires var p := s.signIns[a];
             || (p.Joining? && p.peers && !p.suspended && s.suspendedLock.Some?)
             || (p.Joining? && p.suspended && !p.peers && s.peersLock.Some?)
             || (p.TimedOut? && s.suspendedLock.Some?)
             || WantsConn(s, a)
    ensures Frozen(s, a)
  {
  }

  /** While the peer map is held, the owner of the suspended clients waits for it. */
  lemma SuspendedOwner(s: State, b: SignInId)
    requires Inv(s) && s.suspendedLock == Some(b)
    requires s.peersLock.Some? && s.peersLock != Some(BySignIn(b))
    ensures Frozen(s, b)
  {
    assert SignInOk(s, b);
    WaiterFrozen(s, b);
  }

  lemma OnlyPeersOwnerWantsConn(s: State, a: SignInId, c: SignInId)
    requires Inv(s) && s.peersLock == Some(BySignIn(a)) && WantsConn(s, c)
    ensures c == a
  {
    assert SignInOk(s, c);
  }

  lemma CycleDeadlocks(s: State, a: SignInId, b: SignInId)
    requires Inv(s) && Cycle(s, a, b)
    ensures Deadlocked(s)
  {
    WaiterFrozen(s, a);
    WaiterFrozen(s, b);
    forall c | WantsConn(s, c) ensures false { OnlyPeersOwnerWantsConn(s, a, c); }
  }

  lemma JamDeadlocks(s: State, a: SignInId)
    requires Inv(s) && ConnInv(s) && Jam(s, a)
    ensures Deadlocked(s)
  {
    WaiterFrozen(s, a);
    if s.suspendedLock.Some? { OtherSuspended(s, a); SuspendedOwner(s, s.suspendedLock.value); }
    forall c | WantsConn(s, c) ensures RequestFrozen(s, s.connLock[c]) {
      OnlyPeersOwnerWantsConn(s, a, c);
      JamHolder(s, a);
    }
  }

  /** Nobody takes the event of the request that has the lock. */
  lemma JamHolder(s: State, a: SignInId)
    requires ConnInv(s) && Jam(s, a)
    ensures RequestFrozen(s, s.connLock[a])
  {
    assert ConnOk(s, a);
  }

  lemma OtherSuspended(s: State, a: SignInId)
    requires Inv(s) && WantsConn(s, a) && s.suspendedLock.Some?
    ensures s.suspendedLock.value != a
  {
    assert SignInOk(s, a);
  }

  /** A sign-in that waits for its client is never frozen, since its deadline will come; one
      that disconnects its peer is frozen only by the lock of its connection. */
  lemma CanStep(s: State, a: SignInId)
    requires a in s.signIns && (s.signIns[a].Waiting? || (s.signIns[a].Disconnecting? && a !in s.connLock))
    ensures !Frozen(s, a)
  {
    assert Later(s, 0) == s;
    var p := s.signIns[a];
    if p.Disconnecting? {
      assert Actor(Disconnected(a)) == Some(a) && Enabled(Later(s, 0), Disconnected(a));
    } else if p.inbox.Some? {
      assert Actor(Accept(a)) == Some(a) && Enabled(Later(s, 0), Accept(a));
    } else {
      assert Actor(Expire(a)) == Some(a) && Enabled(Later(s, p.deadline), Expire(a));
    }
  }

  /** Why the owner of the peer map cannot step. */
  lemma FrozenPeersOwner(s: State, a: SignInId)
    requires Inv(s) && s.peersLock == Some(BySignIn(a)) && Frozen(s, a)
    ensures (s.suspendedLock.Some? && s.signIns[a].WantsSuspended()) || WantsConn(s, a)
  {
    var p := s.signIns[a];
    if p.Joining? {
      NotNow(s, Publish(a), 0);
      NotNow(s, TakeSuspended(a), 0);
    } else if p.TimedOut? {
      NotNow(s, Withdraw(a), 0);
    } else if p.Waiting? || a !in s.connLock {
      CanStep(s, a);
    }
  }

  /** Why the owner of the suspended clients cannot step. */
  lemma FrozenSuspendedOwner(s: State, b: SignInId)
    requires Inv(s) && s.suspendedLock == Some(b) && Frozen(s, b)
    ensures s.peersLock.Some? && s.signIns[b].Joining? && s.signIns[b].suspended && !s.signIns[b].peers
  {
    NotNow(s, Publish(b), 0);
    NotNow(s, TakePeers(b), 0);
  }

  /** In every reachable state: the locks are deadlocked exactly when two sign-ins form the
      cycle, or the teardown of a session that was never served is jammed. */
  lemma DeadlockIsTheCycle(r: seq<State>, i: nat)
    requires Run(r) && i < |r|
    ensures Deadlocked(r[i]) <==> (exists a, b :: Cycle(r[i], a, b)) || (exists a :: Jam(r[i], a))
  {
    var s := r[i];
    RunInv(r, i);
    if a, b :| Cycle(s, a, b) { CycleDeadlocks(s, a, b); }
    if a :| Jam(s, a) { JamDeadlocks(s, a); }
    if Deadlocked(s) { WhyDeadlocked(s); }
  }

  lemma WhyDeadlocked(s: State)
    requires Inv(s) && ConnInv(s) && Deadlocked(s)
    ensures (exists a, b :: Cycle(s, a, b)) || (exists a :: Jam(s, a))
  {
    if s.suspendedLock.Some? { FrozenSuspendedOwner(s, s.suspendedLock.value); }
    PeersOwnerIsSignIn(s);
    var a := s.peersLock.value.a;
    FrozenPeersOwner(s, a);
    assert SignInOk(s, a);
    if WantsConn(s, a) {
      assert ConnOk(s, a);
      assert !Enabled(s, Forwarded(s.connLock[a]));
      assert Jam(s, a);
    } else {
      FrozenSuspendedOwner(s, s.suspendedLock.value);
      assert Cycle(s, a, s.suspendedLock.value);
    }
  }

  lemma PeersOwnerIsSignIn(s: State)
    requires Inv(s) && Deadlocked(s) && (s.suspendedLock.Some? ==> s.peersLock.Some?)
    ensures s.peersLock.Some? && s.peersLock.value.BySignIn?
  {
    if a :| WantsConn(s, a) { assert SignInOk(s, a); }
    RequestsMove(s);
  }

  /** A request that owns the peer map can release it. */
  lemma RequestsMove(s: State)
    requires Inv(s)
    ensures s.peersLock.Some? && s.peersLock.value.ByRequest? ==> !RequestFrozen(s, s.peersLock.value.h)
  {
  }

  /** If sign-ins do not overlap between the `join!` and the release of the peer map, a jam is
      the only deadlock, and there is none if the answer of every session was sent. */
  lemma NoOverlapNoDeadlock(r: seq<State>, i: nat)
    requires Run(r) && i < |r|
    requires forall a, b | a in r[i].signIns && b in r[i].signIns ::
               r[i].signIns[a].InRegion() && r[i].signIns[b].InRegion() ==> a == b
    ensures Deadlocked(r[i]) <==> exists a :: Jam(r[i], a)
    ensures (forall a :: a in r[i].signIns && r[i].signIns[a].Disconnecting? ==> r[i].signIns[a].served) ==>
              !Deadlocked(r[i])
  {
    DeadlockIsTheCycle(r, i);
  }

  lemma JamStep(s: State, a: SignInId, act: Action)
    requires Inv(s) && ConnInv(s) && Jam(s, a) && Enabled(s, act)
    ensures Jam(Apply(s, act), a)
  {
    if Actor(act).Some? {
      JamBySignIn(s, a, act);
    } else if act.Forwarded? {
      JamHolder(s, a);
      assert UserOk(s, act.h);
    } else {
      JamByOthers(s, a, act);
    }
  }

  lemma JamBySignIn(s: State, a: SignInId, act: Action)
    requires Inv(s) && Jam(s, a) && Enabled(s, act) && Actor(act).Some?
    ensures Jam(Apply(s, act), a)
  {
    SignInsLeaveRequests(s, act);
    assert SignInOk(s, Actor(act).value);
  }

  lemma JamByOthers(s: State, a: SignInId, act: Action)
    requires Inv(s) && Jam(s, a) && Enabled(s, act) && Actor(act).None? && !act.Forwarded?
    ensures Jam(Apply(s, act), a)
  {
    if ByARequest(act) { JamByRequest(s, a, act); }
  }

  lemma JamByRequest(s: State, a: SignInId, act: Action)
    requires Inv(s) && Jam(s, a) && Enabled(s, act) && ByARequest(act) && !act.Forwarded?
    ensures Jam(Apply(s, act), a)
  {
    RequestFrame(s, act);
    RequestKeepsPeersLock(s, act);
  }

  /** A jam stays: the peer map is locked for ever. */
  lemma {:induction false} JamForever(r: seq<State>, i: nat, j: nat, a: SignInId)
    requires Run(r) && i <= j < |r| && Jam(r[i], a)
    ensures Jam(r[j], a)
  {
    if j > i {
      JamForever(r, i, j - 1, a);
      RunInv(r, j - 1);
      assert StepAt(r, j);
      var act :| Enabled(r[j - 1], act) && r[j] == Apply(r[j - 1], act);
      JamStep(r[j - 1], a, act);
    }
  }

  lemma CycleStep(s: State, a: SignInId, b: SignInId, act: Action)
    requires Inv(s) && Cycle(s, a, b) && Enabled(s, act)
    ensures Cycle(Apply(s, act), a, b)
  {
    if Actor(act).Some? {
      CycleBySignIn(s, a, b, act);
    } else if ByARequest(act) {
      CycleByRequest(s, a, b, act);
    }
  }

  lemma CycleByRequest(s: State, a: SignInId, b: SignInId, act: Action)
    requires Inv(s) && Cycle(s, a, b) && Enabled(s, act) && ByARequest(act)
    ensures Cycle(Apply(s, act), a, b)
  {
    RequestFrame(s, act);
    RequestKeepsPeersLock(s, act);
  }

  lemma CycleBySignIn(s: State, a: SignInId, b: SignInId, act: Action)
    requires Inv(s) && Cycle(s, a, b) && Enabled(s, act) && Actor(act).Some?
    ensures Cycle(Apply(s, act), a, b)
  {
  }

  /** A second sign-in has taken the suspended clients while the first still waits for its
      client to claim: the client can no longer do so. */
  ghost predicate Doomed(s: State, a: SignInId, b: SignInId) {
    && a in s.signIns && b in s.signIns && a != b
    && s.signIns[a].Waiting? && s.signIns[a].inbox.None? && Published(s, s.signIns[a].token, a)
    && s.signIns[b].Joining? && s.signIns[b].suspended && !s.signIns[b].peers
  }

  lemma DoomedStep(s: State, a: SignInId, b: SignInId, act: Action)
    requires Inv(s) && Doomed(s, a, b) && Enabled(s, act)
    ensures Doomed(Apply(s, act), a, b) || Cycle(Apply(s, act), a, b)
  {
    if Actor(act).Some? { DoomedBySignIn(s, a, b, act); } else { DoomedByOthers(s, a, b, act); }
  }

  lemma DoomedBySignIn(s: State, a: SignInId, b: SignInId, act: Action)
    requires Inv(s) && Doomed(s, a, b) && Enabled(s, act) && Actor(act).Some?
    ensures Doomed(Apply(s, act), a, b) || Cycle(Apply(s, act), a, b)
  {
    if OfSession(act) {
      DoomedBySession(s, a, b, act);
    } else {
      assert SignInOk(s, a) && SignInOk(s, b);
      CallbackKept(s, a);
    }
  }

  lemma DoomedBySession(s: State, a: SignInId, b: SignInId, act: Action)
    requires Inv(s) && Doomed(s, a, b) && Enabled(s, act) && OfSession(act)
    ensures Doomed(Apply(s, act), a, b)
  {
    assert SignInOk(s, a) && SignInOk(s, b);
  }

  /** The token stays published and its callback unused: nobody gets at the suspended clients. */
  lemma DoomedByOthers(s: State, a: SignInId, b: SignInId, act: Action)
    requires Inv(s) && Doomed(s, a, b) && Enabled(s, act) && Actor(act).None?
    ensures Doomed(Apply(s, act), a, b)
  {
    if ByARequest(act) {
      DoomedByRequest(s, a, b, act);
    } else {
      assert SignInOk(s, b) && SuspendedOk(s, s.signIns[a].token);
      if act.Deliver? { assert ClientOk(s, act.c); }
    }
  }

  lemma DoomedByRequest(s: State, a: SignInId, b: SignInId, act: Action)
    requires Inv(s) && Doomed(s, a, b) && Enabled(s, act) && ByARequest(act)
    ensures Doomed(Apply(s, act), a, b)
  {
    RequestFrame(s, act);
    assert SignInOk(s, a);
    RequestKeepsPeersLock(s, act);
  }

  /** Both locks stay with the two, neither is signed in, and no HTTP request has the map. */
  ghost predicate Held(s: State, a: SignInId, b: SignInId) {
    && a in s.signIns && b in s.signIns && !s.signIns[a].SignedIn? && !s.signIns[b].SignedIn?
    && s.peersLock == Some(BySignIn(a)) && s.suspendedLock == Some(b)
    && forall h :: h in s.requests ==> !s.requests[h].Holding?
  }

  lemma DoomedHolds(s: State, a: SignInId, b: SignInId)
    requires Inv(s) && (Doomed(s, a, b) || Cycle(s, a, b))
    ensures Held(s, a, b)
  {
  }

  lemma DoomedNext(s: State, s': State, a: SignInId, b: SignInId)
    requires Inv(s) && (Doomed(s, a, b) || Cycle(s, a, b)) && Next(s, s')
    ensures Doomed(s', a, b) || Cycle(s', a, b)
  {
    var act :| Enabled(s, act) && s' == Apply(s, act);
    if Cycle(s, a, b) { CycleStep(s, a, b, act); } else { DoomedStep(s, a, b, act); }
  }

  /** Once doomed, for ever: neither sign-in is ever signed in, and both locks stay with them,
      so no other sign-in and no HTTP request passes either. */
  lemma {:induction false} DoomedForever(r: seq<State>, i: nat, j: nat, a: SignInId, b: SignInId)
    requires Run(r) && i <= j < |r|
    requires Doomed(r[i], a, b) || Cycle(r[i], a, b)
    ensures (Doomed(r[j], a, b) || Cycle(r[j], a, b)) && Held(r[j], a, b)
  {
    if j > i {
      DoomedForever(r, i, j - 1, a, b);
      RunInv(r, j - 1);
      assert StepAt(r, j);
      DoomedNext(r[j - 1], r[j], a, b);
    }
    RunInv(r, j);
    DoomedHolds(r[j], a, b);
  }

  /** The doom becomes the deadlock at the first sign-in's deadline. */
  lemma DoomExpires(r: seq<State>, i: nat, a: SignInId, b: SignInId)
    requires Run(r) && i < |r| && Doomed(r[i], a, b) && r[i].signIns[a].deadline <= r[i].now
    ensures Enabled(r[i], Expire(a)) && Deadlocked(Apply(r[i], Expire(a)))
  {
    RunInv(r, i);
    DoomCloses(r[i], a, b);
    StepKeepsInv(r[i], Expire(a));
    CycleDeadlocks(Apply(r[i], Expire(a)), a, b);
  }

  lemma DoomCloses(s: State, a: SignInId, b: SignInId)
    requires Inv(s) && Doomed(s, a, b) && s.signIns[a].deadline <= s.now
    ensures Enabled(s, Expire(a)) && Cycle(Apply(s, Expire(a)), a, b)
  {
    assert SignInOk(s, a) && SignInOk(s, b);
  }

  // ---------- Runs that deadlock ----------

  ghost predicate Reachable(s: State) { exists r :: Run(r) && r[|r| - 1] == s }

  function Start(): State {
    State(0, map[], map[], map[], None, None, map[], map[], map[], map[])
  }

  lemma ReachableStart()
    ensures Reachable(Start())
  {
    assert Run([Start()]);
  }

  lemma ReachableStep(s: State, act: Action, s': State)
    requires Reachable(s) && Enabled(s, act) && s' == Apply(s, act)
    ensures Reachable(s')
  {
    var r :| Run(r) && r[|r| - 1] == s;
    var r' := r + [s'];
    forall i | 0 < i < |r'| ensures StepAt(r', i) {
      if i < |r| { assert StepAt(r, i); }
    }
    assert Run(r');
  }

  lemma ReachableInv(s: State)
    requires Reachable(s)
    ensures Inv(s) && ConnInv(s)
  {
    var r :| Run(r) && r[|r| - 1] == s;
    RunInv(r, |r| - 1);
  }

  /** Two overlapping sign-ins do reach the deadlock. */
  lemma DeadlockIsReachable()
    ensures exists s :: Reachable(s) && Cycle(s, 0, 1) && Deadlocked(s)
  {
    var s0 := Start();
    ReachableStart();
    var s1 := Apply(s0, Begin(0, "a"));
    ReachableStep(s0, Begin(0, "a"), s1);
    var s2 := Apply(s1, Begin(1, "b"));
    ReachableStep(s1, Begin(1, "b"), s2);
    var s3 := Apply(s2, TakePeers(0));
    ReachableStep(s2, TakePeers(0), s3);
    var s4 := Apply(s3, TakeSuspended(1));
    ReachableStep(s3, TakeSuspended(1), s4);
    ReachableInv(s4);
    CycleDeadlocks(s4, 0, 1);
    assert Cycle(s4, 0, 1);
  }

  /** Sign-in 0 has published its token, and its client arrives. */
  function Inviting(): State {
    Start().(signIns := map[0 := Waiting("a", PATIENCE, None)], clients := map[0 := Arrived("a")],
             peersLock := Some(BySignIn(0)), suspended := map["a" := 0])
  }

  lemma InvitingReachable()
    ensures Reachable(Inviting())
  {
    var s0 := Start();
    ReachableStart();
    var s1 := Apply(s0, Begin(0, "a"));
    ReachableStep(s0, Begin(0, "a"), s1);
    var s2 := Apply(s1, TakePeers(0));
    ReachableStep(s1, TakePeers(0), s2);
    var s3 := Apply(s2, TakeSuspended(0));
    ReachableStep(s2, TakeSuspended(0), s3);
    var s4 := Apply(s3, Publish(0));
    ReachableStep(s3, Publish(0), s4);
    ReachableStep(s4, Connect(0, "a"), Inviting());
  }

  /** A second sign-in dooms the first by taking the suspended clients in time. */
  lemma DoomedIsReachable()
    ensures exists s :: Reachable(s) && Doomed(s, 0, 1) && !Deadlocked(s)
  {
    var s0 := Inviting();
    InvitingReachable();
    var s1 := s0.(signIns := s0.signIns[1 := Joining("b", false, false)]);
    ReachableStep(s0, Begin(1, "b"), s1);
    var s2 := Apply(s1, TakeSuspended(1));
    ReachableStep(s1, TakeSuspended(1), s2);
    CanStep(s2, 0);
    assert Doomed(s2, 0, 1);
  }

  /** Sign-in 0 is signed in, its answer not sent yet. */
  function Answering(): State {
    Start().(signIns := map[0 := SignedIn("a", 0, false)], clients := map[0 := Linked("a", 0)],
             peers := map["a" := Peer(0, 0)], takers := map[0 := 0])
  }

  lemma AnsweringReachable()
    ensures Reachable(Answering())
  {
    var s0 := Inviting();
    InvitingReachable();
    var s1 := ClaimStep(s0, 0);
    ReachableStep(s0, Claim(0), s1);
    var s2 := DeliverStep(s1, 0);
    ReachableStep(s1, Deliver(0), s2);
    LastStep(s2);
  }

  lemma LastStep(s: State)
    requires Reachable(s)
    requires s == Answering().(signIns := map[0 := Waiting("a", PATIENCE, Some(0))], peers := map[],
                               peersLock := Some(BySignIn(0)))
    ensures Reachable(Answering())
  {
    ReachableStep(s, Accept(0), Answering());
  }

  /** A request for the token forwards its event before the answer is sent. */
  function Notifying(): State {
    Answering().(requests := map[0 := Forwarding(0)], connLock := map[0 := 0])
  }

  lemma NotifyingReachable()
    ensures Reachable(Notifying())
  {
    var s0 := Answering();
    AnsweringReachable();
    var s1 := s0.(requests := map[0 := Wanting("a")]);
    ReachableStep(s0, Ask(0, "a"), s1);
    LookupAtLast(s1);
  }

  lemma LookupAtLast(s: State)
    requires Reachable(s) && s == Answering().(requests := map[0 := Wanting("a")])
    ensures Reachable(Notifying())
  {
    var s1 := s.(requests := map[0 := Holding("a")], peersLock := Some(ByRequest(0)));
    ReachableStep(s, Lock(0), s1);
    var s2 := UnlockStep(s1, 0);
    ReachableStep(s1, Unlock(0), s2);
    GrabAtLast(s2);
  }

  lemma GrabAtLast(s: State)
    requires Reachable(s) && s == Answering().(requests := map[0 := Queued(0)])
    ensures Reachable(Notifying())
  {
    ReachableStep(s, Grab(0), Notifying());
  }

  /** A single sign-in reaches the jam, when its answer cannot be sent. */
  lemma JamIsReachable()
    ensures exists s :: Reachable(s) && Jam(s, 0) && Deadlocked(s) && s.signIns.Keys == {0}
  {
    var s0 := Notifying();
    NotifyingReachable();
    var s1 := s0.(signIns := map[0 := Closing("a", 0, false)]);
    ReachableStep(s0, EndSession(0), s1);
    JamAtLast(s1);
  }

  lemma JamAtLast(s: State)
    requires Reachable(s) && s == Notifying().(signIns := map[0 := Closing("a", 0, false)])
    ensures exists s' :: Reachable(s') && Jam(s', 0) && Deadlocked(s') && s'.signIns.Keys == {0}
  {
    var s1 := s.(signIns := map[0 := Disconnecting("a", 0, false)], peers := map[],
                 peersLock := Some(BySignIn(0)));
    ReachableStep(s, RemovePeer(0), s1);
    ReachableInv(s1);
    assert Jam(s1, 0);
    JamDeadlocks(s1, 0);
  }

  /** Sign-in 0 is signed in under "a", and sign-in 1 has published "b" for its client. */
  function Second(): State {
    Answering().(signIns := map[0 := SignedIn("a", 0, false), 1 := Waiting("b", PATIENCE, None)],
                 clients := map[0 := Linked("a", 0), 1 := Arrived("b")],
                 peersLock := Some(BySignIn(1)), suspended := map["b" := 1])
  }

  lemma SecondReachable()
    ensures Reachable(Second())
  {
    var s0 := Answering();
    AnsweringReachable();
    var s1 := s0.(signIns := s0.signIns[1 := Joining("b", false, false)]);
    ReachableStep(s0, Begin(1, "b"), s1);
    SecondLocks(s1);
  }

  lemma SecondLocks(s: State)
    requires Reachable(s) && s == Answering().(signIns := Answering().signIns[1 := Joining("b", false, false)])
    ensures Reachable(Second())
  {
    var s1 := s.(signIns := s.signIns[1 := Joining("b", true, false)], peersLock := Some(BySignIn(1)));
    ReachableStep(s, TakePeers(1), s1);
    var s2 := s1.(signIns := s.signIns[1 := Joining("b", true, true)], suspendedLock := Some(1));
    ReachableStep(s1, TakeSuspended(1), s2);
    SecondPublishes(s2);
  }

  lemma SecondPublishes(s: State)
    requires Reachable(s)
    requires s == Answering().(signIns := Answering().signIns[1 := Joining("b", true, true)],
                               peersLock := Some(BySignIn(1)), suspendedLock := Some(1))
    ensures Reachable(Second())
  {
    var s1 := PublishStep(s, 1);
    ReachableStep(s, Publish(1), s1);
    ReachableStep(s1, Connect(1, "b"), Second());
  }

  /** Sign-ins 0 and 1 are signed in under tokens of their own. */
  predicate TwoSessions(s: State) {
    && s.signIns == map[0 := SignedIn("a", 0, false), 1 := SignedIn("b", 1, false)]
    && s.peers == map["a" := Peer(0, 0), "b" := Peer(1, 1)]
  }

  /** A second user signs in beside the first one. */
  lemma TwoSessionsReachable()
    ensures exists s :: Reachable(s) && TwoSessions(s)
  {
    var s0 := Second();
    SecondReachable();
    var s1 := ClaimStep(s0, 1);
    ReachableStep(s0, Claim(1), s1);
    SecondDelivered(s1);
  }

  lemma SecondDelivered(s: State)
    requires Reachable(s)
    requires s == Second().(clients := map[0 := Linked("a", 0), 1 := Claimed("b", 1)],
                            suspended := map[], takers := map[0 := 0, 1 := 1])
    ensures exists s' :: Reachable(s') && TwoSessions(s')
  {
    var s1 := DeliverStep(s, 1);
    ReachableStep(s, Deliver(1), s1);
    SecondAccepted(s1);
  }

  lemma SecondAccepted(s: State)
    requires Reachable(s)
    requires s == Second().(signIns := map[0 := SignedIn("a", 0, false), 1 := Waiting("b", PATIENCE, Some(1))],
                            clients := map[0 := Linked("a", 0), 1 := Linked("b", 1)],
                            suspended := map[], takers := map[0 := 0, 1 := 1])
    ensures exists s' :: Reachable(s') && TwoSessions(s')
  {
    var s1 := s.(signIns := map[0 := SignedIn("a", 0, false), 1 := SignedIn("b", 1, false)],
                 peers := map["a" := Peer(0, 0), "b" := Peer(1, 1)], peersLock := None);
    ReachableStep(s, Accept(1), s1);
  }

  // ---------- What happened in a run ----------

  /** A run together with its steps: `acts[m]` leads from `r[m]` to `r[m + 1]`. */
  ghost predicate Trace(r: seq<State>, acts: seq<Action>) {
    && |r| == |acts| + 1
    && Initial(r[0])
    && forall m :: 0 <= m < |acts| ==> Took(r, acts, m)
  }

  ghost predicate Took(r: seq<State>, acts: seq<Action>, m: nat)
    requires m < |acts| && |r| == |acts| + 1
  {
    Enabled(r[m], acts[m]) && r[m + 1] == Apply(r[m], acts[m])
  }

  lemma TraceIsRun(r: seq<State>, acts: seq<Action>)
    requires Trace(r, acts)
    ensures Run(r)
  {
    forall i | 0 < i < |r| ensures StepAt(r, i) { assert Took(r, acts, i - 1); }
  }

  /** How far a sign-in has come. */
  function Stage(p: SignIn): nat {
    match p
    case Joining(_, peers, suspended) => (if peers then 1 else 0) + (if suspended then 1 else 0)
    case Waiting(_, _, inbox) => if inbox.None? then 3 else 4
    case TimedOut(_) => 5
    case SignedIn(_, _, served) => if served then 7 else 6
    case Closing(_, _, _) => 8
    case Disconnecting(_, _, _) => 9
    case Ended(_, _) => 10
    case Rejected => 10
  }

  /** Sign-in `a` alone goes on, and forward; it starts to wait only by publishing, and is
      rejected only at the three exits that reject. */
  ghost predicate Moves(s: State, act: Action, s': State, a: SignInId) {
    && a in s.signIns && a in s'.signIns && s'.signIns == s.signIns[a := s'.signIns[a]]
    && Stage(s'.signIns[a]) > Stage(s.signIns[a])
    && (s'.signIns[a].Waiting? ==> act.Publish?)
    && (s'.signIns[a].Rejected? ==> act.Publish? || act.Withdraw? || act.Canceled?)
  }

  predicate OfJoin(act: Action) { act.TakePeers? || act.TakeSuspended? || act.Publish? }

  lemma SignInMoves(s: State, act: Action)
    requires Enabled(s, act) && Actor(act).Some?
    ensures Moves(s, act, Apply(s, act), Actor(act).value)
  {
    if OfJoin(act) {
      JoinMoves(s, act);
    } else if OfSession(act) {
      SessionMoves(s, act);
    } else {
      WaitMoves(s, act);
    }
  }

  lemma JoinMoves(s: State, act: Action)
    requires Enabled(s, act) && OfJoin(act)
    ensures Moves(s, act, Apply(s, act), act.a)
  {
    if act.Publish? { PublishMoves(s, act.a); }
  }

  lemma PublishMoves(s: State, a: SignInId)
    requires a in s.signIns && s.signIns[a].Joining?
    ensures Moves(s, Action.Publish(a), PublishStep(s, a), a)
  {
  }

  lemma SessionMoves(s: State, act: Action)
    requires Enabled(s, act) && OfSession(act)
    ensures Moves(s, act, Apply(s, act), act.a)
  {
  }

  lemma WaitMoves(s: State, act: Action)
    requires Enabled(s, act) && (act.Canceled? || act.Expire? || act.Withdraw?)
    ensures Moves(s, act, Apply(s, act), act.a)
  {
  }

  /** A delivery gives its connection to a waiting sign-in, and touches nothing else of any. */
  lemma DeliverMoves(s: State, c: ClientId, a: SignInId)
    requires Inv(s) && Enabled(s, Deliver(c)) && a in s.signIns
    ensures a in DeliverStep(s, c).signIns
    ensures var p, q := s.signIns[a], DeliverStep(s, c).signIns[a];
            q == p || (a == s.clients[c].owner && p.Waiting? && p.inbox.None? && q == p.(inbox := Some(c)))
  {
    assert ClientOk(s, c);
  }

  lemma OthersLeaveSignIns(s: State, act: Action)
    requires Enabled(s, act) && Actor(act).None? && !act.Begin? && !act.Deliver?
    ensures Apply(s, act).signIns == s.signIns
  {
    if ByARequest(act) { RequestFrame(s, act); }
  }

  /** Every step of a sign-in takes it forward; of all other steps only the delivery of its
      client's connection touches it. */
  lemma SignInsAdvance(s: State, act: Action, a: SignInId)
    requires Inv(s) && Enabled(s, act) && a in s.signIns
    ensures a in Apply(s, act).signIns
    ensures var p, q := s.signIns[a], Apply(s, act).signIns[a];
            if Actor(act) == Some(a) then Stage(q) > Stage(p)
            else q == p || (act.Deliver? && p.Waiting? && p.inbox.None? && q == p.(inbox := Some(act.c)))
  {
    if Actor(act).Some? {
      SignInMoves(s, act);
    } else if act.Deliver? {
      DeliverMoves(s, act.c, a);
    } else if !act.Begin? {
      OthersLeaveSignIns(s, act);
    }
  }

  /** With both locks, a sign-in publishes its token and waits for 5000 milliseconds, still
      with the peer map; exactly a token in use is refused, and both locks released. */
  lemma PublishDecides(s: State, a: SignInId)
    requires Enabled(s, Action.Publish(a))
    ensures Decides(s, a, Apply(s, Action.Publish(a)))
  {
    assert Apply(s, Action.Publish(a)) == PublishStep(s, a);
    PublishStepDecides(s, a);
  }

  lemma PublishStepDecides(s: State, a: SignInId)
    requires a in s.signIns && s.signIns[a].Joining?
    ensures Decides(s, a, PublishStep(s, a))
  {
  }

  ghost predicate Decides(s: State, a: SignInId, s': State)
    requires a in s.signIns && s.signIns[a].Joining?
  {
    var token := s.signIns[a].token;
    && a in s'.signIns && s'.peers == s.peers && s'.suspendedLock == None
    && (if token !in s.peers && token !in s.suspended
        then s'.signIns[a] == Waiting(token, s.now + 5000, None) &&
             s'.suspended == s.suspended[token := a] && s'.peersLock == s.peersLock
        else s'.signIns[a] == Rejected && s'.suspended == s.suspended && s'.peersLock == None)
  }

  /** A request finds the session of its token if and only if there is one. */
  lemma LookupDecides(s: State, h: RequestId)
    requires Enabled(s, Unlock(h))
    ensures var token := s.requests[h].token;
            Apply(s, Unlock(h)).requests[h] == if token in s.peers then Queued(s.peers[token].owner) else Finished
  {
  }

  /** Why the sign-in `a` can be rejected at a step. */
  ghost predicate RejectedAt(s: State, act: Action, a: SignInId) {
    || (act == Action.Publish(a) && a in s.signIns && s.signIns[a].Joining? &&
        (s.signIns[a].token in s.peers || s.signIns[a].token in s.suspended))
    || act == Action.Withdraw(a)
  }

  /** A sign-in is rejected only because its token was in use when it would have published it,
      or because its client did not come in time. */
  lemma {:induction false} RejectedWhy(r: seq<State>, acts: seq<Action>, n: nat, a: SignInId)
    requires Trace(r, acts) && n < |r| && a in r[n].signIns && r[n].signIns[a].Rejected?
    ensures exists m :: 0 <= m < n && RejectedAt(r[m], acts[m], a)
  {
    assert n > 0;
    assert Took(r, acts, n - 1);
    TraceIsRun(r, acts);
    RunInv(r, n - 1);
    if !RejectedAt(r[n - 1], acts[n - 1], a) {
      RejectedBefore(r[n - 1], acts[n - 1], a);
      RejectedWhy(r, acts, n - 1, a);
    }
  }

  lemma RejectedBefore(s: State, act: Action, a: SignInId)
    requires Inv(s) && Enabled(s, act) && !RejectedAt(s, act, a)
    requires a in Apply(s, act).signIns && Apply(s, act).signIns[a].Rejected?
    ensures a in s.signIns && s.signIns[a].Rejected?
  {
    if act == Action.Publish(a) {
      PublishDecides(s, a);
    } else {
      CallbackKept(s, a);
      OnlyBeginAdds(s, act);
      if Actor(act).Some? { SignInMoves(s, act); }
      if a in s.signIns { SignInsAdvance(s, act, a); }
    }
  }

  /** A sign-in is new only by its beginning. */
  lemma OnlyBeginAdds(s: State, act: Action)
    requires Inv(s) && Enabled(s, act)
    ensures Apply(s, act).signIns.Keys == if act.Begin? then s.signIns.Keys + {act.a} else s.signIns.Keys
  {
    if Actor(act).Some? {
      SignInMoves(s, act);
    } else if act.Deliver? {
      assert ClientOk(s, act.c);
    } else if !act.Begin? {
      OthersLeaveSignIns(s, act);
    }
  }

  /** A sign-in waits from its publication on, and until 5000 milliseconds after that. */
  lemma {:induction false} WaitsSincePublish(r: seq<State>, acts: seq<Action>, n: nat, a: SignInId)
    requires Trace(r, acts) && n < |r| && a in r[n].signIns && r[n].signIns[a].Waiting?
    ensures exists m :: 0 <= m < n && acts[m] == Action.Publish(a) && r[n].signIns[a].deadline == r[m].now + 5000
  {
    assert n > 0;
    assert Took(r, acts, n - 1);
    TraceIsRun(r, acts);
    RunInv(r, n - 1);
    if acts[n - 1] == Action.Publish(a) {
      PublishDecides(r[n - 1], a);
    } else {
      WaitedBefore(r[n - 1], acts[n - 1], a);
      WaitsSincePublish(r, acts, n - 1, a);
    }
  }

  lemma WaitedBefore(s: State, act: Action, a: SignInId)
    requires Inv(s) && Enabled(s, act) && act != Action.Publish(a)
    requires a in Apply(s, act).signIns && Apply(s, act).signIns[a].Waiting?
    ensures a in s.signIns && s.signIns[a].Waiting? && s.signIns[a].deadline == Apply(s, act).signIns[a].deadline
  {
    OnlyBeginAdds(s, act);
    if Actor(act).Some? { SignInMoves(s, act); }
    if a in s.signIns { SignInsAdvance(s, act, a); }
  }

  /** A sign-in gives its client up no sooner than 5000 milliseconds after its publication. */
  lemma TimeoutNotEarly(r: seq<State>, acts: seq<Action>, j: nat, a: SignInId)
    requires Trace(r, acts) && j < |acts| && acts[j] == Expire(a)
    ensures exists m :: 0 <= m < j && acts[m] == Action.Publish(a) && r[m].now + 5000 <= r[j].now
  {
    assert Took(r, acts, j);
    WaitsSincePublish(r, acts, j, a);
  }

  /** What the steps of a session are for: the peer is stored when it is accepted, events are
      taken once it is served, the end of the session removes the peer and then lets go of the
      map. */
  lemma SessionDecides(s: State, act: Action)
    requires Inv(s) && Enabled(s, act) && OfSession(act)
    ensures SessionStep(s, act, Apply(s, act))
  {
    assert SignInOk(s, act.a);
  }

  ghost predicate SessionStep(s: State, act: Action, s': State) {
    && Actor(act).Some? && act.a in s.signIns && act.a in s'.signIns
    && var p, q := s.signIns[act.a], s'.signIns[act.a];
       match act
       case Accept(a) =>
         p.Waiting? && p.inbox.Some? && q == SignedIn(p.token, p.inbox.value, false) &&
         s'.peers == s.peers[p.token := Peer(a, p.inbox.value)] && s'.peersLock == None
       case Serve(_) => p.SignedIn? && q == SignedIn(p.token, p.conn, true) && s'.peers == s.peers
       case EndSession(_) => p.SignedIn? && q == Closing(p.token, p.conn, p.served) && s'.peers == s.peers
       case RemovePeer(a) =>
         p.Closing? && q == Disconnecting(p.token, p.conn, p.served) && s'.peers == s.peers - {p.token} &&
         s'.peersLock == Some(BySignIn(a))
       case Disconnected(_) =>
         p.Disconnecting? && q == Ended(p.token, p.conn) && s'.peers == s.peers && s'.peersLock == None
       case _ => false
  }

  // ---------- The two maps ----------

  /** The shared maps of suspended clients and of peers, changed under their locks. */
  class ClientMaps {
    var suspended: map<Token, SignInId>
    var peers: map<Token, Peer>

    ghost predicate Agrees(s: State)
      reads this
    {
      suspended == s.suspended && peers == s.peers
    }

    constructor ()
      ensures suspended == map[] && peers == map[]
    {
      suspended, peers := map[], map[];
    }

    /** With both locks: a token in use is refused. */
    method Publish(token: Token, a: SignInId, ghost s: State) returns (ok: bool)
      requires Agrees(s) && Enabled(s, Action.Publish(a)) && s.signIns[a].token == token
      modifies this
      ensures Agrees(Apply(s, Action.Publish(a)))
      ensures ok <==> Apply(s, Action.Publish(a)).signIns[a].Waiting?
      ensures ok <==> token !in old(peers) && token !in old(suspended)
      ensures peers == old(peers) && suspended == if ok then old(suspended)[token := a] else old(suspended)
    {
      ok := token !in peers && token !in suspended;
      if ok { suspended := suspended[token := a]; }
    }

    /** A client takes the callback of its token, if there is one. */
    method Claim(token: Token, c: ClientId, ghost s: State) returns (owner: Option<SignInId>)
      requires Agrees(s) && Enabled(s, Action.Claim(c)) && s.clients[c].token == token
      modifies this
      ensures Agrees(Apply(s, Action.Claim(c)))
      ensures Apply(s, Action.Claim(c)).clients[c] ==
              if owner.Some? then Claimed(token, owner.value) else Refused
      ensures owner == if token in old(suspended) then Some(old(suspended)[token]) else None
      ensures suspended == old(suspended) - {token} && peers == old(peers)
    {
      owner := None;
      assert token !in suspended ==> suspended - {token} == suspended;
      if token in suspended {
        owner := Some(suspended[token]);
        suspended := suspended - {token};
      }
    }

    method Withdraw(token: Token, ghost s: State, ghost a: SignInId)
      requires Agrees(s) && Enabled(s, Action.Withdraw(a)) && s.signIns[a].token == token
      modifies this
      ensures Agrees(Apply(s, Action.Withdraw(a)))
      ensures suspended == old(suspended) - {token} && peers == old(peers)
    {
      suspended := suspended - {token};
    }

    method Store(token: Token, peer: Peer, ghost s: State)
      requires Agrees(s) && Inv(s) && Enabled(s, Accept(peer.owner))
      requires s.signIns[peer.owner].token == token && s.signIns[peer.owner].inbox == Some(peer.conn)
      modifies this
      ensures Agrees(Apply(s, Accept(peer.owner)))
      ensures token !in old(peers)
      ensures peers == old(peers)[token := peer] && suspended == old(suspended)
    {
      assert SignInOk(s, peer.owner);
      peers := peers[token := peer];
    }

    /** The teardown always finds the peer that its own sign-in has stored. */
    method Remove(token: Token, a: SignInId, ghost s: State) returns (peer: Option<Peer>)
      requires Agrees(s) && Inv(s) && Enabled(s, RemovePeer(a)) && s.signIns[a].token == token
      modifies this
      ensures Agrees(Apply(s, RemovePeer(a)))
      ensures peer.Some? && peer.value.owner == a
      ensures token in old(peers) && peer.value == old(peers)[token]
      ensures peers == old(peers) - {token} && suspended == old(suspended)
    {
      assert SignInOk(s, a);
      peer := None;
      if token in peers {
        peer := Some(peers[token]);
        peers := peers - {token};
      }
    }
  }
}
