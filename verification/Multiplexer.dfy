/** A browser request on its way through both websockets and back, as a step relation.

    The browser numbers its requests with tags and keeps a table from tag to callback. The
    master handles the messages concurrently; a message for the client gets an id of its own
    and waits in the connection's callback map. The client handles the calls concurrently
    and answers with the id. Handlers at both ends finish in any order.

    Websockets deliver in order and without loss or repetition, so each direction is a
    growing log: `up` and `replies` between browser and master, `conn.wire` and `back`
    between master and client. */
module Multiplexer {
  import opened Common
  import opened WebsocketPeer

  type Tag = nat

  /** The largest tag up to which the browser's counter counts exactly. */
  const MAX_TAG: nat := 0x20_0000_0000_0000

  /** At most this many messages of one browser are handled at a time. */
  const HANDLERS: nat := 16

  /** What the master makes of a request object. */
  datatype Route = ToClient(request: Request) | Shell(argument: Json) | Token | Unknown

  /** The members of the object are tried in order; "internal" is skipped. */
  function RouteOf(request: seq<Request>): Route {
    if request == [] then Unknown
    else
      match request[0].key
      case "internal" => RouteOf(request[1..])
      case "shell" => Shell(request[0].argument)
      case "token" => Token
      case _ => ToClient(request[0])
  }

  /** What a browser gets for a tag. */
  datatype Reply =
    | Value(value: Json)
    | UnknownRequest
    | SshConnectNotEstablish
    | InternalError

  datatype Message = Message(tag: Tag, request: seq<Request>)

  /** `at` is the place of the handler's frame on the wire, if it sent one. */
  datatype Handler =
    | Ready
    | Calling(at: nat)
    | Decided(reply: Reply, from: Option<nat>)
    | Replied(reply: Reply, from: Option<nat>, place: nat)
  {
    /** The place of the frame that the handler has sent. */
    function Frame(): Option<nat> {
      if Ready? then None else if Calling? then Some(at) else from
    }
  }

  datatype Job = Running | Computed(result: Json) | Responded(result: Json)

  /** {"id": id, "response": value}; `job` is history: the job that sent it. */
  datatype Response = Response(id: nat, value: Json, job: nat)

  /** {"tag": tag, "response": reply}; `handler` is history: the handler that sent it. */
  datatype TaggedReply = TaggedReply(tag: Tag, reply: Reply, handler: nat)

  /** A callback of the browser called with a reply. */
  datatype Delivery = Delivery(tag: Tag, reply: Reply, at: nat)

  /** `owner` is history: the ticket of each frame on the wire. */
  datatype State = State(
    token: Json,
    nextTag: Tag,
    encoding: map<Tag, seq<Request>>,
    callbacks: set<Tag>,
    up: seq<Message>,
    handlers: seq<Handler>,
    conn: Conn,
    owner: seq<Ticket>,
    tunnels: nat,
    jobs: seq<Job>,
    back: seq<Response>,
    fed: set<nat>,
    replies: seq<TaggedReply>,
    seen: set<nat>,
    delivered: seq<Delivery>)

  datatype Action =
    | Begin(request: seq<Request>)         // `rest` takes a tag and starts to encode
    | Post(tag: Tag)                       // encoded: register the callback and send
    | Receive                              // the master starts a handler
    | HandleLocally(h: nat, ok: bool)
    | CallClient(h: nat, accepted: bool)
    | CallTunnel(call: Request, accepted: bool)
    | StartJob
    | Compute(j: nat, result: Json)
    | Respond(j: nat)
    | FeedBack(m: nat)
    | Resolve(h: nat)
    | DisconnectPeer
    | SendReply(h: nat)
    | Deliver(i: nat)

  predicate Unfinished(h: Handler) { !h.Replied? }

  ghost predicate Enabled(s: State, a: Action) {
    match a
    case Begin(_) => s.nextTag < MAX_TAG
    case Post(tag) => tag in s.encoding
    case Receive =>
      |s.handlers| < |s.up| && |set h | 0 <= h < |s.handlers| && Unfinished(s.handlers[h])| < HANDLERS
    case HandleLocally(h, _) =>
      h < |s.handlers| <= |s.up| && s.handlers[h].Ready? && !RouteOf(s.up[h].request).ToClient?
    case CallClient(h, _) =>
      h < |s.handlers| <= |s.up| && s.handlers[h].Ready? && RouteOf(s.up[h].request).ToClient? &&
      s.conn.requestId + 1 < U64
    case CallTunnel(_, _) => s.conn.requestId + 1 < U64
    case StartJob => |s.jobs| < |s.conn.wire|
    case Compute(j, _) => j < |s.jobs| && s.jobs[j].Running?
    case Respond(j) => j < |s.jobs| <= |s.conn.wire| && s.jobs[j].Computed?
    case FeedBack(m) => m < |s.back| && m !in s.fed
    case Resolve(h) => h < |s.handlers| && s.handlers[h].Calling? && Browser(h) in s.conn.outcomes
    case DisconnectPeer => true
    case SendReply(h) => h < |s.handlers| <= |s.up| && s.handlers[h].Decided?
    case Deliver(i) => i < |s.replies| && i !in s.seen
  }

  function SetHandler(s: State, h: nat, p: Handler): State
    requires h < |s.handlers|
  {
    s.(handlers := s.handlers[h := p])
  }

  /** The answer to a request that does not go to the client. `ok` is the shell's verdict. */
  function LocalReply(s: State, route: Route, ok: bool): Reply {
    match route
    case Token => Value(s.token)
    case Shell(_) => if ok then Value("null") else InternalError
    case _ => UnknownRequest
  }

  ghost function CallStep(s: State, h: nat, accepted: bool): State
    requires Enabled(s, CallClient(h, accepted))
  {
    var conn := Sent(s.conn, RouteOf(s.up[h].request).request, Browser(h), accepted);
    if s.conn.open && accepted then
      SetHandler(s, h, Calling(|s.conn.wire|)).(conn := conn, owner := s.owner + [Browser(h)])
    else
      SetHandler(s, h, Decided(SshConnectNotEstablish, None)).(conn := conn)
  }

  function TunnelStep(s: State, request: Request, accepted: bool): State {
    var conn := Sent(s.conn, request, Tunnel(s.tunnels), accepted);
    s.(conn := conn, tunnels := s.tunnels + 1,
       owner := if s.conn.open && accepted then s.owner + [Tunnel(s.tunnels)] else s.owner)
  }

  ghost function Apply(s: State, a: Action): State
    requires Enabled(s, a)
  {
    match a
    case Begin(request) =>
      s.(nextTag := s.nextTag + 1, encoding := s.encoding[s.nextTag := request])
    case Post(tag) =>
      s.(encoding := s.encoding - {tag}, callbacks := s.callbacks + {tag},
         up := s.up + [Message(tag, s.encoding[tag])])
    case Receive => s.(handlers := s.handlers + [Ready])
    case HandleLocally(h, ok) =>
      SetHandler(s, h, Decided(LocalReply(s, RouteOf(s.up[h].request), ok), None))
    case CallClient(h, accepted) => CallStep(s, h, accepted)
    case CallTunnel(call, accepted) => TunnelStep(s, call, accepted)
    case StartJob => s.(jobs := s.jobs + [Running])
    case Compute(j, result) => s.(jobs := s.jobs[j := Computed(result)])
    case Respond(j) =>
      s.(jobs := s.jobs[j := Responded(s.jobs[j].result)],
         back := s.back + [Response(s.conn.wire[j].id, s.jobs[j].result, j)])
    case FeedBack(m) =>
      s.(conn := Fed(s.conn, Some(s.back[m].id), s.back[m].value), fed := s.fed + {m})
    case Resolve(h) =>
      var at := s.handlers[h].at;
      (match s.conn.outcomes[Browser(h)]
       case Answered(v) => SetHandler(s, h, Decided(Value(v), Some(at)))
       case Canceled => SetHandler(s, h, Decided(InternalError, Some(at))))
    case DisconnectPeer => s.(conn := Closed(s.conn))
    case SendReply(h) =>
      SetHandler(s, h, Replied(s.handlers[h].reply, s.handlers[h].from, |s.replies|)).(
        replies := s.replies + [TaggedReply(s.up[h].tag, s.handlers[h].reply, h)])
    case Deliver(i) =>
      var r := s.replies[i];
      if r.tag in s.callbacks then
        s.(seen := s.seen + {i}, callbacks := s.callbacks - {r.tag},
           delivered := s.delivered + [Delivery(r.tag, r.reply, i)])
      else
        s.(seen := s.seen + {i})
  }

  ghost predicate Initial(s: State) {
    && s.nextTag == 0 && s.encoding == map[] && s.callbacks == {} && s.up == [] && s.handlers == []
    && s.conn == NewConn() && s.owner == [] && s.tunnels == 0 && s.jobs == [] && s.back == []
    && s.fed == {} && s.replies == [] && s.seen == {} && s.delivered == []
  }

  ghost predicate Next(s: State, s': State) {
    exists a :: Enabled(s, a) && s' == Apply(s, a)
  }

  ghost predicate StepAt(r: seq<State>, i: int)
    requires 0 < i < |r|
  {
    Next(r[i - 1], r[i])
  }

  ghost predicate Run(r: seq<State>) {
    && |r| > 0
    && Initial(r[0])
    && forall i :: 0 < i < |r| ==> StepAt(r, i)
  }

  // ---------- Invariant ----------

  /** Frame `j` carries the request of handler `h`, sent by that handler. */
  ghost predicate FrameOf(s: State, j: nat, h: nat) {
    && h < |s.up| && j < |s.conn.wire| && j < |s.owner|
    && s.owner[j] == Browser(h)
    && RouteOf(s.up[h].request) == ToClient(s.conn.wire[j].request)
  }

  /** The reply is what handler `h` owes for its own message. */
  ghost predicate Genuine(s: State, h: nat, reply: Reply, from: Option<nat>)
    requires h < |s.up|
  {
    match from
    case Some(j) =>
      FrameOf(s, j, h) &&
      ((reply == InternalError && !s.conn.open) ||
       (reply.Value? && j < |s.jobs| && s.jobs[j] == Responded(reply.value)))
    case None =>
      match RouteOf(s.up[h].request)
      case ToClient(_) => reply == SshConnectNotEstablish
      case Shell(_) => reply == Value("null") || reply == InternalError
      case Token => reply == Value(s.token)
      case Unknown => reply == UnknownRequest
  }

  ghost predicate HandlerOk(s: State, h: nat)
    requires h < |s.handlers| <= |s.up|
  {
    match s.handlers[h]
    case Ready => Browser(h) !in s.conn.outcomes
    case Calling(at) =>
      && FrameOf(s, at, h)
      && (Browser(h) in s.conn.outcomes ||
          (s.conn.wire[at].id in s.conn.callbacks && s.conn.callbacks[s.conn.wire[at].id] == Browser(h)))
      && (Browser(h) in s.conn.outcomes && s.conn.outcomes[Browser(h)].Answered? ==>
            at < |s.jobs| && s.jobs[at] == Responded(s.conn.outcomes[Browser(h)].value))
      && (Browser(h) in s.conn.outcomes && s.conn.outcomes[Browser(h)].Canceled? ==> !s.conn.open)
    case Decided(reply, from) => Genuine(s, h, reply, from)
    case Replied(reply, from, place) =>
      Genuine(s, h, reply, from) && place < |s.replies| && s.replies[place] == TaggedReply(s.up[h].tag, reply, h)
  }

  /** An entry of the callback map belongs to the caller that waits for that id. */
  ghost predicate EntryOk(s: State, id: nat)
    requires id in s.conn.callbacks
  {
    match s.conn.callbacks[id]
    case Browser(h) =>
      h < |s.handlers| && s.handlers[h].Calling? && s.handlers[h].at < |s.conn.wire| &&
      s.conn.wire[s.handlers[h].at].id == id && Browser(h) !in s.conn.outcomes
    case Tunnel(k) => k < s.tunnels
  }

  ghost predicate WireOk(conn: Conn, owner: seq<Ticket>) {
    && |owner| == |conn.wire|
    && (forall i :: 0 <= i < |conn.wire| ==> conn.wire[i].id <= conn.requestId)
    && (forall i, j :: 0 <= i < j < |conn.wire| ==> conn.wire[i].id < conn.wire[j].id)
    && (forall id :: id in conn.callbacks ==> id <= conn.requestId)
    && conn.requestId < U64
  }

  /** A handler sends one frame at most. */
  ghost predicate OwnerOk(s: State, j: nat)
    requires j < |s.owner|
  {
    s.owner[j].Browser? ==> s.owner[j].h < |s.handlers| && s.handlers[s.owner[j].h].Frame() == Some(j)
  }

  predicate Delivered(delivered: seq<Delivery>, tag: Tag) {
    exists k :: 0 <= k < |delivered| && delivered[k].tag == tag
  }

  predicate Posted(up: seq<Message>, tag: Tag) { exists i :: 0 <= i < |up| && up[i].tag == tag }

  /** The browser's table holds exactly the tags posted and not yet delivered. */
  ghost predicate TableOk(up: seq<Message>, callbacks: set<Tag>, delivered: seq<Delivery>) {
    && (forall i :: 0 <= i < |up| ==> up[i].tag in callbacks || Delivered(delivered, up[i].tag))
    && (forall t :: t in callbacks ==> Posted(up, t))
  }

  ghost predicate BackOk(s: State, m: nat)
    requires m < |s.back|
  {
    var r := s.back[m];
    r.job < |s.jobs| && r.job < |s.conn.wire| && s.jobs[r.job] == Responded(r.value) && s.conn.wire[r.job].id == r.id
  }

  ghost predicate TagsOk(nextTag: Tag, encoding: map<Tag, seq<Request>>, up: seq<Message>) {
    && (forall t :: t in encoding ==> t < nextTag)
    && (forall i :: 0 <= i < |up| ==> up[i].tag < nextTag && up[i].tag !in encoding)
    && (forall i, j :: 0 <= i < j < |up| ==> up[i].tag != up[j].tag)
  }

  ghost predicate ReplyOk(s: State, i: nat)
    requires i < |s.replies|
  {
    var r := s.replies[i];
    && r.handler < |s.handlers| <= |s.up| && r.tag == s.up[r.handler].tag
    && s.handlers[r.handler].Replied? && s.handlers[r.handler].reply == r.reply && s.handlers[r.handler].place == i
  }

  ghost predicate DeliveredOk(delivered: seq<Delivery>, replies: seq<TaggedReply>, callbacks: set<Tag>) {
    && (forall k :: 0 <= k < |delivered| ==>
          var d := delivered[k];
          d.at < |replies| && replies[d.at].tag == d.tag && replies[d.at].reply == d.reply && d.tag !in callbacks)
    && (forall k, l :: 0 <= k < l < |delivered| ==> delivered[k].tag != delivered[l].tag)
  }

  ghost predicate Inv(s: State) {
    && |s.handlers| <= |s.up| && |s.jobs| <= |s.conn.wire|
    && (forall h :: 0 <= h < |s.handlers| ==> HandlerOk(s, h))
    && (forall id :: id in s.conn.callbacks ==> EntryOk(s, id))
    && (forall m :: 0 <= m < |s.back| ==> BackOk(s, m))
    && (forall i :: 0 <= i < |s.replies| ==> ReplyOk(s, i))
    && (forall h :: |s.handlers| <= h ==> Browser(h) !in s.conn.outcomes)
    && (forall j :: 0 <= j < |s.owner| ==> OwnerOk(s, j))
    && WireOk(s.conn, s.owner) && TagsOk(s.nextTag, s.encoding, s.up)
    && DeliveredOk(s.delivered, s.replies, s.callbacks) && TableOk(s.up, s.callbacks, s.delivered)
  }

  /** The connection is as it was, the logs have grown, and jobs that have responded stay. */
  ghost predicate Grows(s: State, s': State) {
    && s'.conn == s.conn && s'.owner == s.owner && s'.tunnels == s.tunnels && s'.token == s.token
    && s.up <= s'.up && s.back <= s'.back && s.replies <= s'.replies
    && |s.handlers| <= |s'.handlers| <= |s'.up|
    && |s.jobs| <= |s'.jobs|
    && (forall j :: 0 <= j < |s.jobs| && s.jobs[j].Responded? ==> s'.jobs[j] == s.jobs[j])
  }

  /** At most handler `h` has changed, without sending a frame, and nobody refers to it. */
  ghost predicate OnlyHandler(s: State, s': State, h: int) {
    && |s.handlers| <= |s'.handlers|
    && (forall x :: 0 <= x < |s.handlers| && x != h ==> s'.handlers[x] == s.handlers[x])
    && (0 <= h < |s.handlers| ==>
          && !s.handlers[h].Replied? && (s.handlers[h].Calling? ==> Browser(h) in s.conn.outcomes)
          && s'.handlers[h].Frame() == s.handlers[h].Frame())
  }

  /** What a step keeps that only lets the state grow, but for handler `h`. */
  lemma GrowthKeeps(s: State, s': State, h: int)
    requires Inv(s) && Grows(s, s') && OnlyHandler(s, s', h)
    ensures forall x | 0 <= x < |s.handlers| && x != h :: HandlerOk(s', x)
    ensures forall id :: id in s'.conn.callbacks ==> EntryOk(s', id)
    ensures forall m :: 0 <= m < |s.back| ==> BackOk(s', m)
    ensures forall i :: 0 <= i < |s.replies| ==> ReplyOk(s', i)
    ensures forall j :: 0 <= j < |s'.owner| ==> OwnerOk(s', j)
  {
    forall x | 0 <= x < |s.handlers| && x != h ensures HandlerOk(s', x) { assert HandlerOk(s, x); }
    forall id | id in s'.conn.callbacks ensures EntryOk(s', id) { assert EntryOk(s, id); }
    forall m | 0 <= m < |s.back| ensures BackOk(s', m) { assert BackOk(s, m); }
    forall i | 0 <= i < |s.replies| ensures ReplyOk(s', i) { assert ReplyOk(s, i); }
    forall j | 0 <= j < |s'.owner| ensures OwnerOk(s', j) { assert OwnerOk(s, j); }
  }

  lemma BeginKeeps(s: State, request: seq<Request>)
    requires Inv(s) && Enabled(s, Begin(request))
    ensures Inv(Apply(s, Begin(request)))
  {
    GrowthKeeps(s, Apply(s, Begin(request)), -1);
  }

  lemma PostKeeps(s: State, tag: Tag)
    requires Inv(s) && Enabled(s, Post(tag))
    ensures Inv(Apply(s, Post(tag)))
  {
    var s' := Apply(s, Post(tag));
    GrowthKeeps(s, s', -1);
    forall k | 0 <= k < |s.delivered| ensures s.delivered[k].tag != tag {
      assert ReplyOk(s, s.delivered[k].at);
    }
    TablePosted(s.up, s.callbacks, s.delivered, Message(tag, s.encoding[tag]));
  }

  lemma TablePosted(up: seq<Message>, callbacks: set<Tag>, delivered: seq<Delivery>, m: Message)
    requires TableOk(up, callbacks, delivered)
    ensures TableOk(up + [m], callbacks + {m.tag}, delivered)
  {
    var up', callbacks' := up + [m], callbacks + {m.tag};
    forall t | t in callbacks' ensures Posted(up', t) {
      if t == m.tag {
        assert up'[|up|].tag == t;
      } else {
        var k :| 0 <= k < |up| && up[k].tag == t;
        assert up'[k].tag == t;
      }
    }
  }

  lemma ReceiveKeeps(s: State)
    requires Inv(s) && Enabled(s, Receive)
    ensures Inv(Apply(s, Receive))
  {
    GrowthKeeps(s, Apply(s, Receive), -1);
  }

  lemma HandleLocallyKeeps(s: State, h: nat, ok: bool)
    requires Inv(s) && Enabled(s, HandleLocally(h, ok))
    ensures Inv(Apply(s, HandleLocally(h, ok)))
  {
    GrowthKeeps(s, Apply(s, HandleLocally(h, ok)), h);
  }

  lemma CallClientKeeps(s: State, h: nat, accepted: bool)
    requires Inv(s) && Enabled(s, CallClient(h, accepted))
    ensures Inv(Apply(s, CallClient(h, accepted)))
  {
    assert HandlerOk(s, h);
    if s.conn.open && accepted { CallGoesOut(s, h, accepted); } else { CallFails(s, h, accepted); }
  }

  lemma CallFails(s: State, h: nat, accepted: bool)
    requires Inv(s) && Enabled(s, CallClient(h, accepted)) && !(s.conn.open && accepted)
    ensures Inv(Apply(s, CallClient(h, accepted)))
  {
    var s' := Apply(s, CallClient(h, accepted));
    forall x | 0 <= x < |s'.handlers| ensures HandlerOk(s', x) { CallFailsHandler(s, h, accepted, x); }
    forall x | x in s'.conn.callbacks ensures EntryOk(s', x) { CallFailsEntry(s, h, accepted, x); }
    forall x | 0 <= x < |s'.back| ensures BackOk(s', x) { assert BackOk(s, x); }
    forall x | 0 <= x < |s'.replies| ensures ReplyOk(s', x) { assert ReplyOk(s, x); }
    forall x | 0 <= x < |s'.owner| ensures OwnerOk(s', x) { if x < |s.owner| { assert OwnerOk(s, x); } }
  }

  lemma CallFailsHandler(s: State, h: nat, accepted: bool, x: nat)
    requires Inv(s) && Enabled(s, CallClient(h, accepted)) && !(s.conn.open && accepted) && x < |s.handlers|
    ensures HandlerOk(Apply(s, CallClient(h, accepted)), x)
  {
    assert HandlerOk(s, x);
  }

  lemma CallFailsEntry(s: State, h: nat, accepted: bool, x: nat)
    requires Inv(s) && Enabled(s, CallClient(h, accepted)) && !(s.conn.open && accepted)
    requires x in Apply(s, CallClient(h, accepted)).conn.callbacks
    ensures EntryOk(Apply(s, CallClient(h, accepted)), x)
  {
    if x in s.conn.callbacks { assert EntryOk(s, x); }
  }

  lemma CallGoesOut(s: State, h: nat, accepted: bool)
    requires Inv(s) && Enabled(s, CallClient(h, accepted)) && s.conn.open && accepted
    ensures Inv(Apply(s, CallClient(h, accepted)))
  {
    var s' := CallStep(s, h, accepted);
    forall x | 0 <= x < |s'.handlers| ensures HandlerOk(s', x) { CallGoesOutHandler(s, h, accepted, x); }
    forall x | x in s'.conn.callbacks ensures EntryOk(s', x) { CallGoesOutEntry(s, h, accepted, x); }
    forall x | 0 <= x < |s'.owner| ensures OwnerOk(s', x) { CallGoesOutOwner(s, h, accepted, x); }
    CallGoesOutLogs(s, h, accepted);
  }

  lemma CallGoesOutOwner(s: State, h: nat, accepted: bool, x: nat)
    requires Inv(s) && Enabled(s, CallClient(h, accepted)) && s.conn.open && accepted && x <= |s.owner|
    ensures OwnerOk(CallStep(s, h, accepted), x)
  {
    if x < |s.owner| { assert OwnerOk(s, x); }
  }

  lemma CallGoesOutLogs(s: State, h: nat, accepted: bool)
    requires Inv(s) && Enabled(s, CallClient(h, accepted)) && s.conn.open && accepted
    ensures var s' := CallStep(s, h, accepted);
            && WireOk(s'.conn, s'.owner)
            && (forall m :: 0 <= m < |s'.back| ==> BackOk(s', m))
            && (forall i :: 0 <= i < |s'.replies| ==> ReplyOk(s', i))
  {
    var s' := CallStep(s, h, accepted);
    forall m | 0 <= m < |s'.back| ensures BackOk(s', m) { assert BackOk(s, m); }
    forall i | 0 <= i < |s'.replies| ensures ReplyOk(s', i) { assert ReplyOk(s, i); }
  }

  lemma CallGoesOutHandler(s: State, h: nat, accepted: bool, x: nat)
    requires Inv(s) && Enabled(s, CallClient(h, accepted)) && s.conn.open && accepted && x < |s.handlers|
    ensures HandlerOk(Apply(s, CallClient(h, accepted)), x)
  {
    assert HandlerOk(s, x);
  }

  lemma CallGoesOutEntry(s: State, h: nat, accepted: bool, x: nat)
    requires Inv(s) && Enabled(s, CallClient(h, accepted)) && s.conn.open && accepted
    requires x in Apply(s, CallClient(h, accepted)).conn.callbacks
    ensures EntryOk(Apply(s, CallClient(h, accepted)), x)
  {
    assert HandlerOk(s, h);
    if x in s.conn.callbacks { assert EntryOk(s, x); }
  }

  lemma CallTunnelKeeps(s: State, call: Request, accepted: bool)
    requires Inv(s) && Enabled(s, CallTunnel(call, accepted))
    ensures Inv(Apply(s, CallTunnel(call, accepted)))
  {
    var s' := Apply(s, CallTunnel(call, accepted));
    forall x | 0 <= x < |s'.handlers| ensures HandlerOk(s', x) { TunnelHandler(s, call, accepted, x); }
    forall x | x in s'.conn.callbacks ensures EntryOk(s', x) { TunnelEntry(s, call, accepted, x); }
    forall x | 0 <= x < |s'.back| ensures BackOk(s', x) { if x < |s.back| { assert BackOk(s, x); } }
    forall x | 0 <= x < |s'.replies| ensures ReplyOk(s', x) { if x < |s.replies| { assert ReplyOk(s, x); } }
    forall x | 0 <= x < |s'.owner| ensures OwnerOk(s', x) { if x < |s.owner| { assert OwnerOk(s, x); } }
  }

  lemma TunnelHandler(s: State, call: Request, accepted: bool, x: nat)
    requires Inv(s) && Enabled(s, CallTunnel(call, accepted)) && x < |s.handlers|
    ensures HandlerOk(Apply(s, CallTunnel(call, accepted)), x)
  {
    assert HandlerOk(s, x);
  }

  lemma TunnelEntry(s: State, call: Request, accepted: bool, x: nat)
    requires Inv(s) && Enabled(s, CallTunnel(call, accepted))
    requires x in Apply(s, CallTunnel(call, accepted)).conn.callbacks
    ensures EntryOk(Apply(s, CallTunnel(call, accepted)), x)
  {
    if x in s.conn.callbacks { assert EntryOk(s, x); }
  }

  lemma StartJobKeeps(s: State)
    requires Inv(s) && Enabled(s, StartJob)
    ensures Inv(Apply(s, StartJob))
  {
    GrowthKeeps(s, Apply(s, StartJob), -1);
  }

  lemma ComputeKeeps(s: State, j: nat, result: Json)
    requires Inv(s) && Enabled(s, Compute(j, result))
    ensures Inv(Apply(s, Compute(j, result)))
  {
    GrowthKeeps(s, Apply(s, Compute(j, result)), -1);
  }

  lemma RespondKeeps(s: State, j: nat)
    requires Inv(s) && Enabled(s, Respond(j))
    ensures Inv(Apply(s, Respond(j)))
  {
    GrowthKeeps(s, Apply(s, Respond(j)), -1);
  }

  lemma FeedBackKeeps(s: State, m: nat)
    requires Inv(s) && Enabled(s, FeedBack(m))
    ensures Inv(Apply(s, FeedBack(m)))
  {
    var s' := Apply(s, FeedBack(m));
    assert BackOk(s, m);
    if s.back[m].id in s.conn.callbacks { assert EntryOk(s, s.back[m].id); }
    forall x | 0 <= x < |s'.handlers| ensures HandlerOk(s', x) { FedHandler(s, m, x); }
    forall x | x in s'.conn.callbacks ensures EntryOk(s', x) { assert EntryOk(s, x); }
    forall x | 0 <= x < |s'.back| ensures BackOk(s', x) { assert BackOk(s, x); }
    forall x | 0 <= x < |s'.replies| ensures ReplyOk(s', x) { assert ReplyOk(s, x); }
    forall x | 0 <= x < |s'.owner| ensures OwnerOk(s', x) { if x < |s.owner| { assert OwnerOk(s, x); } }
  }

  /** A response fed back resolves only the handler whose frame carries its id, and the
      response comes from the job of that frame. */
  lemma FedHandler(s: State, m: nat, x: nat)
    requires Inv(s) && Enabled(s, FeedBack(m)) && x < |s.handlers|
    ensures HandlerOk(Apply(s, FeedBack(m)), x)
  {
    assert HandlerOk(s, x) && BackOk(s, m);
    var id, j := s.back[m].id, s.back[m].job;
    if id in s.conn.callbacks {
      assert EntryOk(s, id);
      if s.handlers[x].Calling? && s.handlers[x].at != j {
        assert s.conn.wire[s.handlers[x].at].id != s.conn.wire[j].id;
      }
    }
  }

  lemma ResolveKeeps(s: State, h: nat)
    requires Inv(s) && Enabled(s, Resolve(h))
    ensures Inv(Apply(s, Resolve(h)))
  {
    assert HandlerOk(s, h);
    GrowthKeeps(s, Apply(s, Resolve(h)), h);
  }

  lemma DisconnectPeerKeeps(s: State)
    requires Inv(s) && Enabled(s, DisconnectPeer)
    ensures Inv(Apply(s, DisconnectPeer))
  {
    var s' := Apply(s, DisconnectPeer);
    forall x | 0 <= x < |s'.handlers| ensures HandlerOk(s', x) { if x < |s.handlers| { assert HandlerOk(s, x); } }
    forall x | 0 <= x < |s'.back| ensures BackOk(s', x) { if x < |s.back| { assert BackOk(s, x); } }
    forall x | 0 <= x < |s'.replies| ensures ReplyOk(s', x) { if x < |s.replies| { assert ReplyOk(s, x); } }
    forall x | 0 <= x < |s'.owner| ensures OwnerOk(s', x) { if x < |s.owner| { assert OwnerOk(s, x); } }
  }

  lemma SendReplyKeeps(s: State, h: nat)
    requires Inv(s) && Enabled(s, SendReply(h))
    ensures Inv(Apply(s, SendReply(h)))
  {
    assert HandlerOk(s, h);
    GrowthKeeps(s, Apply(s, SendReply(h)), h);
  }

  lemma DeliverKeeps(s: State, i: nat)
    requires Inv(s) && Enabled(s, Deliver(i))
    ensures Inv(Apply(s, Deliver(i)))
  {
    var s' := Apply(s, Deliver(i));
    GrowthKeeps(s, s', -1);
    forall t | Delivered(s.delivered, t) ensures Delivered(s'.delivered, t) {
      var k :| 0 <= k < |s.delivered| && s.delivered[k].tag == t;
      assert s'.delivered[k].tag == t;
    }
    if s.replies[i].tag in s.callbacks { assert s'.delivered[|s.delivered|].tag == s.replies[i].tag; }
  }

  lemma StepKeepsInv(s: State, a: Action)
    requires Inv(s) && Enabled(s, a)
    ensures Inv(Apply(s, a))
  {
    match a
    case Begin(request) => BeginKeeps(s, request);
    case Post(tag) => PostKeeps(s, tag);
    case Receive => ReceiveKeeps(s);
    case HandleLocally(h, ok) => HandleLocallyKeeps(s, h, ok);
    case CallClient(h, accepted) => CallClientKeeps(s, h, accepted);
    case CallTunnel(call, accepted) => CallTunnelKeeps(s, call, accepted);
    case StartJob => StartJobKeeps(s);
    case Compute(j, result) => ComputeKeeps(s, j, result);
    case Respond(j) => RespondKeeps(s, j);
    case FeedBack(m) => FeedBackKeeps(s, m);
    case Resolve(h) => ResolveKeeps(s, h);
    case DisconnectPeer => DisconnectPeerKeeps(s);
    case SendReply(h) => SendReplyKeeps(s, h);
    case Deliver(i) => DeliverKeeps(s, i);
  }

  lemma {:induction false} RunInv(r: seq<State>, i: nat)
    requires Run(r) && i < |r|
    ensures Inv(r[i])
  {
    if i == 0 {
    } else {
      RunInv(r, i - 1);
      assert StepAt(r, i);
      var a :| Enabled(r[i - 1], a) && r[i] == Apply(r[i - 1], a);
      StepKeepsInv(r[i - 1], a);
    }
  }

  // ---------- Main results ----------

  /** The reply that the message at place `h` of the browser's stream is entitled to. A
      request for the client is forwarded as one frame, and what comes back is the result that
      the client's job of that very frame has computed; failing that, an error, which for a
      request that went out means that the client has been disconnected. */
  ghost predicate Entitled(s: State, h: nat, reply: Reply)
    requires h < |s.up|
  {
    match RouteOf(s.up[h].request)
    case ToClient(request) =>
      || reply == SshConnectNotEstablish
      || (exists j ::
            && 0 <= j < |s.conn.wire| && j < |s.owner| && s.owner[j] == Browser(h)
            && s.conn.wire[j].request == request
            && ((reply == InternalError && !s.conn.open) ||
                (j < |s.jobs| && s.jobs[j].Responded? && reply == Value(s.jobs[j].result))))
    case Shell(_) => reply == Value("null") || reply == InternalError
    case Token => reply == Value(s.token)
    case Unknown => reply == UnknownRequest
  }

  /** End-to-end correlation: whatever the order in which handlers, jobs and replies finish,
      a reply delivered for a tag is the one owed to the only message sent with that tag, and
      no tag is delivered twice. */
  lemma EndToEnd(r: seq<State>, i: nat, k: nat)
    requires Run(r) && i < |r| && k < |r[i].delivered|
    ensures exists h :: 0 <= h < |r[i].up| && r[i].up[h].tag == r[i].delivered[k].tag &&
                        Entitled(r[i], h, r[i].delivered[k].reply)
    ensures forall g, h | 0 <= g < h < |r[i].up| :: r[i].up[g].tag != r[i].up[h].tag
    ensures forall l | 0 <= l < |r[i].delivered| && l != k :: r[i].delivered[l].tag != r[i].delivered[k].tag
  {
    var s := r[i];
    RunInv(r, i);
    var d := s.delivered[k];
    assert ReplyOk(s, d.at);
    var h := s.replies[d.at].handler;
    assert HandlerOk(s, h);
    assert Genuine(s, h, d.reply, s.handlers[h].from);
    assert Entitled(s, h, d.reply);
  }

  /** A request of the browser reaches the client at most once: one frame per handler. */
  lemma ForwardedAtMostOnce(r: seq<State>, i: nat, j: nat, l: nat)
    requires Run(r) && i < |r| && j < |r[i].owner| && l < |r[i].owner|
    requires r[i].owner[j].Browser? && r[i].owner[j] == r[i].owner[l]
    ensures j == l
  {
    RunInv(r, i);
    assert OwnerOk(r[i], j) && OwnerOk(r[i], l);
  }

  /** The browser's table: a tag has a callback exactly while it is posted and undelivered. */
  lemma BrowserTable(r: seq<State>, i: nat, tag: Tag)
    requires Run(r) && i < |r|
    ensures tag in r[i].callbacks <==> Posted(r[i].up, tag) && !Delivered(r[i].delivered, tag)
  {
    RunInv(r, i);
    if Posted(r[i].up, tag) {
      var h :| 0 <= h < |r[i].up| && r[i].up[h].tag == tag;
      assert r[i].up[h].tag in r[i].callbacks || Delivered(r[i].delivered, r[i].up[h].tag);
    }
  }

  /** What is forwarded is a member of the browser's request, and never one of the three keys
      that the master reserves. */
  lemma {:induction false} RouteForwards(request: seq<Request>)
    requires RouteOf(request).ToClient?
    ensures RouteOf(request).request in request
    ensures RouteOf(request).request.key !in {"internal", "shell", "token"}
  {
    if request[0].key == "internal" { RouteForwards(request[1..]); }
  }

  /** A browser cannot make the client run the master's internal calls. */
  lemma NoInternalFromBrowser(r: seq<State>, i: nat, j: nat)
    requires Run(r) && i < |r| && j < |r[i].owner| && r[i].owner[j].Browser?
    ensures j < |r[i].conn.wire| && r[i].conn.wire[j].request.key != "internal"
  {
    RunInv(r, i);
    assert OwnerOk(r[i], j);
    var h := r[i].owner[j].h;
    assert HandlerOk(r[i], h);
    RouteForwards(r[i].up[h].request);
  }

  // ---------- What happened in a run ----------

  /** A run together with its steps: `acts[m]` leads from `r[m]` to `r[m + 1]`. */
  ghost predicate Trace(r: seq<State>, acts: seq<Action>) {
    && |r| == |acts| + 1
    && Initial(r[0])
    && forall m :: 0 <= m < |acts| ==> Took(r, acts, m)
  }

  ghost predicate Took(r: seq<State>, acts: seq<Action>, m: nat)
    requires m < |acts| && |r| == |acts| + 1
  {
    Enabled(r[m], acts[m]) && r[m + 1] == Apply(r[m], acts[m])
  }

  lemma TraceIsRun(r: seq<State>, acts: seq<Action>)
    requires Trace(r, acts)
    ensures Run(r)
  {
    forall i | 0 < i < |r| ensures StepAt(r, i) { assert Took(r, acts, i - 1); }
  }

  /** The first `n` steps have a computation of job `j` with that result. */
  ghost predicate WasComputed(acts: seq<Action>, n: nat, j: nat, result: Json)
    requires n <= |acts|
  {
    exists m :: 0 <= m < n && acts[m] == Compute(j, result)
  }

  /** A step gives a job a result only by computing it. */
  lemma ResultStep(s: State, a: Action, j: nat)
    requires Enabled(s, a) && j < |Apply(s, a).jobs| && !Apply(s, a).jobs[j].Running?
    ensures a == Compute(j, Apply(s, a).jobs[j].result) ||
            (j < |s.jobs| && !s.jobs[j].Running? && s.jobs[j].result == Apply(s, a).jobs[j].result)
  {
  }

  lemma {:induction false} ResultComputed(r: seq<State>, acts: seq<Action>, n: nat, j: nat)
    requires Trace(r, acts) && n < |r| && j < |r[n].jobs| && !r[n].jobs[j].Running?
    ensures WasComputed(acts, n, j, r[n].jobs[j].result)
  {
    assert n > 0;
    assert Took(r, acts, n - 1);
    ResultStep(r[n - 1], acts[n - 1], j);
    if acts[n - 1] != Compute(j, r[n].jobs[j].result) { ResultComputed(r, acts, n - 1, j); }
  }

  /** The frame at `j` is the one that the browser's message at `h` was forwarded with, and
      the job of that frame has computed `v`. */
  ghost predicate OwnResult(s: State, acts: seq<Action>, n: nat, h: nat, v: Json)
    requires n <= |acts| && h < |s.up|
  {
    exists j ::
      && 0 <= j < |s.conn.wire| && j < |s.owner| && s.owner[j] == Browser(h)
      && RouteOf(s.up[h].request) == ToClient(s.conn.wire[j].request)
      && WasComputed(acts, n, j, v)
  }

  /** End to end by what happened: a value that the browser gets for a request to the client is
      one that the client has computed for the frame of that very request. */
  lemma DeliveredWasComputed(r: seq<State>, acts: seq<Action>, n: nat, k: nat)
    requires Trace(r, acts) && n < |r| && k < |r[n].delivered| && r[n].delivered[k].reply.Value?
    ensures exists h :: 0 <= h < |r[n].up| && r[n].up[h].tag == r[n].delivered[k].tag &&
                        (RouteOf(r[n].up[h].request).ToClient? ==>
                           OwnResult(r[n], acts, n, h, r[n].delivered[k].reply.value))
  {
    TraceIsRun(r, acts);
    EndToEnd(r, n, k);
    var s, d := r[n], r[n].delivered[k];
    var h :| 0 <= h < |s.up| && s.up[h].tag == d.tag && Entitled(s, h, d.reply);
    if RouteOf(s.up[h].request).ToClient? {
      var j :| 0 <= j < |s.conn.wire| && j < |s.owner| && s.owner[j] == Browser(h) &&
               s.conn.wire[j].request == RouteOf(s.up[h].request).request &&
               j < |s.jobs| && s.jobs[j].Responded? && d.reply == Value(s.jobs[j].result);
      ResultComputed(r, acts, n, j);
    }
  }

  /** The step at which handler `h` has come by its reply, and why it is that one. */
  ghost predicate Reason(s: State, a: Action, h: nat, reply: Reply)
    requires h < |s.up|
  {
    match a
    case HandleLocally(g, ok) =>
      g == h &&
      (match RouteOf(s.up[h].request)
       case Token => reply == Value(s.token)
       case Shell(_) => reply == if ok then Value("null") else InternalError
       case Unknown => reply == UnknownRequest
       case ToClient(_) => false)
    case CallClient(g, accepted) => g == h && reply == SshConnectNotEstablish && !(s.conn.open && accepted)
    case Resolve(g) =>
      g == h && Browser(h) in s.conn.outcomes &&
      reply == (match s.conn.outcomes[Browser(h)] case Answered(v) => Value(v) case Canceled => InternalError)
    case _ => false
  }

  predicate HasReply(p: Handler, reply: Reply) { !p.Ready? && !p.Calling? && p.reply == reply }

  lemma ReasonStep(s: State, a: Action, h: nat, reply: Reply)
    requires Inv(s) && Enabled(s, a) && h < |Apply(s, a).handlers| && HasReply(Apply(s, a).handlers[h], reply)
    ensures h < |s.handlers| && h < |s.up| && Apply(s, a).up[h] == s.up[h]
    ensures HasReply(s.handlers[h], reply) || Reason(s, a, h, reply)
  {
  }

  ghost predicate HadReason(r: seq<State>, acts: seq<Action>, n: nat, h: nat, reply: Reply)
    requires n <= |acts| && |r| == |acts| + 1
  {
    exists m :: 0 <= m < n && h < |r[m].up| && Reason(r[m], acts[m], h, reply)
  }

  lemma {:induction false} ReplyHadReason(r: seq<State>, acts: seq<Action>, n: nat, h: nat, reply: Reply)
    requires Trace(r, acts) && n < |r| && h < |r[n].handlers| && HasReply(r[n].handlers[h], reply)
    ensures HadReason(r, acts, n, h, reply)
  {
    assert n > 0;
    assert Took(r, acts, n - 1);
    TraceIsRun(r, acts);
    RunInv(r, n - 1);
    ReasonStep(r[n - 1], acts[n - 1], h, reply);
    if !Reason(r[n - 1], acts[n - 1], h, reply) { ReplyHadReason(r, acts, n - 1, h, reply); }
  }

  /** No reply without a reason: a reply that the browser gets was decided at a step of the
      handler of its own message, an error because of the failure it stands for. */
  lemma DeliveredHadReason(r: seq<State>, acts: seq<Action>, n: nat, k: nat)
    requires Trace(r, acts) && n < |r| && k < |r[n].delivered|
    ensures exists h :: 0 <= h < |r[n].up| && r[n].up[h].tag == r[n].delivered[k].tag &&
                        HadReason(r, acts, n, h, r[n].delivered[k].reply)
  {
    TraceIsRun(r, acts);
    RunInv(r, n);
    var s, d := r[n], r[n].delivered[k];
    assert ReplyOk(s, d.at);
    var h := s.replies[d.at].handler;
    ReplyHadReason(r, acts, n, h, d.reply);
    assert s.up[h].tag == d.tag;
  }

  // ---------- Every request is answered ----------

  predicate HasResponse(back: seq<Response>, j: nat) { exists m :: 0 <= m < |back| && back[m].job == j }

  /** Nothing is lost: a job that has responded has a response on its way or fed, and what was
      fed or seen is no longer waited for. */
  ghost predicate Lossless(s: State) {
    && (forall j :: 0 <= j < |s.jobs| && s.jobs[j].Responded? ==> HasResponse(s.back, j))
    && (forall m :: m in s.fed && m < |s.back| ==> s.back[m].id !in s.conn.callbacks)
    && (forall i :: i in s.seen && i < |s.replies| ==> s.replies[i].tag !in s.callbacks)
    && (forall m :: m in s.fed ==> m < |s.back|)
    && (forall i :: i in s.seen ==> i < |s.replies|)
  }

  lemma LosslessBack(s: State, a: Action, j: nat)
    requires Lossless(s) && Enabled(s, a) && j < |Apply(s, a).jobs| && Apply(s, a).jobs[j].Responded?
    ensures HasResponse(Apply(s, a).back, j)
  {
    var back := Apply(s, a).back;
    if j < |s.jobs| && s.jobs[j].Responded? {
      var m :| 0 <= m < |s.back| && s.back[m].job == j;
      BackGrows(s, a);
      assert back[m].job == j;
    } else {
      RespondAdds(s, a, j);
    }
  }

  lemma BackGrows(s: State, a: Action)
    requires Enabled(s, a)
    ensures s.back <= Apply(s, a).back && s.replies <= Apply(s, a).replies
  {
  }

  lemma RespondAdds(s: State, a: Action, j: nat)
    requires Enabled(s, a) && j < |Apply(s, a).jobs| && Apply(s, a).jobs[j].Responded?
    requires !(j < |s.jobs| && s.jobs[j].Responded?)
    ensures HasResponse(Apply(s, a).back, j)
  {
    var back := Apply(s, a).back;
    assert a == Respond(j);
    assert back[|s.back|].job == j;
  }

  lemma LosslessFed(s: State, a: Action, m: nat)
    requires Inv(s) && Lossless(s) && Enabled(s, a) && m in Apply(s, a).fed
    ensures m < |Apply(s, a).back| && Apply(s, a).back[m].id !in Apply(s, a).conn.callbacks
  {
    BackGrows(s, a);
    assert m < |s.back|;
    assert BackOk(s, m);
    CallbacksStep(s, a, s.back[m].id);
  }

  /** An id that the counter has passed comes into the callback map no more, and the id of a
      response that is fed leaves it. */
  lemma CallbacksStep(s: State, a: Action, id: nat)
    requires Inv(s) && Enabled(s, a) && id <= s.conn.requestId
    ensures id in Apply(s, a).conn.callbacks ==> id in s.conn.callbacks
    ensures a.FeedBack? && id == s.back[a.m].id ==> id !in Apply(s, a).conn.callbacks
  {
  }

  lemma LosslessSeen(s: State, a: Action, i: nat)
    requires Inv(s) && Lossless(s) && Enabled(s, a) && i in Apply(s, a).seen
    ensures i < |Apply(s, a).replies| && Apply(s, a).replies[i].tag !in Apply(s, a).callbacks
  {
    BackGrows(s, a);
    assert i < |s.replies|;
    assert ReplyOk(s, i);
  }

  lemma StepKeepsLossless(s: State, a: Action)
    requires Inv(s) && Lossless(s) && Enabled(s, a)
    ensures Lossless(Apply(s, a))
  {
    var s' := Apply(s, a);
    forall j | 0 <= j < |s'.jobs| && s'.jobs[j].Responded? ensures HasResponse(s'.back, j) { LosslessBack(s, a, j); }
    forall m | m in s'.fed ensures m < |s'.back| && s'.back[m].id !in s'.conn.callbacks { LosslessFed(s, a, m); }
    forall i | i in s'.seen ensures i < |s'.replies| && s'.replies[i].tag !in s'.callbacks { LosslessSeen(s, a, i); }
  }

  lemma {:induction false} RunLossless(r: seq<State>, i: nat)
    requires Run(r) && i < |r|
    ensures Lossless(r[i])
  {
    if i == 0 {
    } else {
      RunLossless(r, i - 1);
      RunInv(r, i - 1);
      assert StepAt(r, i);
      var a :| Enabled(r[i - 1], a) && r[i] == Apply(r[i - 1], a);
      StepKeepsLossless(r[i - 1], a);
    }
  }

  /** The steps of the system itself; what is left are new requests of the browser, what the
      client's jobs do, the tunnel's calls and the end of the connection. */
  predicate Internal(a: Action) {
    !a.Begin? && !a.Post? && !a.Compute? && !a.CallTunnel? && !a.DisconnectPeer?
  }

  /** No step of the system itself is possible, and no job of the client runs. */
  ghost predicate AtRest(s: State) {
    && (forall a :: Internal(a) ==> !Enabled(s, a))
    && (forall j :: 0 <= j < |s.jobs| ==> !s.jobs[j].Running?)
    && s.conn.requestId + 1 < U64
  }

  /** Every step of the system itself is done by being taken: it is not possible again. */
  lemma StepsAreDone(s: State, a: Action)
    requires Enabled(s, a) && Internal(a) && !a.Receive? && !a.StartJob?
    ensures !Enabled(Apply(s, a), a)
  {
  }

  /** The master takes one message more, the client one call more. */
  lemma StartsAdvance(s: State)
    ensures Enabled(s, Receive) ==> |Apply(s, Receive).handlers| == |s.handlers| + 1
    ensures Enabled(s, StartJob) ==> |Apply(s, StartJob).jobs| == |s.jobs| + 1
  {
  }

  /** A handler that has not replied gives the system something to do. */
  lemma HandlerMoves(s: State, h: nat)
    requires Inv(s) && Lossless(s) && h < |s.handlers| && !s.handlers[h].Replied?
    requires (forall j :: 0 <= j < |s.jobs| ==> !s.jobs[j].Running?) && s.conn.requestId + 1 < U64
    ensures exists a :: Internal(a) && Enabled(s, a)
  {
    assert HandlerOk(s, h);
    match s.handlers[h]
    case Ready =>
      assert Enabled(s, if RouteOf(s.up[h].request).ToClient? then CallClient(h, true) else HandleLocally(h, true));
    case Calling(at) => CallMoves(s, h, at);
    case Decided(_, _) =>
      assert Enabled(s, SendReply(h));
  }

  lemma CallMoves(s: State, h: nat, at: nat)
    requires Inv(s) && Lossless(s) && h < |s.handlers| && s.handlers[h] == Calling(at)
    requires forall j :: 0 <= j < |s.jobs| ==> !s.jobs[j].Running?
    ensures exists a :: Internal(a) && Enabled(s, a)
  {
    assert HandlerOk(s, h);
    if Browser(h) in s.conn.outcomes {
      assert Enabled(s, Resolve(h));
    } else if |s.jobs| < |s.conn.wire| {
      assert Enabled(s, StartJob);
    } else if s.jobs[at].Computed? {
      assert Enabled(s, Respond(at));
    } else {
      var m :| 0 <= m < |s.back| && s.back[m].job == at;
      assert BackOk(s, m);
      assert Enabled(s, FeedBack(m));
    }
  }

  lemma RestReplied(s: State, h: nat)
    requires Inv(s) && Lossless(s) && AtRest(s) && h < |s.handlers|
    ensures s.handlers[h].Replied?
  {
    if !s.handlers[h].Replied? { HandlerMoves(s, h); }
  }

  lemma RestReceived(s: State)
    requires Inv(s) && Lossless(s) && AtRest(s)
    ensures |s.handlers| == |s.up|
  {
    forall h | 0 <= h < |s.handlers| ensures !Unfinished(s.handlers[h]) { RestReplied(s, h); }
    assert (set h | 0 <= h < |s.handlers| && Unfinished(s.handlers[h])) == {};
    assert !Enabled(s, Receive);
  }

  /** Every request is answered: once the system has nothing left to do and the client has
      computed all its results, every message that was sent has had its reply delivered. */
  lemma AllDelivered(r: seq<State>, i: nat, h: nat)
    requires Run(r) && i < |r| && AtRest(r[i]) && h < |r[i].up|
    ensures Delivered(r[i].delivered, r[i].up[h].tag)
  {
    var s := r[i];
    RunInv(r, i);
    RunLossless(r, i);
    RestReceived(s);
    RestReplied(s, h);
    assert HandlerOk(s, h);
    assert !Enabled(s, Deliver(s.handlers[h].place));
  }

  /** The master takes a message whenever one is there and fewer than sixteen are handled. */
  lemma ReceivesWhenFree(s: State)
    ensures Enabled(s, Receive) <==> |s.handlers| < |s.up| && |Busy(s.handlers)| < 16
  {
    assert Busy(s.handlers) == set h | 0 <= h < |s.handlers| && Unfinished(s.handlers[h]);
  }

  /** At most sixteen messages of a browser are handled at a time. */
  lemma {:induction false} AtMostSixteen(r: seq<State>, i: nat)
    requires Run(r) && i < |r|
    ensures |Busy(r[i].handlers)| <= 16
  {
    if i == 0 {
    } else {
      AtMostSixteen(r, i - 1);
      assert StepAt(r, i);
      var a :| Enabled(r[i - 1], a) && r[i] == Apply(r[i - 1], a);
      BusyStep(r[i - 1], a);
    }
  }

  ghost function Busy(handlers: seq<Handler>): set<int> {
    set h | 0 <= h < |handlers| && Unfinished(handlers[h])
  }

  lemma BusyStep(s: State, a: Action)
    requires Enabled(s, a) && |Busy(s.handlers)| <= 16
    ensures |Busy(Apply(s, a).handlers)| <= 16
  {
    var before, after := Busy(s.handlers), Busy(Apply(s, a).handlers);
    if a.Receive? {
      assert before == set h | 0 <= h < |s.handlers| && Unfinished(s.handlers[h]);
      assert after == before + {|s.handlers|};
    } else {
      BusyShrinks(s, a);
      CardSubset(after, before);
    }
  }

  lemma BusyShrinks(s: State, a: Action)
    requires Enabled(s, a) && !a.Receive?
    ensures Busy(Apply(s, a).handlers) <= Busy(s.handlers)
  {
  }

  lemma CardSubset(a: set<int>, b: set<int>)
    requires a <= b
    ensures |a| <= |b|
  {
    assert b == a + (b - a);
  }

  // ---------- The two ends in the master and in the browser ----------

  /** The master's loop over the members of a request object: members called "internal" are
      passed over, and the first other one decides. */
  method BuildRoute(request: seq<Request>) returns (r: Route)
    ensures r == RouteOf(request)
    ensures r.Unknown? <==> forall i :: 0 <= i < |request| ==> request[i].key == "internal"
    ensures forall n | 0 <= n < |request| ::
              request[n].key != "internal" && (forall i :: 0 <= i < n ==> request[i].key == "internal") ==>
                r == if request[n].key == "shell" then Shell(request[n].argument)
                     else if request[n].key == "token" then Token
                     else ToClient(request[n])
  {
    var i := 0;
    while i < |request|
      invariant i <= |request| && RouteOf(request) == RouteOf(request[i..])
      invariant forall k :: 0 <= k < i ==> request[k].key == "internal"
    {
      var (key, argument) := (request[i].key, request[i].argument);
      assert request[i..][1..] == request[i + 1..];
      if key == "internal" {
        i := i + 1;
      } else if key == "shell" {
        return Shell(argument);
      } else if key == "token" {
        return Token;
      } else {
        return ToClient(request[i]);
      }
    }
    r := Unknown;
  }

  /** The browser's tag counter and callback table. */
  class Auth {
    var nextTag: Tag
    var callbacks: set<Tag>
    var delivered: seq<Delivery>

    ghost predicate Agrees(s: State)
      reads this
    {
      nextTag == s.nextTag && callbacks == s.callbacks && delivered == s.delivered
    }

    constructor ()
      ensures nextTag == 0 && callbacks == {} && delivered == []
    {
      nextTag, callbacks, delivered := 0, {}, [];
    }

    /** `rest`, up to the encoding of the message. */
    method TakeTag(request: seq<Request>, ghost s: State) returns (tag: Tag)
      requires Agrees(s) && Enabled(s, Begin(request))
      modifies this
      ensures Agrees(Apply(s, Begin(request)))
      ensures tag in Apply(s, Begin(request)).encoding && Apply(s, Begin(request)).encoding[tag] == request
      ensures tag == old(nextTag) && nextTag == old(nextTag) + 1
      ensures callbacks == old(callbacks) && delivered == old(delivered)
    {
      tag := nextTag;
      nextTag := nextTag + 1;
    }

    /** `rest`, when the message is encoded and sent. */
    method Register(tag: Tag, ghost s: State)
      requires Agrees(s) && Enabled(s, Post(tag))
      modifies this
      ensures Agrees(Apply(s, Post(tag)))
      ensures callbacks == old(callbacks) + {tag} && delivered == old(delivered) && nextTag == old(nextTag)
    {
      callbacks := callbacks + {tag};
    }

    /** The listener: the callback of the tag is taken out of the table and called. */
    method OnMessage(i: nat, reply: TaggedReply, ghost s: State) returns (called: bool)
      requires Agrees(s) && Inv(s) && Enabled(s, Deliver(i)) && s.replies[i] == reply
      modifies this
      ensures Agrees(Apply(s, Deliver(i)))
      ensures called ==> !Delivered(old(delivered), reply.tag)
      ensures called <==> reply.tag in old(callbacks)
      ensures callbacks == old(callbacks) - {reply.tag} && nextTag == old(nextTag)
      ensures delivered == old(delivered) + if called then [Delivery(reply.tag, reply.reply, i)] else []
    {
      called := reply.tag in callbacks;
      callbacks := callbacks - {reply.tag};
      if called { delivered := delivered + [Delivery(reply.tag, reply.reply, i)]; }
    }
  }
}
