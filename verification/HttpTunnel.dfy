/** The two-phase tunnel between a browser's HTTP request and the client's PUT request.

    A tunnel call registers a waiter, asks the client over the websocket to call back with
    the registration id, waits for the client's reply, and then for the PUT. Any PUT from
    the loopback interface may carry any id, and everybody else may use the connection in
    the meantime. */
module HttpTunnel {
  import opened Common
  import opened WebsocketPeer

  type CallId = nat

  datatype TunnelResult =
    | Joined(put: Put)
    | LostInternalClientConnection
    | InternalClientRejectConnection
    | UnknownError

  /** `id` is the registration id of the call. */
  datatype Phase =
    | Registered(id: nat)                // the websocket request is still to be sent
    | Requested(id: nat)                 // waits for the client's reply
    | Approved(id: nat)                  // the client said null; waits for the PUT
    | Giving(id: nat, result: TunnelResult)  // failed, the registration is still to be cancelled
    | Returned(id: nat, result: TunnelResult)

  /** `puts` is history: the id that each PUT carried. */
  datatype State = State(
    registry: Registry,
    conn: Conn,
    calls: map<CallId, Phase>,
    puts: map<Put, nat>)

  datatype Action =
    | Open(k: CallId)
    | Request(k: CallId, argument: Json, accepted: bool)
    | Reply(k: CallId)
    | Cancel(k: CallId)
    | Join(k: CallId)
    | Arrive(p: Put, id: nat)      // a PUT whose peer was found
    | ClearQueue                   // the peer is torn down
    | Others(call: Call)           // any other use of the connection

  ghost predicate Enabled(s: State, a: Action) {
    match a
    case Open(k) => k !in s.calls && s.registry.requestId + 1 < U64
    case Request(k, _, _) => k in s.calls && s.calls[k].Registered? && s.conn.requestId + 1 < U64
    case Reply(k) => k in s.calls && s.calls[k].Requested? && Tunnel(k) in s.conn.outcomes
    case Cancel(k) => k in s.calls && s.calls[k].Giving?
    case Join(k) => k in s.calls && s.calls[k].Approved? && Tunnel(k) in s.registry.outcomes
    case Arrive(p, _) => p !in s.puts
    case ClearQueue => true
    case Others(call) => call.Send? ==> call.ticket.Browser? && s.conn.requestId + 1 < U64
  }

  function SetCall(s: State, k: CallId, p: Phase): State {
    s.(calls := s.calls[k := p])
  }

  ghost function Apply(s: State, a: Action): State
    requires Enabled(s, a)
  {
    match a
    case Open(k) =>
      SetCall(s, k, Phase.Registered(s.registry.requestId)).(
        registry := WebsocketPeer.Registered(s.registry, Tunnel(k)))
    case Request(k, argument, accepted) =>
      var id := s.calls[k].id;
      SetCall(s, k, if s.conn.open && accepted then Requested(id) else Giving(id, LostInternalClientConnection)).(
        conn := Sent(s.conn, WebsocketPeer.Request("internal", argument), Tunnel(k), accepted))
    case Reply(k) =>
      var id := s.calls[k].id;
      SetCall(s, k, if s.conn.outcomes[Tunnel(k)] == Answered("null") then Approved(id)
                    else Giving(id, InternalClientRejectConnection))
    case Cancel(k) =>
      SetCall(s, k, Returned(s.calls[k].id, s.calls[k].result)).(
        registry := Unregistered(s.registry, s.calls[k].id))
    case Join(k) =>
      var id := s.calls[k].id;
      SetCall(s, k, match s.registry.outcomes[Tunnel(k)]
                    case Answered(p) => Returned(id, Joined(p))
                    case Canceled => Returned(id, UnknownError))
    case Arrive(p, id) => s.(registry := PutFed(s.registry, id, p), puts := s.puts[p := id])
    case ClearQueue => s.(registry := Cleared(s.registry))
    case Others(call) => s.(conn := Do(s.conn, call))
  }

  ghost predicate Initial(s: State) {
    s.registry == NewRegistry() && s.conn == NewConn() && s.calls == map[] && s.puts == map[]
  }

  ghost predicate Next(s: State, s': State) {
    exists a :: Enabled(s, a) && s' == Apply(s, a)
  }

  ghost predicate StepAt(r: seq<State>, i: int)
    requires 0 < i < |r|
  {
    Next(r[i - 1], r[i])
  }

  ghost predicate Run(r: seq<State>) {
    && |r| > 0
    && Initial(r[0])
    && forall i :: 0 < i < |r| ==> StepAt(r, i)
  }

  // ---------- Invariant ----------

  /** What holds of one call: its registration is either still queued for it or used up, and
      a PUT it got carried its own id. */
  ghost predicate CallOk(s: State, k: CallId)
    requires k in s.calls
  {
    var id, t := s.calls[k].id, Tunnel(k);
    && id < s.registry.requestId
    && (id in s.registry.queue && s.registry.queue[id] == t <==> t !in s.registry.outcomes)
    && (t in s.registry.outcomes ==> id !in s.registry.queue)
    && (t in s.registry.outcomes && s.registry.outcomes[t].Answered? ==>
          s.registry.outcomes[t].value in s.puts && s.puts[s.registry.outcomes[t].value] == id)
    && (s.calls[k].Giving? ==> !s.calls[k].result.Joined?)
    && (s.calls[k].Returned? ==> t in s.registry.outcomes)
    && (s.calls[k].Returned? && s.calls[k].result.Joined? ==>
          s.registry.outcomes[t] == Answered(s.calls[k].result.put))
  }

  ghost predicate QueueOk(s: State, id: nat)
    requires id in s.registry.queue
  {
    var t := s.registry.queue[id];
    t.Tunnel? && t.k in s.calls && s.calls[t.k].id == id
  }

  ghost predicate Inv(s: State) {
    && (forall k :: k in s.calls ==> CallOk(s, k))
    && (forall id :: id in s.registry.queue ==> QueueOk(s, id))
    && (forall id :: id in s.registry.queue ==> id < s.registry.requestId)
    && (forall k, l | k in s.calls && l in s.calls :: s.calls[k].id == s.calls[l].id ==> k == l)
    && (forall t :: t in s.registry.outcomes ==> t.Tunnel? && t.k in s.calls)
    && s.registry.requestId < U64
  }

  lemma StepKeepsInv(s: State, a: Action)
    requires Inv(s) && Enabled(s, a)
    ensures Inv(Apply(s, a))
  {
    var s' := Apply(s, a);
    if a.Arrive? && a.id in s.registry.queue { assert QueueOk(s, a.id); }
    forall k | k in s'.calls ensures CallOk(s', k) { CallStep(s, a, k); }
    forall id | id in s'.registry.queue ensures QueueOk(s', id) && id < s'.registry.requestId {
      QueueStep(s, a, id);
    }
    forall k, l | k in s'.calls && l in s'.calls && s'.calls[k].id == s'.calls[l].id ensures k == l {
      IdStep(s, a, k, l);
    }
    forall t | t in s'.registry.outcomes ensures t.Tunnel? && t.k in s'.calls { OutcomeOwner(s, a, t); }
  }

  /** The actions that do not touch the registry. */
  predicate OfConnection(a: Action) { a.Request? || a.Reply? || a.Join? || a.Others? }

  /** They keep the calls and the ids of the calls. */
  lemma RegistryKept(s: State, a: Action)
    requires Enabled(s, a) && OfConnection(a)
    ensures Apply(s, a).registry == s.registry && Apply(s, a).puts == s.puts
    ensures Apply(s, a).calls.Keys == s.calls.Keys
    ensures forall k :: k in s.calls ==> Apply(s, a).calls[k].id == s.calls[k].id
  {
  }

  lemma QueueStep(s: State, a: Action, id: nat)
    requires Inv(s) && Enabled(s, a) && id in Apply(s, a).registry.queue
    ensures QueueOk(Apply(s, a), id) && id < Apply(s, a).registry.requestId
  {
    if id in s.registry.queue { assert QueueOk(s, id); }
    if OfConnection(a) { RegistryKept(s, a); }
  }

  lemma IdStep(s: State, a: Action, k: CallId, l: CallId)
    requires Inv(s) && Enabled(s, a) && k in Apply(s, a).calls && l in Apply(s, a).calls
    requires Apply(s, a).calls[k].id == Apply(s, a).calls[l].id
    ensures k == l
  {
    if k in s.calls { assert CallOk(s, k); }
    if l in s.calls { assert CallOk(s, l); }
  }

  lemma OutcomeOwner(s: State, a: Action, t: Ticket)
    requires Inv(s) && Enabled(s, a) && t in Apply(s, a).registry.outcomes
    ensures t.Tunnel? && t.k in Apply(s, a).calls
  {
  }

  lemma CallStep(s: State, a: Action, k: CallId)
    requires Inv(s) && Enabled(s, a) && k in Apply(s, a).calls
    ensures CallOk(Apply(s, a), k)
  {
    if k in s.calls {
      assert CallOk(s, k);
      if s.calls[k].id in s.registry.queue { assert QueueOk(s, s.calls[k].id); }
      match a
      case Request(l, argument, accepted) => ConnectionStep(s, a, k);
      case Reply(l) => ConnectionStep(s, a, k);
      case Join(l) => ConnectionStep(s, a, k);
      case Others(_) => ConnectionStep(s, a, k);
      case Cancel(l) => CancelStep(s, l, k);
      case Arrive(_, i) => if i in s.registry.queue { assert QueueOk(s, i); }
      case ClearQueue => ClearStep(s, k);
      case _ =>
    }
  }

  lemma ConnectionStep(s: State, a: Action, k: CallId)
    requires Inv(s) && Enabled(s, a) && OfConnection(a) && k in s.calls
    ensures CallOk(Apply(s, a), k)
  {
    assert CallOk(s, k);
    RegistryKept(s, a);
  }

  lemma CancelStep(s: State, l: CallId, k: CallId)
    requires Inv(s) && Enabled(s, Cancel(l)) && k in s.calls
    ensures CallOk(Apply(s, Cancel(l)), k)
  {
    assert CallOk(s, k) && CallOk(s, l);
    if s.calls[l].id in s.registry.queue {
      assert QueueOk(s, s.calls[l].id);
      assert s.registry.queue[s.calls[l].id] == Tunnel(l);
    }
  }

  lemma ClearStep(s: State, k: CallId)
    requires Inv(s) && k in s.calls
    ensures CallOk(Apply(s, ClearQueue), k)
  {
  }

  lemma {:induction false} RunInv(r: seq<State>, i: nat)
    requires Run(r) && i < |r|
    ensures Inv(r[i])
  {
    if i == 0 {
    } else {
      RunInv(r, i - 1);
      assert StepAt(r, i);
      var a :| Enabled(r[i - 1], a) && r[i] == Apply(r[i - 1], a);
      StepKeepsInv(r[i - 1], a);
    }
  }

  // ---------- Main results ----------

  /** Pairing: a call is joined only with a PUT that carried its own registration id, and no
      PUT is joined with two calls. */
  lemma Pairing(r: seq<State>, i: nat, k: CallId)
    requires Run(r) && i < |r| && k in r[i].calls
    requires r[i].calls[k].Returned? && r[i].calls[k].result.Joined?
    ensures r[i].calls[k].result.put in r[i].puts && r[i].puts[r[i].calls[k].result.put] == r[i].calls[k].id
    ensures forall l :: l in r[i].calls && r[i].calls[l].Returned? && r[i].calls[l].result == r[i].calls[k].result ==>
              l == k
  {
    RunInv(r, i);
    assert CallOk(r[i], k);
    forall l | l in r[i].calls && r[i].calls[l].Returned? && r[i].calls[l].result == r[i].calls[k].result
      ensures l == k
    {
      assert CallOk(r[i], l);
    }
  }

  /** No leak: whenever a call has returned, by whichever exit, its id is no longer queued;
      every queued id belongs to a call in progress, and different calls have different ids. */
  lemma NoLeak(r: seq<State>, i: nat)
    requires Run(r) && i < |r|
    ensures forall k :: k in r[i].calls && r[i].calls[k].Returned? ==> r[i].calls[k].id !in r[i].registry.queue
    ensures forall id :: id in r[i].registry.queue ==>
              exists k :: k in r[i].calls && r[i].calls[k].id == id && !r[i].calls[k].Returned?
    ensures forall k, l | k in r[i].calls && l in r[i].calls :: r[i].calls[k].id == r[i].calls[l].id ==> k == l
  {
    var s := r[i];
    RunInv(r, i);
    forall k | k in s.calls && s.calls[k].Returned? ensures s.calls[k].id !in s.registry.queue {
      assert CallOk(s, k);
    }
    forall id | id in s.registry.queue
      ensures exists k :: k in s.calls && s.calls[k].id == id && !s.calls[k].Returned?
    {
      assert QueueOk(s, id);
      assert CallOk(s, s.registry.queue[id].k);
    }
  }

  /** A registration is consumed at most once: what its waiter got stays what it is. */
  lemma {:induction false} ConsumedOnce(r: seq<State>, i: nat, j: nat, t: Ticket)
    requires Run(r) && i <= j < |r| && t in r[i].registry.outcomes
    ensures t in r[j].registry.outcomes && r[j].registry.outcomes[t] == r[i].registry.outcomes[t]
  {
    if i < j {
      ConsumedOnce(r, i, j - 1, t);
      OutcomeKept(r, j, t);
    }
  }

  lemma OutcomeKept(r: seq<State>, j: nat, t: Ticket)
    requires Run(r) && 0 < j < |r| && t in r[j - 1].registry.outcomes
    ensures SameOutcome(r[j - 1].registry, r[j].registry, t)
  {
    RunInv(r, j - 1);
    assert StepAt(r, j);
    NextKeepsOutcome(r[j - 1], r[j], t);
  }

  predicate SameOutcome(before: Registry, after: Registry, t: Ticket) {
    t in before.outcomes && t in after.outcomes && after.outcomes[t] == before.outcomes[t]
  }

  lemma NextKeepsOutcome(s: State, s': State, t: Ticket)
    requires Inv(s) && Next(s, s') && t in s.registry.outcomes
    ensures SameOutcome(s.registry, s'.registry, t)
  {
    var a :| Enabled(s, a) && s' == Apply(s, a);
    StepKeepsOutcome(s, a, t);
  }

  lemma StepKeepsOutcome(s: State, a: Action, t: Ticket)
    requires Inv(s) && Enabled(s, a) && t in s.registry.outcomes
    ensures SameOutcome(s.registry, Apply(s, a).registry, t)
  {
  }

  // ---------- What happened in a run ----------

  /** A run together with its steps: `acts[m]` leads from `r[m]` to `r[m + 1]`. */
  ghost predicate Trace(r: seq<State>, acts: seq<Action>) {
    && |r| == |acts| + 1
    && Initial(r[0])
    && forall m :: 0 <= m < |acts| ==> Took(r, acts, m)
  }

  ghost predicate Took(r: seq<State>, acts: seq<Action>, m: nat)
    requires m < |acts| && |r| == |acts| + 1
  {
    Enabled(r[m], acts[m]) && r[m + 1] == Apply(r[m], acts[m])
  }

  /** The step at which the call takes its exit, and why it is that one. */
  ghost predicate Exits(s: State, a: Action, k: CallId, result: TunnelResult) {
    match a
    case Request(l, _, accepted) => l == k && result == LostInternalClientConnection && !(s.conn.open && accepted)
    case Reply(l) =>
      l == k && result == InternalClientRejectConnection &&
      Tunnel(k) in s.conn.outcomes && s.conn.outcomes[Tunnel(k)] != Answered("null")
    case Join(l) =>
      l == k && Tunnel(k) in s.registry.outcomes &&
      result == (match s.registry.outcomes[Tunnel(k)]
                 case Answered(p) => Joined(p)
                 case Canceled => UnknownError)
    case _ => false
  }

  predicate Decided(p: Phase, result: TunnelResult) { (p.Giving? || p.Returned?) && p.result == result }

  lemma ExitStep(s: State, a: Action, k: CallId, result: TunnelResult)
    requires Enabled(s, a) && k in Apply(s, a).calls && Decided(Apply(s, a).calls[k], result)
    ensures Exits(s, a, k, result) || (k in s.calls && Decided(s.calls[k], result))
  {
  }

  /** Every exit has its reason: the websocket request could not be sent, or the client's reply
      was not null, or the waiter for the PUT got it or an error. */
  lemma {:induction false} ExitReason(r: seq<State>, acts: seq<Action>, n: nat, k: CallId, result: TunnelResult)
    requires Trace(r, acts) && n < |r| && k in r[n].calls && Decided(r[n].calls[k], result)
    ensures exists m :: 0 <= m < n && Exits(r[m], acts[m], k, result)
  {
    assert n > 0;
    assert Took(r, acts, n - 1);
    ExitStep(r[n - 1], acts[n - 1], k, result);
    if !Exits(r[n - 1], acts[n - 1], k, result) { ExitReason(r, acts, n - 1, k, result); }
  }

  /** The client's reply to call `k`, at this step, is null. */
  ghost predicate Approves(s: State, a: Action, k: CallId) {
    a == Reply(k) && Tunnel(k) in s.conn.outcomes && s.conn.outcomes[Tunnel(k)] == Answered("null")
  }

  lemma ApprovedStep(s: State, a: Action, k: CallId)
    requires Enabled(s, a) && k in Apply(s, a).calls && Apply(s, a).calls[k].Approved?
    ensures Approves(s, a, k) || (k in s.calls && s.calls[k].Approved?)
  {
  }

  /** A call waits for its PUT, and can be joined with it, only if the client has said null. */
  lemma {:induction false} ApprovedByNull(r: seq<State>, acts: seq<Action>, n: nat, k: CallId)
    requires Trace(r, acts) && n < |r| && k in r[n].calls && r[n].calls[k].Approved?
    ensures exists m :: 0 <= m < n && Approves(r[m], acts[m], k)
  {
    assert n > 0;
    assert Took(r, acts, n - 1);
    ApprovedStep(r[n - 1], acts[n - 1], k);
    if !Approves(r[n - 1], acts[n - 1], k) { ApprovedByNull(r, acts, n - 1, k); }
  }

  /** A PUT reaches the call that is queued under its id. */
  lemma PutReaches(s: State, p: Put, id: nat)
    requires Enabled(s, Arrive(p, id)) && id in s.registry.queue
    ensures var s' := Apply(s, Arrive(p, id));
            && s.registry.queue[id] in s'.registry.outcomes
            && s'.registry.outcomes[s.registry.queue[id]] == Answered(p)
            && id !in s'.registry.queue && s'.puts == s.puts[p := id]
  {
  }

  /** The teardown resolves every call that is queued with an error. */
  lemma TeardownResolves(s: State)
    ensures var s' := Apply(s, ClearQueue);
            && s'.registry.queue == map[] && s'.calls == s.calls && s'.conn == s.conn
            && forall id :: id in s.registry.queue ==>
                 s.registry.queue[id] in s'.registry.outcomes &&
                 s'.registry.outcomes[s.registry.queue[id]] == Canceled
  {
  }

  predicate OwnStep(a: Action, k: CallId) {
    (a.Request? && a.k == k) || a == Reply(k) || a == Cancel(k) || a == Join(k)
  }

  /** How far a call has come. */
  function Stage(p: Phase): nat {
    match p
    case Registered(_) => 0
    case Requested(_) => 1
    case Approved(_) => 2
    case Giving(_, _) => 3
    case Returned(_, _) => 4
  }

  /** Every step of a call takes it forward, and nothing else touches it. */
  lemma CallsAdvance(s: State, a: Action, k: CallId)
    requires Enabled(s, a) && k in s.calls
    ensures k in Apply(s, a).calls && Apply(s, a).calls[k].id == s.calls[k].id
    ensures if OwnStep(a, k) then Stage(Apply(s, a).calls[k]) > Stage(s.calls[k])
            else Apply(s, a).calls[k] == s.calls[k]
  {
  }

  /** A call that cannot go on has returned, or waits for the client's reply or for its PUT. */
  lemma StuckCalls(s: State, k: CallId)
    requires k in s.calls && s.conn.requestId + 1 < U64 && forall a :: OwnStep(a, k) ==> !Enabled(s, a)
    ensures || s.calls[k].Returned?
            || (s.calls[k].Requested? && Tunnel(k) !in s.conn.outcomes)
            || (s.calls[k].Approved? && Tunnel(k) !in s.registry.outcomes)
  {
    assert !Enabled(s, Action.Request(k, "", true)) && !Enabled(s, Reply(k)) && !Enabled(s, Cancel(k));
    assert !Enabled(s, Join(k));
  }
}
